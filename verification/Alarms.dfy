/**
 The gateway's alarm table (gateway/src/model.rs): raise, clear and acknowledge, the
 containment of a device's alarms while the device is unreachable, and the `alarms` frame.
 */
module Alarms {
  import opened Basics
  import opened Fleet

  const MAX_ALARMS: nat := 2000
  const MAX_HISTORY: nat := 500

  datatype Level = CRITICAL | ERROR | WARNING | INFO | DEBUG

  datatype AlarmId = AlarmId(key: Key, ty: string)

  datatype Alarm = Alarm(
    severity: Level, message: Option<string>, raisedAt: nat, lastAt: nat, count: nat,
    acked: bool, contained: bool, channel: Option<string>)

  datatype Resolved = Resolved(id: AlarmId, alarm: Alarm, resolvedAt: nat)

  datatype Table = Table(alarms: map<AlarmId, Alarm>, contained: set<string>, history: seq<Resolved>, dropped: nat)

  /** What the fold reads from an event message: severity token, alarm type, `active` flag. */
  datatype Reading = Reading(level: Option<Level>, ty: string, active: Option<bool>, message: Option<string>, channel: Option<string>)

  datatype Counts = Counts(critical: nat, warning: nat, active: nat, contained: nat, acked: nat)

  // ------------------------------------------------------------------ the operations

  function Raise(t: Table, id: AlarmId, r: Reading, level: Level, at: nat): (Table, bool) {
    if id in t.alarms then
      (t.(alarms := t.alarms[id := t.alarms[id].(
        count := t.alarms[id].count + 1, lastAt := at, severity := level, message := r.message, channel := r.channel)]), true)
    else if |t.alarms| >= MAX_ALARMS then (t.(dropped := t.dropped + 1), false)
    else
      (t.(alarms := t.alarms[id := Alarm(level, r.message, at, at, 1, false, id.key.device in t.contained, r.channel)]), true)
  }

  function Clear(t: Table, id: AlarmId, resolvedAt: nat): (Table, bool) {
    if id !in t.alarms then (t, false)
    else
      (t.(alarms := t.alarms - {id},
          history := Newest(t.history + [Resolved(id, t.alarms[id], resolvedAt)], MAX_HISTORY)), true)
  }

  function Flip(alarms: map<AlarmId, Alarm>, device: string, contained: bool): map<AlarmId, Alarm> {
    map id <- alarms :: if id.key.device == device then alarms[id].(contained := contained) else alarms[id]
  }

  function SetContainment(t: Table, device: string, contained: bool): (Table, bool) {
    (t.(contained := if contained then t.contained + {device} else t.contained - {device},
        alarms := Flip(t.alarms, device, contained)),
     exists id <- t.alarms :: id.key.device == device && t.alarms[id].contained != contained)
  }

  function Ack(t: Table, id: AlarmId): (Table, bool) {
    if id !in t.alarms || t.alarms[id].acked then (t, false)
    else (t.(alarms := t.alarms[id := t.alarms[id].(acked := true)]), true)
  }

  /** An event raises on a critical, error or warning level, unless it says it is not active. */
  function AlarmEvent(t: Table, key: Key, r: Reading, at: nat, wall: nat): (Table, bool) {
    var id := AlarmId(key, r.ty);
    if r.active == Some(false) then Clear(t, id, wall)
    else if r.level.Some? && r.level.value in {CRITICAL, ERROR, WARNING} then Raise(t, id, r, r.level.value, at)
    else Clear(t, id, wall)
  }

  /** The alarm half of one message: containment follows the fleet's transition, then an event
      may raise or clear; each changed table is published. */
  function IngestAlarms(t: Table, e: Event, r: Reading, transition: Option<bool>, wall: nat): (Table, seq<Table>) {
    var (t1, flipped) := if transition.Some? then SetContainment(t, e.key.device, transition.value) else (t, false);
    var (t2, changed) := if e.cls == Evt then AlarmEvent(t1, e.key, r, e.at, wall) else (t1, false);
    (t2, (if flipped then [t1] else []) + (if changed then [t2] else []))
  }

  // ------------------------------------------------------------------ containment

  predicate IsDown(f: Devices, d: string) {
    d in f && f[d].unreachable
  }

  /** Exactly the alarms of unreachable devices are contained. */
  ghost predicate ContainmentAgrees(f: Devices, t: Table) {
    && (forall d :: d in t.contained <==> IsDown(f, d))
    && (forall id <- t.alarms :: t.alarms[id].contained <==> id.key.device in t.contained)
    && |t.alarms| <= 2000 && |t.history| <= 500
  }

  lemma IngestDown(f: Devices, e: Event, cfg: Config, d: string)
    ensures var out := IngestFleet(f, e, cfg);
            IsDown(out.devices, d) <==> if d == e.key.device && out.transition.Some? then out.transition.value else IsDown(f, d)
  {
  }

  lemma FlipSize(alarms: map<AlarmId, Alarm>, device: string, contained: bool)
    ensures |Flip(alarms, device, contained)| == |alarms|
  {
    assert Flip(alarms, device, contained).Keys == alarms.Keys;
    assert |alarms| == |alarms.Keys| && |Flip(alarms, device, contained)| == |Flip(alarms, device, contained).Keys|;
  }

  /** A change is reported exactly when the table changed. */
  lemma FlipChanges(t: Table, device: string, contained: bool)
    ensures SetContainment(t, device, contained).1 <==> SetContainment(t, device, contained).0.alarms != t.alarms
  {
    var alarms := Flip(t.alarms, device, contained);
    if SetContainment(t, device, contained).1 {
      var id :| id in t.alarms && id.key.device == device && t.alarms[id].contained != contained;
      assert alarms[id] != t.alarms[id];
    } else {
      assert forall id <- t.alarms :: alarms[id] == t.alarms[id];
    }
  }

  lemma AlarmEventKeeps(f: Devices, t: Table, key: Key, r: Reading, at: nat, wall: nat)
    requires ContainmentAgrees(f, t)
    ensures var (t', changed) := AlarmEvent(t, key, r, at, wall);
            && ContainmentAgrees(f, t') && t'.contained == t.contained
            && (changed <==> t'.alarms != t.alarms)
  {
    var id := AlarmId(key, r.ty);
    var (t', changed) := AlarmEvent(t, key, r, at, wall);
    if id in t.alarms {
      assert id in t'.alarms ==> t'.alarms[id].count == t.alarms[id].count + 1;
      assert (t.alarms - {id}).Keys == t.alarms.Keys - {id};
      assert |t.alarms| == |t.alarms.Keys| && |t.alarms - {id}| == |(t.alarms - {id}).Keys|;
    }
  }

  /** Only a keepalive moves a device in or out of an outage, and it is no event message. */
  lemma TransitionIsState(f: Devices, e: Event, cfg: Config)
    ensures IngestFleet(f, e, cfg).transition.Some? ==> e.cls == State
  {
  }

  /** The fleet half: containment follows the device. */
  lemma TransitionContains(f: Devices, t: Table, e: Event, cfg: Config)
    requires ContainmentAgrees(f, t)
    ensures var out := IngestFleet(f, e, cfg);
            ContainmentAgrees(out.devices,
              if out.transition.Some? then SetContainment(t, e.key.device, out.transition.value).0 else t)
  {
    var out := IngestFleet(f, e, cfg);
    forall d ensures IsDown(out.devices, d) <==>
      if d == e.key.device && out.transition.Some? then out.transition.value else IsDown(f, d)
    {
      IngestDown(f, e, cfg, d);
    }
    hide IngestFleet, IsDown, Flip;
    if out.transition.Some? {
      FlipKeeps(f, out.devices, t, e.key.device, out.transition.value);
    }
  }

  /** One message, whatever it is: containment still agrees with the new fleet, and one `alarms`
      frame goes out exactly when the table changed, showing the table it ends with. */
  lemma IngestContains(f: Devices, t: Table, e: Event, r: Reading, wall: nat, cfg: Config)
    requires ContainmentAgrees(f, t)
    ensures var out := IngestFleet(f, e, cfg);
            var (t', frames) := IngestAlarms(t, e, r, out.transition, wall);
            && ContainmentAgrees(out.devices, t')
            && frames == if t'.alarms != t.alarms then [t'] else []
  {
    var out := IngestFleet(f, e, cfg);
    TransitionContains(f, t, e, cfg);
    TransitionIsState(f, e, cfg);
    hide IngestFleet, ContainmentAgrees, AlarmEvent, Flip;
    if out.transition.Some? {
      FlipChanges(t, e.key.device, out.transition.value);
    } else {
      AlarmEventKeeps(out.devices, t, e.key, r, e.at, wall);
    }
  }

  lemma FlipKeeps(f: Devices, f': Devices, t: Table, device: string, down: bool)
    requires ContainmentAgrees(f, t)
    requires forall d :: IsDown(f', d) <==> if d == device then down else IsDown(f, d)
    ensures ContainmentAgrees(f', SetContainment(t, device, down).0)
  {
    FlipSize(t.alarms, device, down);
    hide IsDown;
  }

  /** A sweep moves no device in or out of an outage. */
  lemma {:induction false} SweepContains(f: Devices, t: Table, order: seq<Key>, now: nat, cfg: Config)
    requires ContainmentAgrees(f, t) && forall k <- order :: Known(f, k)
    ensures ContainmentAgrees(Sweep(f, order, now, cfg).0, t)
    decreases |order|
  {
    if order != [] {
      var k := order[0];
      var step := SweepComponent(Get(f, k), k, f[k.device].unreachable, now, cfg);
      var f1 := PutComponent(f, k, step.component);
      assert forall d :: IsDown(f1, d) <==> IsDown(f, d);
      SweepContains(f1, t, order[1..], now, cfg);
    }
  }

  lemma AckContains(f: Devices, t: Table, id: AlarmId)
    requires ContainmentAgrees(f, t)
    ensures var (t', changed) := Ack(t, id);
            ContainmentAgrees(f, t') && (changed <==> t'.alarms != t.alarms)
  {
    if id in t.alarms {
      assert t.alarms[id := t.alarms[id].(acked := true)].Keys == t.alarms.Keys;
      assert |t.alarms| == |t.alarms.Keys|;
    }
  }

  // ------------------------------------------------------------------ every reachable state

  datatype Action = Message(event: Event, reading: Reading, wall: nat) | SweepAll(order: seq<Key>, now: nat) | Acknowledge(id: AlarmId)

  function Run(actions: seq<Action>, cfg: Config): Option<(Devices, Table)>
    decreases |actions|
  {
    if actions == [] then Some((map[], Table(map[], {}, [], 0)))
    else
      var before := Run(actions[..|actions| - 1], cfg);
      if before.None? then None
      else
        var (f, t) := before.value;
        match actions[|actions| - 1]
        case Message(e, r, wall) =>
          var out := IngestFleet(f, e, cfg);
          Some((out.devices, IngestAlarms(t, e, r, out.transition, wall).0))
        case SweepAll(order, now) =>
          if forall k <- order :: Known(f, k) then Some((Sweep(f, order, now, cfg).0, t)) else None
        case Acknowledge(id) => Some((f, Ack(t, id).0))
  }

  /** In every reachable state the contained alarms are exactly those of unreachable devices. */
  lemma {:induction false} ContainmentAlwaysAgrees(actions: seq<Action>, cfg: Config)
    requires Run(actions, cfg).Some?
    ensures var (f, t) := Run(actions, cfg).value; ContainmentAgrees(f, t)
    decreases |actions|
  {
    if actions != [] {
      var (f, t) := Run(actions[..|actions| - 1], cfg).value;
      ContainmentAlwaysAgrees(actions[..|actions| - 1], cfg);
      hide ContainmentAgrees, IngestFleet, IngestAlarms, Sweep, Ack;
      match actions[|actions| - 1] {
        case Message(e, r, wall) => IngestContains(f, t, e, r, wall, cfg);
        case SweepAll(order, now) => SweepContains(f, t, order, now, cfg);
        case Acknowledge(id) => AckContains(f, t, id);
      }
    }
  }

  // ------------------------------------------------------------------ the counts

  function Contained(alarms: map<AlarmId, Alarm>): set<AlarmId> {
    set id <- alarms | alarms[id].contained
  }

  function Active(alarms: map<AlarmId, Alarm>): set<AlarmId> {
    set id <- alarms | !alarms[id].contained
  }

  function Critical(alarms: map<AlarmId, Alarm>): set<AlarmId> {
    set id <- Active(alarms) | alarms[id].severity == CRITICAL
  }

  function Acked(alarms: map<AlarmId, Alarm>): set<AlarmId> {
    set id <- Active(alarms) | alarms[id].acked
  }

  function CountsOf(alarms: map<AlarmId, Alarm>): Counts {
    Counts(|Critical(alarms)|, |Active(alarms) - Critical(alarms)|, |Active(alarms)|, |Contained(alarms)|, |Acked(alarms)|)
  }

  lemma SplitSize(part: set<AlarmId>, whole: set<AlarmId>)
    requires part <= whole
    ensures |part| + |whole - part| == |whole|
  {
    assert whole == part + (whole - part);
  }

  /** The counts partition the table. */
  lemma CountsPartition(alarms: map<AlarmId, Alarm>)
    ensures var c := CountsOf(alarms);
            c.critical + c.warning == c.active && c.active + c.contained == |alarms| && c.acked <= c.active
  {
    SplitSize(Critical(alarms), Active(alarms));
    SplitSize(Active(alarms), alarms.Keys);
    SplitSize(Acked(alarms), Active(alarms));
    assert alarms.Keys - Active(alarms) == Contained(alarms);
    assert |alarms| == |alarms.Keys|;
  }
}
