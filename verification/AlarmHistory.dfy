/**
 The alarm table in terms of everything heard (gateway/src/model.rs `ingest_alarm_event`): which
 alarms stand, what each shows, which were refused, and what the resolved history holds.
 */
module AlarmHistory {
  import opened Basics
  import Fleet
  import opened Alarms

  /** What concerns the table: an event message, with the wall reading a clear would show, or an
      acknowledgement. */
  datatype Act = Heard(id: AlarmId, r: Reading, at: nat, wall: nat) | Acked(id: AlarmId)

  function ActsOf(a: Action): seq<Act> {
    match a
    case Message(e, r, wall) => if e.cls == Fleet.Evt then [Heard(AlarmId(e.key, r.ty), r, e.at, wall)] else []
    case Acknowledge(id) => [Acked(id)]
    case SweepAll(_, _) => []
  }

  function Acts(actions: seq<Action>): seq<Act>
    decreases |actions|
  {
    if actions == [] then [] else Acts(actions[..|actions| - 1]) + ActsOf(actions[|actions| - 1])
  }

  // ------------------------------------------------------------------ what stands

  /** The event calls for an alarm: an alarm level, and not said to be inactive. */
  predicate Calls(a: Act) {
    && a.Heard? && a.r.active != Some(false)
    && a.r.level.Some? && (a.r.level.value == CRITICAL || a.r.level.value == ERROR || a.r.level.value == WARNING)
  }

  predicate HeardAt(es: seq<Act>, i: nat, id: AlarmId)
    requires i < |es|
  {
    es[i].Heard? && es[i].id == id
  }

  /** The event called for an alarm that did not stand while two thousand others did. */
  ghost predicate Refused(es: seq<Act>, i: nat)
    requires i < |es|
    decreases i, 2
  {
    Calls(es[i]) && es[i].id !in Standing(es[..i]) && |Standing(es[..i])| >= 2000
  }

  /** The last event about the alarm that was not refused. */
  ghost predicate Decides(es: seq<Act>, i: nat, id: AlarmId)
    decreases |es|, 0
  {
    && i < |es| && HeardAt(es, i, id) && !Refused(es, i)
    && forall j | i < j < |es| && HeardAt(es, j, id) :: Refused(es, j)
  }

  function Ids(es: seq<Act>): set<AlarmId> {
    set a <- es :: a.id
  }

  /** The alarms whose deciding event calls for them. */
  ghost function Standing(es: seq<Act>): (r: set<AlarmId>)
    decreases |es|, 1
  {
    set id <- Ids(es) | exists i: nat | i < |es| :: Decides(es, i, id) && Calls(es[i])
  }

  // ------------------------------------------------------------------ what a standing alarm shows

  /** The alarm stands since event `s`: absent before, called for by every event about it since. */
  ghost predicate StandsSince(es: seq<Act>, s: nat, id: AlarmId) {
    && s < |es| && HeardAt(es, s, id) && !Refused(es, s) && id !in Standing(es[..s])
    && forall j | s <= j < |es| && HeardAt(es, j, id) :: Calls(es[j])
  }

  ghost function HeardSince(es: seq<Act>, s: nat, id: AlarmId): set<nat> {
    set j | s <= j < |es| && HeardAt(es, j, id)
  }

  ghost predicate AckedSince(es: seq<Act>, s: nat, id: AlarmId) {
    exists j | s < j < |es| :: es[j] == Acked(id)
  }

  /** First raised by event `s`, last by event `i`. */
  ghost predicate AlarmShows(a: Alarm, es: seq<Act>, s: nat, i: nat, id: AlarmId) {
    && StandsSince(es, s, id)
    && s <= i < |es| && HeardAt(es, i, id) && (forall j | i < j < |es| :: !HeardAt(es, j, id))
    && a.raisedAt == es[s].at && a.count == |HeardSince(es, s, id)| && (a.acked <==> AckedSince(es, s, id))
    && Some(a.severity) == es[i].r.level && a.message == es[i].r.message && a.channel == es[i].r.channel && a.lastAt == es[i].at
  }

  ghost predicate AlarmIs(a: Alarm, es: seq<Act>, id: AlarmId) {
    exists s: nat, i: nat :: AlarmShows(a, es, s, i, id)
  }

  // ------------------------------------------------------------------ prefixes

  lemma {:induction false} PrefixRefused(es: seq<Act>, a: Act, i: nat)
    requires i < |es|
    ensures Refused(es + [a], i) <==> Refused(es, i)
  {
    assert (es + [a])[..i] == es[..i] && (es + [a])[i] == es[i];
  }

  lemma LastRefused(es: seq<Act>, a: Act)
    ensures Refused(es + [a], |es|) <==> Calls(a) && a.id !in Standing(es) && |Standing(es)| >= 2000
  {
    assert (es + [a])[..|es|] == es && (es + [a])[|es|] == a;
  }

  /** How one more act moves the deciding event. */
  lemma DecidesSnoc(es: seq<Act>, a: Act, i: nat, id: AlarmId)
    ensures var all := es + [a];
            var counts := a.Heard? && a.id == id && !Refused(all, |es|);
            Decides(all, i, id) <==> if counts then i == |es| else Decides(es, i, id)
  {
    var all := es + [a];
    forall j: nat | j < |es| ensures (Refused(all, j) <==> Refused(es, j)) && (HeardAt(all, j, id) <==> HeardAt(es, j, id)) {
      PrefixRefused(es, a, j);
    }
    hide Refused;
    if i < |es| && Decides(es, i, id) {
      assert forall j | i < j < |all| && HeardAt(all, j, id) :: j < |es| || j == |es|;
    }
  }

  lemma IsStanding(es: seq<Act>, id: AlarmId)
    ensures id in Standing(es) <==> exists i: nat | i < |es| :: Decides(es, i, id) && Calls(es[i])
  {
    hide Refused;
    if exists i: nat | i < |es| :: Decides(es, i, id) && Calls(es[i]) {
      var i: nat :| i < |es| && Decides(es, i, id) && Calls(es[i]);
      assert es[i] in es;
    }
  }

  lemma StandingSnoc(es: seq<Act>, a: Act)
    ensures var counts := a.Heard? && !Refused(es + [a], |es|);
            Standing(es + [a]) == if !counts then Standing(es) else if Calls(a) then Standing(es) + {a.id} else Standing(es) - {a.id}
  {
    var all := es + [a];
    forall id ensures id in Standing(all) <==>
      if a.Heard? && a.id == id && !Refused(all, |es|) then Calls(a) else id in Standing(es)
    {
      IsStanding(all, id);
      IsStanding(es, id);
      forall i: nat ensures Decides(all, i, id) <==>
        if a.Heard? && a.id == id && !Refused(all, |es|) then i == |es| else Decides(es, i, id)
      {
        DecidesSnoc(es, a, i, id);
      }
      assert forall i: nat | i < |es| :: all[i] == es[i];
      assert all[|es|] == a;
      hide Standing, Refused, Decides, Calls;
      if a.Heard? && a.id == id && !Refused(all, |es|) {
        if Calls(a) { assert Decides(all, |es|, id) && Calls(all[|es|]); }
      } else {
        if id in Standing(es) {
          var i: nat :| i < |es| && Decides(es, i, id) && Calls(es[i]);
          assert Decides(all, i, id) && Calls(all[i]);
        }
        if id in Standing(all) {
          var i: nat :| i < |all| && Decides(all, i, id) && Calls(all[i]);
          DecidesIn(es, i, id);
          assert Decides(es, i, id) && Calls(es[i]);
        }
      }
    }
    hide Standing, Refused;
  }

  lemma DecidesIn(es: seq<Act>, i: nat, id: AlarmId)
    ensures Decides(es, i, id) ==> i < |es|
  {
  }

  // ------------------------------------------------------------------ one alarm

  lemma SinceSnoc(es: seq<Act>, x: Act, s: nat, id: AlarmId)
    requires StandsSince(es, s, id) && (x.Heard? && x.id == id ==> Calls(x))
    ensures StandsSince(es + [x], s, id)
  {
    var all := es + [x];
    PrefixRefused(es, x, s);
    assert all[..s] == es[..s];
    hide Refused, Standing;
    forall j | s <= j < |all| && HeardAt(all, j, id) ensures Calls(all[j]) {
      if j < |es| { assert HeardAt(es, j, id); }
    }
  }

  lemma HeardSinceSnoc(es: seq<Act>, x: Act, s: nat, id: AlarmId)
    requires s <= |es|
    ensures |HeardSince(es + [x], s, id)| == |HeardSince(es, s, id)| + if x.Heard? && x.id == id then 1 else 0
    ensures AckedSince(es + [x], s, id) <==> AckedSince(es, s, id) || (s < |es| && x == Acked(id))
  {
    var all := es + [x];
    forall j: nat | j < |es| ensures all[j] == es[j] && (HeardAt(all, j, id) <==> HeardAt(es, j, id)) {
    }
    assert all[|es|] == x;
    hide Refused, Standing, Calls;
    assert HeardSince(all, s, id) == HeardSince(es, s, id) + if x.Heard? && x.id == id then {|es|} else {};
    if AckedSince(es, s, id) {
      var j :| s < j < |es| && es[j] == Acked(id);
      assert all[j] == Acked(id);
    }
  }

  /** An act about another alarm, or an acknowledgement. */
  lemma ShowsAside(a: Alarm, es: seq<Act>, x: Act, s: nat, i: nat, id: AlarmId)
    requires AlarmShows(a, es, s, i, id) && !(x.Heard? && x.id == id)
    ensures AlarmShows(a.(acked := a.acked || x == Acked(id)), es + [x], s, i, id)
  {
    var all := es + [x];
    SinceSnoc(es, x, s, id);
    HeardSinceSnoc(es, x, s, id);
    hide StandsSince, HeardSince, AckedSince;
    assert all[i] == es[i] && all[s] == es[s];
    forall j | i < j < |all| ensures !HeardAt(all, j, id) {
      if j < |es| { assert !HeardAt(es, j, id); }
    }
  }

  /** A repeat. */
  lemma ShowsAgain(a: Alarm, es: seq<Act>, x: Act, s: nat, i: nat, id: AlarmId)
    requires AlarmShows(a, es, s, i, id) && x.Heard? && x.id == id && Calls(x)
    ensures AlarmShows(a.(count := a.count + 1, lastAt := x.at, severity := x.r.level.value, message := x.r.message, channel := x.r.channel),
                       es + [x], s, |es|, id)
  {
    var all := es + [x];
    SinceSnoc(es, x, s, id);
    HeardSinceSnoc(es, x, s, id);
    hide StandsSince, HeardSince, AckedSince;
    assert all[|es|] == x && all[s] == es[s] && HeardAt(all, |es|, id);
  }

  lemma FirstHeard(es: seq<Act>, x: Act, id: AlarmId)
    requires x.Heard? && x.id == id
    ensures var all := es + [x];
            && HeardAt(all, |es|, id) && all[|es|] == x && all[..|es|] == es
            && HeardSince(all, |es|, id) == {|es|} && !AckedSince(all, |es|, id)
  {
    hide Calls;
    var all := es + [x];
    assert all[|es|] == x;
  }

  /** A first call. */
  lemma ShowsNew(es: seq<Act>, x: Act, id: AlarmId, contained: bool)
    requires x.Heard? && x.id == id && Calls(x) && id !in Standing(es) && !Refused(es + [x], |es|)
    ensures AlarmShows(Alarm(x.r.level.value, x.r.message, x.at, x.at, 1, false, contained, x.r.channel), es + [x], |es|, |es|, id)
  {
    FirstHeard(es, x, id);
    assert x.r.level.Some?;
    hide Refused, Standing, Calls, HeardSince, AckedSince, HeardAt;
  }

  // ------------------------------------------------------------------ the table

  ghost function RefusedSet(es: seq<Act>): set<nat> {
    set i | 0 <= i < |es| && Refused(es, i)
  }

  /** The event ended an alarm that stood. */
  ghost predicate Clears(es: seq<Act>, i: nat)
    requires i < |es|
  {
    es[i].Heard? && !Calls(es[i]) && es[i].id in Standing(es[..i])
  }

  /** Which events ended an alarm, in order. */
  ghost function Clearings(es: seq<Act>): (r: seq<nat>)
    ensures forall i <- r :: i < |es|
    decreases |es|
  {
    if es == [] then []
    else
      var n := |es| - 1;
      Clearings(es[..n]) + if Clears(es, n) then [n] else []
  }

  /** The alarm as it was when event `i` ended it. */
  ghost predicate ResolvedIs(h: Resolved, es: seq<Act>, i: nat) {
    i < |es| && es[i].Heard? && h.id == es[i].id && h.resolvedAt == es[i].wall && AlarmIs(h.alarm, es[..i], h.id)
  }

  /** The history holds the newest five hundred of the alarms that were ended. */
  ghost predicate HistoryIs(history: seq<Resolved>, es: seq<Act>, clearings: seq<nat>) {
    && |history| == Min(|clearings|, 500)
    && forall i | 0 <= i < |history| :: ResolvedIs(history[i], es, clearings[|clearings| - |history| + i])
  }

  ghost predicate TableIs(t: Table, es: seq<Act>) {
    && t.alarms.Keys == Standing(es)
    && (forall id <- t.alarms :: AlarmIs(t.alarms[id], es, id))
    && t.dropped == |RefusedSet(es)|
    && HistoryIs(t.history, es, Clearings(es))
  }

  lemma RefusedSetSnoc(es: seq<Act>, x: Act)
    ensures |RefusedSet(es + [x])| == |RefusedSet(es)| + if Refused(es + [x], |es|) then 1 else 0
  {
    var all := es + [x];
    forall i: nat | i < |es| ensures Refused(all, i) <==> Refused(es, i) { PrefixRefused(es, x, i); }
    hide Refused;
    assert RefusedSet(all) == RefusedSet(es) + if Refused(all, |es|) then {|es|} else {};
  }

  lemma ClearingsSnoc(es: seq<Act>, x: Act)
    ensures Clearings(es + [x]) == Clearings(es) + if x.Heard? && !Calls(x) && x.id in Standing(es) then [|es|] else []
  {
    assert (es + [x])[..|es|] == es;
    hide Standing;
  }

  lemma HistorySnoc(history: seq<Resolved>, es: seq<Act>, x: Act, clearings: seq<nat>)
    requires HistoryIs(history, es, clearings)
    ensures HistoryIs(history, es + [x], clearings)
  {
    var all := es + [x];
    forall i | 0 <= i < |history| ensures ResolvedIs(history[i], all, clearings[|clearings| - |history| + i]) {
      var c := clearings[|clearings| - |history| + i];
      assert ResolvedIs(history[i], es, c) && all[..c] == es[..c] && all[c] == es[c];
    }
  }

  /** One more resolved alarm. */
  lemma HistoryGrows(history: seq<Resolved>, es: seq<Act>, clearings: seq<nat>, h: Resolved, c: nat)
    requires HistoryIs(history, es, clearings) && ResolvedIs(h, es, c)
    ensures HistoryIs(Newest(history + [h], 500), es, clearings + [c])
  {
    hide ResolvedIs;
    var longer, cs := history + [h], clearings + [c];
    var kept := Newest(longer, 500);
    forall i | 0 <= i < |kept| ensures ResolvedIs(kept[i], es, cs[|cs| - |kept| + i]) {
      var j := |longer| - |kept| + i;
      assert kept[i] == longer[j];
      if j < |history| { assert ResolvedIs(history[j], es, clearings[|clearings| - |history| + j]); }
    }
  }

  // ------------------------------------------------------------------ one act

  lemma OthersKept(alarms: map<AlarmId, Alarm>, es: seq<Act>, x: Act, id: AlarmId)
    requires id in alarms && AlarmIs(alarms[id], es, id) && x.id != id
    ensures AlarmIs(alarms[id], es + [x], id)
  {
    var s: nat, i: nat :| AlarmShows(alarms[id], es, s, i, id);
    ShowsAside(alarms[id], es, x, s, i, id);
    hide AlarmShows;
    assert alarms[id].(acked := alarms[id].acked || false) == alarms[id];
    assert AlarmShows(alarms[id], es + [x], s, i, id);
  }

  lemma Repeated(a: Alarm, es: seq<Act>, x: Act, id: AlarmId)
    requires AlarmIs(a, es, id) && x.Heard? && x.id == id && Calls(x)
    ensures AlarmIs(a.(count := a.count + 1, lastAt := x.at, severity := x.r.level.value, message := x.r.message, channel := x.r.channel), es + [x], id)
  {
    var s: nat, i: nat :| AlarmShows(a, es, s, i, id);
    ShowsAgain(a, es, x, s, i, id);
  }

  /** What an event does to the history's bookkeeping. */
  lemma Books(es: seq<Act>, x: Act)
    requires x.Heard?
    ensures var all := es + [x];
            var refused := Calls(x) && x.id !in Standing(es) && |Standing(es)| >= 2000;
            && (Refused(all, |es|) <==> refused)
            && Standing(all) == (if refused then Standing(es) else if Calls(x) then Standing(es) + {x.id} else Standing(es) - {x.id})
            && |RefusedSet(all)| == |RefusedSet(es)| + (if refused then 1 else 0)
            && Clearings(all) == Clearings(es) + if !Calls(x) && x.id in Standing(es) then [|es|] else []
  {
    LastRefused(es, x);
    StandingSnoc(es, x);
    RefusedSetSnoc(es, x);
    ClearingsSnoc(es, x);
    hide Refused, Standing, RefusedSet, Clearings, Calls;
  }

  lemma FirstCalled(es: seq<Act>, x: Act, contained: bool)
    requires x.Heard? && Calls(x) && x.id !in Standing(es) && |Standing(es)| < 2000
    ensures AlarmIs(Alarm(x.r.level.value, x.r.message, x.at, x.at, 1, false, contained, x.r.channel), es + [x], x.id)
  {
    LastRefused(es, x);
    ShowsNew(es, x, x.id, contained);
    hide AlarmShows;
    assert AlarmShows(Alarm(x.r.level.value, x.r.message, x.at, x.at, 1, false, contained, x.r.channel), es + [x], |es|, |es|, x.id);
  }

  lemma OthersAreKept(t: Table, es: seq<Act>, x: Act)
    requires forall id <- t.alarms :: AlarmIs(t.alarms[id], es, id)
    ensures forall id <- t.alarms :: id != x.id ==> AlarmIs(t.alarms[id], es + [x], id)
  {
    forall id | id in t.alarms && id != x.id ensures AlarmIs(t.alarms[id], es + [x], id) {
      OthersKept(t.alarms, es, x, id);
    }
  }

  /** An event that calls for an alarm. */
  lemma RaiseStep(t: Table, es: seq<Act>, x: Act)
    requires TableIs(t, es) && x.Heard? && Calls(x)
    ensures TableIs(Raise(t, x.id, x.r, x.r.level.value, x.at).0, es + [x])
  {
    hide AlarmIs, Refused, Standing, RefusedSet, Clearings, HistoryIs;
    Books(es, x);
    HistorySnoc(t.history, es, x, Clearings(es));
    OthersAreKept(t, es, x);
    assert |t.alarms| == |t.alarms.Keys| && Clearings(es) + [] == Clearings(es);
    if x.id in t.alarms {
      Repeated(t.alarms[x.id], es, x, x.id);
      assert t.alarms.Keys + {x.id} == t.alarms.Keys;
    } else if |t.alarms| < MAX_ALARMS {
      FirstCalled(es, x, x.id.key.device in t.contained);
    }
    hide Calls;
  }

  /** An event that does not. */
  lemma ClearStep(t: Table, es: seq<Act>, x: Act)
    requires TableIs(t, es) && x.Heard? && !Calls(x)
    ensures TableIs(Clear(t, x.id, x.wall).0, es + [x])
  {
    hide AlarmIs, Refused, Standing, RefusedSet, Clearings, HistoryIs, Newest;
    Books(es, x);
    HistorySnoc(t.history, es, x, Clearings(es));
    OthersAreKept(t, es, x);
    assert Clearings(es) + [] == Clearings(es);
    hide Calls;
    if x.id in t.alarms {
      assert (t.alarms - {x.id}).Keys == t.alarms.Keys - {x.id};
      assert (es + [x])[..|es|] == es && (es + [x])[|es|] == x;
      HistoryGrows(t.history, es + [x], Clearings(es), Resolved(x.id, t.alarms[x.id], x.wall), |es|);
    } else {
      assert t.alarms.Keys - {x.id} == t.alarms.Keys;
    }
  }

  /** What an event does is decided by its level and its `active` flag, as `Calls` says. */
  lemma EventStep(t: Table, es: seq<Act>, key: Fleet.Key, r: Reading, at: nat, wall: nat)
    requires TableIs(t, es)
    ensures TableIs(AlarmEvent(t, key, r, at, wall).0, es + [Heard(AlarmId(key, r.ty), r, at, wall)])
  {
    var x := Heard(AlarmId(key, r.ty), r, at, wall);
    if Calls(x) { RaiseStep(t, es, x); } else { ClearStep(t, es, x); }
    hide TableIs, Raise, Clear;
  }

  lemma AckBooks(es: seq<Act>, id: AlarmId)
    ensures var all := es + [Acked(id)];
            Standing(all) == Standing(es) && |RefusedSet(all)| == |RefusedSet(es)| && Clearings(all) == Clearings(es)
  {
    var x := Acked(id);
    LastRefused(es, x);
    StandingSnoc(es, x);
    RefusedSetSnoc(es, x);
    ClearingsSnoc(es, x);
    hide Refused, Standing, RefusedSet, Clearings;
  }

  lemma AckedIs(a: Alarm, es: seq<Act>, x: Act, k: AlarmId)
    requires AlarmIs(a, es, k) && x.Acked?
    ensures AlarmIs(a.(acked := a.acked || x == Acked(k)), es + [x], k)
  {
    var s: nat, i: nat :| AlarmShows(a, es, s, i, k);
    ShowsAside(a, es, x, s, i, k);
  }

  lemma AckStep(t: Table, es: seq<Act>, id: AlarmId)
    requires TableIs(t, es)
    ensures TableIs(Ack(t, id).0, es + [Acked(id)])
  {
    hide AlarmIs, Refused, Standing, RefusedSet, Clearings, HistoryIs;
    var t' := Ack(t, id).0;
    AckBooks(es, id);
    HistorySnoc(t.history, es, Acked(id), Clearings(es));
    forall k | k in t'.alarms ensures AlarmIs(t'.alarms[k], es + [Acked(id)], k) {
      AckedIs(t.alarms[k], es, Acked(id), k);
      assert t'.alarms[k] == t.alarms[k].(acked := t.alarms[k].acked || Acked(id) == Acked(k));
    }
    assert t'.alarms.Keys == t.alarms.Keys;
  }

  /** Containment is not part of what an alarm shows. */
  lemma ContainStep(t: Table, es: seq<Act>, device: string, contained: bool)
    requires TableIs(t, es)
    ensures TableIs(SetContainment(t, device, contained).0, es)
  {
    var t' := SetContainment(t, device, contained).0;
    hide Standing, Refused, RefusedSet, Clearings, HistoryIs, StandsSince;
    forall id | id in t'.alarms ensures AlarmIs(t'.alarms[id], es, id) {
      var s: nat, i: nat :| AlarmShows(t.alarms[id], es, s, i, id);
      assert AlarmShows(t'.alarms[id], es, s, i, id);
    }
  }

  lemma MessageStep(f: Fleet.Devices, t: Table, es: seq<Act>, e: Fleet.Event, r: Reading, wall: nat, cfg: Fleet.Config)
    requires TableIs(t, es)
    ensures TableIs(IngestAlarms(t, e, r, Fleet.IngestFleet(f, e, cfg).transition, wall).0, es + ActsOf(Message(e, r, wall)))
  {
    hide TableIs, Fleet.IngestFleet, AlarmEvent, SetContainment;
    var transition := Fleet.IngestFleet(f, e, cfg).transition;
    var t1 := if transition.Some? then SetContainment(t, e.key.device, transition.value).0 else t;
    if transition.Some? { ContainStep(t, es, e.key.device, transition.value); }
    if e.cls == Fleet.Evt { EventStep(t1, es, e.key, r, e.at, wall); }
    assert es + [] == es;
  }

  /** Over every history of messages, sweeps and acknowledgements: an alarm stands exactly if the
      last event about it that was not refused calls for it; it shows that event's severity,
      message, channel and time, the time of its first call since it was absent, how many calls
      came since, and whether it was acknowledged since; exactly the refused calls are counted;
      and the resolved history is the newest five hundred alarms ended, as they then stood. */
  lemma {:induction false} AlarmsAreHistory(actions: seq<Action>, cfg: Fleet.Config)
    requires Run(actions, cfg).Some?
    ensures TableIs(Run(actions, cfg).value.1, Acts(actions))
    decreases |actions|
  {
    hide TableIs, Fleet.IngestFleet, IngestAlarms, Ack, Fleet.Sweep;
    if actions == [] {
      EmptyTable();
    } else {
      var n := |actions| - 1;
      var (f, t) := Run(actions[..n], cfg).value;
      var es := Acts(actions[..n]);
      AlarmsAreHistory(actions[..n], cfg);
      match actions[n] {
        case Message(e, r, wall) => MessageStep(f, t, es, e, r, wall, cfg);
        case SweepAll(order, now) => assert es + [] == es;
        case Acknowledge(id) => AckStep(t, es, id);
      }
    }
  }

  lemma EmptyTable()
    ensures TableIs(Table(map[], {}, [], 0), [])
  {
    assert Standing([]) == {} && RefusedSet([]) == {};
  }
}
