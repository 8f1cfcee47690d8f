/**
 What the gateway's fleet is, in terms of everything it heard (gateway/src/model.rs
 `ingest_fleet`): every field of a component or device record is read off the messages of that
 component or device, and the deltas of a message are exactly the changes it makes.
 */
module FleetHistory {
  import opened Basics
  import opened Fleet
  import History = Ladder

  // ------------------------------------------------------------------ the messages

  /** The bridge's last will: its device is out of reach. */
  predicate TellsOutage(e: Event) {
    e.key.component == "uns-bridge" && e.cls == State && e.status == Some("UNREACHABLE")
  }

  /** The messages heard in a history. */
  function Messages(actions: seq<History.Action>): seq<Event>
    decreases |actions|
  {
    if actions == [] then []
    else
      var last := actions[|actions| - 1];
      Messages(actions[..|actions| - 1]) + if last.Message? then [last.event] else []
  }

  /** The messages of one component. */
  function Of(ms: seq<Event>, k: Key): (h: seq<Event>)
    ensures forall e <- h :: e in ms && e.key == k && !TellsOutage(e)
    decreases |ms|
  {
    if ms == [] then []
    else
      var last := ms[|ms| - 1];
      Of(ms[..|ms| - 1], k) + if last.key == k && !TellsOutage(last) then [last] else []
  }

  function Keepalives(h: seq<Event>): (r: seq<Event>)
    ensures forall e <- r :: e in h && e.cls == State
    decreases |h|
  {
    if h == [] then []
    else Keepalives(h[..|h| - 1]) + if h[|h| - 1].cls == State then [h[|h| - 1]] else []
  }

  /** The uptimes reported, in order. */
  function Uptimes(ks: seq<Event>): seq<real>
    decreases |ks|
  {
    if ks == [] then []
    else Uptimes(ks[..|ks| - 1]) + if ks[|ks| - 1].uptime.Some? then [ks[|ks| - 1].uptime.value] else []
  }

  function Last<T>(xs: seq<T>): Option<T> {
    if xs == [] then None else Some(xs[|xs| - 1])
  }

  predicate FallsAt(us: seq<real>, i: nat)
    requires i < |us|
  {
    i > 0 && us[i] < us[i - 1]
  }

  /** Where a sequence falls below its predecessor. */
  function Falls(us: seq<real>): set<nat> {
    set i | 0 <= i < |us| && FallsAt(us, i)
  }

  function Instances(ks: seq<Event>): seq<Json>
    decreases |ks|
  {
    if ks == [] then []
    else Instances(ks[..|ks| - 1]) + if ks[|ks| - 1].instances.Some? then [ks[|ks| - 1].instances.value] else []
  }

  /** The usable keepalive intervals configured, in order. */
  function Cadences(h: seq<Event>): seq<nat>
    decreases |h|
  {
    if h == [] then []
    else
      var e := h[|h| - 1];
      Cadences(h[..|h| - 1]) + if e.cls == Cfg && e.interval.Some? && e.interval.value > 0 then [e.interval.value] else []
  }

  /** The messages that have a cache slot. */
  function Cacheable(h: seq<Event>): (r: seq<Event>)
    ensures forall e <- r :: e in h && e.cls != Log
    decreases |h|
  {
    if h == [] then []
    else Cacheable(h[..|h| - 1]) + if h[|h| - 1].cls != Log then [h[|h| - 1]] else []
  }

  function SlotOf(e: Event): Channel {
    Channel(e.instance, e.cls, e.name)
  }

  function Slots(cs: seq<Event>): (r: set<Channel>) {
    set e <- cs :: SlotOf(e)
  }

  /** A slot is kept if fewer than `max` others came before it. */
  predicate Kept(cs: seq<Event>, ch: Channel, max: nat) {
    exists i | 0 <= i < |cs| :: SlotOf(cs[i]) == ch && |Slots(cs[..i])| < max
  }

  /** The messages whose slot was refused. */
  function RefusedAt(cs: seq<Event>, max: nat): set<nat> {
    set i | 0 <= i < |cs| && !Kept(cs, SlotOf(cs[i]), max)
  }

  function LastIn(cs: seq<Event>, ch: Channel): Option<Event>
    decreases |cs|
  {
    if cs == [] then None
    else if SlotOf(cs[|cs| - 1]) == ch then Some(cs[|cs| - 1])
    else LastIn(cs[..|cs| - 1], ch)
  }

  // ------------------------------------------------------------------ the records

  /** What the keepalives say: the last one's status and time, the last uptime and instance list
      reported, and how often the uptime fell. */
  ghost predicate StateIs(c: Component, ks: seq<Event>) {
    && c.status == (if ks == [] then None else ks[|ks| - 1].status)
    && c.lastStateAt == (if ks == [] then None else Some(ks[|ks| - 1].at))
    && c.uptime == Last(Uptimes(ks)) && c.restarts == |Falls(Uptimes(ks))|
    && c.instances == Last(Instances(ks))
  }

  ghost predicate CadenceIs(c: Component, cadences: seq<nat>, cfg: Config) {
    && c.cadenceFromCfg == (cadences != [])
    && c.interval == Last(cadences).GetOr(cfg.defaultInterval)
  }

  ghost predicate CacheIs(c: Component, cs: seq<Event>, max: nat) {
    && (forall ch :: ch in c.values <==> Kept(cs, ch, max))
    && (forall ch <- c.values :: LastIn(cs, ch).Some?
          && c.values[ch] == Cached(LastIn(cs, ch).value.body, LastIn(cs, ch).value.at))
    && c.droppedChannels == |RefusedAt(cs, max)|
    && |c.values| == Min(|Slots(cs)|, max)
  }

  ghost predicate FieldsAre(c: Component, h: seq<Event>, cfg: Config) {
    StateIs(c, Keepalives(h)) && CadenceIs(c, Cadences(h), cfg) && CacheIs(c, Cacheable(h), cfg.maxChannels)
  }

  /** The record of a component that was heard of: its first message names it and dates it. */
  ghost predicate RecordIs(c: Component, h: seq<Event>, cfg: Config) {
    && h != [] && c.path == h[0].path && c.hier == h[0].hier && c.firstSeenAt == h[0].at
    && FieldsAre(c, h, cfg)
  }

  // ------------------------------------------------------------------ one component

  lemma KeptSnoc(cs: seq<Event>, e: Event, ch: Channel, max: nat)
    ensures Kept(cs + [e], ch, max) <==> Kept(cs, ch, max) || (SlotOf(e) == ch && |Slots(cs)| < max)
  {
    var all := cs + [e];
    assert all[..|cs|] == cs && all[|cs|] == e;
    forall i | 0 <= i < |cs| ensures all[..i] == cs[..i] && all[i] == cs[i] {
    }
    if Kept(cs, ch, max) {
      var i :| 0 <= i < |cs| && SlotOf(cs[i]) == ch && |Slots(cs[..i])| < max;
      assert SlotOf(all[i]) == ch && |Slots(all[..i])| < max;
    }
    if SlotOf(e) == ch && |Slots(cs)| < max { assert SlotOf(all[|cs|]) == ch && |Slots(all[..|cs|])| < max; }
  }

  lemma SlotsSnoc(cs: seq<Event>, e: Event)
    ensures Slots(cs + [e]) == Slots(cs) + {SlotOf(e)}
    ensures |Slots(cs + [e])| == |Slots(cs)| + if SlotOf(e) in Slots(cs) then 0 else 1
  {
    assert Slots(cs + [e]) == Slots(cs) + {SlotOf(e)};
    if SlotOf(e) in Slots(cs) { assert Slots(cs) + {SlotOf(e)} == Slots(cs); }
  }

  lemma LastInSnoc(cs: seq<Event>, e: Event, ch: Channel)
    ensures LastIn(cs + [e], ch) == if SlotOf(e) == ch then Some(e) else LastIn(cs, ch)
  {
    assert (cs + [e])[..|cs|] == cs;
  }

  lemma FewerSlots(cs: seq<Event>, i: nat)
    requires i <= |cs|
    ensures |Slots(cs[..i])| <= |Slots(cs)|
  {
    var part, whole := Slots(cs[..i]), Slots(cs);
    assert forall e <- cs[..i] :: e in cs;
    assert whole == part + (whole - part);
    assert |whole| == |part| + |whole - part|;
  }

  /** While there is room, every slot seen is kept; a kept slot was seen. */
  lemma SeenIsKept(cs: seq<Event>, ch: Channel, max: nat)
    ensures Kept(cs, ch, max) ==> ch in Slots(cs)
    ensures |Slots(cs)| < max && ch in Slots(cs) ==> Kept(cs, ch, max)
  {
    if |Slots(cs)| < max && ch in Slots(cs) {
      var e :| e in cs && SlotOf(e) == ch;
      var i :| 0 <= i < |cs| && cs[i] == e;
      FewerSlots(cs, i);
    }
  }

  lemma RefusedSnoc(cs: seq<Event>, e: Event, max: nat)
    ensures RefusedAt(cs + [e], max) == RefusedAt(cs, max) + if Kept(cs + [e], SlotOf(e), max) then {} else {|cs|}
    ensures |RefusedAt(cs + [e], max)| == |RefusedAt(cs, max)| + if Kept(cs + [e], SlotOf(e), max) then 0 else 1
  {
    var all := cs + [e];
    forall i | 0 <= i < |cs| ensures all[i] == cs[i] && (Kept(all, SlotOf(all[i]), max) <==> Kept(cs, SlotOf(cs[i]), max)) {
      assert cs[i] in cs;
      KeptSnoc(cs, e, SlotOf(cs[i]), max);
      SeenIsKept(cs, SlotOf(cs[i]), max);
    }
    assert all[|cs|] == e;
    hide Kept, SlotOf;
    assert RefusedAt(all, max) == RefusedAt(cs, max) + if Kept(all, SlotOf(e), max) then {} else {|cs|};
  }

  lemma CacheStored(c: Component, cs: seq<Event>, e: Event, max: nat)
    requires CacheIs(c, cs, max) && (SlotOf(e) in c.values || |c.values| < max)
    ensures CacheIs(c.(values := c.values[SlotOf(e) := Cached(e.body, e.at)]), cs + [e], max)
  {
    var ch, cs' := SlotOf(e), cs + [e];
    var values := c.values[ch := Cached(e.body, e.at)];
    hide Kept, Slots, LastIn, RefusedAt, SlotOf;
    SlotsSnoc(cs, e);
    SeenIsKept(cs, ch, max);
    RefusedSnoc(cs, e, max);
    PutSize(c.values, ch, Cached(e.body, e.at));
    KeptSnoc(cs, e, ch, max);
    forall x ensures x in values <==> Kept(cs', x, max) {
      KeptSnoc(cs, e, x, max);
    }
    forall x | x in values ensures LastIn(cs', x).Some? && values[x] == Cached(LastIn(cs', x).value.body, LastIn(cs', x).value.at) {
      LastInSnoc(cs, e, x);
    }
  }

  lemma CacheRefused(c: Component, cs: seq<Event>, e: Event, max: nat)
    requires CacheIs(c, cs, max) && SlotOf(e) !in c.values && |c.values| >= max
    ensures CacheIs(c.(droppedChannels := c.droppedChannels + 1), cs + [e], max)
  {
    var ch, cs' := SlotOf(e), cs + [e];
    hide Kept, Slots, LastIn, RefusedAt, SlotOf;
    SlotsSnoc(cs, e);
    SeenIsKept(cs, ch, max);
    RefusedSnoc(cs, e, max);
    KeptSnoc(cs, e, ch, max);
    forall x ensures x in c.values <==> Kept(cs', x, max) {
      KeptSnoc(cs, e, x, max);
    }
    forall x | x in c.values ensures LastIn(cs', x).Some? && c.values[x] == Cached(LastIn(cs', x).value.body, LastIn(cs', x).value.at) {
      LastInSnoc(cs, e, x);
    }
  }

  /** One more cached message: refused, or stored. */
  lemma CacheStep(c: Component, cs: seq<Event>, e: Event, max: nat)
    requires CacheIs(c, cs, max)
    ensures CacheIs(UpdateCache(c, e, max).component, cs + [e], max)
  {
    hide CacheIs;
    if SlotOf(e) !in c.values && |c.values| >= max { CacheRefused(c, cs, e, max); } else { CacheStored(c, cs, e, max); }
  }

  lemma PutSize(values: map<Channel, Cached>, ch: Channel, v: Cached)
    ensures |values[ch := v]| == |values| + if ch in values then 0 else 1
  {
    assert values[ch := v].Keys == values.Keys + {ch};
    assert |values| == |values.Keys| && |values[ch := v]| == |values[ch := v].Keys|;
    if ch in values { assert values.Keys + {ch} == values.Keys; }
  }

  lemma FallsSnoc(us: seq<real>, u: real)
    ensures |Falls(us + [u])| == |Falls(us)| + if us != [] && u < us[|us| - 1] then 1 else 0
  {
    var all := us + [u];
    assert forall i | 0 <= i < |us| :: FallsAt(all, i) <==> FallsAt(us, i);
    assert Falls(all) == Falls(us) + if FallsAt(all, |us|) then {|us|} else {};
  }

  lemma StateFields(c: Component, e: Event, down: bool)
    ensures UpdateState(c, e, down).component
         == c.(status := e.status, lastStateAt := Some(e.at), uptime := e.uptime.OrElse(c.uptime),
               restarts := c.restarts + (if e.uptime.Some? && c.uptime.Some? && e.uptime.value < c.uptime.value then 1 else 0),
               instances := e.instances.OrElse(c.instances), liveness := StateLiveness(e, down))
  {
    hide StateLiveness;
  }

  /** One more keepalive. */
  lemma StateStep(c: Component, ks: seq<Event>, e: Event, down: bool)
    requires StateIs(c, ks)
    ensures StateIs(UpdateState(c, e, down).component, ks + [e])
  {
    StateFields(c, e, down);
    assert (ks + [e])[..|ks|] == ks;
    if e.uptime.Some? { FallsSnoc(Uptimes(ks), e.uptime.value); }
    assert Uptimes(ks) + [] == Uptimes(ks) && Instances(ks) + [] == Instances(ks);
    assert Uptimes(ks + [e]) == Uptimes(ks) + if e.uptime.Some? then [e.uptime.value] else [];
    assert Instances(ks + [e]) == Instances(ks) + if e.instances.Some? then [e.instances.value] else [];
    hide Falls, StateLiveness, Uptimes, Instances, UpdateState;
  }

  lemma CadenceStep(c: Component, h: seq<Event>, e: Event, cfg: Config)
    requires CadenceIs(c, Cadences(h), cfg)
    ensures CadenceIs(UpdateCadence(c, e).component, Cadences(h + [e]), cfg)
  {
    assert (h + [e])[..|h|] == h && Cadences(h) + [] == Cadences(h);
  }

  lemma CacheFrame(c: Component, e: Event, max: nat)
    ensures var c' := UpdateCache(c, e, max).component; c' == c.(values := c'.values, droppedChannels := c'.droppedChannels)
  {
  }

  lemma StateFrame(c: Component, values: map<Channel, Cached>, dropped: nat, e: Event, down: bool)
    ensures var told := UpdateState(c, e, down).component;
            var c1 := c.(values := values, droppedChannels := dropped);
            && told.values == c.values && told.droppedChannels == c.droppedChannels
            && told.interval == c.interval && told.cadenceFromCfg == c.cadenceFromCfg
            && told.path == c.path && told.hier == c.hier && told.firstSeenAt == c.firstSeenAt
            && UpdateState(c1, e, down).component == told.(values := values, droppedChannels := dropped)
  {
    StateFields(c, e, down);
    StateFields(c.(values := values, droppedChannels := dropped), e, down);
    hide StateLiveness, UpdateState;
  }

  lemma CadenceFrame(c: Component, e: Event)
    ensures var c' := UpdateCadence(c, e).component; c' == c.(interval := c'.interval, cadenceFromCfg := c'.cadenceFromCfg)
    ensures e.cls != Cfg ==> UpdateCadence(c, e).component == c
  {
  }

  /** Which part of a message changes which fields. */
  lemma ComponentParts(c: Component, e: Event, down: bool, cfg: Config)
    ensures var c' := UpdateComponent(c, e, down, cfg).component;
            var cached := if e.cls != Log then UpdateCache(c, e, cfg.maxChannels).component else c;
            var told := if e.cls == State then UpdateState(c, e, down).component else c;
            c' == if e.cls == State then told.(values := cached.values, droppedChannels := cached.droppedChannels)
                  else if e.cls == Cfg then UpdateCadence(cached, e).component
                  else cached
  {
    hide UpdateCache, UpdateState, UpdateCadence;
    var cached := if e.cls != Log then UpdateCache(c, e, cfg.maxChannels).component else c;
    if e.cls != Log { CacheFrame(c, e, cfg.maxChannels); }
    if e.cls == State { StateFrame(c, cached.values, cached.droppedChannels, e, down); }
    CadenceFrame(cached, e);
    CadenceFrame(UpdateState(cached, e, down).component, e);
  }

  lemma HistorySnoc(h: seq<Event>, e: Event)
    ensures Keepalives(h + [e]) == if e.cls == State then Keepalives(h) + [e] else Keepalives(h)
    ensures Cacheable(h + [e]) == if e.cls == Log then Cacheable(h) else Cacheable(h) + [e]
    ensures e.cls != Cfg ==> Cadences(h + [e]) == Cadences(h)
  {
    assert (h + [e])[..|h|] == h && Keepalives(h) + [] == Keepalives(h) && Cacheable(h) + [] == Cacheable(h) && Cadences(h) + [] == Cadences(h);
  }

  /** One more message of a component. */
  lemma FieldsStep(c: Component, h: seq<Event>, e: Event, down: bool, cfg: Config)
    requires FieldsAre(c, h, cfg)
    ensures var c' := UpdateComponent(c, e, down, cfg).component;
            FieldsAre(c', h + [e], cfg) && c'.path == c.path && c'.hier == c.hier && c'.firstSeenAt == c.firstSeenAt
  {
    hide UpdateState, UpdateCache, UpdateCadence, UpdateComponent;
    hide Falls, Uptimes, Instances, Kept, RefusedAt, LastIn, Slots, Last, Keepalives, Cacheable, Cadences;
    HistorySnoc(h, e);
    ComponentParts(c, e, down, cfg);
    var cached := if e.cls != Log then UpdateCache(c, e, cfg.maxChannels).component else c;
    if e.cls != Log {
      CacheStep(c, Cacheable(h), e, cfg.maxChannels);
      CacheFrame(c, e, cfg.maxChannels);
    }
    if e.cls == State {
      StateStep(c, Keepalives(h), e, down);
      StateFrame(c, cached.values, cached.droppedChannels, e, down);
    } else if e.cls == Cfg {
      CadenceStep(cached, h, e, cfg);
      CadenceFrame(cached, e);
    }
  }

  lemma NewFields(e: Event, down: bool, cfg: Config)
    ensures FieldsAre(NewComponent(e, down, cfg), [], cfg)
  {
    assert Slots([]) == {} && RefusedAt([], cfg.maxChannels) == {} && Falls([]) == {};
  }

  // ------------------------------------------------------------------ a device's outage

  /** The messages of a device that say whether it is within reach. */
  function Signs(ms: seq<Event>, d: string): (r: seq<Event>)
    ensures forall e <- r :: e in ms && e.key.device == d && e.cls == State
    decreases |ms|
  {
    if ms == [] then []
    else
      var last := ms[|ms| - 1];
      Signs(ms[..|ms| - 1], d) + if last.key.device == d && last.cls == State then [last] else []
  }

  /** The last wills from `i` on are the outage that lasts. */
  ghost predicate OutageFrom(signs: seq<Event>, i: nat) {
    && i < |signs| && (forall j | i <= j < |signs| :: TellsOutage(signs[j]))
    && (i > 0 ==> !TellsOutage(signs[i - 1]))
  }

  /** A device is down exactly while the last keepalive from it is its bridge's last will, since
      the first one of an unbroken row. */
  ghost predicate OutageIs(dev: Device, signs: seq<Event>) {
    && (dev.unreachable <==> signs != [] && TellsOutage(signs[|signs| - 1]))
    && (dev.unreachable ==> exists i: nat :: OutageFrom(signs, i) && dev.since == Some(signs[i].at))
    && (!dev.unreachable ==> dev.since.None?)
  }

  lemma OutageStep(dev: Device, signs: seq<Event>, e: Event)
    requires OutageIs(dev, signs) && e.cls == State
    ensures OutageIs(ApplyTransition(dev, Transition(dev, e), e.at), signs + [e])
  {
    var all := signs + [e];
    if TellsOutage(e) {
      if dev.unreachable {
        var i: nat :| OutageFrom(signs, i) && dev.since == Some(signs[i].at);
        assert OutageFrom(all, i) && dev.since == Some(all[i].at);
      } else {
        assert OutageFrom(all, |signs|);
      }
    }
  }

  // ------------------------------------------------------------------ the whole fleet

  function Heard(ms: seq<Event>, d: string): bool {
    exists e <- ms :: e.key.device == d
  }

  ghost predicate DeviceIs(f: Devices, ms: seq<Event>, d: string) {
    (d in f <==> Heard(ms, d)) && (d in f ==> OutageIs(f[d], Signs(ms, d)))
  }

  ghost predicate ComponentIs(f: Devices, ms: seq<Event>, k: Key, cfg: Config) {
    (Known(f, k) <==> Of(ms, k) != []) && (Known(f, k) ==> RecordIs(Get(f, k), Of(ms, k), cfg))
  }

  /** The fleet is what the messages make of it, device by device and component by component. */
  ghost predicate FleetIs(f: Devices, ms: seq<Event>, cfg: Config) {
    (forall d :: DeviceIs(f, ms, d)) && (forall k :: ComponentIs(f, ms, k, cfg))
  }

  lemma MessagesSnoc(ms: seq<Event>, e: Event, d: string, k: Key)
    ensures Of(ms + [e], k) == if e.key == k && !TellsOutage(e) then Of(ms, k) + [e] else Of(ms, k)
    ensures Signs(ms + [e], d) == if e.key.device == d && e.cls == State then Signs(ms, d) + [e] else Signs(ms, d)
    ensures Heard(ms + [e], d) <==> Heard(ms, d) || e.key.device == d
  {
    assert (ms + [e])[..|ms|] == ms && Of(ms, k) + [] == Of(ms, k) && Signs(ms, d) + [] == Signs(ms, d);
    assert forall x :: x in ms + [e] <==> x in ms || x == e;
  }

  /** What one message does to the record of any component and any device. */
  lemma IngestDoes(f: Devices, e: Event, cfg: Config, d: string, k: Key)
    ensures var f' := IngestFleet(f, e, cfg).devices;
            var dev := EnsureDevice(f, e.key.device)[e.key.device];
            var dev1 := ApplyTransition(dev, Transition(dev, e), e.at);
            && (d in f' <==> d in f || d == e.key.device)
            && (d in f' ==>
                  && f'[d].unreachable == (if d == e.key.device then dev1 else f[d]).unreachable
                  && f'[d].since == (if d == e.key.device then dev1 else f[d]).since)
            && (Known(f', k) <==> Known(f, k) || (k == e.key && !TellsOutage(e)))
            && (Known(f', k) ==>
                  var c := if Known(f, k) then Get(f, k) else NewComponent(e, dev1.unreachable, cfg);
                  Get(f', k) == if k != e.key || TellsOutage(e) then c else UpdateComponent(c, e, dev1.unreachable, cfg).component)
  {
    hide UpdateComponent, NewComponent;
  }

  lemma IngestDevice(f: Devices, ms: seq<Event>, e: Event, cfg: Config, d: string)
    requires DeviceIs(f, ms, d)
    ensures DeviceIs(IngestFleet(f, e, cfg).devices, ms + [e], d)
  {
    IngestDoes(f, e, cfg, d, e.key);
    MessagesSnoc(ms, e, d, e.key);
    NewDeviceSigns(ms, d);
    var dev := EnsureDevice(f, e.key.device)[e.key.device];
    if d == e.key.device && e.cls == State { OutageStep(dev, Signs(ms, d), e); }
    hide IngestFleet, Signs, Heard, TellsOutage, UpdateComponent, NewComponent;
  }

  lemma {:induction false} NewDeviceSigns(ms: seq<Event>, d: string)
    ensures !Heard(ms, d) ==> Signs(ms, d) == []
    decreases |ms|
  {
    if ms != [] && !Heard(ms, d) {
      assert ms[|ms| - 1] in ms;
      assert forall e <- ms[..|ms| - 1] :: e in ms;
      NewDeviceSigns(ms[..|ms| - 1], d);
    }
  }

  lemma IngestComponent(f: Devices, ms: seq<Event>, e: Event, cfg: Config, k: Key)
    requires ComponentIs(f, ms, k, cfg)
    ensures ComponentIs(IngestFleet(f, e, cfg).devices, ms + [e], k, cfg)
  {
    IngestDoes(f, e, cfg, k.device, k);
    MessagesSnoc(ms, e, k.device, k);
    if k == e.key && !TellsOutage(e) {
      var dev := EnsureDevice(f, k.device)[k.device];
      var down := ApplyTransition(dev, Transition(dev, e), e.at).unreachable;
      var c := if Known(f, k) then Get(f, k) else NewComponent(e, down, cfg);
      NewFields(e, down, cfg);
      assert c.path == (Of(ms, k) + [e])[0].path && c.hier == (Of(ms, k) + [e])[0].hier && c.firstSeenAt == (Of(ms, k) + [e])[0].at;
      hide FieldsAre, IngestFleet, Of, TellsOutage, UpdateComponent, NewComponent;
      FieldsStep(c, Of(ms, k), e, down, cfg);
    }
    hide FieldsAre, IngestFleet, Of, TellsOutage;
  }

  /** A sweep changes stored liveness only. */
  lemma {:induction false} SweepDoes(f: Devices, order: seq<Key>, now: nat, cfg: Config, k: Key)
    requires forall x <- order :: Known(f, x)
    ensures var f' := Sweep(f, order, now, cfg).0;
            && f'.Keys == f.Keys
            && (forall d <- f :: f'[d].unreachable == f[d].unreachable && f'[d].since == f[d].since)
            && (Known(f', k) <==> Known(f, k))
            && (Known(f, k) ==> Get(f', k) == Get(f, k).(liveness := Get(f', k).liveness))
    decreases |order|
  {
    if order != [] {
      var x := order[0];
      var f1 := PutComponent(f, x, SweepComponent(Get(f, x), x, f[x.device].unreachable, now, cfg).component);
      SweepDoes(f1, order[1..], now, cfg, k);
      hide Fleet.Ladder, Age;
    }
  }

  lemma SweepKeeps(f: Devices, ms: seq<Event>, order: seq<Key>, now: nat, cfg: Config)
    requires FleetIs(f, ms, cfg) && forall x <- order :: Known(f, x)
    ensures FleetIs(Sweep(f, order, now, cfg).0, ms, cfg)
  {
    var f' := Sweep(f, order, now, cfg).0;
    hide Sweep, Signs, Of, Heard, StateIs, CadenceIs, CacheIs;
    forall d ensures DeviceIs(f', ms, d) {
      assert DeviceIs(f, ms, d);
      SweepDoes(f, order, now, cfg, Key(d, ""));
    }
    forall k ensures ComponentIs(f', ms, k, cfg) {
      assert ComponentIs(f, ms, k, cfg);
      SweepDoes(f, order, now, cfg, k);
      if Known(f, k) { LivenessAside(Get(f, k), Get(f', k), Of(ms, k), cfg); }
    }
  }

  lemma LivenessAside(c: Component, c': Component, h: seq<Event>, cfg: Config)
    requires RecordIs(c, h, cfg) && c' == c.(liveness := c'.liveness)
    ensures RecordIs(c', h, cfg)
  {
  }

  lemma MessageKeeps(f: Devices, ms: seq<Event>, e: Event, cfg: Config)
    requires FleetIs(f, ms, cfg)
    ensures FleetIs(IngestFleet(f, e, cfg).devices, ms + [e], cfg)
  {
    hide IngestFleet, DeviceIs, ComponentIs;
    forall d ensures DeviceIs(IngestFleet(f, e, cfg).devices, ms + [e], d) { IngestDevice(f, ms, e, cfg, d); }
    forall k ensures ComponentIs(IngestFleet(f, e, cfg).devices, ms + [e], k, cfg) { IngestComponent(f, ms, e, cfg, k); }
  }

  /** The fleet after a history of messages and sweeps. */
  function Reached(actions: seq<History.Action>, cfg: Config): Option<Devices>
    decreases |actions|
  {
    if actions == [] then Some(map[])
    else
      var n := |actions| - 1;
      var before := Reached(actions[..n], cfg);
      if before.Some? && History.Possible(before.value, actions[n]) then Some(History.Do(before.value, actions[n], cfg)) else None
  }

  /** Over every history of messages and sweeps: each record is what the messages of its component
      say, each device's outage what its bridge and its keepalives say. */
  lemma {:induction false} FleetIsHistory(actions: seq<History.Action>, cfg: Config)
    requires Reached(actions, cfg).Some?
    ensures FleetIs(Reached(actions, cfg).value, Messages(actions), cfg)
    decreases |actions|
  {
    if actions != [] {
      var n := |actions| - 1;
      var f, ms := Reached(actions[..n], cfg).value, Messages(actions[..n]);
      FleetIsHistory(actions[..n], cfg);
      match actions[n] {
        case Message(e) => MessageKeeps(f, ms, e, cfg);
        case SweepAll(order, now) =>
          SweepKeeps(f, ms, order, now, cfg);
          assert ms + [] == ms;
      }
      hide IngestFleet, Sweep, DeviceIs, ComponentIs, Reached;
    }
  }

  // ------------------------------------------------------------------ what a message shows and says

  lemma UpdateShows(c: Component, e: Event, down: bool, cfg: Config)
    ensures UpdateComponent(c, e, down, cfg).component.liveness == if e.cls == State then StateLiveness(e, down) else c.liveness
  {
    ComponentParts(c, e, down, cfg);
    if e.cls != Log { CacheFrame(c, e, cfg.maxChannels); }
    if e.cls == State { StateFields(c, e, down); }
    CadenceFrame(c, e);
    hide UpdateComponent, UpdateState, UpdateCache;
  }

  /** The liveness a message leaves: of its own keepalive, or of a discovery, else what it was. */
  lemma IngestShows(f: Devices, e: Event, cfg: Config, k: Key)
    requires Known(IngestFleet(f, e, cfg).devices, k)
    ensures var f' := IngestFleet(f, e, cfg).devices;
            Get(f', k).liveness ==
              if k == e.key && e.cls == State && !TellsOutage(e) then (if e.status == Some("STOPPED") then STOPPED else FRESH)
              else if Known(f, k) then Get(f, k).liveness
              else if f'[k.device].unreachable then UNREACHABLE else FRESH
  {
    var dev := EnsureDevice(f, e.key.device)[e.key.device];
    var down := ApplyTransition(dev, Transition(dev, e), e.at).unreachable;
    IngestDoes(f, e, cfg, k.device, k);
    UpdateShows(if Known(f, k) then Get(f, k) else NewComponent(e, down, cfg), e, down, cfg);
    hide IngestFleet, UpdateComponent;
  }

  /** The record a message starts from: the known one, or the one it is discovered with. */
  function Before(f: Devices, e: Event, down: bool, cfg: Config): Component {
    if Known(f, e.key) then Get(f, e.key)
    else Component(e.path, e.hier, if down then UNREACHABLE else FRESH, None, None, None, e.at, cfg.defaultInterval, false, 0, None, map[], 0)
  }

  /** A delta a message has reason to send, given the fleet before and after it. */
  ghost predicate Says(f: Devices, e: Event, f': Devices, cfg: Config, b: Body) {
    var d := e.key.device;
    var mine := Known(f', e.key) && !TellsOutage(e);
    match b
    case DeviceDiscovered(x) => x == d && d !in f
    case ReachabilityChanged(x, down, n) =>
      && x == d && d in f' && f'[d].unreachable == down && down != (d in f && f[d].unreachable)
      && n == if d in f then |f[d].components| else 0
    case ComponentDiscovered(k, path, hier) => k == e.key && mine && !Known(f, k) && path == e.path && hier == e.hier
    case ValueUpdated(k, ch) => k == e.key && mine && e.cls != Log && ch == SlotOf(e) && ch in Get(f', k).values
    case LivenessChanged(k, from, to) =>
      k == e.key && mine && from == Before(f, e, f'[d].unreachable, cfg).liveness && to == Get(f', k).liveness && from != to
    case CadenceChanged(k, interval) =>
      && k == e.key && mine && e.cls == Cfg && e.interval == Some(interval) && interval > 0
      && var c := Before(f, e, f'[d].unreachable, cfg); (c.interval != interval || !c.cadenceFromCfg)
    case ComponentRestarted(k, previous, uptime) =>
      && k == e.key && mine && e.cls == State && e.uptime == Some(uptime) && uptime < previous
      && Before(f, e, f'[d].unreachable, cfg).uptime == Some(previous)
    case InstancesChanged(k, instances) =>
      && k == e.key && mine && e.cls == State && e.instances == Some(instances)
      && Before(f, e, f'[d].unreachable, cfg).instances != Some(instances)
  }

  lemma StateSays(c: Component, e: Event, down: bool, b: Body)
    ensures b in UpdateState(c, e, down).deltas <==>
      match b
      case ComponentRestarted(k, previous, uptime) => k == e.key && e.uptime == Some(uptime) && c.uptime == Some(previous) && uptime < previous
      case InstancesChanged(k, instances) => k == e.key && e.instances == Some(instances) && c.instances != Some(instances)
      case LivenessChanged(k, from, to) => k == e.key && from == c.liveness && to == StateLiveness(e, down) && from != to
      case _ => false
  {
    hide StateLiveness;
    var s1 := UpdateUptime(c.(status := e.status, lastStateAt := Some(e.at)), e);
    var s2 := UpdateInstances(s1.component, e);
    assert s1.component.liveness == c.liveness && s1.component.instances == c.instances && s2.component.liveness == c.liveness;
  }

  lemma CacheSays(c: Component, e: Event, max: nat, b: Body)
    ensures var step := UpdateCache(c, e, max);
            b in step.deltas <==> b == ValueUpdated(e.key, SlotOf(e)) && SlotOf(e) in step.component.values
  {
  }

  lemma CadenceSays(c: Component, e: Event, b: Body)
    ensures b in UpdateCadence(c, e).deltas <==>
              && b.CadenceChanged? && b.key == e.key && e.cls == Cfg && e.interval == Some(b.interval) && b.interval > 0
              && (c.interval != b.interval || !c.cadenceFromCfg)
  {
  }

  /** What one message says about its component, and nothing else. */
  lemma UpdateSays(c: Component, e: Event, down: bool, cfg: Config, b: Body)
    ensures var step := UpdateComponent(c, e, down, cfg);
      b in step.deltas <==>
      match b
      case ValueUpdated(k, ch) => k == e.key && e.cls != Log && ch == SlotOf(e) && ch in step.component.values
      case ComponentRestarted(k, previous, uptime) =>
        k == e.key && e.cls == State && e.uptime == Some(uptime) && c.uptime == Some(previous) && uptime < previous
      case InstancesChanged(k, instances) => k == e.key && e.cls == State && e.instances == Some(instances) && c.instances != Some(instances)
      case LivenessChanged(k, from, to) => k == e.key && from == c.liveness && to == step.component.liveness && from != to
      case CadenceChanged(k, interval) =>
        k == e.key && e.cls == Cfg && e.interval == Some(interval) && interval > 0 && (c.interval != interval || !c.cadenceFromCfg)
      case _ => false
  {
    var s1 := if e.cls != Log then UpdateCache(c, e, cfg.maxChannels) else Step(c, []);
    var s2 := if e.cls == State then UpdateState(s1.component, e, down) else Step(s1.component, []);
    var s3 := UpdateCadence(s2.component, e);
    assert UpdateComponent(c, e, down, cfg) == Step(s3.component, s1.deltas + s2.deltas + s3.deltas);
    hide UpdateState, UpdateCache, UpdateCadence, SlotOf, StateLiveness;
    UpdateShows(c, e, down, cfg);
    if e.cls != Log {
      CacheSays(c, e, cfg.maxChannels, b);
      CacheFrame(c, e, cfg.maxChannels);
    }
    if e.cls == State {
      StateSays(s1.component, e, down, b);
      StateFields(s1.component, e, down);
    }
    CadenceSays(s2.component, e, b);
    CadenceFrame(s2.component, e);
    hide UpdateComponent;
  }

  /** The parts of what one message says, in order. */
  lemma IngestParts(f: Devices, e: Event, cfg: Config)
    ensures var out := IngestFleet(f, e, cfg);
            var d := e.key.device;
            var dev := EnsureDevice(f, d)[d];
            var down := ApplyTransition(dev, Transition(dev, e), e.at).unreachable;
            var first := (if d in f then [] else [DeviceDiscovered(d)]) + TransitionDelta(d, dev, Transition(dev, e));
            && d in out.devices && out.devices[d].unreachable == down
            && if TellsOutage(e) then out.deltas == first
               else
                 var step := UpdateComponent(Before(f, e, down, cfg), e, down, cfg);
                 && Known(out.devices, e.key) && Get(out.devices, e.key) == step.component
                 && out.deltas == first + (if Known(f, e.key) then [] else [ComponentDiscovered(e.key, e.path, e.hier)]) + step.deltas
  {
    hide UpdateComponent, TransitionDelta;
    var d := e.key.device;
    var dev := EnsureDevice(f, d)[d];
    var t := Transition(dev, e);
    var first := (if d in f then [] else [DeviceDiscovered(d)]) + TransitionDelta(d, dev, t);
    if !TellsOutage(e) {
      var r := UpsertComponent(ApplyTransition(dev, t, e.at), e, cfg);
      var found := if Known(f, e.key) then [] else [ComponentDiscovered(e.key, e.path, e.hier)];
      var step := UpdateComponent(Before(f, e, ApplyTransition(dev, t, e.at).unreachable, cfg), e, ApplyTransition(dev, t, e.at).unreachable, cfg);
      assert r.1 == found + step.deltas;
      assert first + (found + step.deltas) == first + found + step.deltas;
    }
  }

  lemma FirstSays(f: Devices, e: Event, b: Body)
    ensures var d := e.key.device;
            var dev := EnsureDevice(f, d)[d];
            var t := Transition(dev, e);
            var down := ApplyTransition(dev, t, e.at).unreachable;
            b in (if d in f then [] else [DeviceDiscovered(d)]) + TransitionDelta(d, dev, t) <==>
              || (b == DeviceDiscovered(d) && d !in f)
              || (b == ReachabilityChanged(d, down, if d in f then |f[d].components| else 0) && down != (d in f && f[d].unreachable))
  {
  }

  /** A message sends a delta exactly when it has reason to. */
  lemma IngestSays(f: Devices, e: Event, cfg: Config, b: Body)
    ensures var out := IngestFleet(f, e, cfg);
            b in out.deltas <==> Says(f, e, out.devices, cfg, b)
  {
    var d := e.key.device;
    var dev := EnsureDevice(f, d)[d];
    var down := ApplyTransition(dev, Transition(dev, e), e.at).unreachable;
    IngestParts(f, e, cfg);
    FirstSays(f, e, b);
    hide IngestFleet, SlotOf, TransitionDelta, Transition, ApplyTransition, TellsOutage, EnsureDevice;
    UpdateSays(Before(f, e, down, cfg), e, down, cfg, b);
    hide UpdateComponent, Before;
  }

  lemma UptimeBefore(f: Devices, ms: seq<Event>, e: Event, down: bool, cfg: Config)
    requires ComponentIs(f, ms, e.key, cfg)
    ensures Before(f, e, down, cfg).uptime == Last(Uptimes(Keepalives(Of(ms, e.key))))
  {
    hide CadenceIs, CacheIs, Falls, Instances;
  }

  /** Restarts over a history: a keepalive tells one exactly when its uptime is below the last
      one its component reported, and names both. */
  lemma RestartsTold(f: Devices, ms: seq<Event>, e: Event, cfg: Config, previous: real, uptime: real)
    requires FleetIs(f, ms, cfg)
    ensures var told := Uptimes(Keepalives(Of(ms, e.key)));
            ComponentRestarted(e.key, previous, uptime) in IngestFleet(f, e, cfg).deltas <==>
              && e.cls == State && !TellsOutage(e)
              && e.uptime == Some(uptime) && Last(told) == Some(previous) && uptime < previous
  {
    hide IngestFleet, Uptimes, Keepalives, Of, Last, TellsOutage, UpdateComponent, Transition, ApplyTransition, Before, RecordIs, DeviceIs;
    var out := IngestFleet(f, e, cfg);
    assert ComponentIs(f, ms, e.key, cfg);
    IngestSays(f, e, cfg, ComponentRestarted(e.key, previous, uptime));
    IngestDoes(f, e, cfg, e.key.device, e.key);
    UptimeBefore(f, ms, e, out.devices[e.key.device].unreachable, cfg);
    hide FleetIs, ComponentIs;
  }
}
