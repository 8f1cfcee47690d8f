/**
 The staleness ladder over whole stretches of gateway history (gateway/src/model.rs `sweep`
 and `ingest_fleet`): what can happen to one component between two of its keepalives.
 */
module Ladder {
  import opened Basics
  import opened Fleet

  function Rung(l: Liveness): nat {
    match l
    case FRESH => 0
    case WARN => 1
    case STALE => 2
    case OFFLINE => 3
    case STOPPED => 4
    case UNREACHABLE => 5
  }

  lemma LadderDescends(younger: nat, older: nat, interval: nat, cfg: Config)
    requires younger <= older
    ensures Rung(Fleet.Ladder(younger, interval, cfg)) <= Rung(Fleet.Ladder(older, interval, cfg)) <= 3
  {
    assert younger as real / 1000.0 <= older as real / 1000.0;
  }

  lemma NewIsFresh(interval: nat, cfg: Config)
    requires ValidConfig(cfg)
    ensures Fleet.Ladder(0, interval, cfg) == FRESH
  {
    NonNegative(interval as real, cfg.warnMultiplier);
    NonNegative(interval as real, cfg.staleMultiplier);
    NonNegative(interval as real, cfg.offlineMultiplier);
  }

  lemma NonNegative(a: real, b: real)
    requires a >= 0.0 && b >= 0.0
    ensures a * b >= 0.0
  {
  }

  // ------------------------------------------------------------------ histories

  datatype Action = Message(event: Event) | SweepAll(order: seq<Key>, now: nat)

  function TimeOf(a: Action): nat {
    if a.Message? then a.event.at else a.now
  }

  predicate Possible(f: Devices, a: Action) {
    a.SweepAll? ==> forall k <- a.order :: Known(f, k)
  }

  function Do(f: Devices, a: Action, cfg: Config): Devices
    requires Possible(f, a)
  {
    match a
    case Message(e) => IngestFleet(f, e, cfg).devices
    case SweepAll(order, now) => Sweep(f, order, now, cfg).0
  }

  function Run(f: Devices, actions: seq<Action>, cfg: Config): Option<Devices>
    decreases |actions|
  {
    if actions == [] then Some(f)
    else if Possible(f, actions[0]) then Run(Do(f, actions[0], cfg), actions[1..], cfg)
    else None
  }

  /** Actions carry the stamps of one timeline, which never runs back. */
  predicate InOrder(t: nat, actions: seq<Action>)
    decreases |actions|
  {
    actions == [] || (t <= TimeOf(actions[0]) && InOrder(TimeOf(actions[0]), actions[1..]))
  }

  function End(t: nat, actions: seq<Action>): nat
    decreases |actions|
  {
    if actions == [] then t else End(TimeOf(actions[0]), actions[1..])
  }

  /** No keepalive of `k` and no new cadence for it. */
  predicate LeavesAlone(a: Action, k: Key) {
    a.Message? && a.event.key == k ==> a.event.cls != State && !CarriesCadence(a.event)
  }

  // ------------------------------------------------------------------ one component

  /** What only a keepalive or a new cadence may change. */
  predicate SameBasis(c: Component, c': Component) {
    c.status == c'.status && c.lastStateAt == c'.lastStateAt && c.firstSeenAt == c'.firstSeenAt && c.interval == c'.interval
  }

  lemma IngestLeaves(f: Devices, e: Event, cfg: Config, k: Key)
    requires Known(f, k) && LeavesAlone(Message(e), k)
    ensures var f' := IngestFleet(f, e, cfg).devices;
            Known(f', k) && SameBasis(Get(f, k), Get(f', k)) && Get(f', k).liveness == Get(f, k).liveness
  {
  }

  lemma SweepStepIs(f: Devices, x: Key, now: nat, cfg: Config, k: Key)
    requires Known(f, k) && Known(f, x)
    ensures var f' := PutComponent(f, x, SweepComponent(Get(f, x), x, f[x.device].unreachable, now, cfg).component);
            && Known(f', k) && SameBasis(Get(f, k), Get(f', k)) && f'[k.device].unreachable == f[k.device].unreachable
            && Get(f', k).liveness ==
                 if x != k || f[k.device].unreachable || Get(f, k).status == Some("STOPPED") then Get(f, k).liveness
                 else Fleet.Ladder(Age(Get(f, k), now), Get(f, k).interval, cfg)
  {
  }

  /** A sweep brings a visited component exactly to the rung of its age, unless its device is
      unreachable or it is stopped; then, and if it is not visited, nothing changes. */
  lemma {:induction false} SweepSettles(f: Devices, order: seq<Key>, now: nat, cfg: Config, k: Key)
    requires Known(f, k) && forall x <- order :: Known(f, x)
    ensures var f' := Sweep(f, order, now, cfg).0;
            && Known(f', k) && SameBasis(Get(f, k), Get(f', k)) && f'[k.device].unreachable == f[k.device].unreachable
            && Get(f', k).liveness ==
                 if k !in order || f[k.device].unreachable || Get(f, k).status == Some("STOPPED") then Get(f, k).liveness
                 else Fleet.Ladder(Age(Get(f, k), now), Get(f, k).interval, cfg)
    decreases |order|
  {
    if order != [] {
      var x := order[0];
      var f1 := PutComponent(f, x, SweepComponent(Get(f, x), x, f[x.device].unreachable, now, cfg).component);
      SweepStepIs(f, x, now, cfg, k);
      SweepSettles(f1, order[1..], now, cfg, k);
      hide Fleet.Ladder, PutComponent, SweepComponent;
    }
  }

  /** The rung an age in milliseconds deserves at an expected interval in seconds. */
  predicate ShowsItsAge(shown: Liveness, ageMs: nat, interval: nat, cfg: Config) {
    var offline := ageMs as real > 1000.0 * interval as real * cfg.offlineMultiplier;
    var stale := ageMs as real > 1000.0 * interval as real * cfg.staleMultiplier;
    var warn := ageMs as real > 1000.0 * interval as real * cfg.warnMultiplier;
    && (shown == OFFLINE <==> offline)
    && (shown == STALE <==> !offline && stale)
    && (shown == WARN <==> !offline && !stale && warn)
    && (shown == FRESH <==> !offline && !stale && !warn)
  }

  /** Milliseconds since the last keepalive, or since the discovery when there was none. */
  function SilenceMs(c: Component, now: nat): nat {
    var since := if c.lastStateAt.Some? then c.lastStateAt.value else c.firstSeenAt;
    if since <= now then now - since else 0
  }

  lemma SecondsAgree(ageMs: nat, interval: nat, multiplier: real)
    ensures ageMs as real / 1000.0 > interval as real * multiplier <==> ageMs as real > 1000.0 * interval as real * multiplier
  {
    var bound := interval as real * multiplier;
    assert 1000.0 * interval as real * multiplier == 1000.0 * bound;
    assert ageMs as real == 1000.0 * (ageMs as real / 1000.0);
  }

  lemma LadderShowsAge(ageMs: nat, interval: nat, cfg: Config)
    ensures ShowsItsAge(Fleet.Ladder(ageMs, interval, cfg), ageMs, interval, cfg)
  {
    SecondsAgree(ageMs, interval, cfg.offlineMultiplier);
    SecondsAgree(ageMs, interval, cfg.staleMultiplier);
    SecondsAgree(ageMs, interval, cfg.warnMultiplier);
  }

  /** After a sweep, a visited component of a reachable device that is not stopped shows the rung
      of its silence, measured in milliseconds against its cadence in seconds; every other
      component shows what it did. */
  lemma SweepShowsAge(f: Devices, order: seq<Key>, now: nat, cfg: Config, k: Key)
    requires Known(f, k) && forall x <- order :: Known(f, x)
    ensures var f' := Sweep(f, order, now, cfg).0;
            && Known(f', k)
            && if k in order && !f[k.device].unreachable && Get(f, k).status != Some("STOPPED")
               then ShowsItsAge(Get(f', k).liveness, SilenceMs(Get(f, k), now), Get(f, k).interval, cfg)
               else Get(f', k).liveness == Get(f, k).liveness
  {
    SweepSettles(f, order, now, cfg, k);
    LadderShowsAge(Age(Get(f, k), now), Get(f, k).interval, cfg);
    assert Age(Get(f, k), now) == SilenceMs(Get(f, k), now);
    hide Sweep, Fleet.Ladder, ShowsItsAge;
  }

  /** A component that has reported state and shows a rung no lower than its age deserves. */
  predicate OnLadder(c: Component, now: nat, cfg: Config) {
    && c.lastStateAt.Some? && c.lastStateAt.value <= now
    && Rung(c.liveness) <= Rung(Fleet.Ladder(Age(c, now), c.interval, cfg))
  }

  lemma StaysOnLadder(c: Component, c': Component, now: nat, later: nat, cfg: Config)
    requires OnLadder(c, now, cfg) && now <= later && SameBasis(c, c')
    requires c'.liveness == c.liveness || c'.liveness == Fleet.Ladder(Age(c, later), c.interval, cfg)
    ensures OnLadder(c', later, cfg) && Rung(c.liveness) <= Rung(c'.liveness) <= 3
  {
    LadderDescends(Age(c, now), Age(c, later), c.interval, cfg);
    LadderDescends(Age(c, later), Age(c, later), c.interval, cfg);
    hide Fleet.Ladder;
  }

  lemma StepDescends(f: Devices, a: Action, now: nat, cfg: Config, k: Key)
    requires Known(f, k) && OnLadder(Get(f, k), now, cfg)
    requires Possible(f, a) && LeavesAlone(a, k) && now <= TimeOf(a)
    ensures var f' := Do(f, a, cfg);
            && Known(f', k) && SameBasis(Get(f, k), Get(f', k)) && OnLadder(Get(f', k), TimeOf(a), cfg)
            && Rung(Get(f, k).liveness) <= Rung(Get(f', k).liveness) <= 3
  {
    match a {
      case Message(e) => IngestLeaves(f, e, cfg, k);
      case SweepAll(order, t) => SweepSettles(f, order, t, cfg, k);
    }
    hide IngestFleet, Sweep, OnLadder, Fleet.Ladder;
    StaysOnLadder(Get(f, k), Get(Do(f, a, cfg), k), now, TimeOf(a), cfg);
  }

  /** Between two keepalives at constant cadence, whatever else happens, a component that has
      reported state only moves down the ladder FRESH, WARN, STALE, OFFLINE. */
  lemma {:induction false} OnlyDownBetweenKeepalives(f: Devices, actions: seq<Action>, now: nat, cfg: Config, k: Key)
    requires Known(f, k) && OnLadder(Get(f, k), now, cfg)
    requires Run(f, actions, cfg).Some? && InOrder(now, actions) && forall a <- actions :: LeavesAlone(a, k)
    ensures var f' := Run(f, actions, cfg).value;
            && Known(f', k) && SameBasis(Get(f, k), Get(f', k)) && OnLadder(Get(f', k), End(now, actions), cfg)
            && Rung(Get(f, k).liveness) <= Rung(Get(f', k).liveness) <= 3
    decreases |actions|
  {
    if actions == [] {
      LadderDescends(Age(Get(f, k), now), Age(Get(f, k), now), Get(f, k).interval, cfg);
    } else {
      hide OnLadder, Do, Known;
      StepDescends(f, actions[0], now, cfg, k);
      OnlyDownBetweenKeepalives(Do(f, actions[0], cfg), actions[1..], TimeOf(actions[0]), cfg, k);
    }
  }

  /** Every keepalive that does not say STOPPED starts such a stretch at FRESH. */
  lemma KeepaliveStartsFresh(f: Devices, e: Event, cfg: Config)
    requires ValidConfig(cfg)
    requires e.cls == State && !IsBridgeUnreachable(e) && e.status != Some("STOPPED")
    ensures var f' := IngestFleet(f, e, cfg).devices;
            Known(f', e.key) && Get(f', e.key).liveness == FRESH && OnLadder(Get(f', e.key), e.at, cfg)
  {
    var f' := IngestFleet(f, e, cfg).devices;
    var c := Get(f', e.key);
    assert c.liveness == FRESH && c.lastStateAt == Some(e.at);
    hide IngestFleet;
    NewIsFresh(c.interval, cfg);
  }

  // ------------------------------------------------------------------ stopped, and outages

  lemma StepKeepsStatus(f: Devices, a: Action, cfg: Config, k: Key)
    requires Known(f, k) && Possible(f, a) && FleetOk(f)
    requires a.Message? && a.event.key == k ==> a.event.cls != State
    ensures var f' := Do(f, a, cfg); Known(f', k) && Get(f', k).status == Get(f, k).status && FleetOk(f')
  {
    match a {
      case Message(e) => IngestKeepsFleetOk(f, e, cfg);
      case SweepAll(order, t) =>
        SweepKeepsFleetOk(f, order, t, cfg);
        SweepSettles(f, order, t, cfg, k);
    }
  }

  /** STOPPED is shown exactly while the last keepalive said so: sweeps, other messages and
      outages neither set nor clear it.  A stored UNREACHABLE means no keepalive ever came. */
  lemma {:induction false} StoppedIsHeld(f: Devices, actions: seq<Action>, cfg: Config, k: Key)
    requires Known(f, k) && FleetOk(f) && Run(f, actions, cfg).Some?
    requires forall a <- actions :: a.Message? && a.event.key == k ==> a.event.cls != State
    ensures var f' := Run(f, actions, cfg).value;
            && Known(f', k) && FleetOk(f')
            && (Get(f', k).liveness == STOPPED <==> Get(f, k).status == Some("STOPPED"))
            && (Get(f', k).liveness == UNREACHABLE ==> Get(f', k).lastStateAt.None?)
    decreases |actions|
  {
    if actions == [] {
      assert DeviceOk(f[k.device]);
      assert ComponentOk(Get(f, k));
    } else {
      StepKeepsStatus(f, actions[0], cfg, k);
      hide FleetOk, Known, Do;
      StoppedIsHeld(Do(f, actions[0], cfg), actions[1..], cfg, k);
    }
  }

  lemma StepInOutage(f: Devices, a: Action, cfg: Config, k: Key)
    requires Known(f, k) && Possible(f, a) && f[k.device].unreachable
    requires a.Message? && a.event.key.device == k.device ==> a.event.cls != State || IsBridgeUnreachable(a.event)
    ensures var f' := Do(f, a, cfg);
            Known(f', k) && f'[k.device].unreachable && Get(f', k).liveness == Get(f, k).liveness
  {
    if a.SweepAll? { SweepSettles(f, a.order, a.now, cfg, k); }
  }

  /** While a device is unreachable the stored liveness of its known components is frozen. */
  lemma {:induction false} FrozenInOutage(f: Devices, actions: seq<Action>, cfg: Config, k: Key)
    requires Known(f, k) && f[k.device].unreachable && Run(f, actions, cfg).Some?
    requires forall a <- actions ::
               a.Message? && a.event.key.device == k.device ==> a.event.cls != State || IsBridgeUnreachable(a.event)
    ensures var f' := Run(f, actions, cfg).value;
            Known(f', k) && f'[k.device].unreachable && Get(f', k).liveness == Get(f, k).liveness
    decreases |actions|
  {
    if actions != [] {
      StepInOutage(f, actions[0], cfg, k);
      hide Do;
      FrozenInOutage(Do(f, actions[0], cfg), actions[1..], cfg, k);
    }
  }

  // ------------------------------------------------------------------ the change notices

  ghost predicate NoRepeats(order: seq<Key>) {
    forall i, j | 0 <= i < j < |order| :: order[i] != order[j]
  }

  /** The notice a component's change of stored liveness deserves. */
  ghost predicate IsNotice(f: Devices, f': Devices, k: Key, b: Body) {
    && Known(f, k) && Known(f', k) && Get(f, k).liveness != Get(f', k).liveness
    && b == LivenessChanged(k, Get(f, k).liveness, Get(f', k).liveness)
  }

  lemma StepNotice(f: Devices, x: Key, now: nat, cfg: Config, k: Key)
    requires Known(f, x) && Known(f, k)
    ensures var step := SweepComponent(Get(f, x), x, f[x.device].unreachable, now, cfg);
            var f1 := PutComponent(f, x, step.component);
            && Known(f1, k) && (k != x ==> Get(f1, k) == Get(f, k)) && (k == x ==> Get(f1, k) == step.component)
            && forall b :: b in step.deltas <==>
                 step.component.liveness != Get(f, x).liveness
                 && b == LivenessChanged(x, Get(f, x).liveness, step.component.liveness)
  {
  }

  lemma RestNotice(f: Devices, f1: Devices, f': Devices, k: Key, b: Body)
    requires Known(f, k) && Known(f1, k) && Get(f1, k) == Get(f, k)
    ensures IsNotice(f1, f', k, b) <==> IsNotice(f, f', k, b)
  {
  }

  /** A sweep that visits each component at most once says exactly what it changed, from what,
      and to what. */
  lemma {:induction false} SweepNotices(f: Devices, order: seq<Key>, now: nat, cfg: Config, b: Body)
    requires NoRepeats(order) && forall x <- order :: Known(f, x)
    ensures var (f', bodies) := Sweep(f, order, now, cfg);
            b in bodies <==> exists k <- order :: IsNotice(f, f', k, b)
    decreases |order|
  {
    if order != [] {
      var x, rest := order[0], order[1..];
      var step := SweepComponent(Get(f, x), x, f[x.device].unreachable, now, cfg);
      var f1 := PutComponent(f, x, step.component);
      var (f', bodies) := Sweep(f1, rest, now, cfg);
      SweepNotices(f1, rest, now, cfg, b);
      SweepSettles(f1, rest, now, cfg, x);
      StepNotice(f, x, now, cfg, x);
      assert x !in rest && order == [x] + rest;
      assert Sweep(f, order, now, cfg) == (f', step.deltas + bodies);
      assert b in step.deltas <==> IsNotice(f, f', x, b);
      hide Sweep, PutComponent, SweepComponent, SameBasis, Fleet.Ladder, NoRepeats, Known;
      forall k | k in rest ensures IsNotice(f1, f', k, b) <==> IsNotice(f, f', k, b) {
        StepNotice(f, x, now, cfg, k);
        RestNotice(f, f1, f', k, b);
      }
      hide IsNotice;
      assert (exists k <- order :: IsNotice(f, f', k, b)) <==> IsNotice(f, f', x, b) || exists k <- rest :: IsNotice(f, f', k, b);
    }
  }

  lemma StateNotices(c: Component, e: Event, down: bool, b: Body)
    requires b.LivenessChanged?
    ensures var step := UpdateState(c, e, down);
            b in step.deltas <==> step.component.liveness != c.liveness
                                  && b == LivenessChanged(e.key, c.liveness, step.component.liveness)
  {
    var s1 := UpdateUptime(c.(status := e.status, lastStateAt := Some(e.at)), e);
    var s2 := UpdateInstances(s1.component, e);
    assert b !in s1.deltas && b !in s2.deltas && s2.component.liveness == c.liveness;
    hide UpdateUptime, UpdateInstances, StateLiveness;
  }

  /** What an update of one record says about its liveness. */
  lemma UpdateNotices(c: Component, e: Event, down: bool, cfg: Config, b: Body)
    requires b.LivenessChanged?
    ensures var step := UpdateComponent(c, e, down, cfg);
            b in step.deltas <==> step.component.liveness != c.liveness
                                  && b == LivenessChanged(e.key, c.liveness, step.component.liveness)
  {
    var s1 := if e.cls != Log then UpdateCache(c, e, cfg.maxChannels) else Step(c, []);
    var s2 := if e.cls == State then UpdateState(s1.component, e, down) else Step(s1.component, []);
    var s3 := UpdateCadence(s2.component, e);
    assert b !in s1.deltas && s1.component.liveness == c.liveness;
    assert b !in s3.deltas && s3.component.liveness == s2.component.liveness;
    StateNotices(s1.component, e, down, b);
    hide UpdateCache, UpdateState, UpdateCadence;
  }

  /** What the component half of a message says about liveness. */
  lemma UpsertNotices(dev: Device, e: Event, cfg: Config, b: Body)
    requires b.LivenessChanged?
    ensures var (dev', deltas) := UpsertComponent(dev, e, cfg);
            var k := e.key.component;
            var before := (if k in dev.components then dev.components[k] else NewComponent(e, dev.unreachable, cfg)).liveness;
            && k in dev'.components && dev'.components == dev.components[k := dev'.components[k]]
            && (b in deltas <==> dev'.components[k].liveness != before && b == LivenessChanged(e.key, before, dev'.components[k].liveness))
  {
    var c := if e.key.component in dev.components then dev.components[e.key.component] else NewComponent(e, dev.unreachable, cfg);
    UpdateNotices(c, e, dev.unreachable, cfg, b);
    hide UpdateComponent, NewComponent;
  }

  /** A message says exactly which known component's stored liveness it changed, and how. */
  lemma IngestNotices(f: Devices, e: Event, cfg: Config, b: Body)
    requires b.LivenessChanged? && Known(f, b.key)
    ensures b in IngestFleet(f, e, cfg).deltas <==> IsNotice(f, IngestFleet(f, e, cfg).devices, b.key, b)
  {
    var dev := EnsureDevice(f, e.key.device)[e.key.device];
    var dev1 := ApplyTransition(dev, Transition(dev, e), e.at);
    assert b !in TransitionDelta(e.key.device, dev, Transition(dev, e)) && dev1.components == dev.components;
    UpsertNotices(dev1, e, cfg, b);
    hide UpsertComponent, NewComponent, IsBridgeUnreachable, TransitionDelta, ApplyTransition, Transition;
  }
}
