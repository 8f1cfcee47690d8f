/**
 What the browser store holds of the gateway's fleet, in every reachable case: the records are
 the same; the liveness ladder and the cadence are what the history since the browser's
 snapshot makes of them.  `Knowledge` is that history, kept per component from the gateway's
 side alone: which ladders the deltas have settled, which one a snapshot hid, and which one
 the browser had to guess when an outage ended.
 */
module FleetMirror {
  import opened Basics
  import opened Fleet
  import opened FleetStore

  // ------------------------------------------------------------------ knowledge

  /** What the deltas since the snapshot say about a component's ladder: its stored value, nothing
      since an outage hid it, or nothing but the value the browser filled in. */
  datatype LadderKnowledge = Exact | Hidden | Guessed(guess: Liveness)

  /** `cadence`: the snapshot or a delta carried the component's cadence. */
  datatype Knowledge = Knowledge(ladder: LadderKnowledge, cadence: bool)

  type DeviceKnowledge = map<string, Knowledge>

  type FleetKnowledge = map<string, DeviceKnowledge>

  predicate Covers(kn: FleetKnowledge, k: Key) {
    k.device in kn && k.component in kn[k.device]
  }

  function KnowledgeOf(kn: FleetKnowledge, k: Key): Knowledge
    requires Covers(kn, k)
  {
    kn[k.device][k.component]
  }

  /** A snapshot carries every cadence, and the ladders it does not show UNREACHABLE. */
  function ShownBy(f: Devices): FleetKnowledge {
    map d <- f :: map c <- f[d].components ::
      Knowledge(if EffectiveLiveness(f[d], f[d].components[c]) == UNREACHABLE then Hidden else Exact, true)
  }

  /** What the browser fills in for a hidden ladder when the outage ends. */
  function Guess(c: Component, at: nat, opts: LadderOptions): Liveness {
    if c.status == Some("STOPPED") then STOPPED
    else if c.lastStateAt.Some? then LadderForAge(at - c.lastStateAt.value, c.interval, opts)
    else OFFLINE
  }

  function Refill(dev: Device, kd: DeviceKnowledge, at: nat, opts: LadderOptions): DeviceKnowledge {
    map c <- kd | c in dev.components ::
      if kd[c].ladder.Hidden? then kd[c].(ladder := Guessed(Guess(dev.components[c], at, opts))) else kd[c]
  }

  /** Whether a state message re-commits the browser's ladder: its delta gets past the channel cap. */
  predicate Recommits(c: Component, e: Event, cfg: Config) {
    e.cls == State && UpdateCache(c, e, cfg.maxChannels).deltas != []
  }

  /** A re-commit or a change notice settles the ladder; a cadence message settles the cadence. */
  function KnowledgeAfter(c: Component, e: Event, down: bool, cfg: Config, k: Knowledge): Knowledge {
    var changed := UpdateComponent(c, e, down, cfg).component.liveness != c.liveness;
    Knowledge(if Recommits(c, e, cfg) || changed then Exact else k.ladder, k.cadence || CarriesCadence(e))
  }

  function RecordFor(dev: Device, e: Event, cfg: Config): Component {
    if e.key.component in dev.components then dev.components[e.key.component]
    else NewComponent(e, dev.unreachable, cfg)
  }

  /** Discovery shows FRESH, which is what the gateway stores unless the device is down. */
  function KnowledgeFor(kd: DeviceKnowledge, c: string, down: bool): Knowledge {
    if c in kd then kd[c] else Knowledge(if down then Guessed(FRESH) else Exact, false)
  }

  function LearnDevice(dev: Device, e: Event, kd: DeviceKnowledge, cfg: Config, opts: LadderOptions): DeviceKnowledge {
    var t := Transition(dev, e);
    var dev1 := ApplyTransition(dev, t, e.at);
    var kd1 := if t == Some(false) then Refill(dev, kd, e.at, opts) else kd;
    if IsBridgeUnreachable(e) then kd1
    else
      var c := e.key.component;
      kd1[c := KnowledgeAfter(RecordFor(dev1, e, cfg), e, dev1.unreachable, cfg, KnowledgeFor(kd1, c, dev1.unreachable))]
  }

  function LearnIngest(kn: FleetKnowledge, f: Devices, e: Event, cfg: Config, opts: LadderOptions): FleetKnowledge {
    var d := e.key.device;
    kn[d := LearnDevice(EnsureDevice(f, d)[d], e, if d in kn then kn[d] else map[], cfg, opts)]
  }

  function Settle(kn: FleetKnowledge, k: Key): FleetKnowledge {
    if Covers(kn, k) then kn[k.device := kn[k.device][k.component := KnowledgeOf(kn, k).(ladder := Exact)]] else kn
  }

  function LearnSweep(kn: FleetKnowledge, f: Devices, order: seq<Key>, now: nat, cfg: Config): FleetKnowledge
    requires forall k <- order :: Known(f, k)
    decreases |order|
  {
    if order == [] then kn
    else
      var k := order[0];
      var step := SweepComponent(Get(f, k), k, f[k.device].unreachable, now, cfg);
      LearnSweep(if step.deltas == [] then kn else Settle(kn, k), PutComponent(f, k, step.component), order[1..], now, cfg)
  }

  // ------------------------------------------------------------------ relations

  ghost predicate SameCadence(c: Component, m: ClientComponent) {
    c.interval == m.interval && c.cadenceFromCfg == m.cadenceFromCfg
  }

  /** Everything the deltas carry about one component, its cadence and ladder aside. */
  ghost predicate SameRecord(c: Component, m: ClientComponent) {
    && c.path == m.path && c.hier == m.hier
    && c.restarts == m.restarts && c.instances == m.instances
    && c.values.Keys == m.values.Keys
    && (forall ch <- c.values :: c.values[ch].at == m.values[ch].at)
  }

  ghost predicate LadderIs(c: Component, m: ClientComponent, l: LadderKnowledge) {
    match l
    case Exact => m.ladder == Some(c.liveness) && c.liveness != UNREACHABLE
    case Hidden => m.ladder.None? && m.status == c.status && m.lastStateAt == c.lastStateAt
    case Guessed(g) => m.ladder == Some(g) && g != UNREACHABLE && (g == STOPPED <==> c.liveness == STOPPED)
  }

  /** Both cadences agree once one was carried; until then each side sits at its own default. */
  ghost predicate CadenceIs(c: Component, m: ClientComponent, carried: bool, cfg: Config, opts: LadderOptions) {
    if carried then SameCadence(c, m)
    else c.interval == cfg.defaultInterval && m.interval == opts.defaultInterval && !c.cadenceFromCfg && !m.cadenceFromCfg
  }

  ghost predicate ComponentTracks(c: Component, m: ClientComponent, k: Knowledge, cfg: Config, opts: LadderOptions) {
    SameRecord(c, m) && LadderIs(c, m, k.ladder) && CadenceIs(c, m, k.cadence, cfg, opts) && (k.ladder.Hidden? ==> k.cadence)
  }

  ghost predicate HiddenOnlyInOutage(down: bool, c: Component, k: Knowledge) {
    k.ladder.Hidden? ==> down || c.liveness == UNREACHABLE
  }

  ghost predicate DeviceTracks(dev: Device, m: ClientDevice, kd: DeviceKnowledge, cfg: Config, opts: LadderOptions) {
    && dev.unreachable == m.unreachable && dev.since == m.since
    && dev.components.Keys == m.components.Keys == kd.Keys
    && (forall c <- dev.components ::
          && ComponentTracks(dev.components[c], m.components[c], kd[c], cfg, opts)
          && HiddenOnlyInOutage(dev.unreachable, dev.components[c], kd[c]))
  }

  /** The browser's fleet `s` is what a browser with knowledge `kn` holds of the gateway's `f`. */
  ghost predicate Tracks(f: Devices, s: ClientDevices, kn: FleetKnowledge, cfg: Config, opts: LadderOptions) {
    f.Keys == s.Keys == kn.Keys && forall d <- f :: DeviceTracks(f[d], s[d], kn[d], cfg, opts)
  }

  // ------------------------------------------------------------------ one component

  function FoldBodies(m: ClientComponent, bodies: seq<Body>, at: nat): ClientComponent
    decreases |bodies|
  {
    if bodies == [] then m else FoldBodies(FoldComponent(m, bodies[0], at), bodies[1..], at)
  }

  lemma {:induction false} FoldBodiesConcat(m: ClientComponent, a: seq<Body>, b: seq<Body>, at: nat)
    ensures FoldBodies(m, a + b, at) == FoldBodies(FoldBodies(m, a, at), b, at)
    decreases |a|
  {
    if a == [] {
      assert a + b == b;
    } else {
      assert (a + b)[1..] == a[1..] + b;
      FoldBodiesConcat(FoldComponent(m, a[0], at), a[1..], b, at);
    }
  }

  lemma FoldOne(m: ClientComponent, body: Body, at: nat)
    ensures FoldBodies(m, [body], at) == FoldComponent(m, body, at)
  {
    assert [body][1..] == [];
  }

  lemma FoldThree(m: ClientComponent, a: seq<Body>, b: seq<Body>, c: seq<Body>, at: nat)
    ensures FoldBodies(m, a + b + c, at) == FoldBodies(FoldBodies(FoldBodies(m, a, at), b, at), c, at)
  {
    FoldBodiesConcat(m, a + b, c, at);
    FoldBodiesConcat(m, a, b, at);
  }

  lemma CacheStep(c: Component, m: ClientComponent, e: Event, max: nat)
    requires SameRecord(c, m)
    ensures var s := UpdateCache(c, e, max);
            var m' := FoldBodies(m, s.deltas, e.at);
            && SameRecord(s.component, m') && s.component.liveness == c.liveness && s.component.status == c.status
            && s.component.interval == c.interval && s.component.cadenceFromCfg == c.cadenceFromCfg
            && m'.interval == m.interval && m'.cadenceFromCfg == m.cadenceFromCfg && m'.status == m.status
            && s.component.lastStateAt == c.lastStateAt && (e.cls != State ==> m'.lastStateAt == m.lastStateAt)
            && m'.ladder == (if e.cls == State && s.deltas != [] && m.ladder != Some(STOPPED) then Some(FRESH) else m.ladder)
  {
    if UpdateCache(c, e, max).deltas != [] {
      FoldOne(m, ValueUpdated(e.key, Channel(e.instance, e.cls, e.name)), e.at);
    }
  }

  lemma UptimeStep(c: Component, m: ClientComponent, e: Event)
    requires SameRecord(c, m)
    ensures var s := UpdateUptime(c, e);
            var m' := FoldBodies(m, s.deltas, e.at);
            && SameRecord(s.component, m') && s.component.liveness == c.liveness
            && s.component.interval == c.interval && s.component.cadenceFromCfg == c.cadenceFromCfg
            && m'.interval == m.interval && m'.cadenceFromCfg == m.cadenceFromCfg && m'.ladder == m.ladder
  {
    if UpdateUptime(c, e).deltas != [] {
      FoldOne(m, ComponentRestarted(e.key, c.uptime.value, e.uptime.value), e.at);
    }
  }

  lemma InstancesStep(c: Component, m: ClientComponent, e: Event)
    requires SameRecord(c, m)
    ensures var s := UpdateInstances(c, e);
            var m' := FoldBodies(m, s.deltas, e.at);
            && SameRecord(s.component, m') && s.component.liveness == c.liveness
            && s.component.interval == c.interval && s.component.cadenceFromCfg == c.cadenceFromCfg
            && m'.interval == m.interval && m'.cadenceFromCfg == m.cadenceFromCfg && m'.ladder == m.ladder
  {
    if UpdateInstances(c, e).deltas != [] {
      FoldOne(m, InstancesChanged(e.key, e.instances.value), e.at);
    }
  }

  lemma LivenessStep(c: Component, m: ClientComponent, k: Key, next: Liveness, at: nat)
    requires SameRecord(c, m)
    ensures var s := UpdateLiveness(c, k, next);
            var m' := FoldBodies(m, s.deltas, at);
            && SameRecord(s.component, m') && s.component == c.(liveness := next)
            && m'.interval == m.interval && m'.cadenceFromCfg == m.cadenceFromCfg
            && m'.ladder == (if c.liveness != next && next != UNREACHABLE then Some(next) else m.ladder)
  {
    if UpdateLiveness(c, k, next).deltas != [] {
      FoldOne(m, LivenessChanged(k, c.liveness, next), at);
    }
  }

  lemma StateStep(c: Component, m: ClientComponent, e: Event, down: bool)
    requires SameRecord(c, m)
    ensures var s := UpdateState(c, e, down);
            var m' := FoldBodies(m, s.deltas, e.at);
            var next := StateLiveness(e, down);
            && SameRecord(s.component, m') && s.component.liveness == next
            && s.component.interval == c.interval && s.component.cadenceFromCfg == c.cadenceFromCfg
            && m'.interval == m.interval && m'.cadenceFromCfg == m.cadenceFromCfg
            && m'.ladder == (if c.liveness != next && next != UNREACHABLE then Some(next) else m.ladder)
  {
    var c0 := c.(status := e.status, lastStateAt := Some(e.at));
    var s1 := UpdateUptime(c0, e);
    var s2 := UpdateInstances(s1.component, e);
    var s3 := UpdateLiveness(s2.component, e.key, StateLiveness(e, down));
    FoldThree(m, s1.deltas, s2.deltas, s3.deltas, e.at);
    UptimeStep(c0, m, e);
    var m1 := FoldBodies(m, s1.deltas, e.at);
    InstancesStep(s1.component, m1, e);
    LivenessStep(s2.component, FoldBodies(m1, s2.deltas, e.at), e.key, StateLiveness(e, down), e.at);
  }

  lemma CadenceStep(c: Component, m: ClientComponent, e: Event, carried: bool, cfg: Config, opts: LadderOptions)
    requires SameRecord(c, m) && CadenceIs(c, m, carried, cfg, opts)
    ensures var s := UpdateCadence(c, e);
            var m' := FoldBodies(m, s.deltas, e.at);
            && SameRecord(s.component, m') && s.component.liveness == c.liveness && s.component.status == c.status
            && s.component.lastStateAt == c.lastStateAt && m'.lastStateAt == m.lastStateAt
            && m'.ladder == m.ladder && m'.status == m.status
            && CadenceIs(s.component, m', carried || CarriesCadence(e), cfg, opts)
  {
    if UpdateCadence(c, e).deltas != [] {
      FoldOne(m, CadenceChanged(e.key, e.interval.value), e.at);
    }
  }

  /** One message's deltas about one component, whatever the browser knows of it. */
  lemma ComponentStep(c: Component, m: ClientComponent, e: Event, down: bool, k: Knowledge, cfg: Config, opts: LadderOptions)
    requires ComponentOk(c) && ComponentTracks(c, m, k, cfg, opts) && HiddenOnlyInOutage(down, c, k)
    requires e.cls == State ==> !down
    ensures var s := UpdateComponent(c, e, down, cfg);
            var m' := FoldBodies(m, s.deltas, e.at);
            var k' := KnowledgeAfter(c, e, down, cfg, k);
            ComponentTracks(s.component, m', k', cfg, opts) && HiddenOnlyInOutage(down, s.component, k')
  {
    var s1 := if e.cls != Log then UpdateCache(c, e, cfg.maxChannels) else Step(c, []);
    var s2 := if e.cls == State then UpdateState(s1.component, e, down) else Step(s1.component, []);
    var s3 := UpdateCadence(s2.component, e);
    FoldThree(m, s1.deltas, s2.deltas, s3.deltas, e.at);
    if e.cls != Log { CacheStep(c, m, e, cfg.maxChannels); }
    var m1 := FoldBodies(m, s1.deltas, e.at);
    if e.cls == State { StateStep(s1.component, m1, e, down); }
    var m2 := FoldBodies(m1, s2.deltas, e.at);
    CadenceStep(s2.component, m2, e, k.cadence, cfg, opts);
    hide UpdateCache, UpdateState, UpdateCadence, SameRecord, FoldBodies, CarriesCadence;
  }

  // ------------------------------------------------------------------ one device

  function FoldDeviceBodies(m: ClientDevice, bodies: seq<Body>, at: nat, opts: LadderOptions): ClientDevice
    decreases |bodies|
  {
    if bodies == [] then m else FoldDeviceBodies(FoldDevice(m, bodies[0], at, opts), bodies[1..], at, opts)
  }

  lemma {:induction false} FoldDeviceConcat(m: ClientDevice, a: seq<Body>, b: seq<Body>, at: nat, opts: LadderOptions)
    ensures FoldDeviceBodies(m, a + b, at, opts) == FoldDeviceBodies(FoldDeviceBodies(m, a, at, opts), b, at, opts)
    decreases |a|
  {
    if a == [] {
      assert a + b == b;
    } else {
      assert (a + b)[1..] == a[1..] + b;
      FoldDeviceConcat(FoldDevice(m, a[0], at, opts), a[1..], b, at, opts);
    }
  }

  lemma FoldDeviceOne(m: ClientDevice, body: Body, at: nat, opts: LadderOptions)
    ensures FoldDeviceBodies(m, [body], at, opts) == FoldDevice(m, body, at, opts)
  {
    assert [body][1..] == [];
  }

  /** Deltas about one device change that device only. */
  lemma {:induction false} ApplyDeviceBodies(s: ClientDevices, d: string, bodies: seq<Body>, at: nat, opts: LadderOptions)
    requires d in s
    requires forall b <- bodies :: DeviceOf(b) == d
    ensures ApplyBodies(s, bodies, at, opts) == s[d := FoldDeviceBodies(s[d], bodies, at, opts)]
    decreases |bodies|
  {
    if bodies == [] {
      assert s[d := s[d]] == s;
    } else {
      var s1 := s[d := FoldDevice(s[d], bodies[0], at, opts)];
      assert ApplyDelta(s, bodies[0], at, opts) == s1;
      ApplyDeviceBodies(s1, d, bodies[1..], at, opts);
      var last := FoldDeviceBodies(s1[d], bodies[1..], at, opts);
      assert s1[d := last] == s[d := last];
    }
  }

  predicate AboutComponent(body: Body, k: Key) {
    !body.DeviceDiscovered? && !body.ComponentDiscovered? && !body.ReachabilityChanged? && body.key == k
  }

  lemma {:induction false} FoldComponentBodies(m: ClientDevice, k: Key, bodies: seq<Body>, at: nat, opts: LadderOptions)
    requires k.component in m.components
    requires forall b <- bodies :: AboutComponent(b, k)
    ensures FoldDeviceBodies(m, bodies, at, opts)
         == m.(components := m.components[k.component := FoldBodies(m.components[k.component], bodies, at)])
    decreases |bodies|
  {
    var c := k.component;
    if bodies == [] {
      assert m.components[c := m.components[c]] == m.components;
    } else {
      assert AboutComponent(bodies[0], k);
      var m1 := m.(components := m.components[c := FoldComponent(m.components[c], bodies[0], at)]);
      assert FoldDevice(m, bodies[0], at, opts) == m1;
      FoldComponentBodies(m1, k, bodies[1..], at, opts);
      var last := FoldBodies(m1.components[c], bodies[1..], at);
      assert m1.components[c := last] == m.components[c := last];
    }
  }

  lemma UpdateDeltasAbout(c: Component, e: Event, down: bool, cfg: Config)
    ensures forall b <- UpdateComponent(c, e, down, cfg).deltas :: AboutComponent(b, e.key)
  {
  }

  lemma FillTracks(c: Component, m: ClientComponent, k: Knowledge, at: nat, cfg: Config, opts: LadderOptions)
    requires ComponentOk(c) && ComponentTracks(c, m, k, cfg, opts)
    ensures var k' := if k.ladder.Hidden? then k.(ladder := Guessed(Guess(c, at, opts))) else k;
            ComponentTracks(c, FillUnknownLadder(m, at, opts), k', cfg, opts)
  {
    if k.ladder.Hidden? && c.lastStateAt.Some? {
      assert LadderForAge(at - c.lastStateAt.value, c.interval, opts) !in {STOPPED, UNREACHABLE};
      hide LadderForAge;
    }
  }

  lemma FillDeviceTracks(dev: Device, m: ClientDevice, kd: DeviceKnowledge, at: nat, cfg: Config, opts: LadderOptions)
    requires DeviceOk(dev) && DeviceTracks(dev, m, kd, cfg, opts)
    ensures var dev', m' := dev.(unreachable := false, since := None), FoldReachability(m, false, at, opts);
            DeviceOk(dev') && DeviceTracks(dev', m', Refill(dev, kd, at, opts), cfg, opts)
  {
    hide ComponentTracks, ComponentOk, FillUnknownLadder, Guess;
    forall c | c in dev.components
      ensures var k' := Refill(dev, kd, at, opts)[c];
              ComponentTracks(dev.components[c], FillUnknownLadder(m.components[c], at, opts), k', cfg, opts) && !k'.ladder.Hidden?
    {
      FillTracks(dev.components[c], m.components[c], kd[c], at, cfg, opts);
    }
  }

  lemma TransitionTracks(dev: Device, m: ClientDevice, kd: DeviceKnowledge, e: Event, cfg: Config, opts: LadderOptions)
    requires DeviceOk(dev) && DeviceTracks(dev, m, kd, cfg, opts)
    ensures var t := Transition(dev, e);
            var dev' := ApplyTransition(dev, t, e.at);
            var m' := FoldDeviceBodies(m, TransitionDelta(e.key.device, dev, t), e.at, opts);
            DeviceOk(dev') && DeviceTracks(dev', m', if t == Some(false) then Refill(dev, kd, e.at, opts) else kd, cfg, opts)
  {
    var t := Transition(dev, e);
    match t {
      case None =>
      case Some(true) => FoldDeviceOne(m, ReachabilityChanged(e.key.device, true, |dev.components|), e.at, opts);
      case Some(false) =>
        FoldDeviceOne(m, ReachabilityChanged(e.key.device, false, |dev.components|), e.at, opts);
        FillDeviceTracks(dev, m, kd, e.at, cfg, opts);
    }
    hide ComponentTracks, Refill, ComponentOk;
  }

  /** Replacing, or adding, one tracked component. */
  lemma PutTracks(dev: Device, m: ClientDevice, kd: DeviceKnowledge, c: string, r: Component, mr: ClientComponent, k: Knowledge, cfg: Config, opts: LadderOptions)
    requires DeviceTracks(dev, m, kd, cfg, opts)
    requires ComponentTracks(r, mr, k, cfg, opts) && HiddenOnlyInOutage(dev.unreachable, r, k)
    ensures DeviceTracks(dev.(components := dev.components[c := r]), m.(components := m.components[c := mr]), kd[c := k], cfg, opts)
  {
    hide ComponentTracks, HiddenOnlyInOutage;
    assert dev.components[c := r].Keys == dev.components.Keys + {c};
    assert m.components[c := mr].Keys == m.components.Keys + {c} && kd[c := k].Keys == kd.Keys + {c};
  }

  function MirrorRecordFor(m: ClientDevice, e: Event, opts: LadderOptions): ClientComponent {
    if e.key.component in m.components then m.components[e.key.component]
    else NewClientComponent(e.path, e.hier, opts)
  }

  lemma RecordsTrack(dev: Device, m: ClientDevice, kd: DeviceKnowledge, e: Event, cfg: Config, opts: LadderOptions)
    requires DeviceOk(dev) && DeviceTracks(dev, m, kd, cfg, opts)
    ensures var c, mc := RecordFor(dev, e, cfg), MirrorRecordFor(m, e, opts);
            var k := KnowledgeFor(kd, e.key.component, dev.unreachable);
            ComponentOk(c) && ComponentTracks(c, mc, k, cfg, opts) && HiddenOnlyInOutage(dev.unreachable, c, k)
  {
  }

  /** Folding the deltas of the component half touches exactly that component's record. */
  lemma FoldUpsert(dev: Device, m: ClientDevice, e: Event, cfg: Config, opts: LadderOptions)
    requires dev.components.Keys == m.components.Keys
    ensures var mc := MirrorRecordFor(m, e, opts);
            var step := UpdateComponent(RecordFor(dev, e, cfg), e, dev.unreachable, cfg);
            FoldDeviceBodies(m, UpsertComponent(dev, e, cfg).1, e.at, opts)
            == m.(components := m.components[e.key.component := FoldBodies(mc, step.deltas, e.at)])
  {
    var c := e.key.component;
    var step := UpdateComponent(RecordFor(dev, e, cfg), e, dev.unreachable, cfg);
    var first := if c !in dev.components then [ComponentDiscovered(e.key, e.path, e.hier)] else [];
    var m1 := FoldDeviceBodies(m, first, e.at, opts);
    if c !in dev.components { FoldDeviceOne(m, first[0], e.at, opts); }
    FoldDeviceConcat(m, first, step.deltas, e.at, opts);
    UpdateDeltasAbout(RecordFor(dev, e, cfg), e, dev.unreachable, cfg);
    FoldComponentBodies(m1, e.key, step.deltas, e.at, opts);
    var mr := FoldBodies(m1.components[c], step.deltas, e.at);
    assert m1.components[c := mr] == m.components[c := mr];
  }

  /** The component half of an ingest, on a device whose outage flag is already settled. */
  lemma UpsertTracks(dev: Device, m: ClientDevice, kd: DeviceKnowledge, e: Event, cfg: Config, opts: LadderOptions)
    requires DeviceOk(dev) && DeviceTracks(dev, m, kd, cfg, opts)
    requires e.cls == State ==> !dev.unreachable
    ensures var (dev', deltas) := UpsertComponent(dev, e, cfg);
            var c := e.key.component;
            var k' := KnowledgeAfter(RecordFor(dev, e, cfg), e, dev.unreachable, cfg, KnowledgeFor(kd, c, dev.unreachable));
            DeviceTracks(dev', FoldDeviceBodies(m, deltas, e.at, opts), kd[c := k'], cfg, opts)
  {
    var c := e.key.component;
    var record, mr := RecordFor(dev, e, cfg), MirrorRecordFor(m, e, opts);
    var k := KnowledgeFor(kd, c, dev.unreachable);
    var step := UpdateComponent(record, e, dev.unreachable, cfg);
    RecordsTrack(dev, m, kd, e, cfg, opts);
    FoldUpsert(dev, m, e, cfg, opts);
    assert UpsertComponent(dev, e, cfg).0 == dev.(components := dev.components[c := step.component]);
    hide DeviceTracks, ComponentTracks, UpdateComponent, UpsertComponent, KnowledgeAfter, DeviceOk, ComponentOk, HiddenOnlyInOutage;
    ComponentStep(record, mr, e, dev.unreachable, k, cfg, opts);
    PutTracks(dev, m, kd, c, step.component, FoldBodies(mr, step.deltas, e.at), KnowledgeAfter(record, e, dev.unreachable, cfg, k), cfg, opts);
  }

  // ------------------------------------------------------------------ ingest

  lemma PutDeviceTracks(f: Devices, s: ClientDevices, kn: FleetKnowledge, d: string, dev: Device, m: ClientDevice, kd: DeviceKnowledge,
                        cfg: Config, opts: LadderOptions)
    requires Tracks(f, s, kn, cfg, opts) && DeviceTracks(dev, m, kd, cfg, opts)
    ensures Tracks(f[d := dev], s[d := m], kn[d := kd], cfg, opts)
  {
    hide DeviceTracks;
    assert f[d := dev].Keys == f.Keys + {d} && s[d := m].Keys == s.Keys + {d} && kn[d := kd].Keys == kn.Keys + {d};
  }

  lemma EnsureDeviceTracks(f: Devices, s: ClientDevices, kn: FleetKnowledge, d: string, at: nat, cfg: Config, opts: LadderOptions)
    requires Tracks(f, s, kn, cfg, opts) && FleetOk(f)
    ensures var s1 := ApplyBodies(s, if d in f then [] else [DeviceDiscovered(d)], at, opts);
            Tracks(EnsureDevice(f, d), s1, Ensured(kn, d), cfg, opts) && FleetOk(EnsureDevice(f, d))
  {
    assert d in f <==> d in kn;
    if d !in f {
      var dev, m := Device(false, None, map[]), ClientDevice(false, None, map[]);
      assert ApplyBodies(s, [DeviceDiscovered(d)], at, opts) == s[d := m] by { assert [DeviceDiscovered(d)][1..] == []; }
      hide FleetOk, ApplyBodies, ApplyDelta;
      assert FleetOk(f[d := dev]) by { NewDeviceOk(f, d); }
      PutDeviceTracks(f, s, kn, d, dev, m, map[], cfg, opts);
    }
  }

  lemma NewDeviceOk(f: Devices, d: string)
    requires FleetOk(f)
    ensures FleetOk(f[d := Device(false, None, map[])])
  {
  }

  /** The part of an ingest after the device record exists. */
  function DeviceDeltas(dev: Device, e: Event, cfg: Config): (r: (Device, seq<Body>)) {
    var t := Transition(dev, e);
    var dev1 := ApplyTransition(dev, t, e.at);
    var d2 := TransitionDelta(e.key.device, dev, t);
    if IsBridgeUnreachable(e) then (dev1, d2)
    else var (dev2, d3) := UpsertComponent(dev1, e, cfg); (dev2, d2 + d3)
  }

  lemma DeviceDeltasTrack(dev: Device, m: ClientDevice, kd: DeviceKnowledge, e: Event, cfg: Config, opts: LadderOptions)
    requires DeviceOk(dev) && DeviceTracks(dev, m, kd, cfg, opts)
    ensures var (dev', deltas) := DeviceDeltas(dev, e, cfg);
            DeviceTracks(dev', FoldDeviceBodies(m, deltas, e.at, opts), LearnDevice(dev, e, kd, cfg, opts), cfg, opts)
  {
    var t := Transition(dev, e);
    var dev1 := ApplyTransition(dev, t, e.at);
    var kd1 := if t == Some(false) then Refill(dev, kd, e.at, opts) else kd;
    var d2 := TransitionDelta(e.key.device, dev, t);
    TransitionTracks(dev, m, kd, e, cfg, opts);
    hide DeviceTracks, DeviceOk, Refill, KnowledgeAfter, UpsertComponent, FoldDeviceBodies;
    if !IsBridgeUnreachable(e) {
      var m1 := FoldDeviceBodies(m, d2, e.at, opts);
      UpsertTracks(dev1, m1, kd1, e, cfg, opts);
      FoldDeviceConcat(m, d2, UpsertComponent(dev1, e, cfg).1, e.at, opts);
    }
  }

  lemma DeviceDeltasAbout(dev: Device, e: Event, cfg: Config)
    ensures forall b <- DeviceDeltas(dev, e, cfg).1 :: DeviceOf(b) == e.key.device
  {
    hide UpdateComponent, NewComponent;
    var dev1 := ApplyTransition(dev, Transition(dev, e), e.at);
    UpdateDeltasAbout(RecordFor(dev1, e, cfg), e, dev1.unreachable, cfg);
  }

  lemma IngestSplits(f: Devices, e: Event, cfg: Config)
    ensures var d := e.key.device;
            var (dev, deltas) := DeviceDeltas(EnsureDevice(f, d)[d], e, cfg);
            var out := IngestFleet(f, e, cfg);
            && out.devices == EnsureDevice(f, d)[d := dev]
            && out.deltas == (if d in f then [] else [DeviceDiscovered(d)]) + deltas
  {
  }

  /** The whole of an ingest, from the device record it ensures. */
  lemma EnsuredTracks(f: Devices, s: ClientDevices, kn: FleetKnowledge, e: Event, cfg: Config, opts: LadderOptions)
    requires Tracks(f, s, kn, cfg, opts) && FleetOk(f) && e.key.device in f
    ensures var d := e.key.device;
            var (dev, deltas) := DeviceDeltas(f[d], e, cfg);
            Tracks(f[d := dev], ApplyBodies(s, deltas, e.at, opts), kn[d := LearnDevice(f[d], e, kn[d], cfg, opts)], cfg, opts)
  {
    var d := e.key.device;
    var (dev, deltas) := DeviceDeltas(f[d], e, cfg);
    hide DeviceTracks, DeviceOk, LearnDevice, DeviceDeltas, FoldDeviceBodies;
    DeviceDeltasTrack(f[d], s[d], kn[d], e, cfg, opts);
    DeviceDeltasAbout(f[d], e, cfg);
    ApplyDeviceBodies(s, d, deltas, e.at, opts);
    PutDeviceTracks(f, s, kn, d, dev, FoldDeviceBodies(s[d], deltas, e.at, opts), LearnDevice(f[d], e, kn[d], cfg, opts), cfg, opts);
  }

  function Ensured(kn: FleetKnowledge, d: string): (r: FleetKnowledge)
    ensures d in r
  {
    if d in kn then kn else kn[d := map[]]
  }

  lemma LearnIngestSplits(kn: FleetKnowledge, f: Devices, e: Event, cfg: Config, opts: LadderOptions)
    ensures var d := e.key.device;
            var kn1 := Ensured(kn, d);
            LearnIngest(kn, f, e, cfg, opts) == kn1[d := LearnDevice(EnsureDevice(f, d)[d], e, kn1[d], cfg, opts)]
  {
    hide LearnDevice, EnsureDevice;
  }

  /** Delta completeness for one message: folding its deltas takes a browser that tracks the
      fleet under some knowledge to one that tracks the new fleet under the knowledge gained. */
  lemma IngestTracks(f: Devices, s: ClientDevices, kn: FleetKnowledge, e: Event, cfg: Config, opts: LadderOptions)
    requires FleetOk(f) && Tracks(f, s, kn, cfg, opts)
    ensures var out := IngestFleet(f, e, cfg);
            Tracks(out.devices, ApplyBodies(s, out.deltas, e.at, opts), LearnIngest(kn, f, e, cfg, opts), cfg, opts)
  {
    hide *;
    var d := e.key.device;
    var d1 := if d in f then [] else [DeviceDiscovered(d)];
    var s1 := ApplyBodies(s, d1, e.at, opts);
    EnsureDeviceTracks(f, s, kn, d, e.at, cfg, opts);
    EnsuredTracks(EnsureDevice(f, d), s1, Ensured(kn, d), e, cfg, opts);
    IngestSplits(f, e, cfg);
    LearnIngestSplits(kn, f, e, cfg, opts);
    ApplyBodiesConcat(s, d1, DeviceDeltas(EnsureDevice(f, d)[d], e, cfg).1, e.at, opts);
  }

  // ------------------------------------------------------------------ sweep

  lemma SweepStepTracks(f: Devices, s: ClientDevices, kn: FleetKnowledge, k: Key, now: nat, cfg: Config, opts: LadderOptions)
    requires Tracks(f, s, kn, cfg, opts) && Known(f, k) && FleetOk(f)
    ensures var step := SweepComponent(Get(f, k), k, f[k.device].unreachable, now, cfg);
            var kn' := if step.deltas == [] then kn else Settle(kn, k);
            Tracks(PutComponent(f, k, step.component), ApplyBodies(s, step.deltas, now, opts), kn', cfg, opts)
  {
    var d, c := k.device, k.component;
    var dev, m, kd := f[d], s[d], kn[d];
    var step := SweepComponent(dev.components[c], k, dev.unreachable, now, cfg);
    assert DeviceTracks(dev, m, kd, cfg, opts);
    if step.deltas == [] {
      assert dev.components[c := dev.components[c]] == dev.components && f[d := dev] == f;
    } else {
      SweptComponentTracks(dev, m, kd, k, now, cfg, opts);
      var mr' := FoldBodies(m.components[c], step.deltas, now);
      hide DeviceTracks, ComponentTracks, SweepComponent, FoldBodies;
      PutTracks(dev, m, kd, c, step.component, mr', kd[c].(ladder := Exact), cfg, opts);
      ApplyDeviceBodies(s, d, step.deltas, now, opts);
      FoldComponentBodies(m, k, step.deltas, now, opts);
      PutDeviceTracks(f, s, kn, d, dev.(components := dev.components[c := step.component]), m.(components := m.components[c := mr']),
                      kd[c := kd[c].(ladder := Exact)], cfg, opts);
    }
  }

  lemma SweptComponentTracks(dev: Device, m: ClientDevice, kd: DeviceKnowledge, k: Key, now: nat, cfg: Config, opts: LadderOptions)
    requires DeviceTracks(dev, m, kd, cfg, opts) && k.component in dev.components
    requires SweepComponent(dev.components[k.component], k, dev.unreachable, now, cfg).deltas != []
    ensures var step := SweepComponent(dev.components[k.component], k, dev.unreachable, now, cfg);
            var k' := kd[k.component].(ladder := Exact);
            && ComponentTracks(step.component, FoldBodies(m.components[k.component], step.deltas, now), k', cfg, opts)
            && HiddenOnlyInOutage(dev.unreachable, step.component, k')
            && (forall b <- step.deltas :: AboutComponent(b, k) && DeviceOf(b) == k.device)
  {
    var c := dev.components[k.component];
    assert ComponentTracks(c, m.components[k.component], kd[k.component], cfg, opts);
    LivenessStep(c, m.components[k.component], k, Fleet.Ladder(Age(c, now), c.interval, cfg), now);
  }

  lemma SweepStepOk(f: Devices, k: Key, now: nat, cfg: Config)
    requires FleetOk(f) && Known(f, k)
    ensures FleetOk(PutComponent(f, k, SweepComponent(Get(f, k), k, f[k.device].unreachable, now, cfg).component))
  {
    SweepKeepsFleetOk(f, [k], now, cfg);
    assert [k][1..] == [];
  }

  lemma {:induction false} SweepTracks(f: Devices, s: ClientDevices, kn: FleetKnowledge, order: seq<Key>, now: nat, cfg: Config, opts: LadderOptions)
    requires FleetOk(f) && Tracks(f, s, kn, cfg, opts)
    requires forall k <- order :: Known(f, k)
    ensures var (f', deltas) := Sweep(f, order, now, cfg);
            Tracks(f', ApplyBodies(s, deltas, now, opts), LearnSweep(kn, f, order, now, cfg), cfg, opts)
    decreases |order|
  {
    hide Tracks, FleetOk, SweepComponent, PutComponent, Settle;
    if order != [] {
      var k := order[0];
      var step := SweepComponent(Get(f, k), k, f[k.device].unreachable, now, cfg);
      var f1 := PutComponent(f, k, step.component);
      var s1 := ApplyBodies(s, step.deltas, now, opts);
      var kn1 := if step.deltas == [] then kn else Settle(kn, k);
      SweepStepTracks(f, s, kn, k, now, cfg, opts);
      SweepStepOk(f, k, now, cfg);
      SweepTracks(f1, s1, kn1, order[1..], now, cfg, opts);
      ApplyBodiesConcat(s, step.deltas, Sweep(f1, order[1..], now, cfg).1, now, opts);
    }
  }

  // ------------------------------------------------------------------ snapshots and the view

  lemma DeviceSnapshotTracks(dev: Device, cfg: Config, opts: LadderOptions)
    requires DeviceOk(dev)
    ensures DeviceTracks(dev, DeviceFromSnapshot(dev),
              map c <- dev.components :: Knowledge(if EffectiveLiveness(dev, dev.components[c]) == UNREACHABLE then Hidden else Exact, true), cfg, opts)
  {
  }

  /** A browser that takes a snapshot tracks the fleet it shows. */
  lemma SnapshotTracks(f: Devices, cfg: Config, opts: LadderOptions)
    requires FleetOk(f)
    ensures Tracks(f, FromSnapshot(f), ShownBy(f), cfg, opts)
  {
    hide DeviceTracks, DeviceFromSnapshot, EffectiveLiveness, DeviceOk;
    forall d | d in f ensures DeviceTracks(f[d], FromSnapshot(f)[d], ShownBy(f)[d], cfg, opts) {
      DeviceSnapshotTracks(f[d], cfg, opts);
    }
  }

  /** What the user sees of a component, and the cadence behind it, in terms of the history: the
      liveness shown is the gateway's exactly when the device is down, the ladder is settled, or
      the guess happens to be right; the cadences agree exactly when one was carried or the two
      defaults are the same. */
  lemma ShownExactly(f: Devices, s: ClientDevices, kn: FleetKnowledge, k: Key, cfg: Config, opts: LadderOptions)
    requires Tracks(f, s, kn, cfg, opts) && Known(f, k)
    ensures Covers(kn, k) && k.device in s && k.component in s[k.device].components
    ensures var m := s[k.device].components[k.component];
            && SameRecord(Get(f, k), m) && s[k.device].unreachable == f[k.device].unreachable && s[k.device].since == f[k.device].since
            && (ViewLiveness(s[k.device], m) == EffectiveLiveness(f[k.device], Get(f, k))
                <==> f[k.device].unreachable || KnowledgeOf(kn, k).ladder in {Exact, Guessed(Get(f, k).liveness)})
            && (SameCadence(Get(f, k), m) <==> KnowledgeOf(kn, k).cadence || cfg.defaultInterval == opts.defaultInterval)
  {
    assert DeviceTracks(f[k.device], s[k.device], kn[k.device], cfg, opts);
    assert ComponentTracks(Get(f, k), s[k.device].components[k.component], KnowledgeOf(kn, k), cfg, opts);
  }

  // ------------------------------------------------------------------ what only snapshots carry

  /** A snapshot shows every field of every record; bodies, uptime, status and the count of
      refused channels among them. */
  lemma SnapshotShows(f: Devices, k: Key)
    requires Known(f, k)
    ensures var s := FromSnapshot(f);
            && k.device in s && k.component in s[k.device].components
            && var c, m := Get(f, k), s[k.device].components[k.component];
               && m.status == c.status && m.uptime == c.uptime && m.lastStateAt == c.lastStateAt
               && m.uptimeAnchorAt == (if c.uptime.None? then None else c.lastStateAt)
               && m.droppedChannels == c.droppedChannels && m.values.Keys == c.values.Keys
               && forall ch <- c.values :: m.values[ch] == ClientValue(Some(c.values[ch].body), c.values[ch].at)
  {
  }

  /** The body a browser holds for a channel. */
  function BodyHeld(s: ClientDevices, k: Key, ch: Channel): Option<Json> {
    if k.device in s && k.component in s[k.device].components && ch in s[k.device].components[k.component].values
    then s[k.device].components[k.component].values[ch].body else None
  }

  lemma DeltaKeepsBodies(s: ClientDevices, body: Body, at: nat, opts: LadderOptions, k: Key, ch: Channel)
    ensures BodyHeld(ApplyDelta(s, body, at, opts), k, ch) == BodyHeld(s, k, ch)
  {
    hide LadderForAge;
  }

  /** Deltas name the channels that changed but carry no body: until the next snapshot the browser
      holds those of the last one, and none for a channel that is new since. */
  lemma {:induction false} DeltasKeepBodies(s: ClientDevices, bodies: seq<Body>, at: nat, opts: LadderOptions, k: Key, ch: Channel)
    ensures BodyHeld(ApplyBodies(s, bodies, at, opts), k, ch) == BodyHeld(s, k, ch)
    decreases |bodies|
  {
    if bodies != [] {
      hide ApplyDelta, BodyHeld;
      DeltaKeepsBodies(s, bodies[0], at, opts, k, ch);
      DeltasKeepBodies(ApplyDelta(s, bodies[0], at, opts), bodies[1..], at, opts, k, ch);
    }
  }

  // ------------------------------------------------------------------ the status shown

  predicate Stopped(status: Option<string>) {
    status == Some("STOPPED")
  }

  /** The keepalive of a stopped component says it is stopped still, with a lower uptime. */
  predicate RestartsStopped(c: Component, e: Event) {
    e.cls == State && Stopped(e.status) && Stopped(c.status) && c.uptime.Some? && e.uptime.Some? && e.uptime.value < c.uptime.value
  }

  lemma FoldStatus(m: ClientComponent, body: Body, at: nat)
    ensures Stopped(FoldBodies(m, [body], at).status) ==
      match body
      case LivenessChanged(_, _, to) => to == STOPPED || (to != FRESH && Stopped(m.status))
      case ComponentRestarted(_, _, _) => false
      case _ => Stopped(m.status)
  {
    FoldOne(m, body, at);
    assert "RUNNING" != "STOPPED" by { assert "RUNNING"[0] != "STOPPED"[0]; }
  }

  lemma StatusAfterState(c: Component, m: ClientComponent, e: Event)
    requires ComponentOk(c) && (Stopped(m.status) <==> Stopped(c.status))
    ensures var s := UpdateState(c, e, false);
            var fell := c.uptime.Some? && e.uptime.Some? && e.uptime.value < c.uptime.value;
            Stopped(FoldBodies(m, s.deltas, e.at).status) <==> Stopped(e.status) && !(Stopped(c.status) && fell)
  {
    var c0 := c.(status := e.status, lastStateAt := Some(e.at));
    var s1 := UpdateUptime(c0, e);
    var s2 := UpdateInstances(s1.component, e);
    var s3 := UpdateLiveness(s2.component, e.key, StateLiveness(e, false));
    FoldThree(m, s1.deltas, s2.deltas, s3.deltas, e.at);
    var m1 := FoldBodies(m, s1.deltas, e.at);
    var m2 := FoldBodies(m1, s2.deltas, e.at);
    if s1.deltas != [] { FoldStatus(m, s1.deltas[0], e.at); }
    if s2.deltas != [] { FoldStatus(m1, s2.deltas[0], e.at); }
    if s3.deltas != [] { FoldStatus(m2, s3.deltas[0], e.at); }
  }

  lemma {:induction false} FoldKeepsStatus(m: ClientComponent, bodies: seq<Body>, at: nat)
    requires forall b <- bodies :: !b.LivenessChanged? && !b.ComponentRestarted?
    ensures FoldBodies(m, bodies, at).status == m.status
    decreases |bodies|
  {
    if bodies != [] { FoldKeepsStatus(FoldComponent(m, bodies[0], at), bodies[1..], at); }
  }

  lemma CacheStatus(c: Component, e: Event, max: nat)
    requires ComponentOk(c)
    ensures var s := UpdateCache(c, e, max);
            && ComponentOk(s.component) && s.component.status == c.status && s.component.uptime == c.uptime
            && forall b <- s.deltas :: !b.LivenessChanged? && !b.ComponentRestarted?
  {
  }

  lemma CadenceStatus(c: Component, e: Event)
    ensures var s := UpdateCadence(c, e);
            s.component.status == c.status && forall b <- s.deltas :: !b.LivenessChanged? && !b.ComponentRestarted?
  {
  }

  lemma StateStatus(c: Component, e: Event)
    ensures UpdateState(c, e, false).component.status == e.status
  {
  }

  /** Whether the browser shows a component as stopped: one message keeps that right exactly when
      it is not a stopped component's keepalive that tells of a restart; the browser takes the
      restart for a component running again. */
  lemma StatusStep(c: Component, m: ClientComponent, e: Event, down: bool, cfg: Config)
    requires ComponentOk(c) && (Stopped(m.status) <==> Stopped(c.status)) && (e.cls == State ==> !down)
    ensures var s := UpdateComponent(c, e, down, cfg);
            (Stopped(FoldBodies(m, s.deltas, e.at).status) <==> Stopped(s.component.status)) <==> !RestartsStopped(c, e)
  {
    var s1 := if e.cls != Log then UpdateCache(c, e, cfg.maxChannels) else Step(c, []);
    var s2 := if e.cls == State then UpdateState(s1.component, e, down) else Step(s1.component, []);
    var s3 := UpdateCadence(s2.component, e);
    hide UpdateState, UpdateCache, UpdateCadence, FoldBodies, ComponentOk, Stopped;
    FoldThree(m, s1.deltas, s2.deltas, s3.deltas, e.at);
    var m1 := FoldBodies(m, s1.deltas, e.at);
    var m2 := FoldBodies(m1, s2.deltas, e.at);
    if e.cls != Log { CacheStatus(c, e, cfg.maxChannels); }
    CadenceStatus(s2.component, e);
    FoldKeepsStatus(m, s1.deltas, e.at);
    FoldKeepsStatus(m2, s3.deltas, e.at);
    if e.cls == State {
      StatusAfterState(s1.component, m1, e);
      StateStatus(s1.component, e);
    } else {
      FoldKeepsStatus(m1, s2.deltas, e.at);
    }
  }
}
