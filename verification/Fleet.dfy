/**
 The gateway's fleet fold (gateway/src/model.rs): devices and components, and the
 change notifications ("deltas") every bus message and every staleness sweep emits.
 */
module Fleet {
  import opened Basics

  datatype Liveness = FRESH | WARN | STALE | OFFLINE | STOPPED | UNREACHABLE

  datatype Cls = State | Cfg | Evt | Metric | Data | Log

  datatype Key = Key(device: string, component: string)

  /** A slot of a component's last-known-value cache. */
  datatype Channel = Channel(instance: string, cls: Cls, name: Option<string>)

  datatype Cached = Cached(body: Json, at: nat)

  datatype Component = Component(
    path: string, hier: Json, liveness: Liveness,
    status: Option<string>, uptime: Option<real>, lastStateAt: Option<nat>, firstSeenAt: nat,
    interval: nat, cadenceFromCfg: bool, restarts: nat, instances: Option<Json>,
    values: map<Channel, Cached>, droppedChannels: nat)

  datatype Device = Device(unreachable: bool, since: Option<nat>, components: map<string, Component>)

  type Devices = map<string, Device>

  /** A normalised bus message; `at` is its clamped receipt stamp. The optional fields are
      the readings the fold takes from the body (absent or of the wrong type = None). */
  datatype Event = Event(
    key: Key, instance: string, path: string, hier: Json,
    cls: Cls, name: Option<string>, body: Json, at: nat,
    status: Option<string>, uptime: Option<real>, instances: Option<Json>, interval: Option<nat>)

  datatype Body =
    | DeviceDiscovered(device: string)
    | ComponentDiscovered(key: Key, path: string, hier: Json)
    | ValueUpdated(key: Key, channel: Channel)
    | LivenessChanged(key: Key, from: Liveness, to: Liveness)
    | CadenceChanged(key: Key, interval: nat)
    | ComponentRestarted(key: Key, previousUptime: real, uptime: real)
    | InstancesChanged(key: Key, instances: Json)
    | ReachabilityChanged(device: string, unreachable: bool, componentCount: nat)

  /** A body stamped with its sequence number and receipt time. */
  datatype Delta = Delta(body: Body, seqNo: nat, at: nat)

  datatype Config = Config(
    defaultInterval: nat, maxChannels: nat,
    warnMultiplier: real, staleMultiplier: real, offlineMultiplier: real)

  ghost predicate ValidConfig(cfg: Config) {
    0.0 < cfg.warnMultiplier < cfg.staleMultiplier < cfg.offlineMultiplier
  }

  datatype Outcome = Outcome(devices: Devices, deltas: seq<Body>, isNewDevice: bool, transition: Option<bool>)

  datatype Step = Step(component: Component, deltas: seq<Body>)

  const BRIDGE := "uns-bridge"

  // ------------------------------------------------------------------ ingest

  predicate IsBridgeUnreachable(e: Event) {
    e.key.component == BRIDGE && e.cls == State && e.status == Some("UNREACHABLE")
  }

  function NewComponent(e: Event, deviceUnreachable: bool, cfg: Config): Component {
    Component(
      e.path, e.hier, if deviceUnreachable then UNREACHABLE else FRESH,
      None, None, None, e.at, cfg.defaultInterval, false, 0, None, map[], 0)
  }

  function UpdateCache(c: Component, e: Event, maxChannels: nat): Step {
    var channel := Channel(e.instance, e.cls, e.name);
    if channel !in c.values && |c.values| >= maxChannels then
      Step(c.(droppedChannels := c.droppedChannels + 1), [])
    else
      Step(c.(values := c.values[channel := Cached(e.body, e.at)]), [ValueUpdated(e.key, channel)])
  }

  function StateLiveness(e: Event, deviceUnreachable: bool): Liveness {
    if deviceUnreachable then UNREACHABLE
    else if e.status == Some("STOPPED") then STOPPED
    else FRESH
  }

  function UpdateUptime(c: Component, e: Event): Step {
    if e.uptime.None? then
      Step(c, [])
    else if c.uptime.Some? && e.uptime.value < c.uptime.value then
      Step(c.(restarts := c.restarts + 1, uptime := e.uptime),
           [ComponentRestarted(e.key, c.uptime.value, e.uptime.value)])
    else
      Step(c.(uptime := e.uptime), [])
  }

  function UpdateInstances(c: Component, e: Event): Step {
    if e.instances.Some? && c.instances != e.instances then
      Step(c.(instances := e.instances), [InstancesChanged(e.key, e.instances.value)])
    else
      Step(c, [])
  }

  function UpdateLiveness(c: Component, key: Key, next: Liveness): Step {
    if c.liveness != next then
      Step(c.(liveness := next), [LivenessChanged(key, c.liveness, next)])
    else
      Step(c, [])
  }

  function UpdateState(c: Component, e: Event, deviceUnreachable: bool): Step {
    var s1 := UpdateUptime(c.(status := e.status, lastStateAt := Some(e.at)), e);
    var s2 := UpdateInstances(s1.component, e);
    var s3 := UpdateLiveness(s2.component, e.key, StateLiveness(e, deviceUnreachable));
    Step(s3.component, s1.deltas + s2.deltas + s3.deltas)
  }

  /** Whether the message carries a usable keepalive interval. */
  predicate CarriesCadence(e: Event) {
    e.cls == Cfg && e.interval.Some? && e.interval.value > 0
  }

  function UpdateCadence(c: Component, e: Event): Step {
    if !CarriesCadence(e) then
      Step(c, [])
    else
      Step(c.(interval := e.interval.value, cadenceFromCfg := true),
           if c.interval != e.interval.value || !c.cadenceFromCfg
           then [CadenceChanged(e.key, e.interval.value)] else [])
  }

  function UpdateComponent(c: Component, e: Event, deviceUnreachable: bool, cfg: Config): Step {
    var s1 := if e.cls != Log then UpdateCache(c, e, cfg.maxChannels) else Step(c, []);
    var s2 := if e.cls == State then UpdateState(s1.component, e, deviceUnreachable) else Step(s1.component, []);
    var s3 := UpdateCadence(s2.component, e);
    Step(s3.component, s1.deltas + s2.deltas + s3.deltas)
  }

  function EnsureDevice(f: Devices, d: string): (r: Devices)
    ensures d in r
  {
    if d in f then f else f[d := Device(false, None, map[])]
  }

  /** Whether this message moves its device in or out of an outage, and which way. */
  function Transition(dev: Device, e: Event): Option<bool> {
    if IsBridgeUnreachable(e) then (if dev.unreachable then None else Some(true))
    else if dev.unreachable && e.cls == State then Some(false)
    else None
  }

  function ApplyTransition(dev: Device, t: Option<bool>, at: nat): Device {
    match t
    case None => dev
    case Some(down) => dev.(unreachable := down, since := if down then Some(at) else None)
  }

  function TransitionDelta(d: string, dev: Device, t: Option<bool>): seq<Body> {
    match t
    case None => []
    case Some(down) => [ReachabilityChanged(d, down, |dev.components|)]
  }

  function UpsertComponent(dev: Device, e: Event, cfg: Config): (r: (Device, seq<Body>)) {
    var isNew := e.key.component !in dev.components;
    var c := if isNew then NewComponent(e, dev.unreachable, cfg) else dev.components[e.key.component];
    var step := UpdateComponent(c, e, dev.unreachable, cfg);
    (dev.(components := dev.components[e.key.component := step.component]),
     (if isNew then [ComponentDiscovered(e.key, e.path, e.hier)] else []) + step.deltas)
  }

  function IngestFleet(f: Devices, e: Event, cfg: Config): Outcome {
    var d := e.key.device;
    var isNewDevice := d !in f;
    var d1 := if isNewDevice then [DeviceDiscovered(d)] else [];
    var dev := EnsureDevice(f, d)[d];
    var t := Transition(dev, e);
    var dev1 := ApplyTransition(dev, t, e.at);
    var d2 := TransitionDelta(d, dev, t);
    if IsBridgeUnreachable(e) then
      Outcome(f[d := dev1], d1 + d2, isNewDevice, t)
    else
      var (dev2, d3) := UpsertComponent(dev1, e, cfg);
      Outcome(f[d := dev2], d1 + d2 + d3, isNewDevice, t)
  }

  // ------------------------------------------------------------------ sweep

  /** The staleness ladder for a keepalive that is `ageMs` old. */
  function Ladder(ageMs: nat, interval: nat, cfg: Config): Liveness {
    var age := ageMs as real / 1000.0;
    var expected := interval as real;
    if age > expected * cfg.offlineMultiplier then OFFLINE
    else if age > expected * cfg.staleMultiplier then STALE
    else if age > expected * cfg.warnMultiplier then WARN
    else FRESH
  }

  function Age(c: Component, now: nat): nat {
    var baseline := c.lastStateAt.GetOr(c.firstSeenAt);
    if now < baseline then 0 else now - baseline
  }

  function SweepComponent(c: Component, key: Key, deviceUnreachable: bool, now: nat, cfg: Config): Step {
    if deviceUnreachable || c.status == Some("STOPPED") then Step(c, [])
    else UpdateLiveness(c, key, Ladder(Age(c, now), c.interval, cfg))
  }

  predicate Known(f: Devices, k: Key) {
    k.device in f && k.component in f[k.device].components
  }

  function PutComponent(f: Devices, k: Key, c: Component): (r: Devices)
    requires Known(f, k)
    ensures forall k' :: Known(r, k') <==> Known(f, k')
  {
    f[k.device := f[k.device].(components := f[k.device].components[k.component := c])]
  }

  function Get(f: Devices, k: Key): Component
    requires Known(f, k)
  {
    f[k.device].components[k.component]
  }

  /** One sweep visiting `order`; the source visits every component once, in key order. */
  function Sweep(f: Devices, order: seq<Key>, now: nat, cfg: Config): (r: (Devices, seq<Body>))
    requires forall k <- order :: Known(f, k)
    decreases |order|
  {
    if order == [] then (f, [])
    else
      var k := order[0];
      var step := SweepComponent(Get(f, k), k, f[k.device].unreachable, now, cfg);
      var (f2, rest) := Sweep(PutComponent(f, k, step.component), order[1..], now, cfg);
      (f2, step.deltas + rest)
  }

  // ------------------------------------------------------------------ invariant

  /** What every reachable component record satisfies. */
  predicate ComponentOk(c: Component) {
    && (c.liveness == STOPPED <==> c.status == Some("STOPPED"))
    && (c.liveness == UNREACHABLE ==> c.lastStateAt.None?)
    && (c.lastStateAt.None? ==> c.status.None?)
  }

  predicate DeviceOk(dev: Device) {
    && (dev.unreachable <==> dev.since.Some?)
    && forall c <- dev.components :: ComponentOk(dev.components[c])
  }

  predicate FleetOk(f: Devices) {
    forall d <- f :: DeviceOk(f[d])
  }

  lemma UpdateComponentKeepsOk(c: Component, e: Event, down: bool, cfg: Config)
    requires ComponentOk(c)
    requires e.cls == State ==> !down
    ensures ComponentOk(UpdateComponent(c, e, down, cfg).component)
  {
    var s1 := if e.cls != Log then UpdateCache(c, e, cfg.maxChannels) else Step(c, []);
    assert ComponentOk(s1.component);
    if e.cls == State { UpdateStateKeepsOk(s1.component, e); }
  }

  lemma UpdateStateKeepsOk(c: Component, e: Event)
    ensures ComponentOk(UpdateState(c, e, false).component)
  {
  }

  lemma IngestKeepsFleetOk(f: Devices, e: Event, cfg: Config)
    requires FleetOk(f)
    ensures FleetOk(IngestFleet(f, e, cfg).devices)
  {
    var dev := EnsureDevice(f, e.key.device)[e.key.device];
    var dev1 := ApplyTransition(dev, Transition(dev, e), e.at);
    assert DeviceOk(dev1);
    if !IsBridgeUnreachable(e) {
      var isNew := e.key.component !in dev1.components;
      var c := if isNew then NewComponent(e, dev1.unreachable, cfg) else dev1.components[e.key.component];
      UpdateComponentKeepsOk(c, e, dev1.unreachable, cfg);
      assert DeviceOk(UpsertComponent(dev1, e, cfg).0);
    }
  }

  lemma {:induction false} SweepKeepsFleetOk(f: Devices, order: seq<Key>, now: nat, cfg: Config)
    requires FleetOk(f)
    requires forall k <- order :: Known(f, k)
    ensures FleetOk(Sweep(f, order, now, cfg).0)
    decreases |order|
  {
    if order != [] {
      var k := order[0];
      var step := SweepComponent(Get(f, k), k, f[k.device].unreachable, now, cfg);
      SweepKeepsFleetOk(PutComponent(f, k, step.component), order[1..], now, cfg);
    }
  }
}
