/**
 The browser's fleet store (ui/src/fleet/store.ts): snapshot replacement plus the
 sequence-ordered delta fold, with the device-outage overlay of its derived view.
 */
module FleetStore {
  import opened Basics
  import opened Fleet

  datatype ClientValue = ClientValue(body: Option<Json>, at: nat)

  /** `ladder` is None while an outage overlay hid it in the snapshot; it is never UNREACHABLE. */
  datatype ClientComponent = ClientComponent(
    path: string, hier: Json, ladder: Option<Liveness>,
    status: Option<string>, uptime: Option<real>, uptimeAnchorAt: Option<nat>, lastStateAt: Option<nat>,
    interval: nat, cadenceFromCfg: bool, restarts: nat, instances: Option<Json>,
    values: map<Channel, ClientValue>, droppedChannels: nat)

  datatype ClientDevice = ClientDevice(unreachable: bool, since: Option<nat>, components: map<string, ClientComponent>)

  type ClientDevices = map<string, ClientDevice>

  /** The store's own ladder options, used for the outage fill-in and the discovery default. */
  datatype LadderOptions = LadderOptions(warn: real, stale: real, offline: real, defaultInterval: nat)

  const DEFAULT_LADDER_OPTIONS := LadderOptions(2.0, 2.5, 5.0, 5)

  // ------------------------------------------------------------------ snapshots

  datatype Snapshot = Snapshot(seqNo: nat, devices: Devices)

  /** The liveness a snapshot shows: the device overlay wins (gateway `snapshot_frame`). */
  function EffectiveLiveness(dev: Device, c: Component): Liveness {
    if dev.unreachable then UNREACHABLE else c.liveness
  }

  function ComponentFromSnapshot(dev: Device, c: Component): ClientComponent {
    var shown := EffectiveLiveness(dev, c);
    ClientComponent(
      c.path, c.hier, if shown == UNREACHABLE then None else Some(shown),
      c.status, c.uptime, if c.uptime.Some? then c.lastStateAt else None, c.lastStateAt,
      c.interval, c.cadenceFromCfg, c.restarts, c.instances,
      map ch <- c.values :: ClientValue(Some(c.values[ch].body), c.values[ch].at), c.droppedChannels)
  }

  function DeviceFromSnapshot(dev: Device): ClientDevice {
    ClientDevice(dev.unreachable, dev.since,
                 map c <- dev.components :: ComponentFromSnapshot(dev, dev.components[c]))
  }

  function FromSnapshot(f: Devices): ClientDevices {
    map d <- f :: DeviceFromSnapshot(f[d])
  }

  // ------------------------------------------------------------------ deltas

  function LadderForAge(ageMs: int, interval: nat, opts: LadderOptions): Liveness {
    var age := ageMs as real;
    var expected := interval as real * 1000.0;
    if age > opts.offline * expected then OFFLINE
    else if age > opts.stale * expected then STALE
    else if age > opts.warn * expected then WARN
    else FRESH
  }

  function EnsureClientDevice(s: ClientDevices, d: string): (r: ClientDevices)
    ensures d in r
  {
    if d in s then s else s[d := ClientDevice(false, None, map[])]
  }

  function NewClientComponent(path: string, hier: Json, opts: LadderOptions): ClientComponent {
    ClientComponent(path, hier, Some(FRESH), None, None, None, None,
                    opts.defaultInterval, false, 0, None, map[], 0)
  }

  function EnsureClientComponent(dev: ClientDevice, c: string, path: string, hier: Json, opts: LadderOptions): (r: ClientDevice)
    ensures c in r.components
  {
    if c in dev.components then dev
    else dev.(components := dev.components[c := NewClientComponent(path, hier, opts)])
  }

  /** A component delta's effect on the component it names. */
  function FoldComponent(c: ClientComponent, body: Body, at: nat): ClientComponent {
    match body
    case ValueUpdated(_, channel) =>
      var value := ClientValue(if channel in c.values then c.values[channel].body else None, at);
      var c1 := c.(values := c.values[channel := value]);
      if channel.cls != State then c1
      else c1.(lastStateAt := Some(at),
               ladder := if c.ladder == Some(STOPPED) then c.ladder else Some(FRESH))
    case LivenessChanged(_, _, to) =>
      var c1 := if to != UNREACHABLE then c.(ladder := Some(to)) else c;
      if to == STOPPED then c1.(status := Some("STOPPED"))
      else if to == FRESH then c1.(status := Some("RUNNING"))
      else c1
    case ComponentRestarted(_, _, uptime) =>
      c.(restarts := c.restarts + 1, uptime := Some(uptime), uptimeAnchorAt := Some(at), status := Some("RUNNING"))
    case InstancesChanged(_, instances) => c.(instances := Some(instances))
    case CadenceChanged(_, interval) => c.(interval := interval, cadenceFromCfg := true)
    case _ => c
  }

  /** The snapshot-under-outage fill-in of one hidden ladder. */
  function FillUnknownLadder(c: ClientComponent, at: nat, opts: LadderOptions): ClientComponent {
    if c.ladder.Some? then c
    else if c.status == Some("STOPPED") then c.(ladder := Some(STOPPED))
    else if c.lastStateAt.Some? then c.(ladder := Some(LadderForAge(at - c.lastStateAt.value, c.interval, opts)))
    else c.(ladder := Some(OFFLINE))
  }

  function FoldReachability(dev: ClientDevice, down: bool, at: nat, opts: LadderOptions): ClientDevice {
    if down then dev.(unreachable := true, since := Some(at))
    else ClientDevice(false, None, map c <- dev.components :: FillUnknownLadder(dev.components[c], at, opts))
  }

  /** The device a delta is about; every delta changes that device's record only. */
  function DeviceOf(body: Body): string {
    match body
    case DeviceDiscovered(d) => d
    case ReachabilityChanged(d, _, _) => d
    case _ => body.key.device
  }

  function FoldDevice(dev: ClientDevice, body: Body, at: nat, opts: LadderOptions): ClientDevice {
    match body
    case DeviceDiscovered(_) => dev
    case ComponentDiscovered(k, path, hier) => EnsureClientComponent(dev, k.component, path, hier, opts)
    case ReachabilityChanged(_, down, _) => FoldReachability(dev, down, at, opts)
    case _ =>
      var c := body.key.component;
      var dev1 := EnsureClientComponent(dev, c, body.key.device, "[]", opts);
      dev1.(components := dev1.components[c := FoldComponent(dev1.components[c], body, at)])
  }

  function ApplyDelta(s: ClientDevices, body: Body, at: nat, opts: LadderOptions): ClientDevices {
    var d := DeviceOf(body);
    var s1 := EnsureClientDevice(s, d);
    s1[d := FoldDevice(s1[d], body, at, opts)]
  }

  /** Folding a whole batch whose deltas share one stamp. */
  function ApplyBodies(s: ClientDevices, bodies: seq<Body>, at: nat, opts: LadderOptions): ClientDevices
    decreases |bodies|
  {
    if bodies == [] then s else ApplyBodies(ApplyDelta(s, bodies[0], at, opts), bodies[1..], at, opts)
  }

  lemma {:induction false} ApplyBodiesConcat(s: ClientDevices, a: seq<Body>, b: seq<Body>, at: nat, opts: LadderOptions)
    ensures ApplyBodies(s, a + b, at, opts) == ApplyBodies(ApplyBodies(s, a, at, opts), b, at, opts)
    decreases |a|
  {
    if a == [] {
      assert a + b == b;
    } else {
      assert (a + b)[1..] == a[1..] + b;
      ApplyBodiesConcat(ApplyDelta(s, a[0], at, opts), a[1..], b, at, opts);
    }
  }

  // ------------------------------------------------------------------ the numbered fold

  datatype Fold = Fold(devices: ClientDevices, seqNo: nat, gap: bool)

  /** Duplicates are skipped, the successor is applied, anything later is a gap that stops the fold. */
  function FoldDeltas(s: ClientDevices, last: nat, deltas: seq<Delta>, opts: LadderOptions): Fold
    decreases |deltas|
  {
    if deltas == [] then Fold(s, last, false)
    else if deltas[0].seqNo <= last then FoldDeltas(s, last, deltas[1..], opts)
    else if deltas[0].seqNo != last + 1 then Fold(s, last, true)
    else FoldDeltas(ApplyDelta(s, deltas[0].body, deltas[0].at, opts), last + 1, deltas[1..], opts)
  }

  class FleetStore {
    const opts: LadderOptions
    var devices: ClientDevices
    var seqNo: nat
    var snapshotApplied: bool

    constructor (opts: LadderOptions)
      ensures this.opts == opts && devices == map[] && seqNo == 0 && !snapshotApplied
    {
      this.opts := opts;
      devices, seqNo, snapshotApplied := map[], 0, false;
    }

    method ApplySnapshot(snapshot: Snapshot)
      modifies this
      ensures devices == FromSnapshot(snapshot.devices) && seqNo == snapshot.seqNo && snapshotApplied
    {
      devices := FromSnapshot(snapshot.devices);
      seqNo := snapshot.seqNo;
      snapshotApplied := true;
    }

    method ApplyDeltas(deltas: seq<Delta>) returns (applied: nat, gap: bool)
      modifies this
      ensures snapshotApplied == old(snapshotApplied)
      ensures !snapshotApplied ==> applied == 0 && gap && devices == old(devices) && seqNo == old(seqNo)
      ensures snapshotApplied ==> Fold(devices, seqNo, gap) == FoldDeltas(old(devices), old(seqNo), deltas, opts)
      ensures seqNo == old(seqNo) + applied
    {
      applied, gap := 0, false;
      if !snapshotApplied {
        gap := true;
        return;
      }
      for i := 0 to |deltas|
        invariant snapshotApplied && !gap && seqNo == old(seqNo) + applied
        invariant FoldDeltas(old(devices), old(seqNo), deltas, opts) == FoldDeltas(devices, seqNo, deltas[i..], opts)
      {
        var delta := deltas[i];
        assert deltas[i..][0] == delta && deltas[i..][1..] == deltas[i + 1..];
        if delta.seqNo <= seqNo {
          continue;
        }
        if delta.seqNo != seqNo + 1 {
          gap := true;
          return;
        }
        devices := ApplyDelta(devices, delta.body, delta.at, opts);
        seqNo := delta.seqNo;
        applied := applied + 1;
      }
    }
  }

  /** The derived view: the overlay wins, an unknown ladder outside an outage shows OFFLINE. */
  function ViewLiveness(dev: ClientDevice, c: ClientComponent): Liveness {
    if dev.unreachable then UNREACHABLE else c.ladder.GetOr(OFFLINE)
  }
}
