/**
 The gateway's in-memory model (gateway/src/model.rs `Model`) as it is: one object whose
 methods update its tables, rings and counters in place.  Each method is proved against the
 folds of the modules about its part of the state; the ghost fields keep the histories those
 folds are about.
 */
module GatewayModel {
  import opened Basics
  import opened Fleet
  import FleetStore
  import Replication
  import Alarms
  import History = Ladder
  import FleetHistory
  import AlarmHistory
  import Clock
  import Throughput
  import Signals
  import Metrics
  import Logs

  datatype Settings = Settings(fleet: Config, clock: Clock.Config, metrics: Metrics.Bounds, logs: Logs.Config)

  /** One normalised bus message with what each plane reads from it; every `at` inside is
      replaced by the clamped receipt stamp. */
  datatype Ingress = Ingress(
    event: Event, wall: nat, clearWall: nat, alarm: Alarms.Reading,
    metric: Option<Metrics.Message>, log: Option<Logs.Message>, signal: Option<Signals.Message>)

  datatype GatewayEvent =
    | DeltasFrame(deltas: seq<Delta>)
    | AlarmsFrame(alarms: map<Alarms.AlarmId, Alarms.Alarm>, counts: Alarms.Counts)
    | MetricFrame(metrics: seq<Metrics.Update>)
    | LogPush(push: Logs.Push)
    | SignalFrame(signals: seq<Signals.Update>)

  datatype Tables = Tables(devices: Devices, alarms: Alarms.Table, metrics: Metrics.Table, logs: Logs.Table, signals: Signals.Table)

  datatype Effects = Effects(tables: Tables, deltas: seq<Delta>, events: seq<GatewayEvent>, discovered: bool)

  function DeltaFrames(deltas: seq<Delta>): seq<GatewayEvent> {
    if deltas == [] then [] else [DeltasFrame(deltas)]
  }

  /** The `alarms` frame of a changed table. */
  function AlarmFrames(before: Alarms.Table, after: Alarms.Table): seq<GatewayEvent> {
    if before.alarms == after.alarms then [] else [AlarmsFrame(after.alarms, Alarms.CountsOf(after.alarms))]
  }

  /** What one message, stamped `at`, does to the tables, and the frames it emits, in plane order. */
  function Apply(t: Tables, input: Ingress, at: nat, last: nat, s: Settings): Effects {
    var e := input.event.(at := at);
    var out := Fleet.IngestFleet(t.devices, e, s.fleet);
    var deltas := Replication.Stamp(out.deltas, last, at);
    var alarms := Alarms.IngestAlarms(t.alarms, e, input.alarm, out.transition, input.clearWall).0;
    var (metrics, metricFrames) := MetricsAfter(t.metrics, input, at, s);
    var (logs, logFrames) := LogsAfter(t.logs, input, at, s);
    var (signals, signalFrames) := SignalsAfter(t.signals, input, at);
    Effects(Tables(out.devices, alarms, metrics, logs, signals), deltas,
            DeltaFrames(deltas) + AlarmFrames(t.alarms, alarms) + metricFrames + logFrames + signalFrames,
            out.isNewDevice)
  }

  class Model {
    const settings: Settings
    const meter: Throughput.ThroughputMeter
    var devices: Devices
    var seqNo: nat
    var ring: seq<Delta>
    var clock: Clock.Clock
    var alarms: Alarms.Table
    var signals: Signals.Table
    var metrics: Metrics.Table
    var logs: Logs.Table
    /** Every delta ever stamped, every wall reading ever taken. */
    ghost var log: seq<Delta>
    ghost var readings: seq<Clock.Reading>
    /** Every message the log, signal and metric planes took in. */
    ghost var logged: seq<Logs.Message>
    ghost var sampled: seq<Signals.Message>
    ghost var measured: seq<Metrics.Message>
    /** Every message, and everything that concerned the alarms. */
    ghost var heard: seq<Event>
    ghost var acts: seq<AlarmHistory.Act>

    ghost predicate RingOk()
      reads this`seqNo, this`ring, this`log
    {
      seqNo == |log| && Replication.Numbered(log) && ring == Newest(log, Replication.RING_CAP)
    }

    ghost predicate ClockOk()
      reads this`clock, this`readings, meter
    {
      && settings.clock.stepThresholdMs > 0
      && clock == Clock.After(readings, settings.clock)
      && meter.Valid() && (meter.history != [] ==> meter.history[|meter.history| - 1] <= clock.last)
    }

    /** The planes hold what the folds make of everything they took in. */
    ghost predicate PlanesOk()
      reads this`logs, this`logged, this`signals, this`sampled, this`metrics, this`measured
    {
      && logs == Logs.Ingested(logged, settings.logs)
      && signals == Signals.Ingested(sampled)
      && metrics == Metrics.Run(Metrics.Table(map[], 0), measured, settings.metrics).0
    }

    /** Fleet and alarms are what everything heard makes of them. */
    ghost predicate HistoryOk()
      reads this`devices, this`alarms, this`heard, this`acts
    {
      FleetHistory.FleetIs(devices, heard, settings.fleet) && AlarmHistory.TableIs(alarms, acts)
    }

    ghost predicate Valid()
      reads this, meter
    {
      && HistoryOk() && RingOk() && ClockOk() && PlanesOk()
      && FleetOk(devices) && Alarms.ContainmentAgrees(devices, alarms)
    }

    constructor (settings: Settings)
      requires settings.clock.stepThresholdMs > 0
      ensures Valid() && this.settings == settings && fresh(meter)
      ensures devices == map[] && log == [] && readings == [] && logged == [] && sampled == [] && measured == []
      ensures heard == [] && acts == []
    {
      this.settings := settings;
      meter := new Throughput.ThroughputMeter();
      devices, seqNo, ring, clock := map[], 0, [], Clock.START;
      alarms := Alarms.Table(map[], {}, [], 0);
      signals, metrics, logs := Signals.Table(map[], 0), Metrics.Table(map[], 0), Logs.EMPTY;
      log, readings, logged, sampled, measured, heard, acts := [], [], [], [], [], [], [];
      StartIsHistory(settings.fleet);
    }

    // ---------------------------------------------------------------- clock

    method Stamp(wall: nat) returns (stamped: nat)
      modifies this`clock
      ensures clock == Clock.Stamp(old(clock), wall, settings.clock) && stamped == clock.last
    {
      if wall + settings.clock.stepThresholdMs <= clock.last {
        var step := clock.last - wall;
        clock := clock.(lastFaultAt := clock.last);
        if !clock.open {
          clock := clock.(open := true, maxStep := step, pending := Some(Clock.Observation(step, clock.last)), alarmActive := true);
        } else if step > clock.maxStep {
          clock := clock.(maxStep := step);
        }
      } else if clock.open && wall >= clock.last {
        clock := clock.(open := false);
      }
      stamped := if wall < clock.last then clock.last else wall;
      clock := clock.(last := stamped);
    }

    // ---------------------------------------------------------------- delta ring

    /** Numbers, stores and returns a batch; nothing for an empty one. */
    method StampAndStore(bodies: seq<Body>, at: nat) returns (frame: Option<seq<Delta>>)
      requires RingOk()
      modifies this`seqNo, this`ring, this`log
      ensures RingOk()
      ensures log == old(log) + Replication.Stamp(bodies, old(seqNo), at)
      ensures frame == if bodies == [] then None else Some(Replication.Stamp(bodies, old(seqNo), at))
    {
      if bodies == [] {
        assert log == log + Replication.Stamp(bodies, seqNo, at);
        return None;
      }
      ghost var batch := Replication.Stamp(bodies, seqNo, at);
      var deltas: seq<Delta> := [];
      for i := 0 to |bodies|
        invariant RingOk() && seqNo == old(seqNo) + i
        invariant deltas == batch[..i] && log == old(log) + deltas
      {
        var delta := Delta(bodies[i], seqNo + 1, at);
        assert delta == batch[i];
        deltas := deltas + [delta];
        Store(delta);
      }
      assert batch[..|bodies|] == batch;
      frame := Some(deltas);
    }

    method Store(delta: Delta)
      requires RingOk() && delta.seqNo == seqNo + 1
      modifies this`seqNo, this`ring, this`log
      ensures RingOk() && seqNo == old(seqNo) + 1 && log == old(log) + [delta]
    {
      NewestPush(log, delta, Replication.RING_CAP);
      seqNo := seqNo + 1;
      log := log + [delta];
      ring := ring + [delta];
      while |ring| > Replication.RING_CAP
        invariant seqNo == |log| == old(seqNo) + 1 && log == old(log) + [delta] && Replication.Numbered(log)
        invariant Newest(ring, Replication.RING_CAP) == Newest(log, Replication.RING_CAP)
        decreases |ring|
      {
        ring := ring[1..];
      }
    }

    /** The answer to a hello. */
    method Resync(resume: Option<nat>) returns (reply: Replication.Reply)
      requires RingOk()
      ensures reply == Replication.Resync(ring, seqNo, resume)
    {
      if resume.Some? && resume.value == seqNo {
        return Replication.UpToDate;
      }
      if resume.Some? && resume.value < seqNo && |ring| > 0 && resume.value + 1 >= ring[0].seqNo {
        var deltas := ReplayFrame(resume.value);
        return Replication.Replay(deltas);
      }
      return Replication.Full;
    }

    method ReplayFrame(resume: nat) returns (deltas: seq<Delta>)
      ensures deltas == Replication.After(ring, resume)
    {
      deltas := [];
      for i := 0 to |ring|
        invariant Replication.After(ring, resume) == deltas + Replication.After(ring[i..], resume)
      {
        assert ring[i..][0] == ring[i] && ring[i..][1..] == ring[i + 1..];
        if ring[i].seqNo > resume {
          deltas := deltas + [ring[i]];
        }
      }
    }

    // ---------------------------------------------------------------- fleet

    /** `update_cache`: a new channel over the cap is counted, not stored. */
    method UpdateCache(c: Component, e: Event) returns (updated: Component, deltas: seq<Body>)
      ensures Step(updated, deltas) == Fleet.UpdateCache(c, e, settings.fleet.maxChannels)
    {
      var channel := Channel(e.instance, e.cls, e.name);
      updated, deltas := c, [];
      if channel !in c.values && |c.values| >= settings.fleet.maxChannels {
        updated := updated.(droppedChannels := updated.droppedChannels + 1);
        return;
      }
      updated := updated.(values := updated.values[channel := Cached(e.body, e.at)]);
      deltas := [ValueUpdated(e.key, channel)];
    }

    method UpdateState(c: Component, e: Event, down: bool) returns (updated: Component, deltas: seq<Body>)
      ensures Step(updated, deltas) == Fleet.UpdateState(c, e, down)
    {
      updated, deltas := c.(status := e.status, lastStateAt := Some(e.at)), [];
      if e.uptime.Some? {
        if updated.uptime.Some? && e.uptime.value < updated.uptime.value {
          deltas := deltas + [ComponentRestarted(e.key, updated.uptime.value, e.uptime.value)];
          updated := updated.(restarts := updated.restarts + 1);
        }
        updated := updated.(uptime := e.uptime);
      }
      if e.instances.Some? && updated.instances != e.instances {
        updated := updated.(instances := e.instances);
        deltas := deltas + [InstancesChanged(e.key, e.instances.value)];
      }
      var next := if down then UNREACHABLE else if e.status == Some("STOPPED") then STOPPED else FRESH;
      if updated.liveness != next {
        deltas := deltas + [LivenessChanged(e.key, updated.liveness, next)];
        updated := updated.(liveness := next);
      }
    }

    method UpdateCadence(c: Component, e: Event) returns (updated: Component, deltas: seq<Body>)
      requires e.cls == Cfg
      ensures Step(updated, deltas) == Fleet.UpdateCadence(c, e)
    {
      updated, deltas := c, [];
      if e.interval.None? || e.interval.value == 0 {
        return;
      }
      if c.interval != e.interval.value || !c.cadenceFromCfg {
        deltas := [CadenceChanged(e.key, e.interval.value)];
      }
      updated := c.(interval := e.interval.value, cadenceFromCfg := true);
    }

    /** The component half of a message. */
    method Upsert(e: Event) returns (deltas: seq<Body>)
      requires e.key.device in devices
      modifies this`devices
      ensures var r := UpsertComponent(old(devices)[e.key.device], e, settings.fleet);
              devices == old(devices)[e.key.device := r.0] && deltas == r.1
    {
      var dev := devices[e.key.device];
      deltas := [];
      var component := NewComponent(e, dev.unreachable, settings.fleet);
      if e.key.component in dev.components {
        component := dev.components[e.key.component];
      } else {
        deltas := [ComponentDiscovered(e.key, e.path, e.hier)];
      }
      ghost var first, start := deltas, component;
      var cacheDeltas, stateDeltas, cadenceDeltas: seq<Body> := [], [], [];
      if e.cls != Log {
        component, cacheDeltas := UpdateCache(component, e);
      }
      if e.cls == State {
        component, stateDeltas := UpdateState(component, e, dev.unreachable);
      }
      if e.cls == Cfg {
        component, cadenceDeltas := UpdateCadence(component, e);
      }
      assert Step(component, cacheDeltas + stateDeltas + cadenceDeltas) == UpdateComponent(start, e, dev.unreachable, settings.fleet);
      deltas := deltas + (cacheDeltas + stateDeltas + cadenceDeltas);
      devices := devices[e.key.device := dev.(components := dev.components[e.key.component := component])];
    }

    method IngestFleet(e: Event) returns (deltas: seq<Body>, isNew: bool, transition: Option<bool>, alarmsChanged: bool)
      modifies this`devices, this`alarms
      ensures Outcome(devices, deltas, isNew, transition) == Fleet.IngestFleet(old(devices), e, settings.fleet)
      ensures (alarms, alarmsChanged) ==
                if transition.Some? then Alarms.SetContainment(old(alarms), e.key.device, transition.value) else (old(alarms), false)
    {
      hide Alarms.SetContainment, UpsertComponent, IsBridgeUnreachable;
      var d := e.key.device;
      deltas, transition, alarmsChanged := [], None, false;
      isNew := d !in devices;
      if isNew {
        devices := devices[d := Device(false, None, map[])];
        deltas := [DeviceDiscovered(d)];
      }
      if IsBridgeUnreachable(e) {
        if !devices[d].unreachable {
          devices := devices[d := devices[d].(unreachable := true, since := Some(e.at))];
          alarmsChanged := SetDeviceContainment(d, true);
          deltas := deltas + [ReachabilityChanged(d, true, |devices[d].components|)];
          transition := Some(true);
        }
        return;
      }
      if devices[d].unreachable && e.cls == State {
        devices := devices[d := devices[d].(unreachable := false, since := None)];
        alarmsChanged := SetDeviceContainment(d, false);
        deltas := deltas + [ReachabilityChanged(d, false, |devices[d].components|)];
        transition := Some(false);
      }
      var more := Upsert(e);
      deltas := deltas + more;
    }

    // ---------------------------------------------------------------- alarms

    method SetDeviceContainment(device: string, contained: bool) returns (changed: bool)
      modifies this`alarms
      ensures (alarms, changed) == Alarms.SetContainment(old(alarms), device, contained)
    {
      alarms := alarms.(contained := if contained then alarms.contained + {device} else alarms.contained - {device});
      changed := false;
      ghost var before := alarms.alarms;
      var todo := alarms.alarms.Keys;
      while todo != {}
        invariant todo <= before.Keys && alarms == old(alarms).(contained := alarms.contained, alarms := alarms.alarms)
        invariant alarms.contained == if contained then old(alarms).contained + {device} else old(alarms).contained - {device}
        invariant alarms.alarms.Keys == before.Keys
        invariant forall id <- before :: alarms.alarms[id] ==
                    if id in todo then before[id] else Alarms.Flip(before, device, contained)[id]
        invariant changed <==> exists id <- before.Keys - todo :: id.key.device == device && before[id].contained != contained
        decreases todo
      {
        var id :| id in todo;
        if id.key.device == device && alarms.alarms[id].contained != contained {
          alarms := alarms.(alarms := alarms.alarms[id := alarms.alarms[id].(contained := contained)]);
          changed := true;
        }
        todo := todo - {id};
      }
      assert alarms.alarms == Alarms.Flip(before, device, contained);
    }

    method AckAlarm(id: Alarms.AlarmId) returns (event: Option<GatewayEvent>)
      requires Valid()
      modifies this`alarms, this`acts
      ensures Valid()
      ensures alarms == Alarms.Ack(old(alarms), id).0 && acts == old(acts) + [AlarmHistory.Acked(id)]
      ensures event == if alarms.alarms != old(alarms).alarms
                       then Some(AlarmsFrame(alarms.alarms, Alarms.CountsOf(alarms.alarms))) else None
    {
      hide AlarmHistory.TableIs, FleetHistory.FleetIs, Alarms.ContainmentAgrees, FleetOk, Clock.After, Newest, Replication.Numbered, Alarms.Ack, Alarms.CountsOf;
      hide Logs.Ingested, Signals.Ingested, Metrics.Run;
      Alarms.AckContains(devices, alarms, id);
      AlarmHistory.AckStep(alarms, acts, id);
      acts := acts + [AlarmHistory.Acked(id)];
      event := Acknowledge(id);
    }

    method Acknowledge(id: Alarms.AlarmId) returns (event: Option<GatewayEvent>)
      modifies this`alarms
      ensures alarms == Alarms.Ack(old(alarms), id).0
      ensures event == if Alarms.Ack(old(alarms), id).1
                       then Some(AlarmsFrame(alarms.alarms, Alarms.CountsOf(alarms.alarms))) else None
    {
      if id !in alarms.alarms || alarms.alarms[id].acked {
        return None;
      }
      alarms := alarms.(alarms := alarms.alarms[id := alarms.alarms[id].(acked := true)]);
      var frame := TakeAlarmsFrame();
      event := Some(frame);
    }

    /** The `alarms` frame: the table with its counts. */
    method TakeAlarmsFrame() returns (frame: GatewayEvent)
      ensures frame == AlarmsFrame(alarms.alarms, Alarms.CountsOf(alarms.alarms))
    {
      hide CountsIn;
      var table := alarms.alarms;
      var counts := Alarms.Counts(0, 0, 0, 0, 0);
      CountNone(table);
      var todo := table.Keys;
      while todo != {}
        invariant todo <= table.Keys && counts == CountsIn(table, table.Keys - todo)
        decreases todo
      {
        var id :| id in todo;
        CountOneMore(table, table.Keys - todo, id);
        assert table.Keys - todo + {id} == table.Keys - (todo - {id});
        todo := todo - {id};
        if table[id].contained {
          counts := counts.(contained := counts.contained + 1);
          continue;
        }
        counts := counts.(active := counts.active + 1);
        if table[id].severity == Alarms.CRITICAL {
          counts := counts.(critical := counts.critical + 1);
        } else {
          counts := counts.(warning := counts.warning + 1);
        }
        if table[id].acked {
          counts := counts.(acked := counts.acked + 1);
        }
      }
      CountAll(table);
      assert table.Keys - todo == table.Keys;
      frame := AlarmsFrame(table, counts);
    }

    method IngestAlarmEvent(key: Key, r: Alarms.Reading, at: nat, wall: nat) returns (changed: bool)
      modifies this`alarms
      ensures (alarms, changed) == Alarms.AlarmEvent(old(alarms), key, r, at, wall)
    {
      var id := Alarms.AlarmId(key, r.ty);
      if r.active == Some(false) {
        changed := ClearAlarm(id, wall);
      } else if r.level.Some? && r.level.value in {Alarms.CRITICAL, Alarms.ERROR, Alarms.WARNING} {
        changed := RaiseAlarm(id, r, r.level.value, at);
      } else {
        changed := ClearAlarm(id, wall);
      }
    }

    method RaiseAlarm(id: Alarms.AlarmId, r: Alarms.Reading, level: Alarms.Level, at: nat) returns (changed: bool)
      modifies this`alarms
      ensures (alarms, changed) == Alarms.Raise(old(alarms), id, r, level, at)
    {
      if id in alarms.alarms {
        var alarm := alarms.alarms[id];
        alarm := alarm.(count := alarm.count + 1, lastAt := at, severity := level, message := r.message, channel := r.channel);
        alarms := alarms.(alarms := alarms.alarms[id := alarm]);
        return true;
      }
      if |alarms.alarms| >= Alarms.MAX_ALARMS {
        alarms := alarms.(dropped := alarms.dropped + 1);
        return false;
      }
      var alarm := Alarms.Alarm(level, r.message, at, at, 1, false, id.key.device in alarms.contained, r.channel);
      alarms := alarms.(alarms := alarms.alarms[id := alarm]);
      changed := true;
    }

    method ClearAlarm(id: Alarms.AlarmId, wall: nat) returns (changed: bool)
      modifies this`alarms
      ensures (alarms, changed) == Alarms.Clear(old(alarms), id, wall)
    {
      if id !in alarms.alarms {
        return false;
      }
      var history := alarms.history + [Alarms.Resolved(id, alarms.alarms[id], wall)];
      ghost var longer := history;
      while |history| > Alarms.MAX_HISTORY
        invariant Newest(history, Alarms.MAX_HISTORY) == Newest(longer, Alarms.MAX_HISTORY)
        decreases |history|
      {
        history := history[1..];
      }
      alarms := alarms.(alarms := alarms.alarms - {id}, history := history);
      changed := true;
    }

    // ---------------------------------------------------------------- sweep

    /** Visits every component of every reachable device; `order` records in which order. */
    method SweepDevices(now: nat) returns (bodies: seq<Body>, ghost order: seq<Key>)
      modifies this`devices
      ensures History.NoRepeats(order)
      ensures forall k :: k in order <==> Known(old(devices), k) && !old(devices)[k.device].unreachable
      ensures (devices, bodies) == Fleet.Sweep(old(devices), order, now, settings.fleet)
    {
      ghost var start := devices;
      bodies, order := [], [];
      var todo := devices.Keys;
      while todo != {}
        invariant History.NoRepeats(order) && forall k <- order :: Known(start, k)
        invariant (devices, bodies) == Fleet.Sweep(start, order, now, settings.fleet)
        invariant todo <= start.Keys && SweptApart(start, devices)
        invariant forall k :: k in order <==> Known(start, k) && !start[k.device].unreachable && k.device !in todo
        decreases todo
      {
        var d :| d in todo;
        todo := todo - {d};
        if !devices[d].unreachable {
          bodies, order := SweepDevice(d, now, start, bodies, order);
        }
      }
    }

    method SweepDevice(d: string, now: nat, ghost start: Devices, bodies: seq<Body>, ghost order: seq<Key>)
      returns (bodies': seq<Body>, ghost order': seq<Key>)
      requires d in devices && !devices[d].unreachable && SweptApart(start, devices)
      requires forall k <- order :: Known(start, k)
      requires (devices, bodies) == Fleet.Sweep(start, order, now, settings.fleet)
      requires History.NoRepeats(order) && forall k <- order :: k.device != d
      modifies this`devices
      ensures History.NoRepeats(order')
      ensures forall k :: k in order' <==> k in order || (Known(start, k) && k.device == d)
      ensures (devices, bodies') == Fleet.Sweep(start, order', now, settings.fleet)
      ensures SweptApart(start, devices)
    {
      bodies', order' := bodies, order;
      var todo := devices[d].components.Keys;
      while todo != {}
        invariant forall k :: k in order' <==> k in order || (Known(start, k) && k.device == d && k.component !in todo)
        invariant History.NoRepeats(order') && forall k <- order' :: Known(start, k)
        invariant (devices, bodies') == Fleet.Sweep(start, order', now, settings.fleet)
        invariant d in devices && todo <= devices[d].components.Keys && SweptApart(start, devices)
        decreases todo
      {
        var name :| name in todo;
        var k := Key(d, name);
        SweepSnoc(start, order', k, now, settings.fleet);
        var c, deltas := SweepOne(devices[d].components[name], k, now);
        SweptPut(start, devices, k, c);
        NoRepeatsSnoc(order', k);
        todo, order' := todo - {name}, order' + [k];
        bodies' := bodies' + deltas;
        devices := devices[d := devices[d].(components := devices[d].components[name := c])];
      }
    }

    method SweepOne(c: Component, k: Key, now: nat) returns (swept: Component, deltas: seq<Body>)
      ensures Step(swept, deltas) == SweepComponent(c, k, false, now, settings.fleet)
    {
      swept, deltas := c, [];
      if c.status == Some("STOPPED") {
        return;
      }
      var age := (if now < c.lastStateAt.GetOr(c.firstSeenAt) then 0 else now - c.lastStateAt.GetOr(c.firstSeenAt)) as real / 1000.0;
      var expected := c.interval as real;
      var next := FRESH;
      if age > expected * settings.fleet.offlineMultiplier {
        next := OFFLINE;
      } else if age > expected * settings.fleet.staleMultiplier {
        next := STALE;
      } else if age > expected * settings.fleet.warnMultiplier {
        next := WARN;
      }
      if c.liveness != next {
        deltas := [LivenessChanged(k, c.liveness, next)];
        swept := c.(liveness := next);
      }
    }

    method SweepFleet(now: nat) returns (frame: Option<seq<Delta>>, ghost order: seq<Key>)
      requires RingOk() && FleetOk(devices) && Alarms.ContainmentAgrees(devices, alarms)
      modifies this`devices, this`seqNo, this`ring, this`log
      ensures RingOk() && FleetOk(devices) && Alarms.ContainmentAgrees(devices, alarms)
      ensures History.NoRepeats(order)
      ensures forall k :: k in order <==> Known(old(devices), k) && !old(devices)[k.device].unreachable
      ensures var swept := Fleet.Sweep(old(devices), order, now, settings.fleet);
              && devices == swept.0
              && log == old(log) + Replication.Stamp(swept.1, old(seqNo), now)
              && frame == if swept.1 == [] then None else Some(Replication.Stamp(swept.1, old(seqNo), now))
    {
      var bodies;
      bodies, order := SweepDevices(now);
      SweepKeepsFleetOk(old(devices), order, now, settings.fleet);
      Alarms.SweepContains(old(devices), alarms, order, now, settings.fleet);
      hide FleetOk, Alarms.ContainmentAgrees, Fleet.Sweep, RingOk, History.NoRepeats;
      frame := StampAndStore(bodies, now);
    }

    /** One sweep on the clamped timeline; a recovery is reported at most once. */
    method Sweep(wall: nat)
      returns (frame: Option<seq<Delta>>, clockStep: Option<Clock.Observation>, recovered: bool, ghost order: seq<Key>)
      requires Valid()
      modifies this`clock, this`readings, this`devices, this`seqNo, this`ring, this`log
      ensures Valid()
      ensures readings == old(readings) + [Clock.Reading(wall, true)]
      ensures (clock, Clock.Outcome(clock.last, clockStep, recovered))
           == Clock.Read(old(clock), Clock.Reading(wall, true), settings.clock)
      ensures History.NoRepeats(order)
      ensures forall k :: k in order <==> Known(old(devices), k) && !old(devices)[k.device].unreachable
      ensures var swept := Fleet.Sweep(old(devices), order, clock.last, settings.fleet);
              && devices == swept.0
              && log == old(log) + Replication.Stamp(swept.1, old(seqNo), clock.last)
              && frame == if swept.1 == [] then None else Some(Replication.Stamp(swept.1, old(seqNo), clock.last))
      ensures SweepTells(old(devices), devices, frame, clock.last, settings.fleet)
    {
      ghost var reading := Clock.Reading(wall, true);
      ClockSnoc(readings, reading, settings.clock);
      hide FleetOk, Alarms.ContainmentAgrees, Clock.After, RingOk, Known, Clock.Stamp, Clock.Recovers, History.NoRepeats, Fleet.Sweep, Replication.Stamp;
      hide SweepTells, FleetHistory.FleetIs, AlarmHistory.TableIs, Logs.Ingested, Signals.Ingested, Metrics.Run;
      var now;
      now, clockStep := BeginSweep(wall);
      frame, order := SweepFleet(now);
      SweepIsTold(old(devices), order, now, old(seqNo), settings.fleet);
      FleetHistory.SweepKeeps(old(devices), heard, order, now, settings.fleet);
      recovered := Recover(now);
    }

    /** The sweep's clamped reading, with a pending observation drained. */
    method BeginSweep(wall: nat) returns (now: nat, clockStep: Option<Clock.Observation>)
      modifies this`clock, this`readings
      ensures readings == old(readings) + [Clock.Reading(wall, true)]
      ensures var stamped := Clock.Stamp(old(clock), wall, settings.clock);
              clock == Clock.Take(stamped) && now == stamped.last && clockStep == stamped.pending
              && Clock.Recovers(clock, settings.clock) == Clock.Recovers(stamped, settings.clock)
              && old(clock).last <= now
    {
      readings := readings + [Clock.Reading(wall, true)];
      now := Stamp(wall);
      clockStep := clock.pending;
      clock := clock.(pending := None);
    }

    /** Quiet-clear: one recovery per reported fault, after the quiet window. */
    method Recover(now: nat) returns (recovered: bool)
      requires now == clock.last
      modifies this`clock
      ensures recovered == Clock.Recovers(old(clock), settings.clock)
      ensures clock == old(clock).(alarmActive := old(clock).alarmActive && !recovered)
    {
      recovered := clock.alarmActive && !clock.open
        && (if now < clock.lastFaultAt then 0 else now - clock.lastFaultAt) >= settings.clock.quietSecs * 1000;
      if recovered {
        clock := clock.(alarmActive := false);
      }
    }

    // ---------------------------------------------------------------- data planes

    method IngestSignal(m: Signals.Message) returns (updates: seq<Signals.Update>)
      modifies this`signals
      ensures (signals, updates) == Signals.IngestSignal(old(signals), m)
    {
      updates := [];
      if m.samples == [] {
        return;
      }
      if m.id !in signals.series && |signals.series| >= Signals.MAX_SERIES {
        signals := signals.(dropped := signals.dropped + 1);
        return;
      }
      var start := if m.id in signals.series then signals.series[m.id] else Signals.NewSeries(m.at);
      var series, name, signalId := UpdateFields(start, m);
      hide Signals.Relabels, Signals.Relabelled, Signals.UpdateOf, Newest;
      updates, series := PushSamples(m, series, name, signalId);
      assert updates == Signals.UpdatesFor(start, m);
      signals := signals.(series := signals.series[m.id := series]);
    }

    /** Everything of a series but its points; the labels to push, when one of them changed. */
    method UpdateFields(s: Signals.Series, m: Signals.Message) returns (series: Signals.Series, name: Option<string>, signalId: Option<string>)
      requires m.samples != []
      ensures series == Signals.SeriesAfter(s, m).(points := s.points)
      ensures name == if Signals.Relabels(s, m.meta) then Signals.Relabelled(s, m).name else None
      ensures signalId == if Signals.Relabels(s, m.meta) then Signals.Relabelled(s, m).signalId else None
    {
      var last := m.samples[|m.samples| - 1];
      series := s.(latest := last.value, quality := last.quality, receivedAt := m.at,
                   sourceTimestamp := last.sourceTs.OrElse(last.serverTs).OrElse(m.headerTs),
                   sourceTs := last.sourceTs, serverTs := last.serverTs);
      if m.headerTs.Some? { series := series.(publishedTs := m.headerTs); }
      var labelChanged := false;
      if m.meta.name.Some? && series.name != m.meta.name {
        series := series.(name := m.meta.name);
        labelChanged := true;
      }
      if m.meta.signalId.Some? && series.signalId != m.meta.signalId {
        series := series.(signalId := m.meta.signalId);
        labelChanged := true;
      }
      series := series.(address := m.meta.address.OrElse(series.address),
                        adapter := m.meta.adapter.OrElse(series.adapter),
                        endpoint := m.meta.endpoint.OrElse(series.endpoint));
      if last.qualityRaw.Some? { series := series.(qualityRaw := last.qualityRaw); }
      name := if labelChanged then series.name else None;
      signalId := if labelChanged then series.signalId else None;
    }

    /** One point and one update per sample, in order. */
    method PushSamples(m: Signals.Message, s: Signals.Series, name: Option<string>, signalId: Option<string>)
      returns (updates: seq<Signals.Update>, series: Signals.Series)
      requires m.samples != []
      ensures |updates| == |m.samples|
      ensures forall j | 0 <= j < |updates| :: updates[j] == Signals.UpdateOf(m, m.samples[j], name, signalId)
      ensures series == s.(points := Newest(s.points + Signals.PointsOf(m.samples, m.at), Signals.MAX_POINTS))
    {
      hide Newest;
      updates := [];
      var points := s.points;
      ghost var all := Signals.PointsOf(m.samples, m.at);
      assert s.points + all[..0] == s.points;
      for i := 0 to |m.samples|
        invariant |updates| == i
        invariant forall j | 0 <= j < i :: updates[j] == Signals.UpdateOf(m, m.samples[j], name, signalId)
        invariant if i == 0 then points == s.points else points == Newest(s.points + all[..i], Signals.MAX_POINTS)
      {
        var sample := m.samples[i];
        var point := Signals.Point(m.at, sample.value, sample.quality, sample.sourceTs, sample.serverTs);
        NewestPush(s.points + all[..i], point, Signals.MAX_POINTS);
        assert s.points + all[..i + 1] == s.points + all[..i] + [point];
        points := TrimPoints(points + [point]);
        updates := updates + [Signals.UpdateOf(m, sample, name, signalId)];
      }
      assert all[..|m.samples|] == all;
      series := s.(points := points);
    }

    method TrimPoints(longer: seq<Signals.Point>) returns (points: seq<Signals.Point>)
      ensures points == Newest(longer, Signals.MAX_POINTS)
    {
      points := longer;
      while |points| > Signals.MAX_POINTS
        invariant Newest(points, Signals.MAX_POINTS) == Newest(longer, Signals.MAX_POINTS)
        decreases |points|
      {
        points := points[1..];
      }
    }

    method IngestMetrics(m: Metrics.Message) returns (updates: seq<Metrics.Update>)
      modifies this`metrics
      ensures (metrics, updates) == Metrics.IngestMetrics(old(metrics), m, settings.metrics)
    {
      updates := [];
      ghost var offered := Metrics.Offered(m);
      assert offered[0..] == offered && forall x: seq<Metrics.Update> :: [] + x == x;
      for i := 0 to |m.measures|
        invariant Metrics.Ingest(old(metrics), offered, settings.metrics)
               == (Metrics.Ingest(metrics, offered[i..], settings.metrics).0,
                   updates + Metrics.Ingest(metrics, offered[i..], settings.metrics).1)
      {
        var u := Metrics.UpdateFor(m, m.measures[i]);
        assert offered[i..][0] == u && offered[i..][1..] == offered[i + 1..];
        if u.id !in metrics.series && |metrics.series| >= settings.metrics.maxSeries {
          metrics := metrics.(dropped := metrics.dropped + 1);
          continue;
        }
        ghost var rest := Metrics.Ingest(Metrics.Record(metrics, u, settings.metrics.maxPoints), offered[i + 1..], settings.metrics).1;
        assert updates + ([u] + rest) == updates + [u] + rest;
        var points := if u.id in metrics.series then metrics.series[u.id].points else [];
        points := TrimRing(points + [u.point]);
        metrics := metrics.(series := metrics.series[u.id := Metrics.Series(u.point.value, u.point.at, u.sourceTimestamp, points)]);
        updates := updates + [u];
      }
      assert offered[|m.measures|..] == [] && updates + [] == updates;
    }

    method TrimRing(longer: seq<Metrics.Point>) returns (points: seq<Metrics.Point>)
      ensures points == Newest(longer, settings.metrics.maxPoints)
    {
      points := longer;
      while |points| > settings.metrics.maxPoints
        invariant Newest(points, settings.metrics.maxPoints) == Newest(longer, settings.metrics.maxPoints)
        decreases |points|
      {
        points := points[1..];
      }
    }

    method IngestLog(m: Logs.Message) returns (push: Option<Logs.Push>)
      modifies this`logs
      ensures (logs, push) == Logs.IngestLog(old(logs), m, settings.logs)
    {
      if !Logs.Readable(m) {
        return None;
      }
      var dedupe := Logs.KeyOf(m);
      if dedupe in logs.seen {
        return None;
      }
      Remember(dedupe);
      var record := Logs.RecordFor(m, logs.nextId);
      StoreRecord(record);
      var dropped := if m.key in logs.drops then logs.drops[m.key] else 0;
      push := Some(Logs.Push(record, if dropped > 0 then Some(dropped) else None));
    }

    method Remember(dedupe: Logs.Dedupe)
      modifies this`logs
      ensures logs == Logs.Remember(old(logs), dedupe)
    {
      logs := logs.(seen := logs.seen + {dedupe}, queue := logs.queue + [dedupe]);
      if |logs.queue| > Logs.DEDUPE_DEPTH {
        logs := logs.(seen := logs.seen - {logs.queue[0]}, queue := logs.queue[1..]);
      }
    }

    method StoreRecord(record: Logs.Record)
      modifies this`logs
      ensures logs == Logs.Store(old(logs), record, settings.logs)
    {
      logs := logs.(nextId := logs.nextId + 1);
      var all := logs.all + [record];
      ghost var longer := all;
      while |all| > settings.logs.maxRecords
        invariant Newest(all, settings.logs.maxRecords) == Newest(longer, settings.logs.maxRecords)
        decreases |all|
      {
        all := all[1..];
      }
      var ring := (if record.key in logs.byComponent then logs.byComponent[record.key] else []) + [record];
      var drops := logs.drops;
      if |ring| > settings.logs.maxPerComponent {
        ring := ring[1..];
        drops := drops[record.key := (if record.key in drops then drops[record.key] else 0) + 1];
      }
      logs := logs.(all := all, byComponent := logs.byComponent[record.key := ring], drops := drops);
    }

    // ---------------------------------------------------------------- ingest

    /** The fleet fold, its delta batch, and the alarms it contains or releases. */
    method FleetPlane(e: Event) returns (frames: seq<GatewayEvent>, discovered: bool, ghost transition: Option<bool>)
      requires RingOk()
      modifies this`devices, this`alarms, this`seqNo, this`ring, this`log
      ensures RingOk()
      ensures var out := Fleet.IngestFleet(old(devices), e, settings.fleet);
              var deltas := Replication.Stamp(out.deltas, old(seqNo), e.at);
              && devices == out.devices && discovered == out.isNewDevice && transition == out.transition
              && log == old(log) + deltas
              && frames == DeltaFrames(deltas) + AlarmFrames(old(alarms), alarms)
      ensures alarms == if transition.Some? then Alarms.SetContainment(old(alarms), e.key.device, transition.value).0 else old(alarms)
    {
      hide Fleet.IngestFleet, Alarms.SetContainment, Alarms.CountsOf, RingOk;
      var deltas, isNew, moved, changed := IngestFleet(e);
      transition, discovered := moved, isNew;
      if moved.Some? { Alarms.FlipChanges(old(alarms), e.key.device, moved.value); }
      frames := [];
      var frame := StampAndStore(deltas, e.at);
      if frame.Some? {
        frames := frames + [DeltasFrame(frame.value)];
      }
      if changed {
        var alarmsFrame := TakeAlarmsFrame();
        frames := frames + [alarmsFrame];
      }
    }

    method AlarmPlane(e: Event, input: Ingress) returns (frames: seq<GatewayEvent>)
      requires Alarms.ContainmentAgrees(devices, alarms)
      modifies this`alarms
      ensures alarms == if e.cls == Evt then Alarms.AlarmEvent(old(alarms), e.key, input.alarm, e.at, input.clearWall).0 else old(alarms)
      ensures frames == AlarmFrames(old(alarms), alarms)
    {
      frames := [];
      if e.cls == Evt {
        Alarms.AlarmEventKeeps(devices, alarms, e.key, input.alarm, e.at, input.clearWall);
        hide Alarms.AlarmEvent, Alarms.CountsOf, Alarms.ContainmentAgrees;
        var changed := IngestAlarmEvent(e.key, input.alarm, e.at, input.clearWall);
        if changed {
          var alarmsFrame := TakeAlarmsFrame();
          frames := [alarmsFrame];
        }
      }
    }

    method FleetAndAlarms(e: Event, input: Ingress) returns (frames: seq<GatewayEvent>, discovered: bool)
      requires RingOk() && Alarms.ContainmentAgrees(devices, alarms)
      modifies this`devices, this`alarms, this`seqNo, this`ring, this`log
      ensures RingOk()
      ensures var out := Fleet.IngestFleet(old(devices), e, settings.fleet);
              var deltas := Replication.Stamp(out.deltas, old(seqNo), e.at);
              && devices == out.devices && discovered == out.isNewDevice
              && log == old(log) + deltas
              && alarms == Alarms.IngestAlarms(old(alarms), e, input.alarm, out.transition, input.clearWall).0
              && frames == DeltaFrames(deltas) + AlarmFrames(old(alarms), alarms)
    {
      Alarms.TransitionIsState(devices, e, settings.fleet);
      AlarmsKeptBetween(devices, alarms, e, settings.fleet);
      hide Fleet.IngestFleet, Alarms.ContainmentAgrees, Alarms.SetContainment, Alarms.AlarmEvent, Alarms.CountsOf, RingOk;
      ghost var transition;
      frames, discovered, transition := FleetPlane(e);
      ghost var between := alarms;
      var more := AlarmPlane(e, input);
      assert transition.Some? ==> more == [] && alarms == between;
      assert transition.None? ==> between == old(alarms);
      frames := frames + more;
    }

    method MetricPlane(input: Ingress, at: nat) returns (frames: seq<GatewayEvent>)
      modifies this`metrics
      ensures (metrics, frames) == MetricsAfter(old(metrics), input, at, settings)
    {
      frames := [];
      if input.event.cls == Metric && input.metric.Some? {
        var updates := IngestMetrics(input.metric.value.(at := at));
        if |updates| > 0 {
          frames := [MetricFrame(updates)];
        }
      }
    }

    method LogPlane(input: Ingress, at: nat) returns (frames: seq<GatewayEvent>)
      modifies this`logs
      ensures (logs, frames) == LogsAfter(old(logs), input, at, settings)
    {
      frames := [];
      if input.event.cls == Log && input.log.Some? {
        var push := IngestLog(input.log.value.(at := at));
        if push.Some? {
          frames := [LogPush(push.value)];
        }
      }
    }

    method SignalPlane(input: Ingress, at: nat) returns (frames: seq<GatewayEvent>)
      modifies this`signals
      ensures (signals, frames) == SignalsAfter(old(signals), input, at)
    {
      frames := [];
      if input.event.cls == Data && input.signal.Some? {
        var updates := IngestSignal(input.signal.value.(at := at));
        if |updates| > 0 {
          frames := [SignalFrame(updates)];
        }
      }
    }

    /** The one clamp point: stamps the message, counts it, drains a pending observation. */
    method Receive(wall: nat) returns (at: nat, clockStep: Option<Clock.Observation>)
      requires ClockOk()
      modifies this`clock, this`readings, meter
      ensures ClockOk() && at == clock.last
      ensures readings == old(readings) + [Clock.Reading(wall, false)]
      ensures meter.history == old(meter.history) + [at]
      ensures (clock, Clock.Outcome(at, clockStep, false)) == Clock.Read(old(clock), Clock.Reading(wall, false), settings.clock)
    {
      ghost var reading := Clock.Reading(wall, false);
      ClockSnoc(readings, reading, settings.clock);
      readings := readings + [reading];
      at := Stamp(wall);
      clockStep := clock.pending;
      clock := clock.(pending := None);
      hide Clock.After, Clock.Stamp;
      meter.Record(at);
    }

    /** One bus message: a single clamped stamp feeds every plane; the frames come out in plane
        order, with at most one `alarms` frame, showing the table the message ends with. */
    method Ingest(input: Ingress) returns (events: seq<GatewayEvent>, discovered: bool, clockStep: Option<Clock.Observation>)
      requires Valid()
      modifies this, meter
      ensures Valid()
      ensures readings == old(readings) + [Clock.Reading(input.wall, false)]
      ensures meter.history == old(meter.history) + [clock.last]
      ensures logged == old(logged) + LogMessages(input, clock.last)
      ensures sampled == old(sampled) + SignalMessages(input, clock.last)
      ensures measured == old(measured) + MetricMessages(input, clock.last)
      ensures (clock, Clock.Outcome(clock.last, clockStep, false))
           == Clock.Read(old(clock), Clock.Reading(input.wall, false), settings.clock)
      ensures var effects := Apply(old(Contents()), input, clock.last, old(seqNo), settings);
              && Contents() == effects.tables && log == old(log) + effects.deltas
              && events == effects.events && discovered == effects.discovered
      ensures FramesTell(old(Contents()), Contents(), log[|old(log)|..], input, clock.last, events, settings)
      ensures discovered <==> input.event.key.device !in old(devices)
      ensures heard == old(heard) + [input.event.(at := clock.last)] && acts == old(acts) + ActsOf(input, clock.last)
    {
      hide Alarms.ContainmentAgrees, FramesTell, FleetHistory.FleetIs, AlarmHistory.TableIs, ActsOf, FleetOk, Clock.After, Clock.Read, Apply;
      hide AlarmFrames, DeltaFrames, Replication.Stamp, Logs.Ingested, Signals.Ingested, Metrics.Run, LogMessages, SignalMessages, MetricMessages;
      var at;
      at, clockStep := Receive(input.wall);
      events, discovered := Process(input, at);
    }

    /** Everything but the clock. */
    method Process(input: Ingress, at: nat) returns (events: seq<GatewayEvent>, discovered: bool)
      requires HistoryOk() && RingOk() && PlanesOk() && FleetOk(devices) && Alarms.ContainmentAgrees(devices, alarms)
      modifies this`devices, this`alarms, this`seqNo, this`ring, this`log, this`metrics, this`logs, this`signals
      modifies this`logged, this`sampled, this`measured, this`heard, this`acts
      ensures HistoryOk() && RingOk() && PlanesOk() && FleetOk(devices) && Alarms.ContainmentAgrees(devices, alarms)
      ensures logged == old(logged) + LogMessages(input, at)
      ensures sampled == old(sampled) + SignalMessages(input, at)
      ensures measured == old(measured) + MetricMessages(input, at)
      ensures heard == old(heard) + [input.event.(at := at)] && acts == old(acts) + ActsOf(input, at)
      ensures var effects := Apply(old(Contents()), input, at, old(seqNo), settings);
              && Contents() == effects.tables && log == old(log) + effects.deltas
              && events == effects.events && discovered == effects.discovered
      ensures FramesTell(old(Contents()), Contents(), log[|old(log)|..], input, at, events, settings)
      ensures discovered <==> input.event.key.device !in old(devices)
    {
      hide Alarms.ContainmentAgrees, FramesTell, FleetHistory.FleetIs, AlarmHistory.TableIs, ActsOf, FleetOk, Apply, RingOk;
      hide Logs.Ingested, Signals.Ingested, Metrics.Run, LogMessages, SignalMessages, MetricMessages;
      ghost var before := log;
      ApplyKeepsOk(Contents(), input, at, seqNo, settings);
      ApplyTells(Contents(), input, at, seqNo, settings);
      ApplyKeepsHistory(Contents(), input, at, seqNo, heard, acts, settings);
      PlanesGrow(Contents(), input, at, seqNo, logged, sampled, measured, settings);
      events, discovered := Dispatch(input, at);
      assert log[|before|..] == Apply(old(Contents()), input, at, old(seqNo), settings).deltas;
      logged, sampled, measured := logged + LogMessages(input, at), sampled + SignalMessages(input, at), measured + MetricMessages(input, at);
      heard, acts := heard + [input.event.(at := at)], acts + ActsOf(input, at);
    }

    method Dispatch(input: Ingress, at: nat) returns (events: seq<GatewayEvent>, discovered: bool)
      requires RingOk() && Alarms.ContainmentAgrees(devices, alarms)
      modifies this`devices, this`alarms, this`seqNo, this`ring, this`log, this`metrics, this`logs, this`signals
      ensures RingOk()
      ensures var effects := Apply(old(Contents()), input, at, old(seqNo), settings);
              && Contents() == effects.tables && log == old(log) + effects.deltas
              && events == effects.events && discovered == effects.discovered
    {
      hide Alarms.ContainmentAgrees, Fleet.IngestFleet, Alarms.IngestAlarms, MetricsAfter, LogsAfter, SignalsAfter;
      hide RingOk, DeltaFrames, AlarmFrames, Replication.Stamp;
      events, discovered := FleetAndAlarms(input.event.(at := at), input);
      var metricFrames := MetricPlane(input, at);
      var logFrames := LogPlane(input, at);
      var signalFrames := SignalPlane(input, at);
      events := events + metricFrames + logFrames + signalFrames;
    }

    ghost function Contents(): Tables
      reads this
    {
      Tables(devices, alarms, metrics, logs, signals)
    }
  }

  lemma AlarmsKeptBetween(f: Devices, t: Alarms.Table, e: Event, cfg: Config)
    requires Alarms.ContainmentAgrees(f, t)
    ensures var out := Fleet.IngestFleet(f, e, cfg);
            Alarms.ContainmentAgrees(out.devices,
              if out.transition.Some? then Alarms.SetContainment(t, e.key.device, out.transition.value).0 else t)
  {
    Alarms.TransitionContains(f, t, e, cfg);
  }

  lemma ApplyKeepsOk(t: Tables, input: Ingress, at: nat, last: nat, s: Settings)
    requires FleetOk(t.devices) && Alarms.ContainmentAgrees(t.devices, t.alarms)
    ensures var t' := Apply(t, input, at, last, s).tables;
            FleetOk(t'.devices) && Alarms.ContainmentAgrees(t'.devices, t'.alarms)
  {
    var e := input.event.(at := at);
    IngestKeepsFleetOk(t.devices, e, s.fleet);
    Alarms.IngestContains(t.devices, t.alarms, e, input.alarm, input.clearWall, s.fleet);
    hide FleetOk, Fleet.IngestFleet, Alarms.IngestAlarms, Alarms.ContainmentAgrees;
  }

  /** What the metric plane makes of a message: its new table and the frames it emits. */
  function MetricsAfter(t: Metrics.Table, input: Ingress, at: nat, s: Settings): (Metrics.Table, seq<GatewayEvent>) {
    if input.event.cls != Metric || input.metric.None? then (t, [])
    else
      var (t', updates) := Metrics.IngestMetrics(t, input.metric.value.(at := at), s.metrics);
      (t', if updates == [] then [] else [MetricFrame(updates)])
  }

  function LogsAfter(t: Logs.Table, input: Ingress, at: nat, s: Settings): (Logs.Table, seq<GatewayEvent>) {
    if input.event.cls != Log || input.log.None? then (t, [])
    else
      var (t', push) := Logs.IngestLog(t, input.log.value.(at := at), s.logs);
      (t', if push.None? then [] else [LogPush(push.value)])
  }

  function SignalsAfter(t: Signals.Table, input: Ingress, at: nat): (Signals.Table, seq<GatewayEvent>) {
    if input.event.cls != Data || input.signal.None? then (t, [])
    else
      var (t', updates) := Signals.IngestSignal(t, input.signal.value.(at := at));
      (t', if updates == [] then [] else [SignalFrame(updates)])
  }

  /** The messages a plane takes in from one bus message. */
  function LogMessages(input: Ingress, at: nat): seq<Logs.Message> {
    if input.event.cls == Log && input.log.Some? then [input.log.value.(at := at)] else []
  }

  function SignalMessages(input: Ingress, at: nat): seq<Signals.Message> {
    if input.event.cls == Data && input.signal.Some? then [input.signal.value.(at := at)] else []
  }

  function MetricMessages(input: Ingress, at: nat): seq<Metrics.Message> {
    if input.event.cls == Metric && input.metric.Some? then [input.metric.value.(at := at)] else []
  }

  /** After a sweep every component that is neither stopped nor on an unreachable device shows the
      rung of its silence, the others what they did; the frame names exactly the changes. */
  ghost predicate SweepTells(before: Devices, after: Devices, frame: Option<seq<Delta>>, now: nat, cfg: Config) {
    && (forall k :: Known(after, k) <==> Known(before, k))
    && (forall k :: Known(before, k) ==>
          if before[k.device].unreachable || Get(before, k).status == Some("STOPPED") then Get(after, k).liveness == Get(before, k).liveness
          else History.ShowsItsAge(Get(after, k).liveness, History.SilenceMs(Get(before, k), now), Get(before, k).interval, cfg))
    && (frame.Some? ==> frame.value != [])
    && (forall b :: Names(frame, b) <==> exists k :: History.IsNotice(before, after, k, b))
  }

  ghost predicate Names(frame: Option<seq<Delta>>, b: Body) {
    frame.Some? && exists d <- frame.value :: d.body == b
  }

  lemma NamesStamped(bodies: seq<Body>, last: nat, at: nat, b: Body)
    ensures Names(if bodies == [] then None else Some(Replication.Stamp(bodies, last, at)), b) <==> b in bodies
  {
    var r := Replication.Stamp(bodies, last, at);
    if b in bodies {
      var i :| 0 <= i < |bodies| && bodies[i] == b;
      assert r[i] in r && r[i].body == b;
    }
  }

  lemma SweepIsTold(f: Devices, order: seq<Key>, now: nat, last: nat, cfg: Config)
    requires History.NoRepeats(order)
    requires forall k :: k in order <==> Known(f, k) && !f[k.device].unreachable
    ensures var (f', bodies) := Fleet.Sweep(f, order, now, cfg);
            SweepTells(f, f', if bodies == [] then None else Some(Replication.Stamp(bodies, last, now)), now, cfg)
  {
    var (f', bodies) := Fleet.Sweep(f, order, now, cfg);
    var frame := if bodies == [] then None else Some(Replication.Stamp(bodies, last, now));
    hide Fleet.Sweep, History.ShowsItsAge, Replication.Stamp, Names, History.NoRepeats;
    forall k ensures Known(f', k) <==> Known(f, k) {
      FleetHistory.SweepDoes(f, order, now, cfg, k);
    }
    forall k | Known(f, k)
      ensures if f[k.device].unreachable || Get(f, k).status == Some("STOPPED") then Get(f', k).liveness == Get(f, k).liveness
              else History.ShowsItsAge(Get(f', k).liveness, History.SilenceMs(Get(f, k), now), Get(f, k).interval, cfg)
    {
      History.SweepShowsAge(f, order, now, cfg, k);
    }
    forall b ensures Names(frame, b) <==> exists k :: History.IsNotice(f, f', k, b) {
      NamesStamped(bodies, last, now, b);
      History.SweepNotices(f, order, now, cfg, b);
      forall k | History.IsNotice(f, f', k, b) ensures k in order {
        History.SweepShowsAge(f, order, now, cfg, k);
      }
    }
  }

  function ActsOf(input: Ingress, at: nat): seq<AlarmHistory.Act> {
    AlarmHistory.ActsOf(Alarms.Message(input.event.(at := at), input.alarm, input.clearWall))
  }

  lemma StartIsHistory(cfg: Config)
    ensures FleetHistory.FleetIs(map[], [], cfg) && AlarmHistory.TableIs(Alarms.Table(map[], {}, [], 0), [])
  {
    AlarmHistory.EmptyTable();
  }

  lemma ApplyKeepsHistory(t: Tables, input: Ingress, at: nat, last: nat, heard: seq<Event>, acts: seq<AlarmHistory.Act>, s: Settings)
    requires FleetHistory.FleetIs(t.devices, heard, s.fleet) && AlarmHistory.TableIs(t.alarms, acts)
    ensures var effects := Apply(t, input, at, last, s);
            && FleetHistory.FleetIs(effects.tables.devices, heard + [input.event.(at := at)], s.fleet)
            && AlarmHistory.TableIs(effects.tables.alarms, acts + ActsOf(input, at))
            && (effects.discovered <==> input.event.key.device !in t.devices)
  {
    var e := input.event.(at := at);
    assert Fleet.IngestFleet(t.devices, e, s.fleet).isNewDevice <==> e.key.device !in t.devices;
    FleetHistory.MessageKeeps(t.devices, heard, e, s.fleet);
    AlarmHistory.MessageStep(t.devices, t.alarms, acts, e, input.alarm, input.clearWall, s.fleet);
    hide Fleet.IngestFleet, Alarms.IngestAlarms, FleetHistory.FleetIs, AlarmHistory.TableIs;
  }

  lemma PlanesGrow(t: Tables, input: Ingress, at: nat, last: nat,
                   logged: seq<Logs.Message>, sampled: seq<Signals.Message>, measured: seq<Metrics.Message>, s: Settings)
    requires t.logs == Logs.Ingested(logged, s.logs) && t.signals == Signals.Ingested(sampled)
    requires t.metrics == Metrics.Run(Metrics.Table(map[], 0), measured, s.metrics).0
    ensures var t' := Apply(t, input, at, last, s).tables;
            && t'.logs == Logs.Ingested(logged + LogMessages(input, at), s.logs)
            && t'.signals == Signals.Ingested(sampled + SignalMessages(input, at))
            && t'.metrics == Metrics.Run(Metrics.Table(map[], 0), measured + MetricMessages(input, at), s.metrics).0
  {
    hide Fleet.IngestFleet, Alarms.IngestAlarms, AlarmFrames, DeltaFrames, Logs.IngestLog, Signals.IngestSignal, Metrics.IngestMetrics;
    assert logged + [] == logged && sampled + [] == sampled && measured + [] == measured;
    var ls, ss, ms := LogMessages(input, at), SignalMessages(input, at), MetricMessages(input, at);
    if ls != [] { assert (logged + ls)[..|logged|] == logged; }
    if ss != [] { assert (sampled + ss)[..|sampled|] == sampled; }
    if ms != [] { assert (measured + ms)[..|measured|] == measured; }
  }

  // ------------------------------------------------------------------ what the frames tell

  /** The frames of one message, at most one a plane. */
  datatype Frames = Frames(
    deltas: Option<seq<Delta>>, alarms: Option<(map<Alarms.AlarmId, Alarms.Alarm>, Alarms.Counts)>,
    metrics: Option<seq<Metrics.Update>>, log: Option<Logs.Push>, signals: Option<seq<Signals.Update>>)

  function Listed(f: Frames): seq<GatewayEvent> {
    (if f.deltas.Some? then [DeltasFrame(f.deltas.value)] else [])
    + (if f.alarms.Some? then [AlarmsFrame(f.alarms.value.0, f.alarms.value.1)] else [])
    + (if f.metrics.Some? then [MetricFrame(f.metrics.value)] else [])
    + (if f.log.Some? then [LogPush(f.log.value)] else [])
    + (if f.signals.Some? then [SignalFrame(f.signals.value)] else [])
  }

  /** Counting alarms by severity and acknowledgement, the contained ones apart. */
  ghost predicate CountsAre(c: Alarms.Counts, a: map<Alarms.AlarmId, Alarms.Alarm>) {
    && c.contained == |set id <- a | a[id].contained|
    && c.active == |set id <- a | !a[id].contained|
    && c.critical == |set id <- a | !a[id].contained && a[id].severity == Alarms.CRITICAL|
    && c.warning == |set id <- a | !a[id].contained && a[id].severity != Alarms.CRITICAL|
    && c.acked == |set id <- a | !a[id].contained && a[id].acked|
  }

  /** The frame goes out exactly when the alarms changed, with the final ones and their counts. */
  ghost predicate AlarmsTold(before: Alarms.Table, after: Alarms.Table, frame: Option<(map<Alarms.AlarmId, Alarms.Alarm>, Alarms.Counts)>) {
    && (frame.Some? <==> after.alarms != before.alarms)
    && (frame.Some? ==> frame.value.0 == after.alarms && CountsAre(frame.value.1, after.alarms))
  }

  /** Whoever mirrored the signals and folds the frame mirrors them again. */
  ghost predicate SignalsTold(before: Signals.Table, after: Signals.Table, frame: Option<seq<Signals.Update>>) {
    && (frame.Some? ==> frame.value != [])
    && forall c :: Signals.Mirrors(before, c) ==>
         Signals.Mirrors(after, Signals.FoldUpdates(c, frame.GetOr([]), Signals.MAX_POINTS, Signals.MAX_SERIES))
  }

  /** Whoever agreed on the metrics and folds the frame agrees again, over everything offered. */
  ghost predicate MetricsTold(before: Metrics.Table, after: Metrics.Table, offered: seq<Metrics.Update>, frame: Option<seq<Metrics.Update>>, b: Metrics.Bounds) {
    && (frame.Some? ==> frame.value != [])
    && forall start, us, c :: Metrics.Agree(start, us, before, c, b) ==>
         Metrics.Agree(start, us + offered, after, Metrics.FoldUpdates(c, frame.GetOr([]), Metrics.CLIENT), b)
  }

  /** The message is a log message with a level, a logger and a text, and no repeat of one remembered. */
  ghost predicate NewLog(before: Logs.Table, input: Ingress) {
    && input.event.cls == Log && input.log.Some?
    && var m := input.log.value;
       && (m.channelLevel.Some? || m.bodyLevel.Some?) && m.logger.Some? && m.message.Some? && m.logger.value != "" && m.message.value != ""
       && Logs.Dedupe(m.key, m.instance, if m.channelLevel.Some? then m.channelLevel.value else m.bodyLevel.value, m.sequence.GetOr(0),
                      if m.bodyTs.Some? then m.bodyTs.value else m.headerTs.GetOr(""), m.logger.value, m.message.value) !in before.seen
  }

  /** The pushed record is the newly accepted one, with the drop count of its ring. */
  ghost predicate LogTold(before: Logs.Table, after: Logs.Table, input: Ingress, at: nat, frame: Option<Logs.Push>) {
    && (frame.Some? <==> NewLog(before, input))
    && (frame.None? ==> after == before)
    && (frame.Some? ==>
          var m, r := input.log.value, frame.value.record;
          && after.nextId == before.nextId + 1
          && r.id == before.nextId && r.key == m.key && r.instance == m.instance && r.body == m.body && r.at == at
          && Some(r.level) == (if m.channelLevel.Some? then m.channelLevel else m.bodyLevel)
          && (Logs.RingOf(after, m.key) == Logs.RingOf(before, m.key) + [r] || Logs.RingOf(after, m.key) == (Logs.RingOf(before, m.key) + [r])[1..])
          && (forall k :: k != m.key ==> Logs.RingOf(after, k) == Logs.RingOf(before, k))
          && frame.value.dropped == if Logs.DropsOf(after, m.key) > 0 then Some(Logs.DropsOf(after, m.key)) else None)
  }

  /** What the frames of one message tell of the change from one state of the tables to the next. */
  ghost predicate Tells(before: Tables, after: Tables, deltas: seq<Delta>, input: Ingress, at: nat, f: Frames, s: Settings) {
    && f.deltas == (if deltas == [] then None else Some(deltas))
    && AlarmsTold(before.alarms, after.alarms, f.alarms)
    && MetricsTold(before.metrics, after.metrics, OfferedBy(input, at), f.metrics, s.metrics)
    && LogTold(before.logs, after.logs, input, at, f.log)
    && SignalsTold(before.signals, after.signals, f.signals)
  }

  function OfferedBy(input: Ingress, at: nat): seq<Metrics.Update> {
    if input.event.cls == Metric && input.metric.Some? then Metrics.Offered(input.metric.value.(at := at)) else []
  }

  /** The frames are those of the planes, in plane order, and tell exactly what changed. */
  ghost predicate FramesTell(before: Tables, after: Tables, deltas: seq<Delta>, input: Ingress, at: nat, events: seq<GatewayEvent>, s: Settings) {
    exists f: Frames :: events == Listed(f) && Tells(before, after, deltas, input, at, f, s)
  }

  lemma CountsTold(a: map<Alarms.AlarmId, Alarms.Alarm>)
    ensures CountsAre(Alarms.CountsOf(a), a)
  {
    assert Alarms.Contained(a) == set id <- a | a[id].contained;
    assert Alarms.Active(a) == set id <- a | !a[id].contained;
    assert Alarms.Critical(a) == set id <- a | !a[id].contained && a[id].severity == Alarms.CRITICAL;
    assert Alarms.Active(a) - Alarms.Critical(a) == set id <- a | !a[id].contained && a[id].severity != Alarms.CRITICAL;
    assert Alarms.Acked(a) == set id <- a | !a[id].contained && a[id].acked;
  }

  lemma SignalsAreTold(t: Signals.Table, input: Ingress, at: nat) returns (frame: Option<seq<Signals.Update>>)
    ensures var (t', frames) := SignalsAfter(t, input, at);
            && frames == (if frame.Some? then [SignalFrame(frame.value)] else [])
            && SignalsTold(t, t', frame)
  {
    var t' := SignalsAfter(t, input, at).0;
    frame := None;
    if input.event.cls == Data && input.signal.Some? {
      var m := input.signal.value.(at := at);
      var us := Signals.IngestSignal(t, m).1;
      frame := if us == [] then None else Some(us);
      hide Signals.Mirrors, Signals.IngestSignal, Signals.FoldUpdates;
      forall c | Signals.Mirrors(t, c)
        ensures Signals.Mirrors(t', Signals.FoldUpdates(c, frame.GetOr([]), Signals.MAX_POINTS, Signals.MAX_SERIES))
      {
        Signals.IngestMirrors(t, c, m);
      }
    }
  }

  lemma MetricsAreTold(t: Metrics.Table, input: Ingress, at: nat, s: Settings) returns (frame: Option<seq<Metrics.Update>>)
    ensures var (t', frames) := MetricsAfter(t, input, at, s);
            && frames == (if frame.Some? then [MetricFrame(frame.value)] else [])
            && MetricsTold(t, t', OfferedBy(input, at), frame, s.metrics)
  {
    var t' := MetricsAfter(t, input, at, s).0;
    var offered := OfferedBy(input, at);
    frame := None;
    if input.event.cls == Metric && input.metric.Some? {
      var us := Metrics.IngestMetrics(t, input.metric.value.(at := at), s.metrics).1;
      frame := if us == [] then None else Some(us);
    }
    hide Metrics.Agree, Metrics.FoldUpdates, Metrics.Ingest;
    forall start, us, c | Metrics.Agree(start, us, t, c, s.metrics)
      ensures Metrics.Agree(start, us + offered, t', Metrics.FoldUpdates(c, frame.GetOr([]), Metrics.CLIENT), s.metrics)
    {
      Metrics.IngestAgree(start, us, t, c, offered, s.metrics);
      Metrics.IngestAgree(start, us, t, c, [], s.metrics);
      if offered == [] { assert Metrics.Ingest(t, [], s.metrics) == (t, []) by { NothingOffered(t, s); } }
    }
  }

  lemma NothingOffered(t: Metrics.Table, s: Settings)
    ensures Metrics.Ingest(t, [], s.metrics) == (t, [])
  {
  }

  lemma LogIsTold(t: Logs.Table, input: Ingress, at: nat, s: Settings) returns (frame: Option<Logs.Push>)
    ensures var (t', frames) := LogsAfter(t, input, at, s);
            && frames == (if frame.Some? then [LogPush(frame.value)] else [])
            && LogTold(t, t', input, at, frame)
  {
    frame := None;
    if input.event.cls == Log && input.log.Some? {
      var m := input.log.value.(at := at);
      frame := Logs.IngestLog(t, m, s.logs).1;
      if Logs.Accepts(t, m) {
        assert (Logs.RingOf(t, m.key) + [Logs.RecordFor(m, t.nextId)]) != [];
      }
    }
  }

  lemma ApplyTells(t: Tables, input: Ingress, at: nat, last: nat, s: Settings)
    ensures var effects := Apply(t, input, at, last, s);
            FramesTell(t, effects.tables, effects.deltas, input, at, effects.events, s)
  {
    var effects := Apply(t, input, at, last, s);
    var metrics := MetricsAreTold(t.metrics, input, at, s);
    var log := LogIsTold(t.logs, input, at, s);
    var signals := SignalsAreTold(t.signals, input, at);
    var after := effects.tables.alarms;
    CountsTold(after.alarms);
    var alarms := if after.alarms == t.alarms.alarms then None else Some((after.alarms, Alarms.CountsOf(after.alarms)));
    hide Fleet.IngestFleet, MetricsAfter, LogsAfter, SignalsAfter, Alarms.IngestAlarms, CountsAre, Alarms.CountsOf, MetricsTold, LogTold, SignalsTold;
    var f := Frames(if effects.deltas == [] then None else Some(effects.deltas), alarms, metrics, log, signals);
    assert Tells(t, effects.tables, effects.deltas, input, at, f, s);
    assert effects.events == Listed(f);
  }

  lemma ClockSnoc(rs: seq<Clock.Reading>, r: Clock.Reading, cfg: Clock.Config)
    ensures Clock.After(rs + [r], cfg) == Clock.Read(Clock.After(rs, cfg), r, cfg).0
  {
    assert (rs + [r])[..|rs|] == rs;
  }

  lemma NoRepeatsSnoc(order: seq<Key>, k: Key)
    requires History.NoRepeats(order) && k !in order
    ensures History.NoRepeats(order + [k])
  {
  }

  /** Sweeping keeps which devices and components there are, and which devices are down. */
  ghost predicate SweptApart(start: Devices, f: Devices) {
    start.Keys == f.Keys && forall d <- start ::
      f[d].components.Keys == start[d].components.Keys && f[d].unreachable == start[d].unreachable
  }

  lemma SweptPut(start: Devices, f: Devices, k: Key, c: Component)
    requires SweptApart(start, f) && Known(f, k)
    ensures PutComponent(f, k, c)[k.device].components.Keys == f[k.device].components.Keys
    ensures SweptApart(start, PutComponent(f, k, c))
  {
    assert f[k.device].components[k.component := c].Keys == f[k.device].components.Keys;
  }

  lemma {:induction false} SweepSnoc(f: Devices, order: seq<Key>, k: Key, now: nat, cfg: Config)
    requires Known(f, k) && forall x <- order :: Known(f, x)
    ensures var (f1, b1) := Sweep(f, order, now, cfg);
            && Known(f1, k)
            && var step := SweepComponent(Get(f1, k), k, f1[k.device].unreachable, now, cfg);
               Sweep(f, order + [k], now, cfg) == (PutComponent(f1, k, step.component), b1 + step.deltas)
    decreases |order|
  {
    if order == [] {
      var step := SweepComponent(Get(f, k), k, f[k.device].unreachable, now, cfg);
      assert [k][1..] == [] && order + [k] == [k];
      assert step.deltas + [] == step.deltas && [] + step.deltas == step.deltas;
    } else {
      assert (order + [k])[1..] == order[1..] + [k];
      var x := order[0];
      var step := SweepComponent(Get(f, x), x, f[x.device].unreachable, now, cfg);
      var fx := PutComponent(f, x, step.component);
      SweepSnoc(fx, order[1..], k, now, cfg);
      var (f1, b1) := Sweep(fx, order[1..], now, cfg);
      var last := SweepComponent(Get(f1, k), k, f1[k.device].unreachable, now, cfg);
      assert step.deltas + (b1 + last.deltas) == (step.deltas + b1) + last.deltas;
    }
  }

  /** The counts of the alarms in `seen`. */
  function CountsIn(table: map<Alarms.AlarmId, Alarms.Alarm>, seen: set<Alarms.AlarmId>): Alarms.Counts {
    Alarms.Counts(
      |Alarms.Critical(table) * seen|, |(Alarms.Active(table) - Alarms.Critical(table)) * seen|,
      |Alarms.Active(table) * seen|, |Alarms.Contained(table) * seen|, |Alarms.Acked(table) * seen|)
  }

  lemma CountNone(table: map<Alarms.AlarmId, Alarms.Alarm>)
    ensures CountsIn(table, table.Keys - table.Keys) == Alarms.Counts(0, 0, 0, 0, 0)
  {
    assert table.Keys - table.Keys == {};
  }

  lemma CountOneMore(table: map<Alarms.AlarmId, Alarms.Alarm>, seen: set<Alarms.AlarmId>, id: Alarms.AlarmId)
    requires id in table && id !in seen
    ensures var c, a := CountsIn(table, seen), table[id];
            CountsIn(table, seen + {id}) ==
              if a.contained then c.(contained := c.contained + 1)
              else c.(active := c.active + 1,
                      critical := c.critical + if a.severity == Alarms.CRITICAL then 1 else 0,
                      warning := c.warning + if a.severity == Alarms.CRITICAL then 0 else 1,
                      acked := c.acked + if a.acked then 1 else 0)
  {
    GrowOne(Alarms.Contained(table), seen, id);
    GrowOne(Alarms.Active(table), seen, id);
    GrowOne(Alarms.Critical(table), seen, id);
    GrowOne(Alarms.Active(table) - Alarms.Critical(table), seen, id);
    GrowOne(Alarms.Acked(table), seen, id);
  }

  lemma GrowOne(part: set<Alarms.AlarmId>, seen: set<Alarms.AlarmId>, id: Alarms.AlarmId)
    requires id !in seen
    ensures |part * (seen + {id})| == |part * seen| + if id in part then 1 else 0
  {
    if id in part {
      assert part * (seen + {id}) == part * seen + {id};
    } else {
      assert part * (seen + {id}) == part * seen;
    }
  }

  lemma CountAll(table: map<Alarms.AlarmId, Alarms.Alarm>)
    ensures CountsIn(table, table.Keys) == Alarms.CountsOf(table)
  {
    assert Alarms.Contained(table) * table.Keys == Alarms.Contained(table);
    assert Alarms.Active(table) * table.Keys == Alarms.Active(table);
    assert Alarms.Critical(table) * table.Keys == Alarms.Critical(table);
    assert Alarms.Acked(table) * table.Keys == Alarms.Acked(table);
    assert (Alarms.Active(table) - Alarms.Critical(table)) * table.Keys == Alarms.Active(table) - Alarms.Critical(table);
  }

  // ------------------------------------------------------------------ the protocol's server

  /** The protocol's server holds the model's fleet and every delta the model ever stamped. */
  ghost predicate Serves(server: Replication.Server, devices: Devices, log: seq<Delta>) {
    server.epochs != [] && Replication.Current(server) == devices && server.log == log
  }

  /** The model's `Ingest` is the protocol's ingest step: the same fleet, the same numbered
      batch left to be published. */
  lemma IngestIsProtocolStep(st: Replication.World, t: Tables, input: Ingress, at: nat, p: Replication.Setup, s: Settings)
    requires Serves(st.server, t.devices, st.server.log) && p.cfg == s.fleet
    ensures var effects := Apply(t, input, at, |st.server.log|, s);
            var st' := Replication.Do(st, Replication.Ingest(input.event.(at := at)), p);
            && Serves(st'.server, effects.tables.devices, st.server.log + effects.deltas)
            && st'.unpublished == st.unpublished + (if effects.deltas == [] then {} else {effects.deltas})
  {
    hide Fleet.IngestFleet, MetricsAfter, LogsAfter, SignalsAfter, Alarms.IngestAlarms, AlarmFrames, DeltaFrames;
  }

  /** The model's `Sweep`, whatever its order and its stamp, is the protocol's sweep step: `after`
      and `frame` are what its contract promises. */
  lemma SweepIsProtocolStep(st: Replication.World, order: seq<Key>, now: nat, after: Devices, frame: Option<seq<Delta>>, p: Replication.Setup)
    requires st.server.epochs != []
    requires forall k <- order :: Known(Replication.Current(st.server), k)
    requires var swept := Fleet.Sweep(Replication.Current(st.server), order, now, p.cfg);
             var batch := Replication.Stamp(swept.1, |st.server.log|, now);
             after == swept.0 && frame == if swept.1 == [] then None else Some(batch)
    ensures Replication.Enabled(st, Replication.SweepAll(order, now), p)
    ensures var st' := Replication.Do(st, Replication.SweepAll(order, now), p);
            && Serves(st'.server, after, st.server.log + frame.GetOr([]))
            && st'.unpublished == st.unpublished + (if frame.None? then {} else {frame.value})
  {
    hide Fleet.Sweep;
  }

  /** The model's `Resync`, asked for the offered number over the model's ring, is the protocol's
      answer to a hello. */
  lemma ResyncIsProtocolStep(st: Replication.World, devices: Devices, ring: seq<Delta>, reply: Replication.Reply, p: Replication.Setup)
    requires Serves(st.server, devices, st.server.log) && Replication.Enabled(st, Replication.HandleHello, p)
    requires ring == Newest(st.server.log, Replication.RING_CAP)
    requires reply == Replication.Resync(ring, |st.server.log|, st.conn.value.hello.value)
    ensures var k, k' := st.conn.value, Replication.Do(st, Replication.HandleHello, p).conn.value;
            && k'.ready && k'.hello.None? && k'.missed == {}
            && k'.wire == k.wire + match reply
                                   case UpToDate => []
                                   case Replay(deltas) => [Replication.DeltaFrame(deltas)]
                                   case Full => [Replication.SnapshotFrame(FleetStore.Snapshot(|st.server.log|, devices), |st.server.epochs| - 1)]
  {
    hide Newest, Replication.Resync;
  }
}
