/**
 What the browser's user sees, compared with the gateway, over every run: per component, which
 histories make the shown liveness and the cadence right, and runs in which they are wrong.
 */
module ReplicationViews {
  import opened Basics
  import opened Fleet
  import opened FleetStore
  import opened FleetMirror
  import opened Replication
  import opened ReplicationRuns
  import History = Ladder

  // ------------------------------------------------------------------ one operation

  /** Knowledge of exactly the components the gateway knows. */
  predicate About(kn: FleetKnowledge, f: Devices) {
    kn.Keys == f.Keys && forall d <- f :: kn[d].Keys == f[d].components.Keys
  }

  /** The operation tells the browser the component's ladder: the component is discovered on a
      reachable device, its stored liveness changes, or a keepalive of it is cached. */
  predicate Settles(f: Devices, cause: Cause, k: Key, cfg: Config)
    requires Possible(f, cause)
  {
    var f' := Effect(f, cause, cfg).0;
    Known(f', k) &&
    if !Known(f, k) then !f'[k.device].unreachable
    else
      || Get(f', k).liveness != Get(f, k).liveness
      || (cause.Heard? && cause.event.key == k && !IsBridgeUnreachable(cause.event) && Recommits(Get(f, k), cause.event, cfg))
  }

  /** The operation carries the component's cadence. */
  predicate CarriesCadenceOf(cause: Cause, k: Key) {
    cause.Heard? && cause.event.key == k && CarriesCadence(cause.event)
  }

  /** What an operation makes of a component's knowledge, in terms of what it did to the fleet. */
  function Gained(f: Devices, cause: Cause, k: Key, had: Option<Knowledge>, p: Setup): Knowledge
    requires Possible(f, cause) && Known(Effect(f, cause, p.cfg).0, k)
  {
    var f' := Effect(f, cause, p.cfg).0;
    var ladder :=
      if Settles(f, cause, k, p.cfg) then Exact
      else if !Known(f, k) || had.None? then Guessed(FRESH)
      else if had.value.ladder.Hidden? && f[k.device].unreachable && !f'[k.device].unreachable
      then Guessed(Guess(Get(f, k), StampOf(cause), p.opts))
      else had.value.ladder;
    Knowledge(ladder, (had.Some? && had.value.cadence) || CarriesCadenceOf(cause, k))
  }

  function Had(kn: FleetKnowledge, k: Key): Option<Knowledge> {
    if Covers(kn, k) then Some(KnowledgeOf(kn, k)) else None
  }

  lemma LivenessKept(c: Component, e: Event, down: bool, cfg: Config)
    requires e.cls != State
    ensures UpdateComponent(c, e, down, cfg).component.liveness == c.liveness
  {
  }

  /** What a message makes of one component of the device it names. */
  lemma DeviceGains(dev: Device, e: Event, kd: DeviceKnowledge, c: string, cfg: Config, opts: LadderOptions)
    requires kd.Keys == dev.components.Keys
    ensures var dev' := DeviceDeltas(dev, e, cfg).0;
            var kd' := LearnDevice(dev, e, kd, cfg, opts);
            var heard := !IsBridgeUnreachable(e) && e.key.component == c;
            && kd'.Keys == dev'.components.Keys
            && (c in dev'.components <==> c in dev.components || heard)
            && (c in dev'.components ==>
                && kd'[c].cadence == ((c in kd && kd[c].cadence) || (heard && CarriesCadence(e)))
                && kd'[c].ladder ==
                     if c !in dev.components then (if dev'.unreachable then Guessed(FRESH) else Exact)
                     else if dev'.components[c].liveness != dev.components[c].liveness || (heard && Recommits(dev.components[c], e, cfg)) then Exact
                     else if kd[c].ladder.Hidden? && dev.unreachable && !dev'.unreachable then Guessed(Guess(dev.components[c], e.at, opts))
                     else kd[c].ladder)
  {
    var t := Transition(dev, e);
    var dev1 := ApplyTransition(dev, t, e.at);
    if e.cls != State { LivenessKept(RecordFor(dev1, e, cfg), e, dev1.unreachable, cfg); }
    hide UpdateComponent, UpdateCache, Guess, CarriesCadence;
  }

  /** A message changes the record and the knowledge of the device it names, and no other. */
  lemma IngestLands(kn: FleetKnowledge, f: Devices, e: Event, p: Setup)
    requires About(kn, f)
    ensures var d := e.key.device;
            var dev, kd := EnsureDevice(f, d)[d], Ensured(kn, d)[d];
            var f' := IngestFleet(f, e, p.cfg).devices;
            var kn' := LearnIngest(kn, f, e, p.cfg, p.opts);
            && kd.Keys == dev.components.Keys && (if d in f then dev == f[d] && kd == kn[d] else dev == Device(false, None, map[]))
            && f'.Keys == kn'.Keys == f.Keys + {d}
            && f'[d] == DeviceDeltas(dev, e, p.cfg).0 && kn'[d] == LearnDevice(dev, e, kd, p.cfg, p.opts)
            && (forall x <- f :: x != d ==> f'[x] == f[x] && kn'[x] == kn[x])
  {
    IngestSplits(f, e, p.cfg);
    LearnIngestSplits(kn, f, e, p.cfg, p.opts);
    hide IngestFleet, LearnIngest, LearnDevice, DeviceDeltas;
  }

  lemma IngestAbout(kn: FleetKnowledge, f: Devices, e: Event, p: Setup)
    requires About(kn, f)
    ensures About(LearnIngest(kn, f, e, p.cfg, p.opts), IngestFleet(f, e, p.cfg).devices)
  {
    var d := e.key.device;
    hide IngestFleet, LearnIngest, LearnDevice, DeviceDeltas;
    IngestLands(kn, f, e, p);
    DeviceGains(EnsureDevice(f, d)[d], e, Ensured(kn, d)[d], "", p.cfg, p.opts);
  }

  lemma IngestGainsThere(kn: FleetKnowledge, f: Devices, e: Event, k: Key, p: Setup)
    requires About(kn, f) && k.device == e.key.device
    requires Known(IngestFleet(f, e, p.cfg).devices, k)
    ensures var kn' := LearnIngest(kn, f, e, p.cfg, p.opts);
            Covers(kn', k) && KnowledgeOf(kn', k) == Gained(f, Heard(e), k, Had(kn, k), p)
  {
    var d, c := k.device, k.component;
    var dev, kd := EnsureDevice(f, d)[d], Ensured(kn, d)[d];
    assert CarriesCadence(e) ==> !IsBridgeUnreachable(e);
    hide IngestFleet, LearnIngest, LearnDevice, DeviceDeltas, Guess, Recommits, EnsureDevice, Ensured, CarriesCadence, IsBridgeUnreachable;
    IngestLands(kn, f, e, p);
    DeviceGains(dev, e, kd, c, p.cfg, p.opts);
    assert e.key == k <==> e.key.component == c;
    assert Known(f, k) <==> c in dev.components;
    assert Had(kn, k) == if c in kd then Some(kd[c]) else None;
    hide About;
    if Known(f, k) {
      assert dev == f[d] && Get(f, k) == dev.components[c];
    }
  }

  lemma IngestGains(kn: FleetKnowledge, f: Devices, e: Event, k: Key, p: Setup)
    requires About(kn, f)
    ensures var f' := IngestFleet(f, e, p.cfg).devices;
            var kn' := LearnIngest(kn, f, e, p.cfg, p.opts);
            About(kn', f') && (Known(f', k) ==> KnowledgeOf(kn', k) == Gained(f, Heard(e), k, Had(kn, k), p))
  {
    hide IngestFleet, LearnIngest;
    IngestAbout(kn, f, e, p);
    if Known(IngestFleet(f, e, p.cfg).devices, k) {
      if k.device == e.key.device {
        IngestGainsThere(kn, f, e, k, p);
      } else {
        IngestLands(kn, f, e, p);
        hide DeviceDeltas, LearnDevice, Ensured, EnsureDevice;
      }
    }
  }

  function SweptStep(f: Devices, x: Key, now: nat, cfg: Config): Step
    requires Known(f, x)
  {
    SweepComponent(Get(f, x), x, f[x.device].unreachable, now, cfg)
  }

  lemma SweepStepGains(kn: FleetKnowledge, f: Devices, x: Key, now: nat, k: Key, cfg: Config)
    requires About(kn, f) && Known(f, x)
    ensures var step := SweptStep(f, x, now, cfg);
            var f1 := PutComponent(f, x, step.component);
            var kn1 := if step.deltas == [] then kn else Settle(kn, x);
            && About(kn1, f1)
            && (Known(f, k) ==>
                && Get(f1, k).liveness == (if x == k then step.component.liveness else Get(f, k).liveness)
                && (step.deltas == [] <==> step.component.liveness == Get(f, x).liveness)
                && KnowledgeOf(kn1, k) == if x == k && step.deltas != [] then KnowledgeOf(kn, k).(ladder := Exact) else KnowledgeOf(kn, k))
  {
    hide Fleet.Ladder, Age;
  }

  /** A sweep settles exactly the ladders it changes. */
  lemma {:induction false} SweepGains(kn: FleetKnowledge, f: Devices, order: seq<Key>, now: nat, k: Key, cfg: Config)
    requires About(kn, f) && forall x <- order :: Known(f, x)
    ensures var f' := Sweep(f, order, now, cfg).0;
            var kn' := LearnSweep(kn, f, order, now, cfg);
            && About(kn', f') && (Known(f', k) <==> Known(f, k))
            && (Known(f, k) ==>
                && f'[k.device].unreachable == f[k.device].unreachable
                && KnowledgeOf(kn', k) ==
                     if Get(f', k).liveness != Get(f, k).liveness then KnowledgeOf(kn, k).(ladder := Exact) else KnowledgeOf(kn, k))
    decreases |order|
  {
    hide About, Known, SweepComponent, PutComponent, Settle, Fleet.Ladder;
    if order != [] {
      var x := order[0];
      var step := SweptStep(f, x, now, cfg);
      var f1 := PutComponent(f, x, step.component);
      var kn1 := if step.deltas == [] then kn else Settle(kn, x);
      SweepStepGains(kn, f, x, now, k, cfg);
      SweepGains(kn1, f1, order[1..], now, k, cfg);
      if Known(f, k) {
        History.SweepSettles(f, order, now, cfg, k);
        History.SweepSettles(f1, order[1..], now, cfg, k);
        History.SweepStepIs(f, x, now, cfg, k);
      }
    }
  }

  /** One operation: the knowledge gained of any component is `Gained`. */
  lemma LearnGains(kn: FleetKnowledge, f: Devices, cause: Cause, k: Key, p: Setup)
    requires About(kn, f) && Possible(f, cause)
    ensures var f' := Effect(f, cause, p.cfg).0;
            var kn' := Learn(kn, f, cause, p);
            && About(kn', f') && (Known(f, k) ==> Known(f', k))
            && (Known(f', k) ==> KnowledgeOf(kn', k) == Gained(f, cause, k, Had(kn, k), p))
  {
    hide IngestFleet, LearnIngest, Sweep, LearnSweep, Guess, Recommits;
    match cause {
      case Genesis =>
      case Heard(e) => IngestGains(kn, f, e, k, p); KnownStays(f, e, k, p.cfg);
      case Swept(order, now) => SweepGains(kn, f, order, now, k, p.cfg);
    }
  }

  lemma KnownStays(f: Devices, e: Event, k: Key, cfg: Config)
    ensures Known(f, k) ==> Known(IngestFleet(f, e, cfg).devices, k)
  {
    hide UpdateComponent;
  }

  // ------------------------------------------------------------------ the history since the snapshot

  /** The snapshot taken in epoch `base` shows the component's stored liveness. */
  predicate ShownIn(s: Server, base: nat, k: Key)
    requires base < |s.epochs|
  {
    var f := s.epochs[base].fleet;
    Known(f, k) && EffectiveLiveness(f[k.device], Get(f, k)) != UNREACHABLE
  }

  predicate SettlesAt(s: Server, j: nat, k: Key, cfg: Config)
    requires 0 < j < |s.epochs|
  {
    Possible(s.epochs[j - 1].fleet, s.epochs[j].cause) && Settles(s.epochs[j - 1].fleet, s.epochs[j].cause, k, cfg)
  }

  /** The ladder was shown by the snapshot of epoch `base`, or settled by an operation since. */
  predicate SettledSince(s: Server, base: nat, i: nat, k: Key, cfg: Config)
    requires base <= i < |s.epochs|
  {
    ShownIn(s, base, k) || exists j | base < j <= i :: SettlesAt(s, j, k, cfg)
  }

  /** The component was in the snapshot of epoch `base`, or an operation since carried its cadence. */
  predicate CadenceSince(s: Server, base: nat, i: nat, k: Key)
    requires base <= i < |s.epochs|
  {
    Known(s.epochs[base].fleet, k) || exists j | base < j <= i :: CarriesCadenceOf(s.epochs[j].cause, k)
  }

  lemma EpochGains(s: Server, base: nat, i: nat, k: Key, p: Setup)
    requires ServerOk(s, p.cfg) && base <= i && i + 1 < |s.epochs|
    requires About(Learned(s, base, i, p), s.epochs[i].fleet)
    ensures var f, f', cause := s.epochs[i].fleet, s.epochs[i + 1].fleet, s.epochs[i + 1].cause;
            var kn, kn' := Learned(s, base, i, p), Learned(s, base, i + 1, p);
            && Possible(f, cause) && f' == Effect(f, cause, p.cfg).0
            && About(kn', f') && (Known(f, k) ==> Known(f', k))
            && (Known(f', k) ==> KnowledgeOf(kn', k) == Gained(f, cause, k, Had(kn, k), p))
  {
    hide Effect, Learn, Gained, ShownBy, FleetOk;
    assert EpochStep(s, i, p.cfg);
    LearnGains(Learned(s, base, i, p), s.epochs[i].fleet, s.epochs[i + 1].cause, k, p);
  }

  lemma UnknownUnsettled(f: Devices, cause: Cause, k: Key, cfg: Config)
    requires Possible(f, cause)
    ensures !Known(Effect(f, cause, cfg).0, k) ==> !Settles(f, cause, k, cfg)
    ensures CarriesCadenceOf(cause, k) ==> Known(Effect(f, cause, cfg).0, k)
  {
    hide UpdateComponent, NewComponent;
  }

  /** The step of `LearnedExactly`. */
  lemma GainedExactly(f: Devices, cause: Cause, k: Key, had: Option<Knowledge>, p: Setup)
    requires Possible(f, cause) && Known(Effect(f, cause, p.cfg).0, k) && (had.Some? <==> Known(f, k))
    ensures var g := Gained(f, cause, k, had, p);
            && (g.ladder.Exact? <==> (had.Some? && had.value.ladder.Exact?) || Settles(f, cause, k, p.cfg))
            && (g.cadence <==> (had.Some? && had.value.cadence) || CarriesCadenceOf(cause, k))
  {
    hide Effect, Settles, CarriesCadenceOf;
  }

  /** The ladder is known exactly if the snapshot of epoch `base` showed it or an operation since
      settled it, the cadence exactly if the snapshot held it or an operation since carried it. */
  ghost predicate KnowsExactly(s: Server, base: nat, i: nat, k: Key, p: Setup)
    requires base <= i < |s.epochs|
  {
    var kn := Learned(s, base, i, p);
    && About(kn, s.epochs[i].fleet)
    && if Known(s.epochs[i].fleet, k) then
         && (KnowledgeOf(kn, k).ladder.Exact? <==> SettledSince(s, base, i, k, p.cfg))
         && (KnowledgeOf(kn, k).cadence <==> CadenceSince(s, base, i, k))
       else !SettledSince(s, base, i, k, p.cfg) && !CadenceSince(s, base, i, k)
  }

  lemma LearnedStep(s: Server, base: nat, i: nat, k: Key, p: Setup)
    requires ServerOk(s, p.cfg) && base <= i && i + 1 < |s.epochs|
    requires KnowsExactly(s, base, i, k, p)
    ensures KnowsExactly(s, base, i + 1, k, p)
  {
    hide Effect, Gained, Settles, CarriesCadenceOf, Learned, ShownIn, Known, About, Possible, SettledSince, CadenceSince, ServerOk;
    var f, cause := s.epochs[i].fleet, s.epochs[i + 1].cause;
    EpochGains(s, base, i, k, p);
    UnknownUnsettled(f, cause, k, p.cfg);
    SinceGrows(s, base, i + 1, k, p.cfg);
    AboutCovers(Learned(s, base, i, p), f, k);
    AboutCovers(Learned(s, base, i + 1, p), s.epochs[i + 1].fleet, k);
    if Known(s.epochs[i + 1].fleet, k) { GainedExactly(f, cause, k, Had(Learned(s, base, i, p), k), p); }
    hide Covers, KnowledgeOf;
  }

  lemma AboutCovers(kn: FleetKnowledge, f: Devices, k: Key)
    requires About(kn, f)
    ensures Covers(kn, k) <==> Known(f, k)
  {
  }

  /** What a browser that took its snapshot in epoch `base` knows in epoch `i` of any component. */
  lemma {:induction false} LearnedExactly(s: Server, base: nat, i: nat, k: Key, p: Setup)
    requires ServerOk(s, p.cfg) && base <= i < |s.epochs|
    ensures KnowsExactly(s, base, i, k, p)
    decreases i
  {
    if i > base {
      hide KnowsExactly, ServerOk;
      LearnedExactly(s, base, i - 1, k, p);
      LearnedStep(s, base, i - 1, k, p);
    }
  }

  lemma SinceGrows(s: Server, base: nat, i: nat, k: Key, cfg: Config)
    requires base < i < |s.epochs|
    ensures SettledSince(s, base, i, k, cfg) <==> SettledSince(s, base, i - 1, k, cfg) || SettlesAt(s, i, k, cfg)
    ensures CadenceSince(s, base, i, k) <==> CadenceSince(s, base, i - 1, k) || CarriesCadenceOf(s.epochs[i].cause, k)
  {
    hide SettlesAt, CarriesCadenceOf, ShownIn, Known;
  }

  // ------------------------------------------------------------------ what is shown, over every run

  /** The guess the browser is left with, if that is what it has. */
  predicate GuessedRight(s: Server, base: nat, i: nat, k: Key, p: Setup)
    requires base <= i < |s.epochs|
  {
    var kn := Learned(s, base, i, p);
    Known(s.epochs[i].fleet, k) && Covers(kn, k) && KnowledgeOf(kn, k).ladder == Guessed(Get(s.epochs[i].fleet, k).liveness)
  }

  /** The browser's record of `k` against the gateway's in epoch `i`: equal but for the ladder and
      the cadence, and for those two exactly when they are equal. */
  ghost predicate ShowsExactly(s: Server, c: Client, i: nat, k: Key, p: Setup)
    requires c.base <= i < |s.epochs| && Known(s.epochs[i].fleet, k)
  {
    var f := s.epochs[i].fleet;
    && k.device in c.devices && k.component in c.devices[k.device].components
    && var d, m := c.devices[k.device], c.devices[k.device].components[k.component];
       && SameRecord(Get(f, k), m) && d.unreachable == f[k.device].unreachable && d.since == f[k.device].since
       && (ViewLiveness(d, m) == EffectiveLiveness(f[k.device], Get(f, k))
           <==> f[k.device].unreachable || SettledSince(s, c.base, i, k, p.cfg) || GuessedRight(s, c.base, i, k, p))
       && (SameCadence(Get(f, k), m) <==> CadenceSince(s, c.base, i, k) || p.cfg.defaultInterval == p.opts.defaultInterval)
  }

  lemma TracksShows(s: Server, c: Client, i: nat, k: Key, p: Setup)
    requires ServerOk(s, p.cfg) && MirrorsAt(s, c, i, p) && Known(s.epochs[i].fleet, k)
    ensures ShowsExactly(s, c, i, k, p)
  {
    hide Tracks, ServerOk, SettledSince, CadenceSince, Learned, SameRecord, SameCadence, ViewLiveness, EffectiveLiveness, About;
    LearnedExactly(s, c.base, i, k, p);
    ShownExactly(s.epochs[i].fleet, c.devices, Learned(s, c.base, i, p), k, p.cfg, p.opts);
  }

  /** Over every run, a browser that has a snapshot stands at some state of the gateway, the one
      of its last applied number, and shows every component known then exactly as
      `ShowsExactly` says; at rest with no lag damped away, that state is the current one. */
  lemma EveryRunShows(actions: seq<Action>, p: Setup) returns (i: nat)
    requires Run(actions, p).Some? && Run(actions, p).value.client.hasSnapshot
    ensures var st := Run(actions, p).value;
            && MirrorsAt(st.server, st.client, i, p)
            && (forall k | Known(st.server.epochs[i].fleet, k) :: ShowsExactly(st.server, st.client, i, k, p))
            && (Quiet(st) && !Damped(actions, p) ==> i == |st.server.epochs| - 1)
  {
    hide Run, Damped, Complete, ShowsExactly;
    var st := Run(actions, p).value;
    RunGood(actions, p);
    hide ServerOk;
    if Quiet(st) && !Damped(actions, p) {
      UndampedIsUpToDate(actions, p);
      i := |st.server.epochs| - 1;
    } else {
      i :| MirrorsAt(st.server, st.client, i, p);
    }
    assert Safe(st, p);
    forall k | Known(st.server.epochs[i].fleet, k) ensures ShowsExactly(st.server, st.client, i, k, p) {
      TracksShows(st.server, st.client, i, k, p);
    }
  }

  // ------------------------------------------------------------------ what only some deltas tell

  /** What the deltas since the snapshot told of a component, apart from what is tracked: its last
      restart, the time of its last keepalive, and whether it last stopped or came to life. */
  datatype Told = Told(uptime: Option<real>, anchorAt: Option<nat>, lastStateAt: Option<nat>, status: Option<string>)

  function ToldBy(t: Told, d: Delta, k: Key): Told {
    match d.body
    case ComponentRestarted(x, _, uptime) =>
      if x == k then t.(uptime := Some(uptime), anchorAt := Some(d.at), status := Some("RUNNING")) else t
    case ValueUpdated(x, ch) => if x == k && ch.cls == State then t.(lastStateAt := Some(d.at)) else t
    case LivenessChanged(x, _, to) =>
      if x == k && to == STOPPED then t.(status := Some("STOPPED"))
      else if x == k && to == FRESH then t.(status := Some("RUNNING"))
      else t
    case _ => t
  }

  function ToldSince(start: Told, deltas: seq<Delta>, k: Key): Told
    decreases |deltas|
  {
    if deltas == [] then start else ToldSince(ToldBy(start, deltas[0], k), deltas[1..], k)
  }

  predicate IsTold(m: ClientComponent, t: Told) {
    m.uptime == t.uptime && m.uptimeAnchorAt == t.anchorAt && m.lastStateAt == t.lastStateAt && m.status == t.status
  }

  ghost predicate HoldsTold(s: ClientDevices, k: Key, t: Told) {
    k.device in s && k.component in s[k.device].components && IsTold(s[k.device].components[k.component], t)
  }

  lemma ComponentTells(m: ClientComponent, body: Body, at: nat, n: nat, k: Key, t: Told)
    requires IsTold(m, t) && AboutComponent(body, k)
    ensures IsTold(FoldComponent(m, body, at), ToldBy(t, Delta(body, n, at), k))
  {
  }

  /** A delta about anything else leaves what a component was told. */
  lemma ElsewhereTells(s: ClientDevices, body: Body, at: nat, n: nat, k: Key, t: Told, opts: LadderOptions)
    requires HoldsTold(s, k, t) && !AboutComponent(body, k)
    ensures ToldBy(t, Delta(body, n, at), k) == t && HoldsTold(ApplyDelta(s, body, at, opts), k, t)
  {
    hide FoldComponent, LadderForAge;
  }

  lemma DeltaTells(s: ClientDevices, d: Delta, k: Key, t: Told, opts: LadderOptions)
    requires HoldsTold(s, k, t)
    ensures HoldsTold(ApplyDelta(s, d.body, d.at, opts), k, ToldBy(t, d, k))
  {
    if AboutComponent(d.body, k) {
      ComponentTells(s[k.device].components[k.component], d.body, d.at, d.seqNo, k, t);
      hide FoldComponent, ToldBy, IsTold;
    } else {
      ElsewhereTells(s, d.body, d.at, d.seqNo, k, t, opts);
    }
  }

  /** From its snapshot on a browser holds of uptime, last keepalive and status what the deltas
      since told last, else what the snapshot showed. */
  lemma {:induction false} DeltasTell(s: ClientDevices, deltas: seq<Delta>, k: Key, start: Told, opts: LadderOptions)
    requires HoldsTold(s, k, start)
    ensures HoldsTold(ApplyDeltas(s, deltas, opts), k, ToldSince(start, deltas, k))
    decreases |deltas|
  {
    if deltas != [] {
      hide HoldsTold, ToldBy, ApplyDelta;
      DeltaTells(s, deltas[0], k, start, opts);
      DeltasTell(ApplyDelta(s, deltas[0].body, deltas[0].at, opts), deltas[1..], k, ToldBy(start, deltas[0], k), opts);
    }
  }

  // ------------------------------------------------------------------ runs in which the views differ

  /** A resting browser that is up to date. */
  ghost predicate Resting(actions: seq<Action>, p: Setup) {
    && Run(actions, p).Some? && !Damped(actions, p)
    && Quiet(Run(actions, p).value) && Run(actions, p).value.server.epochs != []
    && Run(actions, p).value.client.hasSnapshot
    && Run(actions, p).value.client.seqNo == |Run(actions, p).value.server.log|
    && Numbered(Run(actions, p).value.server.log)
  }

  /** A batch crosses an idle connection. */
  lemma BatchCrosses(st: World, b: seq<Delta>, p: Setup)
    requires st.server.epochs != [] && p.capacity > 0 && st.unpublished == {b}
    requires st.conn.Some? && st.conn.value.ready && st.conn.value.queue == [] && st.conn.value.wire == []
    ensures var st2 := Do(st, Publish(b), p);
            && st2.server.epochs != [] && Enabled(st2, Deliver, p)
            && Do(st2, Deliver, p) == st.(unpublished := {}, conn := Some(st.conn.value.(wire := [DeltaFrame(b)])))
  {
    assert {b} - {b} == {} && [] + [Batch(b)] == [Batch(b)] && [Batch(b)][1..] == [] && [] + [DeltaFrame(b)] == [DeltaFrame(b)];
  }

  /** The client folds the newest batch of the log. */
  lemma BatchFolds(st: World, last: nat, p: Setup)
    requires st.server.epochs != [] && Numbered(st.server.log) && last < |st.server.log|
    requires st.client.hasSnapshot && st.client.seqNo == last
    requires st.conn.Some? && st.conn.value.wire == [DeltaFrame(st.server.log[last..])]
    ensures Do(st, ClientReceive, p)
         == st.(client := st.client.(devices := ApplyDeltas(st.client.devices, st.server.log[last..], p.opts), seqNo := |st.server.log|),
                conn := Some(st.conn.value.(wire := [])))
  {
    var log := st.server.log;
    assert log[last..|log|] == log[last..] && [DeltaFrame(log[last..])][1..] == [];
    FoldSlice(st.client.devices, last, log, last, |log|, p.opts);
  }

  lemma CommitNumbered(st: World, e: Event, cfg: Config)
    requires st.server.epochs != [] && Numbered(st.server.log) && st.unpublished == {}
    ensures var s' := Commit(st, Heard(e), cfg).server;
            var b := Stamp(IngestFleet(Current(st.server), e, cfg).deltas, |st.server.log|, e.at);
            && Numbered(s'.log) && s'.log == st.server.log + b && s'.log[|st.server.log|..] == b
            && s'.epochs == st.server.epochs + [Epoch(IngestFleet(Current(st.server), e, cfg).devices, |s'.log|, Heard(e))]
            && Commit(st, Heard(e), cfg) == st.(server := s', unpublished := if b == [] then {} else {b})
  {
    hide IngestFleet;
    assert forall b: seq<Delta> :: {} + {b} == {b};
  }

  lemma BatchArrives(actions: seq<Action>, b: seq<Delta>, last: nat, p: Setup) returns (more: seq<Action>)
    requires Run(actions, p).Some? && p.capacity > 0
    requires var st := Run(actions, p).value;
             && st.server.epochs != [] && Numbered(st.server.log) && last < |st.server.log| && st.server.log[last..] == b
             && st.unpublished == {b} && st.client.hasSnapshot && st.client.seqNo == last
             && st.conn.Some? && st.conn.value.ready && st.conn.value.queue == [] && st.conn.value.wire == []
    ensures Run(more, p).Some? && Damped(more, p) == Damped(actions, p)
    ensures var st, st' := Run(actions, p).value, Run(more, p).value;
            st' == st.(unpublished := {}, client := st'.client, conn := st'.conn) && Quiet(st')
            && st'.client == st.client.(devices := st'.client.devices, seqNo := |st.server.log|)
  {
    hide Run, Damped, ApplyDeltas, Numbered;
    BatchCrosses(Run(actions, p).value, b, p);
    RunSnoc(actions, Publish(b), p);
    more := actions + [Publish(b)];
    RunSnoc(more, Deliver, p);
    more := more + [Deliver];
    BatchFolds(Run(more, p).value, last, p);
    RunSnoc(more, ClientReceive, p);
    more := more + [ClientReceive];
    hide Do, Enabled;
  }

  /** From a resting browser that is up to date, a message the gateway hears reaches it. */
  lemma Arrive(actions: seq<Action>, e: Event, p: Setup) returns (more: seq<Action>)
    requires Resting(actions, p) && p.capacity > 0
    ensures Resting(more, p)
    ensures var st, st' := Run(actions, p).value, Run(more, p).value;
            && st'.client.base == st.client.base
            && st'.server.epochs == st.server.epochs + [Epoch(IngestFleet(Current(st.server), e, p.cfg).devices, |st'.server.log|, Heard(e))]
  {
    var st := Run(actions, p).value;
    var b := Stamp(IngestFleet(Current(st.server), e, p.cfg).deltas, |st.server.log|, e.at);
    CommitNumbered(st, e, p.cfg);
    hide Run, Damped, IngestFleet, Stamp, Commit, Numbered;
    RunSnoc(actions, Ingest(e), p);
    more := actions + [Ingest(e)];
    hide Do, Enabled;
    if b != [] { more := BatchArrives(more, b, |st.server.log|, p); }
  }

  const DEVICE := "gw"

  function Message(component: string, cls: Cls, status: Option<string>, at: nat): Event {
    Event(Key(DEVICE, component), "main", "", "[]", cls, None, "{}", at, status, None, None, None)
  }

  const OUTAGE := Message(BRIDGE, State, Some("UNREACHABLE"), 0)

  const A := Key(DEVICE, "a")

  lemma RestsExactly(actions: seq<Action>, p: Setup)
    requires Resting(actions, p)
    ensures var st := Run(actions, p).value;
            ServerOk(st.server, p.cfg) && MirrorsAt(st.server, st.client, |st.server.epochs| - 1, p)
  {
    hide Run, Damped, ServerOk, MirrorsAt, Complete;
    RunGood(actions, p);
    UndampedIsUpToDate(actions, p);
  }

  /** A browser left with a guess shows it once the device is back. */
  lemma GuessShown(s: Server, c: Client, k: Key, g: Liveness, p: Setup)
    requires s.epochs != [] && MirrorsAt(s, c, |s.epochs| - 1, p)
    requires Known(Current(s), k) && !Current(s)[k.device].unreachable
    requires var kn := Learned(s, c.base, |s.epochs| - 1, p); Covers(kn, k) ==> KnowledgeOf(kn, k).ladder == Guessed(g)
    ensures k.device in c.devices && k.component in c.devices[k.device].components
    ensures ViewLiveness(c.devices[k.device], c.devices[k.device].components[k.component]) == g
  {
    hide Learned;
    var f := Current(s);
    var kn := Learned(s, c.base, |s.epochs| - 1, p);
    assert DeviceTracks(f[k.device], c.devices[k.device], kn[k.device], p.cfg, p.opts);
    assert ComponentTracks(Get(f, k), c.devices[k.device].components[k.component], KnowledgeOf(kn, k), p.cfg, p.opts);
  }

  /** Epoch `i + 1` is the fleet after hearing `e`. */
  predicate Hears(s: Server, i: nat, e: Event, cfg: Config) {
    i + 1 < |s.epochs| && s.epochs[i + 1].cause == Heard(e) && s.epochs[i + 1].fleet == IngestFleet(s.epochs[i].fleet, e, cfg).devices
  }

  lemma ArriveTwo(actions: seq<Action>, e1: Event, e2: Event, p: Setup) returns (more: seq<Action>)
    requires Resting(actions, p) && p.capacity > 0
    ensures Resting(more, p)
    ensures var st, st' := Run(actions, p).value, Run(more, p).value;
            var n := |st.server.epochs|;
            && st'.client.base == st.client.base
            && |st'.server.epochs| == n + 2 && st'.server.epochs[..n] == st.server.epochs
            && Hears(st'.server, n - 1, e1, p.cfg) && Hears(st'.server, n, e2, p.cfg)
  {
    hide Run, Damped, IngestFleet, Quiet;
    more := Arrive(actions, e1, p);
    more := Arrive(more, e2, p);
  }

  /** A component discovered on an unreachable device is shown FRESH when the outage ends. */
  lemma DiscoveryGuessed(s: Server, base: nat, i: nat, e: Event, k: Key, p: Setup)
    requires ServerOk(s, p.cfg) && base <= i && Hears(s, i, e, p.cfg)
    requires !Known(s.epochs[i].fleet, k)
    requires Known(s.epochs[i + 1].fleet, k) && s.epochs[i + 1].fleet[k.device].unreachable
    ensures Covers(Learned(s, base, i + 1, p), k) && KnowledgeOf(Learned(s, base, i + 1, p), k).ladder == Guessed(FRESH)
  {
    hide ServerOk, IngestFleet, Learned;
    LearnedExactly(s, base, i, k, p);
    EpochGains(s, base, i, k, p);
  }

  /** A message about another component that leaves the stored liveness alone leaves a guess alone. */
  lemma GuessKept(s: Server, base: nat, i: nat, e: Event, k: Key, g: Liveness, p: Setup)
    requires ServerOk(s, p.cfg) && base <= i && Hears(s, i, e, p.cfg) && e.key != k
    requires Known(s.epochs[i].fleet, k) && Known(s.epochs[i + 1].fleet, k)
    requires Get(s.epochs[i + 1].fleet, k).liveness == Get(s.epochs[i].fleet, k).liveness
    requires Covers(Learned(s, base, i, p), k) && KnowledgeOf(Learned(s, base, i, p), k).ladder == Guessed(g)
    ensures Covers(Learned(s, base, i + 1, p), k) && KnowledgeOf(Learned(s, base, i + 1, p), k).ladder == Guessed(g)
  {
    hide ServerOk, IngestFleet, Learned;
    LearnedExactly(s, base, i, k, p);
    EpochGains(s, base, i, k, p);
  }

  /** A ladder the snapshot hid is guessed when another component's keepalive ends the outage. */
  lemma RecoveryGuessed(s: Server, i: nat, e: Event, k: Key, p: Setup)
    requires ServerOk(s, p.cfg) && Hears(s, i, e, p.cfg) && e.key != k
    requires Known(s.epochs[i].fleet, k) && Known(s.epochs[i + 1].fleet, k)
    requires s.epochs[i].fleet[k.device].unreachable && !s.epochs[i + 1].fleet[k.device].unreachable
    requires Get(s.epochs[i + 1].fleet, k).liveness == Get(s.epochs[i].fleet, k).liveness
    ensures var kn := Learned(s, i, i + 1, p);
            Covers(kn, k) && KnowledgeOf(kn, k).ladder == Guessed(Guess(Get(s.epochs[i].fleet, k), e.at, p.opts))
  {
    hide ServerOk, IngestFleet, Learn, Guess;
    LearnedExactly(s, i, i, k, p);
    assert Had(Learned(s, i, i, p), k) == Some(Knowledge(Hidden, true));
    EpochGains(s, i, i, k, p);
  }

  function AfterMessage(f: Devices, e: Event, cfg: Config): Devices {
    IngestFleet(f, e, cfg).devices
  }

  const FIRST := Message("a", Data, None, 0)
  const BACK := Message("b", State, Some("RUNNING"), 0)

  lemma FirstSeenFleets(cfg: Config)
    ensures var f1 := AfterMessage(map[], OUTAGE, cfg);
            var f2 := AfterMessage(f1, FIRST, cfg);
            var f3 := AfterMessage(f2, BACK, cfg);
            && !Known(f1, A)
            && Known(f2, A) && f2[DEVICE].unreachable && Get(f2, A).liveness == UNREACHABLE
            && Known(f3, A) && !f3[DEVICE].unreachable && Get(f3, A).liveness == UNREACHABLE
  {
    assert BRIDGE != "a" && BRIDGE != "b" && "a" != "b" by { assert |BRIDGE| == 10 && "a"[0] != "b"[0]; }
    hide UpdateCache, UpdateUptime, UpdateInstances, CarriesCadence;
  }

  lemma EmptyRests(p: Setup)
    ensures var actions := [Dial, HandleHello, ClientReceive];
            && Resting(actions, p) && Run(actions, p).value.server == EMPTY_SERVER && Run(actions, p).value.client.base == 0
  {
    HelloRun(p);
    hide Run, Damped;
  }

  /** A component is first seen while its device is down, and another component's keepalive ends
      the outage: at rest, the gateway shows it UNREACHABLE and the browser FRESH. */
  lemma FirstSeenInOutage(p: Setup) returns (actions: seq<Action>)
    requires p.capacity > 0
    ensures Resting(actions, p)
    ensures var st := Run(actions, p).value;
            var f, s := Current(st.server), st.client.devices;
            && Known(f, A) && EffectiveLiveness(f[DEVICE], Get(f, A)) == UNREACHABLE
            && DEVICE in s && A.component in s[DEVICE].components && ViewLiveness(s[DEVICE], s[DEVICE].components[A.component]) == FRESH
  {
    hide Run, Damped, IngestFleet, Quiet, MirrorsAt, ServerOk, ViewLiveness, Learned, Numbered;
    EmptyRests(p);
    actions := Arrive([Dial, HandleHello, ClientReceive], OUTAGE, p);
    var before := Run(actions, p).value.server;
    actions := ArriveTwo(actions, FIRST, BACK, p);
    FirstSeenFleets(p.cfg);
    RestsExactly(actions, p);
    var st := Run(actions, p).value;
    assert st.server.epochs[..2] == before.epochs;
    assert "a" != "b" by { assert "a"[0] != "b"[0]; }
    DiscoveryGuessed(st.server, 0, 1, FIRST, A, p);
    GuessKept(st.server, 0, 2, BACK, A, FRESH, p);
    GuessShown(st.server, st.client, A, FRESH, p);
  }

  // ------------------------------------------------------------------ a guess after a snapshot in an outage

  /** A message heard, and published, while no browser is connected. */
  lemma Unheard(actions: seq<Action>, e: Event, p: Setup) returns (more: seq<Action>)
    requires Run(actions, p).Some? && !Damped(actions, p)
    requires var st := Run(actions, p).value; st.server.epochs != [] && st.unpublished == {} && st.conn.None?
    ensures Run(more, p).Some? && !Damped(more, p)
    ensures var st, st' := Run(actions, p).value, Run(more, p).value;
            && st' == st.(server := st'.server)
            && st'.server == Commit(st, Heard(e), p.cfg).server
  {
    var st := Run(actions, p).value;
    var b := Stamp(IngestFleet(Current(st.server), e, p.cfg).deltas, |st.server.log|, e.at);
    assert {} + {b} == {b} && {b} - {b} == {};
    hide Run, Damped, IngestFleet, Stamp;
    RunSnoc(actions, Ingest(e), p);
    more := actions + [Ingest(e)];
    if b != [] {
      RunSnoc(more, Publish(b), p);
      more := more + [Publish(b)];
    }
  }

  /** A first connection takes the current fleet as its snapshot. */
  lemma FirstConnection(actions: seq<Action>, p: Setup) returns (more: seq<Action>)
    requires Run(actions, p).Some? && !Damped(actions, p)
    requires var st := Run(actions, p).value;
             st.server.epochs != [] && st.unpublished == {} && st.conn.None? && !st.client.hasSnapshot && Numbered(st.server.log)
    ensures Resting(more, p)
    ensures var st, st' := Run(actions, p).value, Run(more, p).value;
            st'.server == st.server && st'.client.base == |st.server.epochs| - 1
  {
    hide Run, Damped, Numbered, FromSnapshot, Newest;
    var st := Run(actions, p).value;
    RunSnoc(actions, Dial, p);
    more := actions + [Dial];
    RunSnoc(more, HandleHello, p);
    more := more + [HandleHello];
    assert Run(more, p).value.conn.value.wire == [FullFrame(st.server)];
    assert [FullFrame(st.server)][1..] == [];
    RunSnoc(more, ClientReceive, p);
    more := more + [ClientReceive];
  }

  const RUNS := Message("a", State, Some("RUNNING"), 0)

  lemma GuessedFleets(later: nat, p: Setup)
    ensures var f1 := AfterMessage(map[], RUNS, p.cfg);
            var f2 := AfterMessage(f1, OUTAGE, p.cfg);
            var f3 := AfterMessage(f2, BACK.(at := later), p.cfg);
            && Known(f2, A) && f2[DEVICE].unreachable && Get(f2, A).liveness == FRESH
            && Guess(Get(f2, A), later, p.opts) == LadderForAge(later, p.cfg.defaultInterval, p.opts)
            && Known(f3, A) && !f3[DEVICE].unreachable && Get(f3, A).liveness == FRESH
  {
    assert BRIDGE != "a" && BRIDGE != "b" && "a" != "b" by { assert |BRIDGE| == 10 && "a"[0] != "b"[0]; }
    assert "RUNNING" != "STOPPED" by { assert "RUNNING"[0] != "STOPPED"[0]; }
    hide UpdateCache, UpdateUptime, UpdateInstances, CarriesCadence, LadderForAge;
  }

  lemma InitRuns(p: Setup)
    ensures Run([], p) == Some(Init()) && !Damped([], p)
  {
  }

  lemma CommitHears(st: World, e: Event, cfg: Config)
    requires st.server.epochs != [] && Numbered(st.server.log)
    ensures var s' := Commit(st, Heard(e), cfg).server;
            && Numbered(s'.log) && Hears(s', |st.server.epochs| - 1, e, cfg)
            && |s'.epochs| == |st.server.epochs| + 1 && s'.epochs[..|st.server.epochs|] == st.server.epochs
  {
    hide IngestFleet;
  }

  /** A browser whose first snapshot is taken during an outage. */
  lemma SnapshotInOutage(p: Setup) returns (actions: seq<Action>)
    ensures Resting(actions, p)
    ensures var st := Run(actions, p).value;
            && |st.server.epochs| == 3 && st.client.base == 2 && st.server.epochs[0] == Epoch(map[], 0, Genesis)
            && Hears(st.server, 0, RUNS, p.cfg) && Hears(st.server, 1, OUTAGE, p.cfg)
  {
    assert Numbered(EMPTY_SERVER.log);
    hide Run, Damped, IngestFleet, Quiet, Numbered, Commit;
    InitRuns(p);
    CommitHears(Init(), RUNS, p.cfg);
    actions := Unheard([], RUNS, p);
    CommitHears(Run(actions, p).value, OUTAGE, p.cfg);
    actions := Unheard(actions, OUTAGE, p);
    actions := FirstConnection(actions, p);
  }

  lemma GuessRun(later: nat, p: Setup) returns (actions: seq<Action>)
    requires p.capacity > 0 && LadderForAge(later, p.cfg.defaultInterval, p.opts) == OFFLINE
    ensures Resting(actions, p)
    ensures var st := Run(actions, p).value;
            && Known(Current(st.server), A) && !Current(st.server)[DEVICE].unreachable && Get(Current(st.server), A).liveness == FRESH
            && DEVICE in st.client.devices && A.component in st.client.devices[DEVICE].components
            && ViewLiveness(st.client.devices[DEVICE], st.client.devices[DEVICE].components[A.component]) == OFFLINE
  {
    hide Run, Damped, IngestFleet, Quiet, MirrorsAt, ServerOk, ViewLiveness, Learned, Numbered, Guess, LadderForAge;
    actions := SnapshotInOutage(p);
    var s2 := Run(actions, p).value.server;
    var e := BACK.(at := later);
    actions := Arrive(actions, e, p);
    GuessedFleets(later, p);
    RestsExactly(actions, p);
    var st := Run(actions, p).value;
    assert st.server.epochs[..3] == s2.epochs && Hears(st.server, 2, e, p.cfg);
    assert "a" != "b" by { assert "a"[0] != "b"[0]; }
    RecoveryGuessed(st.server, 2, e, A, p);
    GuessShown(st.server, st.client, A, OFFLINE, p);
  }

  /** The browser takes its snapshot during an outage, and another component's keepalive ends it
      later than the offline bound: at rest, the gateway shows the component FRESH and the browser
      OFFLINE. */
  lemma GuessAfterOutage(later: nat, p: Setup) returns (actions: seq<Action>)
    requires p.capacity > 0 && later as real > p.opts.offline * (p.cfg.defaultInterval as real * 1000.0)
    ensures Resting(actions, p)
    ensures var st := Run(actions, p).value;
            var f, s := Current(st.server), st.client.devices;
            && Known(f, A) && EffectiveLiveness(f[DEVICE], Get(f, A)) == FRESH
            && DEVICE in s && A.component in s[DEVICE].components && ViewLiveness(s[DEVICE], s[DEVICE].components[A.component]) == OFFLINE
  {
    assert LadderForAge(later, p.cfg.defaultInterval, p.opts) == OFFLINE;
    hide Run, Damped, Quiet, ViewLiveness, Numbered, LadderForAge;
    actions := GuessRun(later, p);
  }
}
