/**
 The snapshot-then-deltas protocol between one gateway incarnation and one browser
 (gateway/src/http.rs, gateway/src/ingress.rs, ui/src/fleet/client.ts), as a state machine.
 Batches are published after the model lock is released, hence in any order; the broadcast
 receiver loses what exceeds the broadcast capacity; noticing such a lag forces a snapshot
 unless one was forced less than two seconds ago.
 */
module Replication {
  import opened Basics
  import opened Fleet
  import opened FleetStore
  import opened FleetMirror

  const RING_CAP: nat := 1000
  const LAGGED_RESYNC_MIN_INTERVAL: nat := 2000

  /** The gateway's settings, the browser's ladder options, and the broadcast capacity. */
  datatype Setup = Setup(cfg: Config, opts: LadderOptions, capacity: nat)

  /** What a gateway operation did. */
  datatype Cause = Genesis | Heard(event: Event) | Swept(order: seq<Key>, now: nat)

  /** The fleet after some number of gateway operations, how many deltas existed by then, and
      the last operation. */
  datatype Epoch = Epoch(fleet: Devices, mark: nat, cause: Cause)

  datatype Server = Server(epochs: seq<Epoch>, log: seq<Delta>)

  datatype BusEvent = Batch(deltas: seq<Delta>) | OtherFamily

  /** `epoch` notes which of the gateway's states a snapshot shows. */
  datatype Frame = SnapshotFrame(snapshot: Snapshot, epoch: nat) | DeltaFrame(deltas: seq<Delta>)

  /** One WebSocket session with its broadcast receiver; `hello` is in flight while Some.
      `missed` records the delta numbers the receiver skipped since the last resync. */
  datatype Connection = Connection(
    hello: Option<Option<nat>>, ready: bool, queue: seq<BusEvent>,
    lastForced: Option<nat>, missed: set<nat>, wire: seq<Frame>)

  /** `base` notes which of the gateway's states the last snapshot showed. */
  datatype Client = Client(devices: ClientDevices, seqNo: nat, hasSnapshot: bool, base: nat)

  datatype World = World(server: Server, unpublished: set<seq<Delta>>, conn: Option<Connection>, client: Client)

  /** `Lagged`: the receiver finds more waiting than the channel retains. */
  datatype Action =
    | Ingest(event: Event)
    | SweepAll(order: seq<Key>, now: nat)
    | Publish(batch: seq<Delta>)
    | PublishOther
    | Lagged(now: nat)
    | Deliver
    | Dial
    | HandleHello
    | ClientReceive
    | Disconnect

  // ------------------------------------------------------------------ the delta ring

  function Stamp(bodies: seq<Body>, last: nat, at: nat): (r: seq<Delta>)
    ensures |r| == |bodies|
    ensures forall i | 0 <= i < |r| :: r[i] == Delta(bodies[i], last + 1 + i, at)
  {
    seq(|bodies|, i requires 0 <= i < |bodies| => Delta(bodies[i], last + 1 + i, at))
  }

  predicate Numbered(log: seq<Delta>) {
    forall i | 0 <= i < |log| :: log[i].seqNo == i + 1
  }

  /** The deltas of a stored ring that a resuming client has not seen. */
  function After(ring: seq<Delta>, resume: nat): seq<Delta>
    decreases |ring|
  {
    if ring == [] then []
    else if ring[0].seqNo > resume then [ring[0]] + After(ring[1..], resume)
    else After(ring[1..], resume)
  }

  datatype Reply = UpToDate | Replay(deltas: seq<Delta>) | Full

  /** `resync_frame`: nothing, a replay out of the ring, or a fresh snapshot. */
  function Resync(ring: seq<Delta>, last: nat, resume: Option<nat>): Reply {
    if resume.Some? && resume.value == last then UpToDate
    else if resume.Some? && resume.value < last && ring != [] && resume.value + 1 >= ring[0].seqNo
    then Replay(After(ring, resume.value))
    else Full
  }

  lemma {:induction false} AfterIsSuffix(log: seq<Delta>, lo: nat, resume: nat)
    requires Numbered(log) && lo <= |log| && resume <= |log|
    ensures After(log[lo..], resume) == log[Max(lo, resume)..]
    decreases |log| - lo
  {
    if lo < |log| {
      assert log[lo..][1..] == log[lo + 1..];
      AfterIsSuffix(log, lo + 1, resume);
      if lo >= resume { assert log[lo..] == [log[lo]] + log[lo + 1..]; }
    }
  }

  /** For every `resumeSeq` a client may send: a replay is sent exactly when every missed delta
      is still among the last thousand, and then it is exactly the missed deltas. */
  lemma ResyncIsExact(log: seq<Delta>, resume: Option<nat>)
    requires Numbered(log)
    ensures var reply := Resync(Newest(log, RING_CAP), |log|, resume);
            && (reply.UpToDate? <==> resume == Some(|log|))
            && (reply.Replay? <==> resume.Some? && 0 < |log| - resume.value <= 1000)
            && (reply.Replay? ==> resume.value < |log| && reply.deltas == log[resume.value..])
  {
    var lo := if |log| <= RING_CAP then 0 else |log| - RING_CAP;
    assert Newest(log, RING_CAP) == log[lo..];
    if resume.Some? && resume.value <= |log| { AfterIsSuffix(log, lo, resume.value); }
  }

  // ------------------------------------------------------------------ steps

  function Current(s: Server): Devices
    requires s.epochs != []
  {
    s.epochs[|s.epochs| - 1].fleet
  }

  predicate Possible(f: Devices, cause: Cause) {
    cause.Swept? ==> forall k <- cause.order :: Known(f, k)
  }

  function StampOf(cause: Cause): nat {
    match cause
    case Genesis => 0
    case Heard(e) => e.at
    case Swept(_, now) => now
  }

  /** The fleet an operation leaves, and the delta bodies it emits. */
  function Effect(f: Devices, cause: Cause, cfg: Config): (Devices, seq<Body>)
    requires Possible(f, cause)
  {
    match cause
    case Genesis => (f, [])
    case Heard(e) => var out := IngestFleet(f, e, cfg); (out.devices, out.deltas)
    case Swept(order, now) => Sweep(f, order, now, cfg)
  }

  function Commit(st: World, cause: Cause, cfg: Config): World
    requires st.server.epochs != [] && Possible(Current(st.server), cause)
  {
    var (fleet, bodies) := Effect(Current(st.server), cause, cfg);
    var batch := Stamp(bodies, |st.server.log|, StampOf(cause));
    var log := st.server.log + batch;
    st.(server := Server(st.server.epochs + [Epoch(fleet, |log|, cause)], log),
        unpublished := if batch == [] then st.unpublished else st.unpublished + {batch})
  }

  function Numbers(deltas: seq<Delta>): set<nat> {
    set d <- deltas :: d.seqNo
  }

  function EventNumbers(e: BusEvent): set<nat> {
    if e.Batch? then Numbers(e.deltas) else {}
  }

  function QueueNumbers(queue: seq<BusEvent>): set<nat> {
    set i, n | 0 <= i < |queue| && n in EventNumbers(queue[i]) :: n
  }

  predicate ShouldForceResync(last: Option<nat>, now: nat) {
    last.None? || now >= last.value + LAGGED_RESYNC_MIN_INTERVAL
  }

  function TakeSnapshot(s: Server): Snapshot
    requires s.epochs != []
  {
    Snapshot(|s.log|, Current(s))
  }

  function FullFrame(s: Server): Frame
    requires s.epochs != []
  {
    SnapshotFrame(TakeSnapshot(s), |s.epochs| - 1)
  }

  function Offer(c: Client): Option<nat> {
    if c.hasSnapshot then Some(c.seqNo) else None
  }

  /** A folded frame, and whether the client must redial because of a gap. */
  function Receive(c: Client, frame: Frame, opts: LadderOptions): (Client, bool) {
    match frame
    case SnapshotFrame(snapshot, epoch) =>
      (Client(FromSnapshot(snapshot.devices), snapshot.seqNo, true, epoch), false)
    case DeltaFrame(deltas) =>
      if !c.hasSnapshot then (c, true)
      else var r := FoldDeltas(c.devices, c.seqNo, deltas, opts);
           (c.(devices := r.devices, seqNo := r.seqNo), r.gap)
  }

  predicate Enabled(st: World, a: Action, p: Setup) {
    match a
    case Ingest(_) => true
    case SweepAll(order, _) => st.server.epochs != [] && forall k <- order :: Known(Current(st.server), k)
    case Publish(batch) => batch in st.unpublished
    case PublishOther => true
    case Lagged(_) => st.conn.Some? && |st.conn.value.queue| > p.capacity
    case Deliver => st.conn.Some? && 0 < |st.conn.value.queue| <= p.capacity
    case Dial => st.conn.None?
    case HandleHello => st.conn.Some? && st.conn.value.hello.Some?
    case ClientReceive => st.conn.Some? && st.conn.value.wire != []
    case Disconnect => st.conn.Some?
  }

  function Enqueue(st: World, e: BusEvent): World {
    if st.conn.None? then st
    else st.(conn := Some(st.conn.value.(queue := st.conn.value.queue + [e])))
  }

  /** The channel has overwritten all but its newest `capacity` messages. */
  function DropOn(k: Connection, capacity: nat): Connection
    requires |k.queue| > capacity
  {
    var n := |k.queue| - capacity;
    k.(queue := k.queue[n..], missed := k.missed + QueueNumbers(k.queue[..n]))
  }

  function ForceOn(k: Connection, server: Server, now: nat): Connection
    requires server.epochs != []
  {
    if k.ready && ShouldForceResync(k.lastForced, now) then
      k.(lastForced := Some(now), missed := {}, wire := k.wire + [FullFrame(server)])
    else k
  }

  function DeliverOn(k: Connection): Connection
    requires k.queue != []
  {
    var e := k.queue[0];
    var k1 := k.(queue := k.queue[1..]);
    if e.OtherFamily? then k1
    else if k.ready then k1.(wire := k.wire + [DeltaFrame(e.deltas)])
    else k1.(missed := k.missed + EventNumbers(e))
  }

  function HandleHelloOn(k: Connection, server: Server): Connection
    requires server.epochs != [] && k.hello.Some?
  {
    var k1 := k.(hello := None, ready := true, missed := {});
    match Resync(Newest(server.log, RING_CAP), |server.log|, k.hello.value)
    case UpToDate => k1
    case Replay(deltas) => k1.(wire := k.wire + [DeltaFrame(deltas)])
    case Full => k1.(wire := k.wire + [FullFrame(server)])
  }

  function Do(st: World, a: Action, p: Setup): World
    requires st.server.epochs != [] && Enabled(st, a, p)
  {
    match a
    case Ingest(e) => Commit(st, Heard(e), p.cfg)
    case SweepAll(order, now) => Commit(st, Swept(order, now), p.cfg)
    case Publish(batch) => Enqueue(st.(unpublished := st.unpublished - {batch}), Batch(batch))
    case PublishOther => Enqueue(st, OtherFamily)
    case Lagged(now) => st.(conn := Some(ForceOn(DropOn(st.conn.value, p.capacity), st.server, now)))
    case Deliver => st.(conn := Some(DeliverOn(st.conn.value)))
    case Dial => st.(conn := Some(Connection(Some(Offer(st.client)), false, [], None, {}, [])))
    case HandleHello => st.(conn := Some(HandleHelloOn(st.conn.value, st.server)))
    case ClientReceive =>
      var (client, gap) := Receive(st.client, st.conn.value.wire[0], p.opts);
      if gap then st.(client := client, conn := None)
      else st.(client := client, conn := Some(st.conn.value.(wire := st.conn.value.wire[1..])))
    case Disconnect => st.(conn := None)
  }

  const EMPTY_SERVER := Server([Epoch(map[], 0, Genesis)], [])

  function Init(): World {
    World(EMPTY_SERVER, {}, None, Client(map[], 0, false, 0))
  }

  // ------------------------------------------------------------------ what the client knows

  /** One operation's contribution to what a browser knows of the fleet. */
  function Learn(kn: FleetKnowledge, f: Devices, cause: Cause, p: Setup): FleetKnowledge {
    match cause
    case Genesis => kn
    case Heard(e) => LearnIngest(kn, f, e, p.cfg, p.opts)
    case Swept(order, now) => if Possible(f, cause) then LearnSweep(kn, f, order, now, p.cfg) else kn
  }

  /** What a browser that took its snapshot in epoch `base` knows when it has reached epoch `i`. */
  function Learned(s: Server, base: nat, i: nat, p: Setup): FleetKnowledge
    requires base <= i < |s.epochs|
    decreases i
  {
    if i == base then ShownBy(s.epochs[base].fleet)
    else Learn(Learned(s, base, i - 1, p), s.epochs[i - 1].fleet, s.epochs[i].cause, p)
  }

  // ------------------------------------------------------------------ invariant

  function ApplyDeltas(s: ClientDevices, deltas: seq<Delta>, opts: LadderOptions): ClientDevices
    decreases |deltas|
  {
    if deltas == [] then s else ApplyDeltas(ApplyDelta(s, deltas[0].body, deltas[0].at, opts), deltas[1..], opts)
  }

  /** Each epoch follows from the one before by its cause, and the log holds what that emitted. */
  ghost predicate ServerOk(s: Server, cfg: Config) {
    && s.epochs != [] && Numbered(s.log)
    && s.epochs[|s.epochs| - 1].mark == |s.log|
    && (forall i | 0 <= i < |s.epochs| :: FleetOk(s.epochs[i].fleet) && s.epochs[i].mark <= |s.log|)
    && (forall i | 0 <= i < |s.epochs| - 1 :: EpochStep(s, i, cfg))
  }

  ghost predicate EpochStep(s: Server, i: nat, cfg: Config)
    requires i + 1 < |s.epochs|
  {
    var before, after := s.epochs[i], s.epochs[i + 1];
    && before.mark <= after.mark <= |s.log|
    && Possible(before.fleet, after.cause)
    && var (fleet, bodies) := Effect(before.fleet, after.cause, cfg);
       after.fleet == fleet && s.log[before.mark..after.mark] == Stamp(bodies, before.mark, StampOf(after.cause))
  }

  ghost predicate IsMark(s: Server, n: nat) {
    n <= |s.log| && exists i | 0 <= i < |s.epochs| :: s.epochs[i].mark == n
  }

  ghost predicate SliceAt(s: Server, deltas: seq<Delta>, lo: nat, hi: nat) {
    lo < hi <= |s.log| && IsMark(s, lo) && IsMark(s, hi) && deltas == s.log[lo..hi]
  }

  /** A run of consecutive deltas that starts and ends at operation boundaries. */
  ghost predicate IsSlice(s: Server, deltas: seq<Delta>) {
    exists lo: nat, hi: nat :: SliceAt(s, deltas, lo, hi)
  }

  ghost predicate SnapshotAt(s: Server, snapshot: Snapshot, i: nat) {
    i < |s.epochs| && snapshot == Snapshot(s.epochs[i].mark, s.epochs[i].fleet)
  }

  ghost predicate FrameOk(s: Server, frame: Frame) {
    match frame
    case SnapshotFrame(snapshot, i) => SnapshotAt(s, snapshot, i)
    case DeltaFrame(deltas) => IsSlice(s, deltas)
  }

  /** The client holds what its history from epoch `base` to epoch `i` makes of the fleet then. */
  ghost predicate MirrorsAt(s: Server, c: Client, i: nat, p: Setup) {
    && c.base <= i < |s.epochs| && s.epochs[i].mark == c.seqNo
    && Tracks(s.epochs[i].fleet, c.devices, Learned(s, c.base, i, p), p.cfg, p.opts)
  }

  /** The replication guarantee, as of the client's last applied number. */
  ghost predicate ClientOk(s: Server, c: Client, p: Setup) {
    c.hasSnapshot ==> exists i: nat :: MirrorsAt(s, c, i, p)
  }

  ghost predicate ConnectionFramesOk(s: Server, k: Connection) {
    && (forall e <- k.queue :: e.Batch? ==> IsSlice(s, e.deltas))
    && (forall frame <- k.wire :: FrameOk(s, frame))
  }

  ghost predicate Safe(st: World, p: Setup) {
    && ServerOk(st.server, p.cfg)
    && ClientOk(st.server, st.client, p)
    && (forall b <- st.unpublished :: IsSlice(st.server, b))
    && (st.conn.Some? ==> ConnectionFramesOk(st.server, st.conn.value))
  }

  // ------------------------------------------------------------------ folding slices

  lemma {:induction false} ApplyStamped(s: ClientDevices, bodies: seq<Body>, last: nat, at: nat, opts: LadderOptions)
    ensures ApplyDeltas(s, Stamp(bodies, last, at), opts) == ApplyBodies(s, bodies, at, opts)
    decreases |bodies|
  {
    if bodies != [] {
      var r := Stamp(bodies, last, at);
      assert r[1..] == Stamp(bodies[1..], last + 1, at);
      ApplyStamped(ApplyDelta(s, bodies[0], at, opts), bodies[1..], last + 1, at, opts);
    }
  }

  lemma {:induction false} ApplyDeltasConcat(s: ClientDevices, a: seq<Delta>, b: seq<Delta>, opts: LadderOptions)
    ensures ApplyDeltas(s, a + b, opts) == ApplyDeltas(ApplyDeltas(s, a, opts), b, opts)
    decreases |a|
  {
    if a == [] {
      assert a + b == b;
    } else {
      assert (a + b)[1..] == a[1..] + b;
      ApplyDeltasConcat(ApplyDelta(s, a[0].body, a[0].at, opts), a[1..], b, opts);
    }
  }

  lemma ApplySplit(s: ClientDevices, log: seq<Delta>, lo: nat, mid: nat, hi: nat, opts: LadderOptions)
    requires lo <= mid <= hi <= |log|
    ensures ApplyDeltas(s, log[lo..hi], opts) == ApplyDeltas(ApplyDeltas(s, log[lo..mid], opts), log[mid..hi], opts)
  {
    assert log[lo..hi] == log[lo..mid] + log[mid..hi];
    ApplyDeltasConcat(s, log[lo..mid], log[mid..hi], opts);
  }

  /** What the numbered fold does with consecutive deltas: skip, apply the unseen tail, or stop at a gap. */
  lemma {:induction false} FoldSlice(s: ClientDevices, last: nat, log: seq<Delta>, lo: nat, hi: nat, opts: LadderOptions)
    requires Numbered(log) && lo <= hi <= |log|
    ensures FoldDeltas(s, last, log[lo..hi], opts)
         == if hi <= Max(lo, last) then Fold(s, last, false)
            else if lo > last then Fold(s, last, true)
            else Fold(ApplyDeltas(s, log[last..hi], opts), hi, false)
    decreases hi - lo
  {
    if lo < hi {
      var d := log[lo..hi];
      assert d[0] == log[lo] && d[1..] == log[lo + 1..hi];
      if lo < last {
        FoldSlice(s, last, log, lo + 1, hi, opts);
      } else if lo == last {
        var s1 := ApplyDelta(s, log[lo].body, log[lo].at, opts);
        FoldSlice(s1, last + 1, log, lo + 1, hi, opts);
      }
    }
  }

  lemma {:induction false} MarksGrow(s: Server, i: nat, j: nat, cfg: Config)
    requires ServerOk(s, cfg) && i <= j < |s.epochs|
    ensures s.epochs[i].mark <= s.epochs[j].mark <= |s.log|
    decreases j - i
  {
    if i < j {
      assert EpochStep(s, i, cfg);
      MarksGrow(s, i + 1, j, cfg);
    }
  }

  /** One operation's deltas take a browser that tracks the fleet before it to one that tracks
      the fleet after it. */
  lemma CauseCarries(f: Devices, m: ClientDevices, kn: FleetKnowledge, cause: Cause, last: nat, p: Setup)
    requires FleetOk(f) && Tracks(f, m, kn, p.cfg, p.opts) && Possible(f, cause)
    ensures var (f', bodies) := Effect(f, cause, p.cfg);
            Tracks(f', ApplyDeltas(m, Stamp(bodies, last, StampOf(cause)), p.opts), Learn(kn, f, cause, p), p.cfg, p.opts)
  {
    hide Tracks, FleetOk, IngestFleet, Sweep, LearnIngest, LearnSweep, ApplyBodies, ApplyDeltas, Stamp;
    var (f', bodies) := Effect(f, cause, p.cfg);
    ApplyStamped(m, bodies, last, StampOf(cause), p.opts);
    match cause {
      case Genesis => assert ApplyBodies(m, bodies, 0, p.opts) == m by { NoBodies(m, 0, p.opts); }
      case Heard(e) => IngestTracks(f, m, kn, e, p.cfg, p.opts);
      case Swept(order, now) => SweepTracks(f, m, kn, order, now, p.cfg, p.opts);
    }
  }

  lemma NoBodies(m: ClientDevices, at: nat, opts: LadderOptions)
    ensures ApplyBodies(m, [], at, opts) == m
  {
  }

  lemma EpochCarries(s: Server, m: ClientDevices, kn: FleetKnowledge, i: nat, p: Setup)
    requires ServerOk(s, p.cfg) && i + 1 < |s.epochs|
    requires Tracks(s.epochs[i].fleet, m, kn, p.cfg, p.opts)
    ensures var before, after := s.epochs[i], s.epochs[i + 1];
            && before.mark <= after.mark <= |s.log|
            && Tracks(after.fleet, ApplyDeltas(m, s.log[before.mark..after.mark], p.opts), Learn(kn, before.fleet, after.cause, p), p.cfg, p.opts)
  {
    hide Tracks, FleetOk, Effect, Learn, Stamp, Numbered;
    assert EpochStep(s, i, p.cfg);
    CauseCarries(s.epochs[i].fleet, m, kn, s.epochs[i + 1].cause, s.epochs[i].mark, p);
  }

  /** Folding everything between two operations takes a client that tracks the fleet after the
      one to a client that tracks the fleet after the other. */
  lemma {:induction false} CarriesFar(s: Server, m: ClientDevices, base: nat, i: nat, j: nat, p: Setup)
    requires ServerOk(s, p.cfg) && base <= i <= j < |s.epochs|
    requires Tracks(s.epochs[i].fleet, m, Learned(s, base, i, p), p.cfg, p.opts)
    ensures s.epochs[i].mark <= s.epochs[j].mark <= |s.log|
    ensures Tracks(s.epochs[j].fleet, ApplyDeltas(m, s.log[s.epochs[i].mark..s.epochs[j].mark], p.opts),
                   Learned(s, base, j, p), p.cfg, p.opts)
    decreases j
  {
    hide Tracks, ServerOk, Learn;
    var lo, hi := s.epochs[i].mark, s.epochs[j].mark;
    MarksGrow(s, i, j, p.cfg);
    if i == j {
      assert s.log[lo..hi] == [] && ApplyDeltas(m, [], p.opts) == m;
    } else {
      var mid := s.epochs[j - 1].mark;
      MarksGrow(s, i, j - 1, p.cfg);
      MarksGrow(s, j - 1, j, p.cfg);
      CarriesFar(s, m, base, i, j - 1, p);
      EpochCarries(s, ApplyDeltas(m, s.log[lo..mid], p.opts), Learned(s, base, j - 1, p), j - 1, p);
      ApplySplit(m, s.log, lo, mid, hi, p.opts);
    }
  }

  lemma ReceiveKeepsMirror(s: Server, c: Client, frame: Frame, p: Setup)
    requires ServerOk(s, p.cfg) && ClientOk(s, c, p) && FrameOk(s, frame)
    ensures ClientOk(s, Receive(c, frame, p.opts).0, p)
  {
    hide Tracks, FromSnapshot, Learn, ShownBy, FleetOk, EpochStep;
    var c' := Receive(c, frame, p.opts).0;
    match frame {
      case SnapshotFrame(snapshot, i) =>
        SnapshotTracks(s.epochs[i].fleet, p.cfg, p.opts);
        assert MirrorsAt(s, c', i, p);
      case DeltaFrame(deltas) =>
        if c.hasSnapshot {
          var i: nat :| MirrorsAt(s, c, i, p);
          var lo: nat, hi: nat :| SliceAt(s, deltas, lo, hi);
          FoldSlice(c.devices, c.seqNo, s.log, lo, hi, p.opts);
          if lo <= c.seqNo < hi {
            var j :| 0 <= j < |s.epochs| && s.epochs[j].mark == hi;
            if j < i { MarksGrow(s, j, i, p.cfg); }
            CarriesFar(s, c.devices, c.base, i, j, p);
            assert MirrorsAt(s, c', j, p);
          } else {
            assert MirrorsAt(s, c', i, p);
          }
        }
    }
  }

  // ------------------------------------------------------------------ safety of every step

  ghost predicate Grows(s: Server, s': Server) {
    s.epochs <= s'.epochs && s.log <= s'.log
  }

  lemma SliceGrows(s: Server, s': Server, deltas: seq<Delta>)
    requires Grows(s, s') && IsSlice(s, deltas)
    ensures IsSlice(s', deltas)
  {
    var lo: nat, hi: nat :| SliceAt(s, deltas, lo, hi);
    assert s.log[lo..hi] == s'.log[lo..hi];
    var i :| 0 <= i < |s.epochs| && s.epochs[i].mark == lo;
    var j :| 0 <= j < |s.epochs| && s.epochs[j].mark == hi;
    assert s'.epochs[i] == s.epochs[i] && s'.epochs[j] == s.epochs[j];
    assert SliceAt(s', deltas, lo, hi);
  }

  lemma FrameGrows(s: Server, s': Server, frame: Frame)
    requires Grows(s, s') && FrameOk(s, frame)
    ensures FrameOk(s', frame)
  {
    if frame.DeltaFrame? { SliceGrows(s, s', frame.deltas); }
  }

  lemma {:induction false} LearnedGrows(s: Server, s': Server, base: nat, i: nat, p: Setup)
    requires Grows(s, s') && base <= i < |s.epochs|
    ensures Learned(s', base, i, p) == Learned(s, base, i, p)
    decreases i
  {
    hide Learn, ShownBy;
    if base < i { LearnedGrows(s, s', base, i - 1, p); }
  }

  lemma ClientGrows(s: Server, s': Server, c: Client, p: Setup)
    requires Grows(s, s') && ClientOk(s, c, p)
    ensures ClientOk(s', c, p)
  {
    hide Tracks, Learned;
    if c.hasSnapshot {
      var i: nat :| MirrorsAt(s, c, i, p);
      LearnedGrows(s, s', c.base, i, p);
      assert MirrorsAt(s', c, i, p);
    }
  }

  lemma EffectOk(f: Devices, cause: Cause, cfg: Config)
    requires FleetOk(f) && Possible(f, cause)
    ensures FleetOk(Effect(f, cause, cfg).0)
  {
    hide FleetOk, IngestFleet, Sweep;
    match cause {
      case Genesis =>
      case Heard(e) => IngestKeepsFleetOk(f, e, cfg);
      case Swept(order, now) => SweepKeepsFleetOk(f, order, now, cfg);
    }
  }

  lemma CommitServer(st: World, cause: Cause, cfg: Config)
    requires ServerOk(st.server, cfg) && Possible(Current(st.server), cause)
    ensures var st' := Commit(st, cause, cfg);
            Grows(st.server, st'.server) && ServerOk(st'.server, cfg)
  {
    hide Effect, FleetOk, Possible;
    var s, s' := st.server, Commit(st, cause, cfg).server;
    var n := |s.epochs|;
    EffectOk(Current(s), cause, cfg);
    forall i | 0 <= i < |s'.epochs| - 1 ensures EpochStep(s', i, cfg) {
      if i < n - 1 {
        assert EpochStep(s, i, cfg);
        assert s'.log[s.epochs[i].mark..s.epochs[i + 1].mark] == s.log[s.epochs[i].mark..s.epochs[i + 1].mark];
      } else {
        assert s'.log[|s.log|..|s'.log|] == Stamp(Effect(Current(s), cause, cfg).1, |s.log|, StampOf(cause));
      }
    }
  }

  lemma CommitBatch(st: World, cause: Cause, cfg: Config)
    requires st.server.epochs != [] && st.server.epochs[|st.server.epochs| - 1].mark == |st.server.log|
    requires Possible(Current(st.server), cause) && Effect(Current(st.server), cause, cfg).1 != []
    ensures IsSlice(Commit(st, cause, cfg).server, Stamp(Effect(Current(st.server), cause, cfg).1, |st.server.log|, StampOf(cause)))
  {
    hide Effect;
    var s, s' := st.server, Commit(st, cause, cfg).server;
    var n := |s.epochs|;
    assert s'.epochs[n - 1].mark == |s.log| && s'.epochs[n].mark == |s'.log|;
    assert SliceAt(s', Stamp(Effect(Current(s), cause, cfg).1, |s.log|, StampOf(cause)), |s.log|, |s'.log|);
  }

  lemma CommitSafe(st: World, cause: Cause, p: Setup)
    requires Safe(st, p) && Possible(Current(st.server), cause)
    ensures var st' := Commit(st, cause, p.cfg); Safe(st', p) && st'.conn == st.conn && st'.client == st.client
  {
    hide Effect, FleetOk, IsSlice, FrameOk, ClientOk, Possible;
    var st' := Commit(st, cause, p.cfg);
    CommitServer(st, cause, p.cfg);
    if Effect(Current(st.server), cause, p.cfg).1 != [] { CommitBatch(st, cause, p.cfg); }
    hide ServerOk;
    ClientGrows(st.server, st'.server, st.client, p);
    forall b | b in st'.unpublished ensures IsSlice(st'.server, b) {
      if b in st.unpublished { SliceGrows(st.server, st'.server, b); }
    }
    if st.conn.Some? {
      var k := st.conn.value;
      forall e | e in k.queue && e.Batch? ensures IsSlice(st'.server, e.deltas) {
        SliceGrows(st.server, st'.server, e.deltas);
      }
      forall frame | frame in k.wire ensures FrameOk(st'.server, frame) {
        FrameGrows(st.server, st'.server, frame);
      }
    }
  }

  lemma HandleHelloSafe(s: Server, k: Connection, c: Client, p: Setup)
    requires ServerOk(s, p.cfg) && ClientOk(s, c, p) && ConnectionFramesOk(s, k)
    requires k.hello == Some(Offer(c))
    ensures ConnectionFramesOk(s, HandleHelloOn(k, s))
  {
    ResyncIsExact(s.log, k.hello.value);
    hide Tracks, Learned, FleetOk, EpochStep;
    var reply := Resync(Newest(s.log, RING_CAP), |s.log|, k.hello.value);
    if reply.Replay? {
      var i: nat :| MirrorsAt(s, c, i, p);
      assert IsMark(s, c.seqNo);
      assert s.epochs[|s.epochs| - 1].mark == |s.log| && IsMark(s, |s.log|);
      assert SliceAt(s, reply.deltas, c.seqNo, |s.log|);
    }
  }

  /** The hello still in flight offers what the client holds, since nothing was sent before it. */
  ghost predicate HelloOk(st: World) {
    st.conn.Some? && st.conn.value.hello.Some? ==>
      && st.conn.value.hello == Some(Offer(st.client))
      && st.conn.value.wire == [] && !st.conn.value.ready
  }

  ghost predicate SafeAll(st: World, p: Setup) {
    Safe(st, p) && HelloOk(st) && (st.conn.Some? && !st.conn.value.ready ==> st.conn.value.wire == [] && st.conn.value.hello.Some?)
  }

  lemma InitSafe(p: Setup)
    ensures SafeAll(Init(), p)
  {
  }

  lemma QueueSafe(st: World, a: Action, p: Setup)
    requires SafeAll(st, p) && Enabled(st, a, p) && st.server.epochs != []
    requires a.Publish? || a.PublishOther? || a.Deliver? || a.Dial? || a.Disconnect?
    ensures SafeAll(Do(st, a, p), p)
  {
    hide ServerOk, ClientOk, IsSlice, Numbers;
  }

  lemma LaggedSafe(st: World, now: nat, p: Setup)
    requires SafeAll(st, p) && Enabled(st, Lagged(now), p) && st.server.epochs != []
    ensures SafeAll(Do(st, Lagged(now), p), p)
  {
    FullFrameOk(st.server, p.cfg);
    hide ServerOk, ClientOk, IsSlice, QueueNumbers, FullFrame;
  }

  /** Every step, in any order and under any settings, keeps the replication guarantee. */
  lemma StepSafe(st: World, a: Action, p: Setup)
    requires SafeAll(st, p) && Enabled(st, a, p)
    ensures SafeAll(Do(st, a, p), p)
  {
    hide ServerOk, ClientOk, IsSlice, FrameOk, Commit, Receive, HandleHelloOn;
    ServerHasEpochs(st.server, p.cfg);
    match a {
      case Ingest(e) => CommitSafe(st, Heard(e), p);
      case SweepAll(order, now) => CommitSafe(st, Swept(order, now), p);
      case Lagged(now) => LaggedSafe(st, now, p);
      case HandleHello => HelloStepSafe(st, p);
      case ClientReceive => ReceiveStepSafe(st, p);
      case _ => QueueSafe(st, a, p);
    }
  }

  lemma HelloStepSafe(st: World, p: Setup)
    requires SafeAll(st, p) && Enabled(st, HandleHello, p) && st.server.epochs != []
    ensures SafeAll(Do(st, HandleHello, p), p)
  {
    HandleHelloSafe(st.server, st.conn.value, st.client, p);
    hide ServerOk, ClientOk, ConnectionFramesOk, Resync, Newest;
  }

  lemma ReceiveStepSafe(st: World, p: Setup)
    requires SafeAll(st, p) && Enabled(st, ClientReceive, p) && st.server.epochs != []
    ensures SafeAll(Do(st, ClientReceive, p), p)
  {
    hide ServerOk, ClientOk, IsSlice, FrameOk, Receive;
    assert FrameOk(st.server, st.conn.value.wire[0]);
    ReceiveKeepsMirror(st.server, st.client, st.conn.value.wire[0], p);
  }

  lemma ServerHasEpochs(s: Server, cfg: Config)
    requires ServerOk(s, cfg)
    ensures s.epochs != [] && s.epochs[|s.epochs| - 1].mark == |s.log|
  {
  }

  lemma FullFrameOk(s: Server, cfg: Config)
    requires ServerOk(s, cfg)
    ensures s.epochs != [] && FrameOk(s, FullFrame(s))
  {
  }
}
