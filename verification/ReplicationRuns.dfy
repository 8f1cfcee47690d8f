/**
 What every run of the replication protocol guarantees: no delta is lost without the
 protocol's own bookkeeping knowing it, and a client at rest is up to date unless the
 lag damping swallowed a batch.
 */
module ReplicationRuns {
  import opened Basics
  import opened Fleet
  import opened FleetStore
  import opened FleetMirror
  import opened Replication

  // ------------------------------------------------------------------ nothing is lost unnoticed

  ghost predicate FrameCovers(frame: Frame, n: nat) {
    match frame
    case SnapshotFrame(snapshot, _) => n <= snapshot.seqNo
    case DeltaFrame(deltas) => n in Numbers(deltas)
  }

  ghost predicate WireCovers(wire: seq<Frame>, n: nat) {
    exists i | 0 <= i < |wire| :: FrameCovers(wire[i], n)
  }

  ghost predicate Unpublished(st: World, n: nat) {
    exists b <- st.unpublished :: n in Numbers(b)
  }

  /** Delta `n` is on its way to the client, or the receiver skipped it since the last resync. */
  ghost predicate Covered(st: World, k: Connection, n: nat) {
    Unpublished(st, n) || n in QueueNumbers(k.queue) || WireCovers(k.wire, n) || n in k.missed
  }

  function Top(frame: Frame): nat {
    match frame
    case SnapshotFrame(snapshot, _) => snapshot.seqNo
    case DeltaFrame(deltas) => if deltas == [] then 0 else deltas[|deltas| - 1].seqNo
  }

  /** A snapshot on the wire is never older than what precedes it, nor than the client. */
  ghost predicate WireOrdered(wire: seq<Frame>, seen: nat, last: nat) {
    && (forall i | 0 <= i < |wire| :: Top(wire[i]) <= last)
    && (forall i | 0 <= i < |wire| && wire[i].SnapshotFrame? :: seen <= Top(wire[i]))
    && (forall i, j | 0 <= i < j < |wire| && wire[j].SnapshotFrame? :: Top(wire[i]) <= Top(wire[j]))
  }

  ghost predicate ConnectionComplete(st: World, k: Connection) {
    var last := |st.server.log|;
    && (forall n | st.client.seqNo < n <= last :: Covered(st, k, n))
    && (!st.client.hasSnapshot ==> k.wire != [] && k.wire[0].SnapshotFrame?)
    && WireOrdered(k.wire, st.client.seqNo, last)
  }

  ghost predicate Complete(st: World) {
    && (!st.client.hasSnapshot ==> st.client.seqNo == 0)
    && st.client.seqNo <= |st.server.log|
    && (st.conn.Some? ==> forall n <- st.conn.value.missed :: n <= |st.server.log|)
    && (st.conn.Some? && st.conn.value.ready ==> ConnectionComplete(st, st.conn.value))
  }

  lemma SliceNumbers(s: Server, deltas: seq<Delta>, cfg: Config) returns (lo: nat, hi: nat)
    requires ServerOk(s, cfg) && IsSlice(s, deltas)
    ensures SliceAt(s, deltas, lo, hi) && Top(DeltaFrame(deltas)) == hi
    ensures forall n: nat :: n in Numbers(deltas) <==> lo < n <= hi
  {
    lo, hi :| SliceAt(s, deltas, lo, hi);
    forall n: nat | lo < n <= hi ensures n in Numbers(deltas) {
      assert deltas[n - 1 - lo].seqNo == n;
    }
  }

  lemma QueueBounded(s: Server, k: Connection, cfg: Config)
    requires ServerOk(s, cfg) && ConnectionFramesOk(s, k)
    ensures forall n <- QueueNumbers(k.queue) :: n <= |s.log|
  {
    forall i, n | 0 <= i < |k.queue| && n in EventNumbers(k.queue[i]) ensures n <= |s.log| {
      assert k.queue[i] in k.queue;
      var lo, hi := SliceNumbers(s, k.queue[i].deltas, cfg);
    }
  }

  lemma CommitComplete(st: World, cause: Cause, cfg: Config)
    requires Complete(st) && st.server.epochs != [] && Possible(Current(st.server), cause)
    ensures Complete(Commit(st, cause, cfg))
  {
    hide Effect;
    var st' := Commit(st, cause, cfg);
    var batch := Stamp(Effect(Current(st.server), cause, cfg).1, |st.server.log|, StampOf(cause));
    if st.conn.Some? && st.conn.value.ready {
      var k := st.conn.value;
      forall n: nat | st'.client.seqNo < n <= |st'.server.log| ensures Covered(st', k, n) {
        if n <= |st.server.log| {
          assert Covered(st, k, n);
          if Unpublished(st, n) {
            var b :| b in st.unpublished && n in Numbers(b);
            assert b in st'.unpublished;
          }
        } else {
          assert batch[n - 1 - |st.server.log|].seqNo == n;
          assert n in Numbers(batch) && batch in st'.unpublished;
        }
      }
    }
  }

  lemma QueueSplit(queue: seq<BusEvent>, n: nat)
    requires n <= |queue|
    ensures QueueNumbers(queue) == QueueNumbers(queue[..n]) + QueueNumbers(queue[n..])
  {
    forall x | x in QueueNumbers(queue) ensures x in QueueNumbers(queue[..n]) + QueueNumbers(queue[n..]) {
      var i :| 0 <= i < |queue| && x in EventNumbers(queue[i]);
      if i < n { assert queue[..n][i] == queue[i]; } else { assert queue[n..][i - n] == queue[i]; }
    }
  }

  lemma QueueOne(e: BusEvent)
    ensures QueueNumbers([e]) == EventNumbers(e)
  {
    forall n | n in EventNumbers(e) ensures n in QueueNumbers([e]) {
      assert n in EventNumbers([e][0]);
    }
  }

  lemma PublishComplete(st: World, e: BusEvent, rest: set<seq<Delta>>)
    requires Complete(st)
    requires rest <= st.unpublished
    requires forall b <- st.unpublished :: b in rest || e == Batch(b)
    ensures Complete(Enqueue(st.(unpublished := rest), e))
  {
    var st' := Enqueue(st.(unpublished := rest), e);
    if st.conn.Some? && st.conn.value.ready {
      var k, k' := st.conn.value, st'.conn.value;
      QueueSplit(k'.queue, |k.queue|);
      assert k'.queue[..|k.queue|] == k.queue && k'.queue[|k.queue|..] == [e];
      forall n: nat | st.client.seqNo < n <= |st.server.log| ensures Covered(st', k', n) {
        assert Covered(st, k, n);
        if Unpublished(st, n) {
          var b :| b in st.unpublished && n in Numbers(b);
          if b !in rest { QueueOne(e); }
        }
      }
    }
  }

  lemma WireCoversMore(wire: seq<Frame>, frame: Frame, n: nat)
    ensures WireCovers(wire + [frame], n) <==> WireCovers(wire, n) || FrameCovers(frame, n)
  {
    var all := wire + [frame];
    if WireCovers(wire, n) {
      var i :| 0 <= i < |wire| && FrameCovers(wire[i], n);
      assert all[i] == wire[i];
    }
    if FrameCovers(frame, n) { assert all[|wire|] == frame; }
  }

  lemma DeliverComplete(st: World, p: Setup)
    requires Safe(st, p) && Complete(st) && Enabled(st, Deliver, p)
    ensures Complete(st.(conn := Some(DeliverOn(st.conn.value))))
  {
    var k, k' := st.conn.value, DeliverOn(st.conn.value);
    var e := k.queue[0];
    QueueBounded(st.server, k, p.cfg);
    QueueSplit(k.queue, 1);
    assert k.queue[..1] == [e];
    QueueOne(e);
    if k.ready {
      if e.Batch? {
        var lo, hi := SliceNumbers(st.server, e.deltas, p.cfg);
        hide ServerOk, ClientOk;
        forall n: nat | st.client.seqNo < n <= |st.server.log| ensures Covered(st.(conn := Some(k')), k', n) {
          assert Covered(st, k, n);
          WireCoversMore(k.wire, DeltaFrame(e.deltas), n);
        }
      } else {
        forall n: nat | st.client.seqNo < n <= |st.server.log| ensures Covered(st.(conn := Some(k')), k', n) {
          assert Covered(st, k, n);
        }
      }
    }
  }

  lemma SnapshotComplete(st: World, k: Connection)
    requires Complete(st) && st.server.epochs != []
    requires WireOrdered(k.wire, st.client.seqNo, |st.server.log|) && k.missed == {}
    requires st.client.hasSnapshot || k.wire == [] || k.wire[0].SnapshotFrame?
    ensures var k' := k.(wire := k.wire + [FullFrame(st.server)]);
            ConnectionComplete(st.(conn := Some(k')), k')
  {
    var k' := k.(wire := k.wire + [FullFrame(st.server)]);
    forall n: nat | n <= |st.server.log| ensures WireCovers(k'.wire, n) {
      WireCoversMore(k.wire, FullFrame(st.server), n);
    }
  }

  lemma DropCovers(st: World, k: Connection, capacity: nat)
    requires |k.queue| > capacity
    ensures var k' := DropOn(k, capacity); forall n: nat :: Covered(st, k, n) ==> Covered(st.(conn := Some(k')), k', n)
    ensures DropOn(k, capacity).missed <= k.missed + QueueNumbers(k.queue)
  {
    hide WireCovers, QueueNumbers;
    QueueSplit(k.queue, |k.queue| - capacity);
  }

  lemma DropComplete(st: World, p: Setup)
    requires Safe(st, p) && Complete(st) && st.conn.Some? && |st.conn.value.queue| > p.capacity
    ensures Complete(st.(conn := Some(DropOn(st.conn.value, p.capacity))))
  {
    QueueBounded(st.server, st.conn.value, p.cfg);
    hide Safe, Covered, WireOrdered, QueueNumbers;
    DropCovers(st, st.conn.value, p.capacity);
  }

  lemma ForceComplete(st: World, now: nat)
    requires Complete(st) && st.conn.Some? && st.server.epochs != []
    ensures Complete(st.(conn := Some(ForceOn(st.conn.value, st.server, now))))
  {
    var k := st.conn.value;
    if k.ready && ShouldForceResync(k.lastForced, now) {
      SnapshotComplete(st, k.(lastForced := Some(now), missed := {}));
    }
  }

  lemma ReplayCovers(deltas: seq<Delta>, from: nat, n: nat)
    requires from < n <= from + |deltas| && deltas[n - 1 - from].seqNo == n
    ensures WireCovers([DeltaFrame(deltas)], n)
  {
    assert n in Numbers(deltas);
    assert FrameCovers([DeltaFrame(deltas)][0], n);
  }

  lemma HandleHelloComplete(st: World, p: Setup)
    requires SafeAll(st, p) && Complete(st) && Enabled(st, HandleHello, p)
    ensures st.server.epochs != [] && Complete(st.(conn := Some(HandleHelloOn(st.conn.value, st.server))))
  {
    hide ClientOk, FleetOk, EpochStep, ConnectionFramesOk;
    var s, k := st.server, st.conn.value;
    var k' := HandleHelloOn(k, s);
    var st' := st.(conn := Some(k'));
    var reply := Resync(Newest(s.log, RING_CAP), |s.log|, k.hello.value);
    ResyncIsExact(s.log, k.hello.value);
    assert forall n: nat | n < |s.log| :: s.log[n].seqNo == n + 1;
    hide Safe, Resync, Newest, QueueNumbers, WireCovers, Unpublished, Numbers;
    match reply {
      case UpToDate =>
      case Full => SnapshotComplete(st, k.(hello := None, ready := true, missed := {}));
      case Replay(deltas) =>
        assert k'.wire == [DeltaFrame(deltas)] && st.client.hasSnapshot;
        forall n: nat | st.client.seqNo < n <= |s.log| ensures Covered(st', k', n) {
          ReplayCovers(deltas, st.client.seqNo, n);
        }
    }
  }

  /** What receiving the first frame leaves unseen is covered by the frames behind it. */
  lemma ReceiveAdvances(st: World, p: Setup)
    requires SafeAll(st, p) && Complete(st) && Enabled(st, ClientReceive, p)
    ensures var frame := st.conn.value.wire[0];
            var (client, gap) := Receive(st.client, frame, p.opts);
            && st.client.seqNo <= client.seqNo <= |st.server.log|
            && (gap ==> (!client.hasSnapshot ==> client.seqNo == 0))
            && (!gap ==> client.hasSnapshot && (forall n: nat | client.seqNo < n :: !FrameCovers(frame, n))
                         && (client.seqNo == st.client.seqNo || client.seqNo == Top(frame)))
  {
    hide ClientOk, FleetOk, EpochStep, FromSnapshot, Covered;
    var s, frame := st.server, st.conn.value.wire[0];
    assert st.conn.value.ready && Top(frame) <= |s.log|;
    assert frame in st.conn.value.wire && FrameOk(s, frame);
    if frame.DeltaFrame? {
      var lo, hi := SliceNumbers(s, frame.deltas, p.cfg);
      FoldSlice(st.client.devices, st.client.seqNo, s.log, lo, hi, p.opts);
    }
  }

  lemma ReceiveComplete(st: World, p: Setup)
    requires SafeAll(st, p) && Complete(st) && Enabled(st, ClientReceive, p)
    ensures var (client, gap) := Receive(st.client, st.conn.value.wire[0], p.opts);
            var k' := st.conn.value.(wire := st.conn.value.wire[1..]);
            && st.client.seqNo <= client.seqNo <= |st.server.log|
            && (gap ==> (!client.hasSnapshot ==> client.seqNo == 0))
            && (!gap ==> client.hasSnapshot && Complete(st.(client := client, conn := Some(k'))))
  {
    ReceiveAdvances(st, p);
    var k := st.conn.value;
    assert k.ready;
    var (client, gap) := Receive(st.client, k.wire[0], p.opts);
    var k' := k.(wire := k.wire[1..]);
    hide Safe, Receive, FrameCovers;
    if !gap {
      var st' := st.(client := client, conn := Some(k'));
      forall n: nat | client.seqNo < n <= |st.server.log| ensures Covered(st', k', n) {
        assert Covered(st, k, n);
        if WireCovers(k.wire, n) {
          var i :| 0 <= i < |k.wire| && FrameCovers(k.wire[i], n);
          assert k'.wire[i - 1] == k.wire[i];
        }
      }
    }
  }

  // ------------------------------------------------------------------ all runs

  ghost predicate Good(st: World, p: Setup) {
    SafeAll(st, p) && Complete(st)
  }

  lemma StepComplete(st: World, a: Action, p: Setup)
    requires Good(st, p) && Enabled(st, a, p)
    ensures st.server.epochs != []
    ensures Complete(Do(st, a, p)) && st.client.seqNo <= Do(st, a, p).client.seqNo
  {
    ServerHasEpochs(st.server, p.cfg);
    match a {
      case Ingest(e) => CommitComplete(st, Heard(e), p.cfg);
      case SweepAll(order, now) => CommitComplete(st, Swept(order, now), p.cfg);
      case Publish(batch) => PublishComplete(st, Batch(batch), st.unpublished - {batch});
      case PublishOther => PublishComplete(st, OtherFamily, st.unpublished);
      case Lagged(now) =>
        DropComplete(st, p);
        ForceComplete(st.(conn := Some(DropOn(st.conn.value, p.capacity))), now);
      case Deliver => DeliverComplete(st, p);
      case HandleHello => HandleHelloComplete(st, p);
      case ClientReceive => ReceiveComplete(st, p);
      case Dial =>
      case Disconnect =>
    }
    hide Safe, Covered, WireOrdered, ConnectionFramesOk, FromSnapshot, FoldDeltas, Effect;
  }

  lemma StepGood(st: World, a: Action, p: Setup)
    requires Good(st, p) && Enabled(st, a, p)
    ensures st.server.epochs != []
    ensures Good(Do(st, a, p), p) && st.client.seqNo <= Do(st, a, p).client.seqNo
  {
    hide SafeAll, Complete, Do;
    StepComplete(st, a, p);
    StepSafe(st, a, p);
  }

  /** The world after a sequence of steps, or None when one of them was not possible. */
  function Run(actions: seq<Action>, p: Setup): Option<World>
    decreases |actions|
  {
    if actions == [] then Some(Init())
    else
      var n := |actions| - 1;
      var before := Run(actions[..n], p);
      if before.Some? && before.value.server.epochs != [] && Enabled(before.value, actions[n], p)
      then Some(Do(before.value, actions[n], p)) else None
  }

  lemma {:induction false} RunGood(actions: seq<Action>, p: Setup)
    requires Run(actions, p).Some?
    ensures Good(Run(actions, p).value, p)
    decreases |actions|
  {
    hide Good, Do;
    if actions == [] {
      InitGood(p);
    } else {
      var n := |actions| - 1;
      RunGood(actions[..n], p);
      StepGood(Run(actions[..n], p).value, actions[n], p);
    }
  }

  lemma InitGood(p: Setup)
    ensures Good(Init(), p)
  {
    InitSafe(p);
  }

  /** Everything published, delivered and folded, on a connection that has said hello. */
  predicate Quiet(st: World) {
    && st.unpublished == {} && st.conn.Some?
    && st.conn.value.ready && st.conn.value.queue == [] && st.conn.value.wire == []
  }

  lemma BehindMeansSkipped(st: World)
    requires Complete(st) && Quiet(st)
    ensures st.client.hasSnapshot
    ensures st.client.seqNo == |st.server.log| <==> forall n <- st.conn.value.missed :: n <= st.client.seqNo
  {
    var last := |st.server.log|;
    var k := st.conn.value;
    if st.client.seqNo < last {
      assert Covered(st, k, last);
      assert last in k.missed;
    }
  }

  lemma UpToDateTracksNow(s: Server, c: Client, p: Setup)
    requires ServerOk(s, p.cfg) && ClientOk(s, c, p) && c.hasSnapshot && c.seqNo == |s.log|
    ensures MirrorsAt(s, c, |s.epochs| - 1, p)
  {
    hide Tracks, Learned, FleetOk, EpochStep;
    var i: nat :| MirrorsAt(s, c, i, p);
    CarriesFar(s, c.devices, c.base, i, |s.epochs| - 1, p);
    assert s.log[|s.log|..|s.log|] == [] && ApplyDeltas(c.devices, [], p.opts) == c.devices;
  }

  /** Replication safety, over every run and under any settings: the client always holds what
      its history since its last snapshot makes of the fleet as of the last number it applied;
      at rest it is up to date exactly when no delta beyond that number was skipped by a lag
      since the last resync, and then it holds what that history makes of the current fleet. */
  lemma ReplicationSafety(actions: seq<Action>, p: Setup)
    requires Run(actions, p).Some?
    ensures var st := Run(actions, p).value;
            && (st.client.hasSnapshot ==> exists i: nat :: MirrorsAt(st.server, st.client, i, p))
            && (Quiet(st) ==> st.client.hasSnapshot)
            && (Quiet(st) ==>
                (st.client.seqNo == |st.server.log| <==> forall n <- st.conn.value.missed :: n <= st.client.seqNo))
            && (Quiet(st) && st.client.seqNo == |st.server.log| ==> MirrorsAt(st.server, st.client, |st.server.epochs| - 1, p))
  {
    hide Run, ServerOk, MirrorsAt, Complete;
    RunGood(actions, p);
    var st := Run(actions, p).value;
    if Quiet(st) {
      BehindMeansSkipped(st);
      if st.client.seqNo == |st.server.log| { UpToDateTracksNow(st.server, st.client, p); }
    }
  }

  // ------------------------------------------------------------------ the damped lag

  /** A lag of a ready session is answered with a snapshot of the current state exactly when none
      was forced in the two thousand milliseconds before, and otherwise with nothing. */
  lemma LagAnswered(st: World, now: nat, p: Setup)
    requires st.server.epochs != [] && Enabled(st, Lagged(now), p) && st.conn.value.ready
    ensures var k, k' := st.conn.value, Do(st, Lagged(now), p).conn.value;
            var forced := k.lastForced.None? || now >= k.lastForced.value + 2000;
            && k'.wire == k.wire + (if forced then [FullFrame(st.server)] else [])
            && k'.lastForced == (if forced then Some(now) else k.lastForced)
  {
    hide QueueNumbers, FullFrame;
    assert st.conn.value.wire + [] == st.conn.value.wire;
  }

  /** A step's effect on whether a lag has been answered with nothing since the last resync. */
  predicate DampedBy(was: bool, st: World, a: Action) {
    match a
    case Lagged(now) => if st.conn.Some? && st.conn.value.ready then !ShouldForceResync(st.conn.value.lastForced, now) else was
    case HandleHello => false
    case Dial => false
    case _ => was
  }

  predicate Damped(actions: seq<Action>, p: Setup)
    requires Run(actions, p).Some?
    decreases |actions|
  {
    actions != [] &&
    var n := |actions| - 1;
    DampedBy(Damped(actions[..n], p), Run(actions[..n], p).value, actions[n])
  }

  predicate MissesNothing(st: World) {
    st.conn.Some? && st.conn.value.ready ==> st.conn.value.missed == {}
  }

  lemma StepMisses(st: World, a: Action, was: bool, p: Setup)
    requires st.server.epochs != [] && Enabled(st, a, p) && (was || MissesNothing(st))
    ensures DampedBy(was, st, a) || MissesNothing(Do(st, a, p))
  {
    hide FromSnapshot, FoldDeltas, Effect, QueueNumbers, Numbers, Newest;
  }

  lemma {:induction false} UndampedMissesNothing(actions: seq<Action>, p: Setup)
    requires Run(actions, p).Some?
    ensures Damped(actions, p) || MissesNothing(Run(actions, p).value)
    decreases |actions|
  {
    if actions != [] {
      var n := |actions| - 1;
      UndampedMissesNothing(actions[..n], p);
      StepMisses(Run(actions[..n], p).value, actions[n], Damped(actions[..n], p), p);
      hide Do, MissesNothing, DampedBy, Enabled;
    }
  }

  /** When every lag since the last resync was answered with a snapshot, a browser at rest holds
      what its history makes of the gateway's current fleet. */
  lemma UndampedIsUpToDate(actions: seq<Action>, p: Setup)
    requires Run(actions, p).Some? && Quiet(Run(actions, p).value) && !Damped(actions, p)
    ensures var st := Run(actions, p).value;
            st.client.seqNo == |st.server.log| && MirrorsAt(st.server, st.client, |st.server.epochs| - 1, p)
  {
    hide Run, Damped, MirrorsAt;
    UndampedMissesNothing(actions, p);
    ReplicationSafety(actions, p);
  }

  // ------------------------------------------------------------------ a run that ends behind

  lemma RunSnoc(actions: seq<Action>, a: Action, p: Setup)
    requires Run(actions, p).Some? && Run(actions, p).value.server.epochs != []
    requires Enabled(Run(actions, p).value, a, p)
    ensures Run(actions + [a], p) == Some(Do(Run(actions, p).value, a, p))
    ensures Damped(actions + [a], p) == DampedBy(Damped(actions, p), Run(actions, p).value, a)
  {
    hide Do, DampedBy;
    assert (actions + [a])[..|actions|] == actions;
  }

  /** A ready connection whose wire is empty. */
  function Standing(server: Server, unpublished: set<seq<Delta>>, client: Client, queue: seq<BusEvent>,
                    lastForced: Option<nat>, missed: set<nat>): World
  {
    World(server, unpublished, Some(Connection(None, true, queue, lastForced, missed, [])), client)
  }

  const EMPTY_CLIENT := Client(map[], 0, true, 0)

  /** The client receives the snapshot of the empty fleet. */
  lemma TakeEmptySnapshot(st: World, p: Setup)
    requires st.conn.Some? && st.conn.value.wire == [FullFrame(EMPTY_SERVER)]
    ensures Enabled(st, ClientReceive, p)
    ensures st.server.epochs != [] ==>
      Do(st, ClientReceive, p) == st.(client := EMPTY_CLIENT, conn := Some(st.conn.value.(wire := [])))
  {
    assert FromSnapshot(map[]) == map[] && [FullFrame(EMPTY_SERVER)][1..] == [];
  }

  lemma HelloRun(p: Setup)
    ensures var actions := [Dial, HandleHello, ClientReceive];
            Run(actions, p) == Some(Standing(EMPTY_SERVER, {}, EMPTY_CLIENT, [], None, {})) && !Damped(actions, p)
  {
    assert Run([], p) == Some(Init()) && [] + [Dial] == [Dial] && [Dial] + [HandleHello] == [Dial, HandleHello];
    assert [Dial, HandleHello] + [ClientReceive] == [Dial, HandleHello, ClientReceive];
    hide Run, Damped;
    RunSnoc([], Dial, p);
    RunSnoc([Dial], HandleHello, p);
    var st := Run([Dial, HandleHello], p).value;
    assert st.conn.value.wire == [] + [FullFrame(EMPTY_SERVER)] == [FullFrame(EMPTY_SERVER)];
    TakeEmptySnapshot(st, p);
    RunSnoc([Dial, HandleHello], ClientReceive, p);
  }

  function Times(a: Action, n: nat): seq<Action> {
    if n == 0 then [] else Times(a, n - 1) + [a]
  }

  function Others(n: nat): (queue: seq<BusEvent>)
    ensures |queue| == n && forall e <- queue :: e == OtherFamily
  {
    if n == 0 then [] else Others(n - 1) + [OtherFamily]
  }

  lemma {:induction false} PublishOthers(actions: seq<Action>, n: nat, server: Server, u: set<seq<Delta>>, c: Client,
                                         queue: seq<BusEvent>, forced: Option<nat>, missed: set<nat>, p: Setup)
    requires server.epochs != [] && Run(actions, p) == Some(Standing(server, u, c, queue, forced, missed))
    ensures Run(actions + Times(PublishOther, n), p) == Some(Standing(server, u, c, queue + Others(n), forced, missed))
  {
    hide Run, Damped;
    if n == 0 {
      assert actions + Times(PublishOther, 0) == actions && queue + Others(0) == queue;
    } else {
      PublishOthers(actions, n - 1, server, u, c, queue, forced, missed, p);
      RunSnoc(actions + Times(PublishOther, n - 1), PublishOther, p);
      assert actions + Times(PublishOther, n) == actions + Times(PublishOther, n - 1) + [PublishOther];
      assert queue + Others(n) == queue + Others(n - 1) + [OtherFamily];
    }
  }

  lemma {:induction false} DeliverOthers(actions: seq<Action>, n: nat, server: Server, u: set<seq<Delta>>, c: Client,
                                         queue: seq<BusEvent>, forced: Option<nat>, missed: set<nat>, p: Setup)
    requires n <= |queue| <= p.capacity && forall e <- queue :: e == OtherFamily
    requires server.epochs != [] && Run(actions, p) == Some(Standing(server, u, c, queue, forced, missed))
    ensures Run(actions + Times(Deliver, n), p) == Some(Standing(server, u, c, queue[n..], forced, missed))
  {
    hide Run, Damped;
    if n == 0 {
      assert actions + Times(Deliver, 0) == actions;
    } else {
      DeliverOthers(actions, n - 1, server, u, c, queue, forced, missed, p);
      assert queue[n - 1] in queue && queue[n - 1..][1..] == queue[n..];
      RunSnoc(actions + Times(Deliver, n - 1), Deliver, p);
      assert actions + Times(Deliver, n) == actions + Times(Deliver, n - 1) + [Deliver];
    }
  }

  /** A lag on a standing connection, inside or outside the damping window. */
  lemma LagStanding(server: Server, u: set<seq<Delta>>, queue: seq<BusEvent>, forced: Option<nat>, now: nat, p: Setup)
    requires server.epochs != [] && |queue| == p.capacity + 1
    ensures var st := Standing(server, u, EMPTY_CLIENT, queue, forced, {});
            && Enabled(st, Lagged(now), p)
            && Do(st, Lagged(now), p) ==
                 if ShouldForceResync(forced, now)
                 then var rest := Standing(server, u, EMPTY_CLIENT, queue[1..], Some(now), {});
                      rest.(conn := Some(rest.conn.value.(wire := [FullFrame(server)])))
                 else Standing(server, u, EMPTY_CLIENT, queue[1..], forced, EventNumbers(queue[0]))
  {
    assert queue[..1] == [queue[0]] && [] + [FullFrame(server)] == [FullFrame(server)];
    QueueOne(queue[0]);
    assert {} + QueueNumbers([queue[0]]) == EventNumbers(queue[0]);
    hide QueueNumbers, EventNumbers, FullFrame;
  }

  /** Traffic of other families overflows the channel, and a snapshot is forced. */
  lemma ForcedRun(actions: seq<Action>, p: Setup) returns (more: seq<Action>)
    requires Run(actions, p) == Some(Standing(EMPTY_SERVER, {}, EMPTY_CLIENT, [], None, {}))
    ensures Run(more, p) == Some(Standing(EMPTY_SERVER, {}, EMPTY_CLIENT, [], Some(0), {}))
  {
    hide Run, Damped, FullFrame, Do, Enabled;
    var n := p.capacity + 1;
    var queue := Others(n)[1..];
    PublishOthers(actions, n, EMPTY_SERVER, {}, EMPTY_CLIENT, [], None, {}, p);
    assert [] + Others(n) == Others(n) && queue[p.capacity..] == [];
    assert forall e <- queue :: e in Others(n);
    var a1 := actions + Times(PublishOther, n);
    LagStanding(EMPTY_SERVER, {}, Others(n), None, 0, p);
    RunSnoc(a1, Lagged(0), p);
    var a2 := a1 + [Lagged(0)];
    var st := Run(a2, p).value;
    assert st.server == EMPTY_SERVER && st.conn.value.wire == [FullFrame(EMPTY_SERVER)];
    TakeEmptySnapshot(st, p);
    RunSnoc(a2, ClientReceive, p);
    var a3 := a2 + [ClientReceive];
    DeliverOthers(a3, p.capacity, EMPTY_SERVER, {}, EMPTY_CLIENT, queue, Some(0), {}, p);
    more := a3 + Times(Deliver, p.capacity);
  }

  /** A second overflow inside the window drops the batch `b`, and nothing is sent for it. */
  lemma DampedRun(actions: seq<Action>, server: Server, b: seq<Delta>, p: Setup) returns (more: seq<Action>)
    requires server.epochs != [] && Run(actions, p) == Some(Standing(server, {b}, EMPTY_CLIENT, [], Some(0), {}))
    ensures Run(more, p) == Some(Standing(server, {}, EMPTY_CLIENT, [], Some(0), Numbers(b)))
  {
    hide Run, Damped, Numbers;
    var a1 := actions + [Publish(b)];
    RunSnoc(actions, Publish(b), p);
    assert {b} - {b} == {} && [] + [Batch(b)] == [Batch(b)];
    PublishOthers(a1, p.capacity, server, {}, EMPTY_CLIENT, [Batch(b)], Some(0), {}, p);
    var a2 := a1 + Times(PublishOther, p.capacity);
    var queue := [Batch(b)] + Others(p.capacity);
    assert queue[0] == Batch(b) && queue[1..] == Others(p.capacity) && Others(p.capacity)[p.capacity..] == [];
    LagStanding(server, {}, queue, Some(0), 1, p);
    hide Do, Enabled;
    RunSnoc(a2, Lagged(1), p);
    var a3 := a2 + [Lagged(1)];
    DeliverOthers(a3, p.capacity, server, {}, EMPTY_CLIENT, Others(p.capacity), Some(0), Numbers(b), p);
    more := a3 + Times(Deliver, p.capacity);
  }

  lemma FirstMessageEmits(e: Event, cfg: Config)
    ensures IngestFleet(map[], e, cfg).deltas != []
  {
  }

  /** The condition is needed, whatever the channel's capacity: when traffic overflows the
      channel twice within two seconds, the second lag is ignored, and the client can rest behind
      the gateway. */
  lemma DampedLagLeavesClientBehind(e: Event, p: Setup) returns (actions: seq<Action>)
    ensures Run(actions, p).Some?
    ensures var st := Run(actions, p).value;
            Quiet(st) && st.client.hasSnapshot && st.client.seqNo < |st.server.log|
  {
    FirstMessageEmits(e, p.cfg);
    hide IngestFleet, Run, Damped;
    HelloRun(p);
    actions := ForcedRun([Dial, HandleHello, ClientReceive], p);
    RunSnoc(actions, Ingest(e), p);
    actions := actions + [Ingest(e)];
    var server := Run(actions, p).value.server;
    var b := Stamp(IngestFleet(map[], e, p.cfg).deltas, 0, e.at);
    assert {} + {b} == {b};
    assert Run(actions, p) == Some(Standing(server, {b}, EMPTY_CLIENT, [], Some(0), {}));
    actions := DampedRun(actions, server, b, p);
  }
}
