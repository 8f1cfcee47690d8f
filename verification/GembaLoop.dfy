/**
 The session loop of an application (gateway/src/http.rs, `handle_gemba_socket` and
 `enqueue_gemba_snapshots`): which frames it pushes and when.  Over its runs every snapshot
 slot is written where that is exact, so coalescing preserves meaning.
 */
module GembaLoop {
  import opened Basics
  import opened Gemba
  import opened GembaMeaning
  import opened GembaRuns

  datatype Arrival = Arrival(family: Family, frame: Frame)

  /** One turn of the loop: a hello; a subscription, with the snapshots of the families it adds;
      a bus event; a lag of the bus, with the snapshots of every subscribed family; a tick. */
  datatype Turn =
    | Hello
    | Choose(requested: seq<Requested>, snapshots: seq<Arrival>)
    | Bus(arrival: Arrival)
    | Overrun(skipped: nat, snapshots: seq<Arrival>)
    | Timer

  /** The frames the gateway's bus events turn into. */
  predicate IsBusFrame(a: Arrival) {
    match a.family
    case Fleet => a.frame.Items? && a.frame.list == Deltas && a.frame.items != []
    case Events => a.frame.Event?
    case Metrics | Signals | Attributes => a.frame.Items? && a.frame.list == Updates && a.frame.items != []
    case Logs | Alarms => a.frame.Whole?
  }

  /** The frames the model's snapshots turn into. */
  predicate IsSnapshotFrame(a: Arrival) {
    match a.family
    case Fleet => a.frame.Snapshot? && a.frame.seqNo.Some?
    case Events => a.frame.Backlog?
    case Metrics | Signals => a.frame.Items? && a.frame.list == Series
    case Logs => false
    case Attributes | Alarms => a.frame.Whole?
  }

  /** One snapshot for each of `families`, logs aside, in the families' order. */
  predicate SnapshotsOf(snapshots: seq<Arrival>, families: set<Family>) {
    && (forall a <- snapshots :: a.family in families && IsSnapshotFrame(a))
    && (forall f <- families :: f != Logs ==> exists a <- snapshots :: a.family == f)
    && (forall i, j | 0 <= i < j < |snapshots| :: Rank(snapshots[i].family) < Rank(snapshots[j].family))
  }

  function Pushes(arrivals: seq<Arrival>): (r: seq<Op>)
    ensures |r| == |arrivals| && forall i | 0 <= i < |r| :: r[i] == Push(arrivals[i].family, arrivals[i].frame)
  {
    seq(|arrivals|, i requires 0 <= i < |arrivals| => Push(arrivals[i].family, arrivals[i].frame))
  }

  function OpsOf(t: Turn): seq<Op> {
    match t
    case Hello => [Greet]
    case Choose(requested, snapshots) => [Resubscribe(requested)] + Pushes(snapshots)
    case Bus(a) => [Push(a.family, a.frame)]
    case Overrun(skipped, snapshots) => [Lag(skipped)] + Pushes(snapshots)
    case Timer => [Tick]
  }

  predicate Possible(s: Session, t: Turn, size: Frame -> nat) {
    match t
    case Choose(requested, snapshots) => SnapshotsOf(snapshots, Do(s, Resubscribe(requested), size).subscriptions - s.subscriptions)
    case Bus(a) => IsBusFrame(a)
    case Overrun(_, snapshots) => SnapshotsOf(snapshots, s.subscriptions)
    case _ => true
  }

  // ------------------------------------------------------------------ resets are safe

  /** Alarms are only ever kept whole. */
  ghost predicate LoopOk(s: Session) {
    ValidSession(s) && NoItems(s.state, Family.Alarms)
  }

  /** Each push of `ops` writes its snapshot slot where that is exact. */
  ghost predicate ResetsAreSafe(s: Session, ops: seq<Op>, size: Frame -> nat)
    decreases |ops|
  {
    ops != [] ==>
      && (ops[0].Push? ==> ResetIsSafe(s, ops[0].family, ops[0].frame))
      && ResetsAreSafe(Do(s, ops[0], size), ops[1..], size)
  }

  /** A push adds entries of its own family only; those of a frame kept whole are no items. */
  lemma PushStateAdds(s: Session, key: StateKey, frame: Frame, size: Frame -> nat)
    ensures forall p <- PushState(s, key, frame, size).state :: p in s.state || p.key == key
  {
    if size(frame) <= MAX_PENDING_BYTES {
      var state, ordered := PushStateIs(s, key, frame, size);
      hide PushState, Without;
      SuffixMembers(state, Without(s.state, key));
      WithoutMembers(s.state, key);
    }
  }

  lemma WithoutMembers(t: seq<Pending>, key: StateKey)
    ensures forall p <- Without(t, key) :: p in t
  {
  }

  lemma {:induction false} PushKeyedAdds(s: Session, pushes: seq<Keyed>, size: Frame -> nat)
    ensures forall p <- PushKeyed(s, pushes, size).state :: p in s.state || exists k <- pushes :: p.key == k.key
    decreases |pushes|
  {
    hide PushState;
    if pushes != [] {
      PushStateAdds(s, pushes[0].key, pushes[0].frame, size);
      PushKeyedAdds(PushState(s, pushes[0].key, pushes[0].frame, size), pushes[1..], size);
      assert forall k <- pushes[1..] :: k in pushes;
    }
  }

  lemma PushFrameAdds(s: Session, family: Family, frame: Frame, size: Frame -> nat)
    ensures forall p <- PushFrame(s, family, frame, size).state ::
              p in s.state || (p.key.family == family && (!frame.Items? ==> p.key.slot == 0))
  {
    hide PushKeyed, PushOrdered, KeyedPushes, Normalize;
    var (s1, normal) := Normalize(s, family, frame);
    NormalizeAdds(s, family, frame);
    if s.ready && family in s.subscriptions && normal.Some? {
      if IsOrdered(family) {
        OrderedAdds(s1, family, normal.value, size);
      } else {
        PushKeyedAdds(s1, KeyedPushes(family, normal.value), size);
        WholeSlots(family, normal.value);
      }
    }
  }

  lemma NormalizeAdds(s: Session, family: Family, frame: Frame)
    ensures var (s1, normal) := Normalize(s, family, frame);
            && (forall p <- s1.state :: p in s.state) && (normal.Some? ==> (normal.value.Items? <==> frame.Items?))
  {
    hide KeepNewer, NewestOf, SeqNos;
  }

  lemma OrderedAdds(s: Session, family: Family, frame: Frame, size: Frame -> nat)
    ensures forall p <- PushOrdered(s, family, frame, size).state :: p in s.state
  {
    if size(frame) <= MAX_PENDING_BYTES {
      var state, ordered := PushOrderedIs(s, family, frame, size);
      hide PushOrdered;
      SuffixMembers(state, s.state);
    }
  }

  lemma WholeSlots(family: Family, frame: Frame)
    ensures forall k <- KeyedPushes(family, frame) :: k.key.family == family && (!frame.Items? ==> k.key.slot == 0)
  {
  }

  /** A bus frame resets nothing, except alarms, which have no items. */
  lemma BusIsSafe(s: Session, a: Arrival)
    requires LoopOk(s) && IsBusFrame(a)
    ensures ResetIsSafe(s, a.family, a.frame)
  {
    hide KeepNewer, NewestOf, SeqNos;
  }

  lemma SnapshotIsSafe(s: Session, a: Arrival)
    requires IsSnapshotFrame(a) && (a.family != Fleet ==> NoItems(s.state, a.family))
    ensures ResetIsSafe(s, a.family, a.frame)
  {
  }

  lemma PushKeepsLoopOk(s: Session, a: Arrival, size: Frame -> nat)
    requires LoopOk(s) && (IsBusFrame(a) || IsSnapshotFrame(a))
    ensures LoopOk(PushFrame(s, a.family, a.frame, size))
  {
    PushFrameKeepsValid(s, a.family, a.frame, size);
    PushFrameAdds(s, a.family, a.frame, size);
    hide PushFrame, ValidSession;
  }

  lemma {:induction false} SnapshotsAreSafe(s: Session, snapshots: seq<Arrival>, size: Frame -> nat)
    requires LoopOk(s)
    requires forall a <- snapshots :: IsSnapshotFrame(a) && (a.family != Fleet ==> NoItems(s.state, a.family))
    requires forall i, j | 0 <= i < j < |snapshots| :: Rank(snapshots[i].family) < Rank(snapshots[j].family)
    ensures ResetsAreSafe(s, Pushes(snapshots), size)
    decreases |snapshots|
  {
    hide LoopOk, PushFrame, ResetIsSafe, IsSnapshotFrame, IsBusFrame;
    if snapshots != [] {
      var a, rest := snapshots[0], snapshots[1..];
      var s1 := PushFrame(s, a.family, a.frame, size);
      SnapshotIsSafe(s, a);
      PushKeepsLoopOk(s, a, size);
      PushFrameAdds(s, a.family, a.frame, size);
      forall b | b in rest ensures b in snapshots && b.family != a.family && (b.family != Fleet ==> NoItems(s1.state, b.family)) {
        var j :| 0 <= j < |rest| && rest[j] == b;
        assert snapshots[j + 1] == b;
      }
      SnapshotsAreSafe(s1, rest, size);
      assert Pushes(snapshots)[1..] == Pushes(rest);
    }
  }

  lemma ClearedHasNothing(s: Session, requested: seq<Requested>, skipped: nat, size: Frame -> nat)
    requires LoopOk(s)
    ensures LoopOk(Do(s, Resubscribe(requested), size)) && LoopOk(Do(s, Lag(skipped), size))
    ensures forall f <- Do(s, Resubscribe(requested), size).subscriptions - s.subscriptions ::
              NoItems(Do(s, Resubscribe(requested), size).state, f)
    ensures forall f :: NoItems(Do(s, Lag(skipped), size).state, f)
  {
    SubscribeKeepsValid(s, requested);
    ResubscribeIs(s, requested, size);
    hide Do, KeepOrdered, Sorted;
    assert Do(s, Lag(skipped), size) == MarkResyncRequired(s, skipped) by { LagIs(s, skipped, size); }
  }

  lemma LagIs(s: Session, skipped: nat, size: Frame -> nat)
    ensures Do(s, Lag(skipped), size) == MarkResyncRequired(s, skipped)
  {
  }

  /** Every push of a possible turn writes its snapshot slot where that is exact. */
  lemma TurnIsSafe(s: Session, t: Turn, size: Frame -> nat)
    requires LoopOk(s) && Possible(s, t, size)
    ensures ResetsAreSafe(s, OpsOf(t), size)
  {
    hide LoopOk, Do, ResetIsSafe, NoItems, IsBusFrame, IsSnapshotFrame;
    match t {
      case Choose(requested, snapshots) =>
        ClearedHasNothing(s, requested, 0, size);
        SnapshotsAreSafe(Do(s, Resubscribe(requested), size), snapshots, size);
        assert OpsOf(t)[1..] == Pushes(snapshots);
      case Overrun(skipped, snapshots) =>
        ClearedHasNothing(s, [], skipped, size);
        SnapshotsAreSafe(Do(s, Lag(skipped), size), snapshots, size);
        assert OpsOf(t)[1..] == Pushes(snapshots);
      case Bus(a) => BusIsSafe(s, a); assert OpsOf(t)[1..] == [];
      case Hello => assert OpsOf(t)[1..] == [];
      case Timer => assert OpsOf(t)[1..] == [];
    }
  }

  lemma {:induction false} PushesKeepLoopOk(s: Session, l: Ledger, arrivals: seq<Arrival>, size: Frame -> nat)
    requires LoopOk(s) && forall a <- arrivals :: IsBusFrame(a) || IsSnapshotFrame(a)
    ensures LoopOk(RunOps(s, l, Pushes(arrivals), size).0)
    decreases |arrivals|
  {
    hide LoopOk, Record, PushFrame, IsBusFrame, IsSnapshotFrame;
    if arrivals != [] {
      var a := arrivals[0];
      PushKeepsLoopOk(s, a, size);
      assert Pushes(arrivals)[1..] == Pushes(arrivals[1..]);
      PushesKeepLoopOk(PushFrame(s, a.family, a.frame, size), Record(l, s, Push(a.family, a.frame), size), arrivals[1..], size);
    }
  }

  lemma RunOne(s: Session, l: Ledger, op: Op, rest: seq<Op>, size: Frame -> nat)
    ensures RunOps(s, l, [op] + rest, size) == RunOps(Do(s, op, size), Record(l, s, op, size), rest, size)
  {
    assert ([op] + rest)[1..] == rest;
    hide Do, Record;
  }

  lemma SimpleKeepsLoopOk(s: Session, size: Frame -> nat)
    requires LoopOk(s)
    ensures LoopOk(Do(s, Greet, size)) && LoopOk(Do(s, Tick, size))
  {
  }

  lemma TurnKeepsLoopOk(s: Session, l: Ledger, t: Turn, size: Frame -> nat)
    requires LoopOk(s) && Possible(s, t, size)
    ensures LoopOk(RunOps(s, l, OpsOf(t), size).0)
  {
    hide LoopOk, Do, Record, RunOps, IsBusFrame, IsSnapshotFrame, NoItems;
    match t {
      case Choose(requested, snapshots) =>
        ClearedHasNothing(s, requested, 0, size);
        RunOne(s, l, Resubscribe(requested), Pushes(snapshots), size);
        PushesKeepLoopOk(Do(s, Resubscribe(requested), size), Record(l, s, Resubscribe(requested), size), snapshots, size);
      case Overrun(skipped, snapshots) =>
        ClearedHasNothing(s, [], skipped, size);
        RunOne(s, l, Lag(skipped), Pushes(snapshots), size);
        PushesKeepLoopOk(Do(s, Lag(skipped), size), Record(l, s, Lag(skipped), size), snapshots, size);
      case Bus(a) =>
        PushesKeepLoopOk(s, l, [a], size);
        assert OpsOf(t) == Pushes([a]);
      case Hello =>
        SimpleKeepsLoopOk(s, size);
        RunOne(s, l, Greet, [], size);
        assert OpsOf(t) == [Greet] + [];
        RunNothing(Do(s, Greet, size), Record(l, s, Greet, size), size);
      case Timer =>
        SimpleKeepsLoopOk(s, size);
        RunOne(s, l, Tick, [], size);
        assert OpsOf(t) == [Tick] + [];
        RunNothing(Do(s, Tick, size), Record(l, s, Tick, size), size);
    }
  }

  lemma RunNothing(s: Session, l: Ledger, size: Frame -> nat)
    ensures RunOps(s, l, [], size) == (s, l)
  {
  }

  // ------------------------------------------------------------------ coalescing over a run

  lemma {:induction false} KeptAt(view: map<StateKey, Frame>, view': map<StateKey, Frame>, owed: seq<Keyed>, families: set<Family>, x: StateKey)
    requires At(view, x) == At(view', x)
    ensures At(ApplyKeyed(view, KeepOwed(owed, families)), x)
         == if x.family in families then At(ApplyKeyed(view', owed), x) else At(view, x)
    decreases |owed|
  {
    if owed != [] {
      var k := owed[0];
      var once := ApplyOne(view', k.key, k.frame);
      var kept := KeepOwed(owed[1..], families);
      if k.key.family in families {
        assert ([k] + kept)[1..] == kept;
        KeptAt(ApplyOne(view, k.key, k.frame), once, owed[1..], families, x);
      } else {
        KeptAt(view, if x.family in families then once else view, owed[1..], families, x);
      }
    }
  }

  /** Unsubscribing takes the same families out of the table and out of what is owed. */
  lemma KeepMeaning(view: map<StateKey, Frame>, t: seq<Pending>, owed: seq<Keyed>, families: set<Family>)
    requires Sorted(t) && ApplyTable(view, t) == ApplyKeyed(view, owed)
    ensures ApplyTable(view, KeepState(t, families)) == ApplyKeyed(view, KeepOwed(owed, families))
  {
    var keep := (k: StateKey) => k.family in families;
    var a, b := ApplyTable(view, KeepState(t, families)), ApplyKeyed(view, KeepOwed(owed, families));
    RetainSorted(t, keep);
    hide ApplyTable, ApplyKeyed, KeepOwed, Retain, Sorted;
    forall x ensures At(a, x) == At(b, x) {
      TableAt(view, t, x);
      TableAt(view, KeepState(t, families), x);
      LookupRetain(t, keep, x);
      LookupRetain(t, keep, StateKey(x.family, 0));
      KeptAt(view, view, owed, families, x);
    }
    SameAt(a, b);
  }

  /** While nothing was dropped, the pending table means what the owed frames mean, to every view. */
  ghost predicate MeansOwed(s: Session, l: Ledger) {
    s.droppedState == 0 && s.droppedOrdered == 0 ==>
      forall view: map<StateKey, Frame> :: ApplyTable(view, s.state) == ApplyKeyed(view, l.owed)
  }

  lemma PushMeansOwed(s: Session, l: Ledger, family: Family, frame: Frame, size: Frame -> nat)
    requires ValidSession(s) && MeansOwed(s, l) && ResetIsSafe(s, family, frame)
    ensures MeansOwed(PushFrame(s, family, frame, size), PushRecord(l, s, family, frame, size))
  {
    hide PushFrame, ResetIsSafe, ValidSession, ApplyTable, ApplyKeyed, PushRecord, Accepted;
    var s' := PushFrame(s, family, frame, size);
    PushFrameDrops(s, family, frame, size);
    OwedGrows(s, l, family, frame, size);
    if s'.droppedState == 0 && s'.droppedOrdered == 0 {
      forall view: map<StateKey, Frame> ensures ApplyTable(view, s'.state) == ApplyKeyed(view, l.owed + Accepted(s, family, frame)) {
        PushFrameMeaning(view, s, family, frame, size);
        ApplyKeyedConcat(view, l.owed, Accepted(s, family, frame));
      }
    }
  }

  lemma {:induction false} PushesOwe(l: Ledger, s: Session, pushes: seq<Keyed>, size: Frame -> nat)
    ensures PushesRecord(l, s, pushes, size).owed == l.owed
    decreases |pushes|
  {
    hide PushState, Replaced;
    if pushes != [] {
      var k := pushes[0];
      var s1 := PushState(s, k.key, k.frame, size);
      PushesOwe(KeyedRecord(l, s, Pending(k.key, k.frame, size(k.frame)), s1), s1, pushes[1..], size);
    }
  }

  lemma OwedGrows(s: Session, l: Ledger, family: Family, frame: Frame, size: Frame -> nat)
    ensures PushRecord(l, s, family, frame, size).owed == l.owed + Accepted(s, family, frame)
  {
    hide Normalize, PushesRecord, PushOrdered, KeyedPushes, Retired;
    var (s1, normal) := Normalize(s, family, frame);
    assert l.owed + [] == l.owed;
    if normal.Some? {
      PushesOwe(l.(superseded := l.superseded + Retired(s, family, frame), owed := l.owed + Accepted(s, family, frame)), s1, KeyedPushes(family, normal.value), size);
    }
  }

  lemma StepMeansOwed(s: Session, l: Ledger, op: Op, size: Frame -> nat)
    requires ValidSession(s) && MeansOwed(s, l)
    requires op.Push? ==> ResetIsSafe(s, op.family, op.frame)
    ensures MeansOwed(Do(s, op, size), Record(l, s, op, size))
  {
    match op {
      case Greet =>
      case Push(family, frame) => PushMeansOwed(s, l, family, frame, size);
      case Resubscribe(requested) =>
        var s', l' := Do(s, op, size), Record(l, s, op, size);
        ResubscribeIs(s, requested, size);
        hide Do, ApplyTable, ApplyKeyed, KeepState, KeepOrdered, KeepOwed;
        if s'.droppedState == 0 && s'.droppedOrdered == 0 {
          forall view: map<StateKey, Frame> ensures ApplyTable(view, s'.state) == ApplyKeyed(view, l'.owed) {
            KeepMeaning(view, s.state, l.owed, s'.subscriptions);
          }
        }
      case Lag(_) =>
      case Tick =>
    }
  }

  lemma {:induction false} OpsMeanOwed(s: Session, l: Ledger, ops: seq<Op>, size: Frame -> nat)
    requires ValidSession(s) && Honest(s, l) && MeansOwed(s, l) && ResetsAreSafe(s, ops, size)
    ensures var (s', l') := RunOps(s, l, ops, size); MeansOwed(s', l') && Honest(s', l')
    decreases |ops|
  {
    hide MeansOwed, ValidSession, Do, Record, ResetIsSafe, Honest;
    if ops != [] {
      StepMeansOwed(s, l, ops[0], size);
      StepHonest(s, l, ops[0], size);
      OpsMeanOwed(Do(s, ops[0], size), Record(l, s, ops[0], size), ops[1..], size);
    }
  }

  // ------------------------------------------------------------------ runs of the loop

  /** The session and ledger after a sequence of turns, or None when one was not possible. */
  function Run(policy: set<Family>, turns: seq<Turn>, size: Frame -> nat): Option<(Session, Ledger)>
    decreases |turns|
  {
    if turns == [] then Some((NewSession(policy), BLANK))
    else
      var n := |turns| - 1;
      var before := Run(policy, turns[..n], size);
      if before.Some? && Possible(before.value.0, turns[n], size)
      then Some(RunOps(before.value.0, before.value.1, OpsOf(turns[n]), size)) else None
  }

  ghost predicate LoopInvariant(s: Session, l: Ledger) {
    LoopOk(s) && Honest(s, l) && MeansOwed(s, l)
  }

  lemma TurnKeepsInvariant(s: Session, l: Ledger, t: Turn, size: Frame -> nat)
    requires LoopInvariant(s, l) && Possible(s, t, size)
    ensures var (s', l') := RunOps(s, l, OpsOf(t), size); LoopInvariant(s', l')
  {
    hide MeansOwed, Honest, NoItems, ValidSession, Possible, OpsOf, RunOps, ResetsAreSafe;
    TurnIsSafe(s, t, size);
    TurnKeepsLoopOk(s, l, t, size);
    OpsMeanOwed(s, l, OpsOf(t), size);
  }

  lemma StartInvariant(policy: set<Family>)
    ensures LoopInvariant(NewSession(policy), BLANK)
  {
    NewSessionHonest(policy);
    hide Honest;
  }

  lemma {:induction false} RunInvariant(policy: set<Family>, turns: seq<Turn>, size: Frame -> nat)
    requires Run(policy, turns, size).Some?
    ensures var (s, l) := Run(policy, turns, size).value; LoopInvariant(s, l)
    decreases |turns|
  {
    hide LoopInvariant, Possible, RunOps;
    if turns == [] {
      StartInvariant(policy);
    } else {
      var n := |turns| - 1;
      RunInvariant(policy, turns[..n], size);
      var (s, l) := Run(policy, turns[..n], size).value;
      TurnKeepsInvariant(s, l, turns[n], size);
    }
  }

  /** In every run, each push of the next turn writes its snapshot slot where that is exact: no
      item of its family is pending, or it is a numbered fleet snapshot, which retires them. */
  lemma EveryResetIsSafe(policy: set<Family>, turns: seq<Turn>, next: Turn, size: Frame -> nat)
    requires Run(policy, turns, size).Some? && Possible(Run(policy, turns, size).value.0, next, size)
    ensures ResetsAreSafe(Run(policy, turns, size).value.0, OpsOf(next), size)
  {
    hide Run, Possible, OpsOf, ResetsAreSafe, Honest, MeansOwed;
    RunInvariant(policy, turns, size);
    TurnIsSafe(Run(policy, turns, size).value.0, next, size);
  }

  /** Coalescing preserves meaning, in every run: when no frame was lost since the last report,
      the table the next report hands over changes any consumer's view exactly as the keyed
      frames accepted since then, and not withdrawn, would one by one. */
  lemma CoalescingPreservesMeaning(policy: set<Family>, turns: seq<Turn>, view: map<StateKey, Frame>, size: Frame -> nat)
    requires Run(policy, turns, size).Some?
    ensures var (s, l) := Run(policy, turns, size).value;
            l.lostState == multiset{} && l.lostOrdered == multiset{} ==>
              && ApplyTable(view, s.state) == ApplyKeyed(view, l.owed)
              && (match Drain(s).1 case Some(report) => report.state == s.state case None => s.state == [])
  {
    hide Run, LoopOk, ApplyTable, ApplyKeyed, KeyedConserved, OrderedConserved, Subsequence;
    RunInvariant(policy, turns, size);
  }

  // ------------------------------------------------------------------ what a floor discards

  /** Deltas that arrive after a newer batch vanish without a trace: nothing changes, so no
      later report can say that a resync is needed. */
  lemma LateDeltasVanish(s: Session, items: seq<Item>, header: Json, size: Frame -> nat)
    requires s.ready && Fleet in s.subscriptions && items != []
    ensures Accepted(s, Fleet, Items(Deltas, items, header)) == []
       <==> forall x <- items :: x.seqNo.Some? && x.seqNo.value <= s.fleetFloor
    ensures Accepted(s, Fleet, Items(Deltas, items, header)) == []
        ==> PushFrame(s, Fleet, Items(Deltas, items, header), size) == s
  {
    var kept := KeepNewer(items, s.fleetFloor);
    if exists x :: x in items && (x.seqNo.None? || x.seqNo.value > s.fleetFloor) {
      var x :| x in items && (x.seqNo.None? || x.seqNo.value > s.fleetFloor);
      assert x in kept;
    }
  }

  /** The same of an event at or below the floor: it is discarded exactly then, and nothing changes. */
  lemma LateEventsVanish(s: Session, id: Option<nat>, body: Json, size: Frame -> nat)
    requires s.ready && Events in s.subscriptions
    ensures var s' := PushFrame(s, Events, Event(id, body), size);
            && (s'.ordered == s.ordered && s'.droppedOrdered == s.droppedOrdered <==> id.Some? && id.value <= s.eventFloor)
            && (id.Some? && id.value <= s.eventFloor ==> s' == s)
  {
    var frame := Event(id, body);
    var s1 := Normalize(s, Events, frame).0;
    if id.None? || id.value > s.eventFloor {
      assert PushFrame(s, Events, frame, size) == PushOrdered(s1, Events, frame, size);
      OrderedPushShows(s1, Events, frame, size);
    }
  }

  /** An ordered push is never without a trace. */
  lemma OrderedPushShows(s: Session, family: Family, frame: Frame, size: Frame -> nat)
    ensures var s' := PushOrdered(s, family, frame, size); s'.ordered != s.ordered || s'.droppedOrdered > s.droppedOrdered
  {
    if size(frame) <= MAX_PENDING_BYTES {
      var state, ordered := PushOrderedIs(s, family, frame, size);
      hide PushOrdered;
      SuffixShorter(ordered, s.ordered);
      hide IsSuffix;
    }
  }

  const NEWER := Items(Deltas, [Item(1, Some(7), "")], "")
  const OLDER := Items(Deltas, [Item(2, Some(6), "")], "")
  const SHOWN := Snapshot(Some(5), "")

  function Watching(state: seq<Pending>, floor: nat): Session {
    Session({Fleet}, true, {Fleet}, state, [], floor, 0, 0, 0, 0)
  }

  function Entry(slot: nat, frame: Frame, size: Frame -> nat): Pending {
    Pending(StateKey(Fleet, slot), frame, size(frame))
  }

  lemma PushesShown(size: Frame -> nat)
    requires size(SHOWN) <= 1000
    ensures PushFrame(Watching([], 0), Fleet, SHOWN, size) == Watching([Entry(0, SHOWN, size)], 5)
  {
    var p := Keyed(StateKey(Fleet, 0), SHOWN);
    assert KeyedPushes(Fleet, SHOWN) == [p] && [p][1..] == [];
    assert PushFrame(Watching([], 0), Fleet, SHOWN, size) == PushKeyed(Watching([], 5), [p], size)
      == PushState(Watching([], 5), p.key, SHOWN, size);
  }

  lemma PushesNewer(size: Frame -> nat)
    requires size(SHOWN) <= 1000 && size(NEWER) <= 1000
    ensures PushFrame(Watching([Entry(0, SHOWN, size)], 5), Fleet, NEWER, size)
         == Watching([Entry(0, SHOWN, size), Entry(2, NEWER, size)], 7)
  {
    var item := Item(1, Some(7), "");
    var p := Keyed(StateKey(Fleet, 2), NEWER);
    var t := [Entry(0, SHOWN, size)];
    assert [item][1..] == [] && KeepNewer([item], 5) == [item] && NewestOf(SeqNos([item]), 5) == 7 by {
      assert SeqNos([item]) == [Some(7)] && [Some(7)][1..] == [];
    }
    assert KeyedPushes(Fleet, NEWER) == [p] && [p][1..] == [];
    assert PushFrame(Watching(t, 5), Fleet, NEWER, size) == PushKeyed(Watching(t, 7), [p], size) == PushState(Watching(t, 7), p.key, NEWER, size);
    assert t[1..] == [] && Without(t, p.key) == t && Insert(t, Entry(2, NEWER, size)) == t + [Entry(2, NEWER, size)];
    assert StateBytes(t) == size(SHOWN);
    assert RoomForState(t, [], size(NEWER)) == (t, []);
  }

  lemma RunSnoc(policy: set<Family>, turns: seq<Turn>, t: Turn, size: Frame -> nat)
    requires Run(policy, turns, size).Some? && Possible(Run(policy, turns, size).value.0, t, size)
    ensures var (s, l) := Run(policy, turns, size).value;
            Run(policy, turns + [t], size) == Some(RunOps(s, l, OpsOf(t), size))
  {
    assert (turns + [t])[..|turns|] == turns;
    hide RunOps, OpsOf;
  }

  lemma RunTwo(s: Session, l: Ledger, a: Op, b: Op, size: Frame -> nat)
    ensures RunOps(s, l, [a, b], size).0 == Do(Do(s, a, size), b, size)
  {
    assert [a, b] == [a] + [b] && [b] == [b] + [];
    RunOne(s, l, a, [b], size);
    RunOne(Do(s, a, size), Record(l, s, a, size), b, [], size);
    hide Do, Record;
  }

  lemma RunSingle(s: Session, l: Ledger, a: Op, size: Frame -> nat)
    ensures RunOps(s, l, [a], size).0 == Do(s, a, size)
  {
    assert [a] == [a] + [];
    RunOne(s, l, a, [], size);
    hide Do, Record;
  }

  lemma ChoosesFleet(size: Frame -> nat)
    ensures Do(NewSession({Fleet}).(ready := true), Resubscribe([Named(Fleet)]), size) == Watching([], 0)
    ensures Possible(NewSession({Fleet}).(ready := true), Choose([Named(Fleet)], [Arrival(Fleet, SHOWN)]), size)
  {
    var requested := [Named(Fleet)];
    assert requested[1..] == [] && Parse({Fleet}, requested) == Subscribed({Fleet} + {}) && {Fleet} + {} == {Fleet};
    assert {Fleet} - {} == {Fleet};
    assert [Arrival(Fleet, SHOWN)][0].family == Fleet;
  }

  lemma OlderVanishes(s: Session, size: Frame -> nat)
    requires s.ready && Fleet in s.subscriptions && s.fleetFloor == 7
    ensures PushFrame(s, Fleet, OLDER, size) == s
  {
    LateDeltasVanish(s, [Item(2, Some(6), "")], "", size);
    hide PushFrame;
  }

  lemma StartsWatching(size: Frame -> nat) returns (turns: seq<Turn>)
    requires size(SHOWN) <= 1000
    ensures Run({Fleet}, turns, size).Some? && Run({Fleet}, turns, size).value.0 == Watching([Entry(0, SHOWN, size)], 5)
  {
    var start := NewSession({Fleet});
    var chosen := Choose([Named(Fleet)], [Arrival(Fleet, SHOWN)]);
    assert Run({Fleet}, [], size) == Some((start, BLANK));
    ChoosesFleet(size);
    PushesShown(size);
    assert OpsOf(chosen) == [Resubscribe([Named(Fleet)]), Push(Fleet, SHOWN)];
    hide RunOps, PushFrame, Record, Run, Subscribe, SnapshotsOf;
    RunSnoc({Fleet}, [], Hello, size);
    turns := [] + [Hello];
    RunSingle(start, BLANK, Greet, size);
    RunTwo(start.(ready := true), Run({Fleet}, turns, size).value.1, Resubscribe([Named(Fleet)]), Push(Fleet, SHOWN), size);
    RunSnoc({Fleet}, turns, chosen, size);
    turns := turns + [chosen];
  }

  lemma BusTurn(turns: seq<Turn>, frame: Frame, s: Session, size: Frame -> nat) returns (more: seq<Turn>)
    requires Run({Fleet}, turns, size).Some? && Run({Fleet}, turns, size).value.0 == s
    requires IsBusFrame(Arrival(Fleet, frame))
    ensures more == turns + [Bus(Arrival(Fleet, frame))]
    ensures Run({Fleet}, more, size).Some? && Run({Fleet}, more, size).value.0 == PushFrame(s, Fleet, frame, size)
  {
    hide RunOps, PushFrame, Run;
    var a := Arrival(Fleet, frame);
    RunSnoc({Fleet}, turns, Bus(a), size);
    RunSingle(s, Run({Fleet}, turns, size).value.1, Push(Fleet, frame), size);
    more := turns + [Bus(a)];
  }

  /** Two fleet batches arrive in the wrong order: the older one's item is in no report, although
      nothing was dropped and the report does not ask for a resync. */
  lemma LateBatchVanishes(size: Frame -> nat) returns (turns: seq<Turn>)
    requires size(SHOWN) <= 1000 && size(NEWER) <= 1000
    ensures Run({Fleet}, turns, size).Some? && Bus(Arrival(Fleet, OLDER)) in turns
    ensures var (s, l) := Run({Fleet}, turns, size).value;
            && Drain(s).1.Some? && !Drain(s).1.value.resyncRequired
            && Drain(s).1.value.state == [Entry(0, SHOWN, size), Entry(2, NEWER, size)]
  {
    hide Run, PushFrame;
    turns := StartsWatching(size);
    PushesNewer(size);
    OlderVanishes(Watching([Entry(0, SHOWN, size), Entry(2, NEWER, size)], 7), size);
    turns := BusTurn(turns, NEWER, Watching([Entry(0, SHOWN, size)], 5), size);
    turns := BusTurn(turns, OLDER, Watching([Entry(0, SHOWN, size), Entry(2, NEWER, size)], 7), size);
  }
}
