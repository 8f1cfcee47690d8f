/**
 What every run of an application session guarantees (gateway/src/gemba.rs and the session loop
 of gateway/src/http.rs): each accepted frame is accounted for, a report asks for a resync
 exactly when frames were lost or skipped, and a drained batch means what its frames mean.
 */
module GembaRuns {
  import opened Basics
  import opened Gemba
  import opened GembaMeaning

  datatype Op = Greet | Push(family: Family, frame: Frame) | Resubscribe(requested: seq<Requested>) | Lag(skipped: nat) | Tick

  /** A subscription before the hello is refused. */
  function Do(s: Session, op: Op, size: Frame -> nat): Session {
    match op
    case Greet => s.(ready := true)
    case Push(family, frame) => PushFrame(s, family, frame, size)
    case Resubscribe(requested) => if s.ready then Subscribe(s, requested).0 else s
    case Lag(skipped) => MarkResyncRequired(s, skipped)
    case Tick => Drain(s).0
  }

  // ------------------------------------------------------------------ the ledger

  /** What became of the frames a session accepted, that is of those past the sequence floors.
      Keyed entries: `keyed` is all of them; `handed` went out in a report; `superseded` were
      replaced under their key, retired by a fleet snapshot, unsubscribed or cleared by a lag;
      `goneState` were lost before the last report and `lostState` since.  Ordered frames:
      `accepted`, `delivered`, `withdrawn`, `goneOrdered` and `lostOrdered` in the same way.
      `skipped`: how many bus events were skipped since the last report.  `owed`: the keyed frames
      accepted since the last report and not withdrawn. */
  datatype Ledger = Ledger(
    keyed: multiset<Pending>, handed: multiset<Pending>, superseded: multiset<Pending>,
    goneState: multiset<Pending>, lostState: multiset<Pending>,
    accepted: seq<OrderedFrame>, delivered: seq<OrderedFrame>, withdrawn: multiset<OrderedFrame>,
    goneOrdered: multiset<OrderedFrame>, lostOrdered: multiset<OrderedFrame>,
    skipped: nat, owed: seq<Keyed>)

  const BLANK := Ledger(multiset{}, multiset{}, multiset{}, multiset{}, multiset{}, [], [], multiset{}, multiset{}, multiset{}, 0, [])

  /** The pending entry a new one of that key takes the place of; one too large for the whole
      budget takes no place. */
  function Replaced(s: Session, p: Pending): multiset<Pending> {
    if p.bytes > MAX_PENDING_BYTES then multiset{} else multiset(s.state) - multiset(Without(s.state, p.key))
  }

  /** The entries pending before or arriving, not replaced, and not pending after. */
  function KeyedRecord(l: Ledger, s: Session, p: Pending, s': Session): Ledger {
    l.(keyed := l.keyed + multiset{p}, superseded := l.superseded + Replaced(s, p),
       lostState := l.lostState + (multiset(s.state) + multiset{p} - Replaced(s, p) - multiset(s'.state)),
       lostOrdered := l.lostOrdered + (multiset(s.ordered) - multiset(s'.ordered)))
  }

  function OrderedRecord(l: Ledger, s: Session, p: OrderedFrame, s': Session): Ledger {
    l.(accepted := l.accepted + [p],
       lostState := l.lostState + (multiset(s.state) - multiset(s'.state)),
       lostOrdered := l.lostOrdered + (multiset(s.ordered) + multiset{p} - multiset(s'.ordered)))
  }

  function PushesRecord(l: Ledger, s: Session, pushes: seq<Keyed>, size: Frame -> nat): Ledger
    decreases |pushes|
  {
    if pushes == [] then l
    else
      var k := pushes[0];
      var s1 := PushState(s, k.key, k.frame, size);
      PushesRecord(KeyedRecord(l, s, Pending(k.key, k.frame, size(k.frame)), s1), s1, pushes[1..], size)
  }

  predicate Retires(family: Family, frame: Frame) {
    family == Fleet && frame.Snapshot? && frame.seqNo.Some?
  }

  /** What a numbered fleet snapshot retires. */
  function Retired(s: Session, family: Family, frame: Frame): multiset<Pending> {
    if Retires(family, frame) then multiset(s.state) - multiset(WithoutFamily(s.state, Fleet)) else multiset{}
  }

  function PushRecord(l: Ledger, s: Session, family: Family, frame: Frame, size: Frame -> nat): Ledger {
    var (s1, normal) := Normalize(s, family, frame);
    if !s.ready || family !in s.subscriptions || normal.None? then l
    else if IsOrdered(family) then
      OrderedRecord(l, s1, OrderedFrame(family, normal.value, size(normal.value)), PushOrdered(s1, family, normal.value, size))
    else
      PushesRecord(l.(superseded := l.superseded + Retired(s, family, frame), owed := l.owed + Accepted(s, family, frame)),
                   s1, KeyedPushes(family, normal.value), size)
  }

  function KeepOwed(owed: seq<Keyed>, families: set<Family>): seq<Keyed> {
    if owed == [] then []
    else
      var rest := KeepOwed(owed[1..], families);
      if owed[0].key.family in families then [owed[0]] + rest else rest
  }

  function Record(l: Ledger, s: Session, op: Op, size: Frame -> nat): Ledger {
    match op
    case Greet => l
    case Push(family, frame) => PushRecord(l, s, family, frame, size)
    case Resubscribe(_) =>
      var families := Do(s, op, size).subscriptions;
      l.(superseded := l.superseded + (multiset(s.state) - multiset(KeepState(s.state, families))),
         withdrawn := l.withdrawn + (multiset(s.ordered) - multiset(KeepOrdered(s.ordered, families))),
         owed := KeepOwed(l.owed, families))
    case Lag(n) =>
      l.(superseded := l.superseded + multiset(s.state), withdrawn := l.withdrawn + multiset(s.ordered),
         skipped := l.skipped + (if n == 0 then 1 else n), owed := [])
    case Tick =>
      match Drain(s).1
      case None => l.(owed := [])
      case Some(report) =>
        l.(handed := l.handed + multiset(report.state), delivered := l.delivered + report.ordered,
           goneState := l.goneState + l.lostState, goneOrdered := l.goneOrdered + l.lostOrdered,
           lostState := multiset{}, lostOrdered := multiset{}, skipped := 0, owed := [])
  }

  /** Every keyed entry is handed over, pending, superseded, or lost. */
  ghost predicate KeyedConserved(s: Session, l: Ledger) {
    l.keyed == l.handed + multiset(s.state) + l.superseded + l.goneState + l.lostState
  }

  /** Every ordered frame is delivered, pending, withdrawn, or lost. */
  ghost predicate OrderedConserved(s: Session, l: Ledger) {
    multiset(l.accepted) == multiset(l.delivered) + multiset(s.ordered) + l.withdrawn + l.goneOrdered + l.lostOrdered
  }

  /** The counters the next report will show are the numbers of frames lost since the last one. */
  ghost predicate Counted(s: Session, l: Ledger) {
    s.droppedState == |l.lostState| && s.droppedOrdered == |l.lostOrdered| && s.droppedUpstream == l.skipped
  }

  /** Nothing vanishes, ordered frames go out in arrival order, and the counters tell the truth. */
  ghost predicate Honest(s: Session, l: Ledger) {
    && KeyedConserved(s, l) && OrderedConserved(s, l) && Counted(s, l)
    && Subsequence(l.delivered + s.ordered, l.accepted)
  }

  /** `a` is obtained from `b` by leaving elements out. */
  ghost predicate Subsequence(a: seq<OrderedFrame>, b: seq<OrderedFrame>)
    decreases |b|
  {
    a == [] || (b != [] &&
      ((a[|a| - 1] == b[|b| - 1] && Subsequence(a[..|a| - 1], b[..|b| - 1])) || Subsequence(a, b[..|b| - 1])))
  }

  lemma SubsequenceSnoc(a: seq<OrderedFrame>, b: seq<OrderedFrame>, x: OrderedFrame)
    requires Subsequence(a, b)
    ensures Subsequence(a, b + [x]) && Subsequence(a + [x], b + [x])
  {
    assert (b + [x])[..|b|] == b && (a + [x])[..|a|] == a;
  }

  lemma {:induction false} SubsequenceOmit(d: seq<OrderedFrame>, x: OrderedFrame, q: seq<OrderedFrame>, b: seq<OrderedFrame>)
    requires Subsequence(d + [x] + q, b)
    ensures Subsequence(d + q, b)
    decreases |b|
  {
    var a := d + [x] + q;
    var b' := b[..|b| - 1];
    if a[|a| - 1] == b[|b| - 1] && Subsequence(a[..|a| - 1], b') {
      if q == [] {
        assert a[..|a| - 1] == d && d + q == d;
      } else {
        var q' := q[..|q| - 1];
        assert a[..|a| - 1] == d + [x] + q';
        SubsequenceOmit(d, x, q', b');
        assert (d + q)[..|d + q| - 1] == d + q';
      }
    } else {
      SubsequenceOmit(d, x, q, b');
    }
  }

  lemma {:induction false} SubsequenceSuffix(d: seq<OrderedFrame>, q: seq<OrderedFrame>, part: seq<OrderedFrame>, b: seq<OrderedFrame>)
    requires Subsequence(d + q, b) && IsSuffix(part, q)
    ensures Subsequence(d + part, b)
    decreases |q|
  {
    hide Subsequence;
    if part != q {
      assert d + q == d + [q[0]] + q[1..];
      SubsequenceOmit(d, q[0], q[1..], b);
      SubsequenceSuffix(d, q[1..], part, b);
    }
  }

  lemma {:induction false} SubsequenceKeep(d: seq<OrderedFrame>, q: seq<OrderedFrame>, families: set<Family>, b: seq<OrderedFrame>)
    requires Subsequence(d + q, b)
    ensures Subsequence(d + KeepOrdered(q, families), b)
    decreases |q|
  {
    hide Subsequence;
    if q != [] {
      var x, rest := q[0], q[1..];
      var kept := KeepOrdered(rest, families);
      assert KeepOrdered(q, families) == if x.family in families then [x] + kept else kept;
      hide KeepOrdered;
      assert q == [x] + rest;
      if x.family in families {
        assert d + q == (d + [x]) + rest;
        SubsequenceKeep(d + [x], rest, families, b);
        assert d + ([x] + kept) == (d + [x]) + kept;
      } else {
        assert d + q == d + [x] + rest;
        SubsequenceOmit(d, x, rest, b);
        SubsequenceKeep(d, rest, families, b);
      }
    }
  }

  // ------------------------------------------------------------------ one push

  lemma SuffixBag<T>(part: seq<T>, whole: seq<T>)
    requires IsSuffix(part, whole)
    ensures |part| <= |whole| && multiset(part) <= multiset(whole)
    ensures |multiset(whole) - multiset(part)| == |whole| - |part|
  {
    assert whole == whole[..|whole| - |part|] + part;
    assert multiset(whole) - multiset(part) == multiset(whole[..|whole| - |part|]);
  }

  lemma {:induction false} InsertBag(t: seq<Pending>, p: Pending)
    ensures multiset(Insert(t, p)) == multiset(t) + multiset{p}
  {
    if t != [] {
      assert t == [t[0]] + t[1..];
      InsertBag(t[1..], p);
    }
  }

  lemma {:induction false} RetainBag(t: seq<Pending>, keep: StateKey -> bool)
    ensures multiset(Retain(t, keep)) <= multiset(t)
  {
    if t != [] {
      assert t == [t[0]] + t[1..];
      RetainBag(t[1..], keep);
    }
  }

  lemma {:induction false} KeepBag(q: seq<OrderedFrame>, families: set<Family>)
    ensures multiset(KeepOrdered(q, families)) <= multiset(q)
  {
    if q != [] {
      assert q == [q[0]] + q[1..];
      KeepBag(q[1..], families);
    }
  }

  lemma BagSwap<T>(all: multiset<T>, kept: multiset<T>, part: multiset<T>, x: T)
    requires part <= kept <= all
    ensures all - kept <= all
    ensures part + multiset{x} <= all + multiset{x} - (all - kept)
    ensures all + multiset{x} - (all - kept) - (part + multiset{x}) == kept - part
  {
  }

  lemma BagSnoc<T>(all: multiset<T>, part: multiset<T>, x: T)
    requires part <= all
    ensures all + multiset{x} - (part + multiset{x}) == all - part
  {
  }

  lemma BagAlone<T>(all: multiset<T>, x: T)
    ensures all + multiset{x} - multiset{} - all == multiset{x} && all + multiset{x} - all == multiset{x} && all - all == multiset{}
  {
  }

  lemma SuffixShorter<T>(part: seq<T>, whole: seq<T>)
    requires IsSuffix(part, whole)
    ensures |part| <= |whole|
  {
  }

  lemma PushStateIs(s: Session, key: StateKey, frame: Frame, size: Frame -> nat) returns (state: seq<Pending>, ordered: seq<OrderedFrame>)
    requires size(frame) <= MAX_PENDING_BYTES
    ensures var s' := PushState(s, key, frame, size);
            var kept := Without(s.state, key);
            && IsSuffix(state, kept) && IsSuffix(ordered, s.ordered)
            && s' == s.(state := Insert(state, Pending(key, frame, size(frame))), ordered := ordered,
                        droppedState := s.droppedState + |kept| - |state|, droppedOrdered := s.droppedOrdered + |s.ordered| - |ordered|)
  {
    hide RoomForState, StateFits, Insert, Without, IsSuffix;
    var kept := Without(s.state, key);
    RoomForStateIs(kept, s.ordered, size(frame));
    state, ordered := RoomForState(kept, s.ordered, size(frame)).0, RoomForState(kept, s.ordered, size(frame)).1;
    SuffixShorter(state, kept);
    SuffixShorter(ordered, s.ordered);
  }

  lemma PushOrderedIs(s: Session, family: Family, frame: Frame, size: Frame -> nat) returns (state: seq<Pending>, ordered: seq<OrderedFrame>)
    requires size(frame) <= MAX_PENDING_BYTES
    ensures var s' := PushOrdered(s, family, frame, size);
            && IsSuffix(state, s.state) && IsSuffix(ordered, s.ordered)
            && s' == s.(state := state, ordered := ordered + [OrderedFrame(family, frame, size(frame))],
                        droppedState := s.droppedState + |s.state| - |state|, droppedOrdered := s.droppedOrdered + |s.ordered| - |ordered|)
  {
    hide RoomForOrdered, OrderedFits, IsSuffix;
    RoomForOrderedIs(s.state, s.ordered, size(frame));
    state, ordered := RoomForOrdered(s.state, s.ordered, size(frame)).0, RoomForOrdered(s.state, s.ordered, size(frame)).1;
    SuffixShorter(state, s.state);
    SuffixShorter(ordered, s.ordered);
  }

  /** Every frame a keyed push loses is counted, and no other: what was pending or arriving, less
      what is replaced, is still pending or in the drop counts. */
  lemma StateDropsCounted(s: Session, key: StateKey, frame: Frame, size: Frame -> nat)
    ensures var s' := PushState(s, key, frame, size);
            var p := Pending(key, frame, size(frame));
            && Replaced(s, p) <= multiset(s.state)
            && multiset(s'.state) <= multiset(s.state) + multiset{p} - Replaced(s, p)
            && s'.droppedState - s.droppedState == |multiset(s.state) + multiset{p} - Replaced(s, p) - multiset(s'.state)|
            && IsSuffix(s'.ordered, s.ordered) && multiset(s'.ordered) <= multiset(s.ordered)
            && s'.droppedOrdered - s.droppedOrdered == |multiset(s.ordered) - multiset(s'.ordered)|
            && s'.droppedUpstream == s.droppedUpstream
  {
    var p := Pending(key, frame, size(frame));
    if p.bytes > MAX_PENDING_BYTES {
      BagAlone(multiset(s.state), p);
      SuffixBag(s.ordered, s.ordered);
    } else {
      var kept := Without(s.state, key);
      var state, ordered := PushStateIs(s, key, frame, size);
      hide PushState, Insert, Retain, Without;
      SuffixBag(state, kept);
      SuffixBag(ordered, s.ordered);
      hide IsSuffix;
      InsertBag(state, p);
      WithoutBag(s.state, key);
      BagSwap(multiset(s.state), multiset(kept), multiset(state), p);
    }
  }

  lemma WithoutBag(t: seq<Pending>, key: StateKey)
    ensures multiset(Without(t, key)) <= multiset(t)
  {
    RetainBag(t, (x: StateKey) => x != key);
  }

  lemma OrderedDropsCounted(s: Session, family: Family, frame: Frame, size: Frame -> nat)
    ensures var s' := PushOrdered(s, family, frame, size);
            var p := OrderedFrame(family, frame, size(frame));
            && multiset(s'.state) <= multiset(s.state)
            && s'.droppedState - s.droppedState == |multiset(s.state) - multiset(s'.state)|
            && (if p.bytes <= MAX_PENDING_BYTES then IsSuffix(s'.ordered, s.ordered + [p]) else s'.ordered == s.ordered)
            && multiset(s'.ordered) <= multiset(s.ordered) + multiset{p}
            && s'.droppedOrdered - s.droppedOrdered == |multiset(s.ordered) + multiset{p} - multiset(s'.ordered)|
            && s'.droppedUpstream == s.droppedUpstream
  {
    var p := OrderedFrame(family, frame, size(frame));
    if p.bytes > MAX_PENDING_BYTES {
      BagAlone(multiset(s.ordered), p);
      BagAlone(multiset(s.state), Pending(StateKey(family, 0), frame, 0));
    } else {
      var state, ordered := PushOrderedIs(s, family, frame, size);
      hide PushOrdered;
      SuffixBag(state, s.state);
      SuffixBag(ordered, s.ordered);
      SuffixSnoc(ordered, s.ordered, p);
      hide IsSuffix;
      BagSnoc(multiset(s.ordered), multiset(ordered), p);
      assert multiset(ordered + [p]) == multiset(ordered) + multiset{p};
    }
  }

  // ------------------------------------------------------------------ every run is honest

  lemma BagMoves<T>(total: multiset<T>, rest: multiset<T>, before: multiset<T>, x: T, out: multiset<T>, after: multiset<T>)
    requires total == rest + before && out <= before && after <= before + multiset{x} - out
    ensures total + multiset{x} == rest + out + after + (before + multiset{x} - out - after)
  {
  }

  lemma BagShrinks<T>(total: multiset<T>, rest: multiset<T>, before: multiset<T>, after: multiset<T>)
    requires total == rest + before && after <= before
    ensures total == rest + after + (before - after)
  {
  }

  lemma OrderedShrinks(s: Session, l: Ledger, s': Session, l': Ledger)
    requires OrderedConserved(s, l) && multiset(s'.ordered) <= multiset(s.ordered)
    requires l' == l.(keyed := l'.keyed, superseded := l'.superseded, lostState := l'.lostState, owed := l'.owed,
                      lostOrdered := l.lostOrdered + (multiset(s.ordered) - multiset(s'.ordered)))
    ensures OrderedConserved(s', l')
  {
    BagShrinks(multiset(l.accepted), multiset(l.delivered) + l.withdrawn + l.goneOrdered + l.lostOrdered, multiset(s.ordered), multiset(s'.ordered));
  }

  lemma KeyedMoves(s: Session, l: Ledger, p: Pending, s': Session)
    requires KeyedConserved(s, l) && Replaced(s, p) <= multiset(s.state)
    requires multiset(s'.state) <= multiset(s.state) + multiset{p} - Replaced(s, p)
    ensures KeyedConserved(s', KeyedRecord(l, s, p, s'))
  {
    hide Replaced;
    BagMoves(l.keyed, l.handed + l.superseded + l.goneState + l.lostState, multiset(s.state), p, Replaced(s, p), multiset(s'.state));
  }


  lemma KeyedPushHonest(s: Session, l: Ledger, key: StateKey, frame: Frame, size: Frame -> nat)
    requires Honest(s, l)
    ensures var s' := PushState(s, key, frame, size); Honest(s', KeyedRecord(l, s, Pending(key, frame, size(frame)), s'))
  {
    var s' := PushState(s, key, frame, size);
    var p := Pending(key, frame, size(frame));
    StateDropsCounted(s, key, frame, size);
    hide PushState, Replaced, Subsequence, KeyedConserved, OrderedConserved;
    SubsequenceSuffix(l.delivered, s.ordered, s'.ordered, l.accepted);
    hide IsSuffix;
    KeyedMoves(s, l, p, s');
    OrderedShrinks(s, l, s', KeyedRecord(l, s, p, s'));
  }

  lemma {:induction false} PushesHonest(s: Session, l: Ledger, pushes: seq<Keyed>, size: Frame -> nat)
    requires Honest(s, l)
    ensures Honest(PushKeyed(s, pushes, size), PushesRecord(l, s, pushes, size))
    decreases |pushes|
  {
    hide Honest, PushState, KeyedRecord;
    if pushes != [] {
      var k := pushes[0];
      var s1 := PushState(s, k.key, k.frame, size);
      KeyedPushHonest(s, l, k.key, k.frame, size);
      PushesHonest(s1, KeyedRecord(l, s, Pending(k.key, k.frame, size(k.frame)), s1), pushes[1..], size);
    }
  }

  lemma OrderedMoves(s: Session, l: Ledger, p: OrderedFrame, s': Session)
    requires OrderedConserved(s, l) && multiset(s'.ordered) <= multiset(s.ordered) + multiset{p}
    ensures OrderedConserved(s', OrderedRecord(l, s, p, s'))
  {
    assert multiset(l.accepted + [p]) == multiset(l.accepted) + multiset{p};
    BagMoves(multiset(l.accepted), multiset(l.delivered) + l.withdrawn + l.goneOrdered + l.lostOrdered, multiset(s.ordered), p, multiset{}, multiset(s'.ordered));
  }

  lemma KeyedShrinks(s: Session, l: Ledger, p: OrderedFrame, s': Session)
    requires KeyedConserved(s, l) && multiset(s'.state) <= multiset(s.state)
    ensures KeyedConserved(s', OrderedRecord(l, s, p, s'))
  {
    BagShrinks(l.keyed, l.handed + l.superseded + l.goneState + l.lostState, multiset(s.state), multiset(s'.state));
  }

  lemma OrderedInOrder(s: Session, l: Ledger, p: OrderedFrame, s': Session)
    requires Subsequence(l.delivered + s.ordered, l.accepted)
    requires IsSuffix(s'.ordered, s.ordered + [p]) || s'.ordered == s.ordered
    ensures Subsequence(l.delivered + s'.ordered, l.accepted + [p])
  {
    SubsequenceSnoc(l.delivered + s.ordered, l.accepted, p);
    hide Subsequence;
    assert l.delivered + s.ordered + [p] == l.delivered + (s.ordered + [p]);
    hide IsSuffix;
    if s'.ordered != s.ordered { SubsequenceSuffix(l.delivered, s.ordered + [p], s'.ordered, l.accepted + [p]); }
  }

  lemma OrderedPushHonest(s: Session, l: Ledger, family: Family, frame: Frame, size: Frame -> nat)
    requires Honest(s, l)
    ensures var s' := PushOrdered(s, family, frame, size);
            Honest(s', OrderedRecord(l, s, OrderedFrame(family, frame, size(frame)), s'))
  {
    hide PushOrdered, Subsequence, KeyedConserved, OrderedConserved, IsSuffix;
    var s' := PushOrdered(s, family, frame, size);
    var p := OrderedFrame(family, frame, size(frame));
    OrderedDropsCounted(s, family, frame, size);
    OrderedInOrder(s, l, p, s');
    OrderedMoves(s, l, p, s');
    KeyedShrinks(s, l, p, s');
  }

  /** Entries that leave the table on purpose. */
  lemma SupersedeHonest(s: Session, l: Ledger, s': Session, owed: seq<Keyed>)
    requires Honest(s, l) && multiset(s'.state) <= multiset(s.state)
    requires s'.ordered == s.ordered && s'.droppedState == s.droppedState && s'.droppedOrdered == s.droppedOrdered
    requires s'.droppedUpstream == s.droppedUpstream
    ensures Honest(s', l.(superseded := l.superseded + (multiset(s.state) - multiset(s'.state)), owed := owed))
  {
    hide Subsequence;
    BagShrinks(l.keyed, l.handed + l.superseded + l.goneState + l.lostState, multiset(s.state), multiset(s'.state));
  }

  lemma WithoutFamilyBag(t: seq<Pending>, family: Family)
    ensures multiset(WithoutFamily(t, family)) <= multiset(t)
  {
    RetainBag(t, (k: StateKey) => k.family != family);
  }

  lemma NormalizeRetires(s: Session, family: Family, frame: Frame)
    ensures var s1 := Normalize(s, family, frame).0;
            && s1 == s.(state := s1.state, fleetFloor := s1.fleetFloor, eventFloor := s1.eventFloor)
            && s1.state == (if Retires(family, frame) then WithoutFamily(s.state, Fleet) else s.state)
            && (Retires(family, frame) ==> Normalize(s, family, frame).1.Some? && !IsOrdered(family))
  {
    hide WithoutFamily, KeepNewer, NewestOf, SeqNos;
  }

  lemma RetireHonest(s: Session, l: Ledger, family: Family, frame: Frame, owed: seq<Keyed>)
    requires Honest(s, l)
    ensures Honest(Normalize(s, family, frame).0, l.(superseded := l.superseded + Retired(s, family, frame), owed := owed))
  {
    hide Honest, Normalize, WithoutFamily;
    NormalizeRetires(s, family, frame);
    WithoutFamilyBag(s.state, Fleet);
    assert multiset(s.state) - multiset(s.state) == multiset{};
    SupersedeHonest(s, l, Normalize(s, family, frame).0, owed);
  }

  lemma PushHonest(s: Session, l: Ledger, family: Family, frame: Frame, size: Frame -> nat)
    requires Honest(s, l)
    ensures Honest(PushFrame(s, family, frame, size), PushRecord(l, s, family, frame, size))
  {
    hide PushOrdered, PushKeyed, KeyedPushes, Accepted, WithoutFamily, Normalize, PushesRecord, OrderedRecord, Honest;
    var (s1, normal) := Normalize(s, family, frame);
    NormalizeRetires(s, family, frame);
    if s.ready && family in s.subscriptions {
      if normal.Some? && !IsOrdered(family) {
        var owed := l.owed + Accepted(s, family, frame);
        RetireHonest(s, l, family, frame, owed);
        PushesHonest(s1, l.(superseded := l.superseded + Retired(s, family, frame), owed := owed), KeyedPushes(family, normal.value), size);
      } else {
        RetireHonest(s, l, family, frame, l.owed);
        assert l.superseded + multiset{} == l.superseded;
        if normal.Some? { OrderedPushHonest(s1, l, family, normal.value, size); }
      }
    }
  }

  lemma KeepStateBag(t: seq<Pending>, families: set<Family>)
    ensures multiset(KeepState(t, families)) <= multiset(t)
  {
    RetainBag(t, (k: StateKey) => k.family in families);
  }

  lemma KeepConserves(s: Session, l: Ledger, families: set<Family>, s': Session, l': Ledger)
    requires KeyedConserved(s, l) && OrderedConserved(s, l)
    requires s'.state == KeepState(s.state, families) && s'.ordered == KeepOrdered(s.ordered, families)
    requires l' == l.(superseded := l.superseded + (multiset(s.state) - multiset(s'.state)),
                      withdrawn := l.withdrawn + (multiset(s.ordered) - multiset(s'.ordered)), owed := l'.owed)
    ensures KeyedConserved(s', l') && OrderedConserved(s', l')
  {
    KeepStateBag(s.state, families);
    KeepBag(s.ordered, families);
    hide KeepState, KeepOrdered;
    BagShrinks(l.keyed, l.handed + l.superseded + l.goneState + l.lostState, multiset(s.state), multiset(s'.state));
    BagShrinks(multiset(l.accepted), multiset(l.delivered) + l.withdrawn + l.goneOrdered + l.lostOrdered, multiset(s.ordered), multiset(s'.ordered));
  }

  lemma ResubscribeHonest(s: Session, l: Ledger, requested: seq<Requested>, size: Frame -> nat)
    requires Honest(s, l) && ValidSession(s)
    ensures Honest(Do(s, Resubscribe(requested), size), Record(l, s, Resubscribe(requested), size))
  {
    hide Subsequence, KeepState, KeepOrdered, Do, KeyedConserved, OrderedConserved, ValidSession, KeepOwed;
    var s' := Do(s, Resubscribe(requested), size);
    var families := s'.subscriptions;
    ResubscribeIs(s, requested, size);
    SubsequenceKeep(l.delivered, s.ordered, families, l.accepted);
    KeepConserves(s, l, families, s', Record(l, s, Resubscribe(requested), size));
  }

  /** Refused or not, a subscription leaves exactly what the subscribed families have pending. */
  lemma ResubscribeIs(s: Session, requested: seq<Requested>, size: Frame -> nat)
    requires ValidSession(s)
    ensures var s' := Do(s, Resubscribe(requested), size);
            s' == s.(subscriptions := s'.subscriptions, state := KeepState(s.state, s'.subscriptions), ordered := KeepOrdered(s.ordered, s'.subscriptions))
  {
    RetainAll(s.state, (k: StateKey) => k.family in s.subscriptions);
    KeepAll(s.ordered, s.subscriptions);
    hide Parse, Retain;
  }

  lemma {:induction false} KeepAll(q: seq<OrderedFrame>, families: set<Family>)
    requires forall p <- q :: p.family in families
    ensures KeepOrdered(q, families) == q
  {
    if q != [] { KeepAll(q[1..], families); }
  }

  lemma LagConserves(s: Session, l: Ledger, s': Session, l': Ledger)
    requires KeyedConserved(s, l) && OrderedConserved(s, l) && s'.state == [] && s'.ordered == []
    requires l' == l.(superseded := l.superseded + multiset(s.state), withdrawn := l.withdrawn + multiset(s.ordered),
                      skipped := l'.skipped, owed := l'.owed)
    ensures KeyedConserved(s', l') && OrderedConserved(s', l')
  {
  }

  lemma LagHonest(s: Session, l: Ledger, skipped: nat, size: Frame -> nat)
    requires Honest(s, l)
    ensures Honest(Do(s, Lag(skipped), size), Record(l, s, Lag(skipped), size))
  {
    hide Subsequence, KeyedConserved, OrderedConserved;
    var s', l' := Do(s, Lag(skipped), size), Record(l, s, Lag(skipped), size);
    LagConserves(s, l, s', l');
    assert IsSuffix([], s.ordered);
    SubsequenceSuffix(l.delivered, s.ordered, [], l.accepted);
  }

  lemma DrainConserves(s: Session, l: Ledger, s': Session, l': Ledger)
    requires KeyedConserved(s, l) && OrderedConserved(s, l)
    requires s'.state == [] && s'.ordered == []
    requires l'.keyed == l.keyed && l'.superseded == l.superseded && l'.withdrawn == l.withdrawn && l'.accepted == l.accepted
    requires l'.handed == l.handed + multiset(s.state) && l'.delivered == l.delivered + s.ordered
    requires l'.goneState == l.goneState + l.lostState && l'.goneOrdered == l.goneOrdered + l.lostOrdered
    requires l'.lostState == multiset{} && l'.lostOrdered == multiset{}
    ensures KeyedConserved(s', l') && OrderedConserved(s', l')
  {
    assert multiset(l.delivered + s.ordered) == multiset(l.delivered) + multiset(s.ordered);
  }

  lemma TickHonest(s: Session, l: Ledger, size: Frame -> nat)
    requires Honest(s, l)
    ensures Honest(Do(s, Tick, size), Record(l, s, Tick, size))
  {
    var s', l' := Do(s, Tick, size), Record(l, s, Tick, size);
    if Drain(s).1.Some? {
      DrainConserves(s, l, s', l');
      hide Subsequence, KeyedConserved, OrderedConserved;
      assert l.delivered + s.ordered + [] == l.delivered + s.ordered;
    }
  }

  lemma GreetHonest(s: Session, l: Ledger, size: Frame -> nat)
    requires Honest(s, l) && ValidSession(s)
    ensures Honest(Do(s, Greet, size), l) && ValidSession(Do(s, Greet, size))
  {
    hide Subsequence;
  }

  lemma StepHonest(s: Session, l: Ledger, op: Op, size: Frame -> nat)
    requires Honest(s, l) && ValidSession(s)
    ensures Honest(Do(s, op, size), Record(l, s, op, size)) && ValidSession(Do(s, op, size))
  {
    hide Honest, PushFrame, PushRecord, Subscribe;
    match op {
      case Greet => GreetHonest(s, l, size);
      case Push(family, frame) => PushHonest(s, l, family, frame, size); PushFrameKeepsValid(s, family, frame, size);
      case Resubscribe(requested) => ResubscribeHonest(s, l, requested, size); SubscribeKeepsValid(s, requested);
      case Lag(skipped) => LagHonest(s, l, skipped, size);
      case Tick => TickHonest(s, l, size);
    }
  }

  function NewSession(policy: set<Family>): Session {
    Session(policy, false, {}, [], [], 0, 0, 0, 0, 0)
  }

  function RunOps(s: Session, l: Ledger, ops: seq<Op>, size: Frame -> nat): (Session, Ledger)
    decreases |ops|
  {
    if ops == [] then (s, l) else RunOps(Do(s, ops[0], size), Record(l, s, ops[0], size), ops[1..], size)
  }

  lemma {:induction false} RunsStayHonest(s: Session, l: Ledger, ops: seq<Op>, size: Frame -> nat)
    requires Honest(s, l) && ValidSession(s)
    ensures var (s', l') := RunOps(s, l, ops, size); Honest(s', l') && ValidSession(s')
    decreases |ops|
  {
    hide Honest, ValidSession, Do, Record;
    if ops != [] {
      StepHonest(s, l, ops[0], size);
      RunsStayHonest(Do(s, ops[0], size), Record(l, s, ops[0], size), ops[1..], size);
    }
  }

  lemma NewSessionHonest(policy: set<Family>)
    ensures Honest(NewSession(policy), BLANK) && ValidSession(NewSession(policy))
  {
    assert [] + NewSession(policy).ordered == [];
    var none: seq<OrderedFrame> := [];
    assert multiset(none) == multiset{};
    hide Subsequence;
  }

  /** Overflow honesty in every reachable session: no accepted frame vanishes, the next report's
      counts are the numbers of frames lost since the last one, and it asks for a resync exactly
      when some frame was lost or the bus skipped some; without a report nothing was. */
  lemma EveryRunIsHonest(policy: set<Family>, ops: seq<Op>, size: Frame -> nat)
    ensures var (s, l) := RunOps(NewSession(policy), BLANK, ops, size);
            && Honest(s, l) && ValidSession(s)
            && match Drain(s).1
               case Some(report) =>
                 && report.state == s.state && report.ordered == s.ordered
                 && report.droppedState == |l.lostState| && report.droppedOrdered == |l.lostOrdered| && report.droppedUpstream == l.skipped
                 && (report.resyncRequired <==> l.lostState != multiset{} || l.lostOrdered != multiset{} || l.skipped > 0)
               case None => l.lostState == multiset{} && l.lostOrdered == multiset{} && l.skipped == 0 && s.state == [] && s.ordered == []
  {
    NewSessionHonest(policy);
    RunsStayHonest(NewSession(policy), BLANK, ops, size);
    hide Subsequence, RunOps, KeyedConserved, OrderedConserved, ValidSession;
  }
}
