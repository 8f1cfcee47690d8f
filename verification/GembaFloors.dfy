/**
 The sequence floors of an application session (gateway/src/gemba.rs `normalize_sequence`), in
 terms of what was pushed: each is the largest number the session was ever shown, so exactly
 what is not newer than everything before it is discarded.
 */
module GembaFloors {
  import opened Basics
  import opened Gemba
  import opened GembaMeaning
  import opened GembaRuns

  // ------------------------------------------------------------------ the numbers shown

  /** The sequence numbers, or event ids, a frame carries. */
  function Numbers(family: Family, frame: Frame): set<nat> {
    if family == Fleet then
      match frame
      case Snapshot(Some(n), _) => {n}
      case Items(Deltas, items, _) => set x <- items | x.seqNo.Some? :: x.seqNo.value
      case _ => {}
    else if family == Events then
      match frame
      case Backlog(ids, _) => set id <- ids | id.Some? :: id.value
      case Event(Some(n), _) => {n}
      case _ => {}
    else {}
  }

  predicate Listens(s: Session, family: Family) {
    s.ready && family in s.subscriptions
  }

  function NumbersOf(s: Session, op: Op, family: Family): set<nat> {
    if op.Push? && op.family == family && Listens(s, family) then Numbers(family, op.frame) else {}
  }

  /** Every number pushed for a family while the session was ready and subscribed to it. */
  function Seen(s: Session, ops: seq<Op>, family: Family, size: Frame -> nat): set<nat>
    decreases |ops|
  {
    if ops == [] then {} else NumbersOf(s, ops[0], family) + Seen(Do(s, ops[0], size), ops[1..], family, size)
  }

  ghost predicate IsLargest(floor: nat, numbers: set<nat>) {
    (forall n <- numbers :: n <= floor) && (floor == 0 || floor in numbers)
  }

  // ------------------------------------------------------------------ floors are the largest numbers

  lemma {:induction false} NewestIs(seqNos: seq<Option<nat>>, floor: nat)
    ensures var r := NewestOf(seqNos, floor);
            (forall n <- seqNos :: n.Some? ==> n.value <= r) && r >= floor && (r == floor || Some(r) in seqNos)
    decreases |seqNos|
  {
    if seqNos != [] {
      NewestIs(seqNos[1..], Max(floor, seqNos[0].GetOr(0)));
      assert forall n :: n in seqNos <==> n == seqNos[0] || n in seqNos[1..];
    }
  }

  lemma KeptNewest(items: seq<Item>, floor: nat)
    ensures var r := NewestOf(SeqNos(KeepNewer(items, floor)), floor);
            && (forall x <- items :: x.seqNo.Some? ==> x.seqNo.value <= r)
            && (r == floor || exists x <- items :: x.seqNo == Some(r))
  {
    var kept := KeepNewer(items, floor);
    var r := NewestOf(SeqNos(kept), floor);
    NewestIs(SeqNos(kept), floor);
    forall x | x in items && x.seqNo.Some? ensures x.seqNo.value <= r {
      if x.seqNo.value > floor {
        var i :| 0 <= i < |kept| && kept[i] == x;
        assert SeqNos(kept)[i] == x.seqNo;
      }
    }
    if r != floor {
      var i :| 0 <= i < |kept| && SeqNos(kept)[i] == Some(r);
      assert kept[i] in items;
    }
  }

  function FloorOf(s: Session, family: Family): nat {
    if family == Fleet then s.fleetFloor else s.eventFloor
  }

  lemma NormalizeFloors(s: Session, family: Family, frame: Frame, numbered: Family)
    requires numbered == Fleet || numbered == Events
    ensures var floor, floor' := FloorOf(s, numbered), FloorOf(Normalize(s, family, frame).0, numbered);
            if family != numbered then floor' == floor
            else floor' >= floor && (forall n <- Numbers(family, frame) :: n <= floor') && (floor' == floor || floor' in Numbers(family, frame))
  {
    if family == Fleet && frame.Items? { KeptNewest(frame.items, s.fleetFloor); }
    if family == Events && frame.Backlog? { NewestIs(frame.ids, s.eventFloor); }
    hide NewestOf, KeepNewer, SeqNos, WithoutFamily;
  }

  lemma {:induction false} PushKeyedFloors(s: Session, pushes: seq<Keyed>, size: Frame -> nat)
    ensures var s' := PushKeyed(s, pushes, size);
            s'.fleetFloor == s.fleetFloor && s'.eventFloor == s.eventFloor && s'.ready == s.ready && s'.subscriptions == s.subscriptions
    decreases |pushes|
  {
    hide RoomForState, Insert, Without;
    if pushes != [] { PushKeyedFloors(PushState(s, pushes[0].key, pushes[0].frame, size), pushes[1..], size); }
  }

  lemma PushFrameFloors(s: Session, family: Family, frame: Frame, size: Frame -> nat)
    ensures var s', s1 := PushFrame(s, family, frame, size), Normalize(s, family, frame).0;
            if Listens(s, family) then s'.fleetFloor == s1.fleetFloor && s'.eventFloor == s1.eventFloor else s' == s
  {
    hide RoomForOrdered, Normalize, KeyedPushes;
    var (s1, normal) := Normalize(s, family, frame);
    if normal.Some? { PushKeyedFloors(s1, KeyedPushes(family, normal.value), size); }
  }

  lemma StepFloor(s: Session, op: Op, family: Family, seen: set<nat>, size: Frame -> nat)
    requires family == Fleet || family == Events
    requires IsLargest(FloorOf(s, family), seen)
    ensures IsLargest(FloorOf(Do(s, op, size), family), seen + NumbersOf(s, op, family))
  {
    hide PushFrame, Numbers, Normalize;
    match op {
      case Push(f, frame) =>
        PushFrameFloors(s, f, frame, size);
        NormalizeFloors(s, f, frame, family);
      case _ =>
    }
  }

  lemma {:induction false} RunFloor(s: Session, l: Ledger, ops: seq<Op>, family: Family, seen: set<nat>, size: Frame -> nat)
    requires family == Fleet || family == Events
    requires IsLargest(FloorOf(s, family), seen)
    ensures IsLargest(FloorOf(RunOps(s, l, ops, size).0, family), seen + Seen(s, ops, family, size))
    decreases |ops|
  {
    hide IsLargest, Do, Record, NumbersOf;
    if ops == [] {
      assert seen + {} == seen;
    } else {
      var s1 := Do(s, ops[0], size);
      var seen1 := seen + NumbersOf(s, ops[0], family);
      StepFloor(s, ops[0], family, seen, size);
      RunFloor(s1, Record(l, s, ops[0], size), ops[1..], family, seen1, size);
      assert seen1 + Seen(s1, ops[1..], family, size) == seen + Seen(s, ops, family, size);
    }
  }

  /** In every run each floor is the largest number of its family pushed so far, 0 if none. */
  lemma FloorsAreLargest(policy: set<Family>, ops: seq<Op>, size: Frame -> nat)
    ensures var s := RunOps(NewSession(policy), BLANK, ops, size).0;
            && IsLargest(s.fleetFloor, Seen(NewSession(policy), ops, Fleet, size))
            && IsLargest(s.eventFloor, Seen(NewSession(policy), ops, Events, size))
  {
    hide RunOps, Seen;
    forall family | family == Fleet || family == Events
      ensures IsLargest(FloorOf(RunOps(NewSession(policy), BLANK, ops, size).0, family), Seen(NewSession(policy), ops, family, size))
    {
      RunFloor(NewSession(policy), BLANK, ops, family, {}, size);
      assert {} + Seen(NewSession(policy), ops, family, size) == Seen(NewSession(policy), ops, family, size);
    }
    assert FloorOf(RunOps(NewSession(policy), BLANK, ops, size).0, Fleet) == RunOps(NewSession(policy), BLANK, ops, size).0.fleetFloor;
    assert FloorOf(RunOps(NewSession(policy), BLANK, ops, size).0, Events) == RunOps(NewSession(policy), BLANK, ops, size).0.eventFloor;
  }

  // ------------------------------------------------------------------ what a push is owed

  predicate Beyond(n: Option<nat>, seen: set<nat>) {
    n.Some? ==> n.value > 0 && forall m <- seen :: m < n.value
  }

  /** The items that are newer than every number seen, or unnumbered. */
  function Fresh(items: seq<Item>, seen: set<nat>): seq<Item> {
    if items == [] then []
    else if Beyond(items[0].seqNo, seen) then [items[0]] + Fresh(items[1..], seen)
    else Fresh(items[1..], seen)
  }

  /** The keyed frames a session is owed for a frame: one per item under the item's identity, or
      the whole frame in its family's snapshot slot; of fleet deltas the fresh items only. */
  ghost predicate IsOwedFor(entries: seq<Keyed>, family: Family, frame: Frame, listens: bool, seen: set<nat>) {
    if !listens || IsOrdered(family) then entries == []
    else if frame.Items? && (frame.items != [] || (family == Fleet && frame.list == Deltas)) then
      var items := if family == Fleet && frame.list == Deltas then Fresh(frame.items, seen) else frame.items;
      && |entries| == |items|
      && forall i | 0 <= i < |items| ::
           entries[i] == Keyed(StateKey(family, items[i].id + 1), Items(frame.list, [items[i]], frame.header))
    else entries == [Keyed(StateKey(family, 0), frame)]
  }

  /** The ordered frame a session accepts, if any: of numbered events those newer than all seen. */
  function OrderedFor(family: Family, frame: Frame, listens: bool, seen: set<nat>, size: Frame -> nat): seq<OrderedFrame> {
    if listens && IsOrdered(family) && (family == Events && frame.Event? ==> Beyond(frame.id, seen))
    then [OrderedFrame(family, frame, size(frame))] else []
  }

  function PendingOf(entries: seq<Keyed>, size: Frame -> nat): multiset<Pending>
    decreases |entries|
  {
    if entries == [] then multiset{}
    else multiset{Pending(entries[0].key, entries[0].frame, size(entries[0].frame))} + PendingOf(entries[1..], size)
  }

  lemma BeyondFloor(n: Option<nat>, floor: nat, seen: set<nat>)
    requires IsLargest(floor, seen)
    ensures Beyond(n, seen) <==> n.None? || n.value > floor
  {
  }

  lemma {:induction false} FreshIs(items: seq<Item>, floor: nat, seen: set<nat>)
    requires IsLargest(floor, seen)
    ensures KeepNewer(items, floor) == Fresh(items, seen)
  {
    if items != [] {
      BeyondFloor(items[0].seqNo, floor, seen);
      FreshIs(items[1..], floor, seen);
    }
  }

  lemma AcceptedIs(s: Session, family: Family, frame: Frame, seen: set<nat>)
    requires family == Fleet ==> IsLargest(s.fleetFloor, seen)
    ensures IsOwedFor(Accepted(s, family, frame), family, frame, Listens(s, family), seen)
  {
    if family == Fleet && frame.Items? && frame.list == Deltas { FreshIs(frame.items, s.fleetFloor, seen); }
    hide KeepNewer, NewestOf, SeqNos, WithoutFamily, Fresh;
  }

  lemma {:induction false} PushesRecorded(l: Ledger, s: Session, pushes: seq<Keyed>, size: Frame -> nat)
    ensures var l' := PushesRecord(l, s, pushes, size);
            && l'.keyed == l.keyed + PendingOf(pushes, size) && l'.owed == l.owed && l'.accepted == l.accepted
    decreases |pushes|
  {
    hide PushState, Replaced;
    if pushes != [] {
      var k := pushes[0];
      var s1 := PushState(s, k.key, k.frame, size);
      PushesRecorded(KeyedRecord(l, s, Pending(k.key, k.frame, size(k.frame)), s1), s1, pushes[1..], size);
    }
  }

  lemma PushRecorded(l: Ledger, s: Session, family: Family, frame: Frame, size: Frame -> nat)
    ensures var l' := PushRecord(l, s, family, frame, size);
            var normal := Normalize(s, family, frame).1;
            && l'.owed == l.owed + Accepted(s, family, frame)
            && l'.keyed == l.keyed + PendingOf(Accepted(s, family, frame), size)
            && l'.accepted == l.accepted + if Listens(s, family) && IsOrdered(family) && normal.Some?
                                           then [OrderedFrame(family, normal.value, size(normal.value))] else []
  {
    hide Normalize, PushOrdered, KeyedPushes, Retired, Replaced, PushesRecord;
    var (s1, normal) := Normalize(s, family, frame);
    assert l.owed + [] == l.owed && l.accepted + [] == l.accepted && PendingOf([], size) == multiset{};
    if normal.Some? {
      PushesRecorded(l.(superseded := l.superseded + Retired(s, family, frame), owed := l.owed + Accepted(s, family, frame)),
                     s1, KeyedPushes(family, normal.value), size);
    }
  }

  lemma NormalOrdered(s: Session, family: Family, frame: Frame, seen: set<nat>)
    requires IsOrdered(family) && (family == Events ==> IsLargest(s.eventFloor, seen))
    ensures Normalize(s, family, frame).1 == if family == Events && frame.Event? && !Beyond(frame.id, seen) then None else Some(frame)
  {
    if family == Events && frame.Event? { BeyondFloor(frame.id, s.eventFloor, seen); }
    hide NewestOf, Beyond;
  }

  /** What the ledger takes up for the next push of any run, in terms of what was pushed before:
      the entries of every fresh item or whole frame, in order, and the ordered frame unless it is
      an event no newer than some number seen. */
  lemma PushIsTakenUp(policy: set<Family>, ops: seq<Op>, family: Family, frame: Frame, size: Frame -> nat)
    ensures var (s, l) := RunOps(NewSession(policy), BLANK, ops, size);
            var l' := Record(l, s, Push(family, frame), size);
            var seen := Seen(NewSession(policy), ops, family, size);
            && |l.owed| <= |l'.owed| && l'.owed[..|l.owed|] == l.owed
            && IsOwedFor(l'.owed[|l.owed|..], family, frame, Listens(s, family), seen)
            && l'.keyed == l.keyed + PendingOf(l'.owed[|l.owed|..], size)
            && l'.accepted == l.accepted + OrderedFor(family, frame, Listens(s, family), seen, size)
  {
    var (s, l) := RunOps(NewSession(policy), BLANK, ops, size);
    var seen := Seen(NewSession(policy), ops, family, size);
    FloorsAreLargest(policy, ops, size);
    hide RunOps, Seen, Accepted, PushRecord, IsOwedFor, IsLargest, Normalize, PendingOf, Beyond;
    AcceptedIs(s, family, frame, seen);
    PushRecorded(l, s, family, frame, size);
    if IsOrdered(family) { NormalOrdered(s, family, frame, seen); }
    var l' := Record(l, s, Push(family, frame), size);
    assert l'.owed[|l.owed|..] == Accepted(s, family, frame);
  }

  /** In any run, an event newer than every number seen is queued last, or, when it alone exceeds
      the budget, counted as dropped. */
  lemma NewEventArrives(policy: set<Family>, ops: seq<Op>, id: Option<nat>, body: Json, size: Frame -> nat)
    requires Listens(RunOps(NewSession(policy), BLANK, ops, size).0, Events)
    requires Beyond(id, Seen(NewSession(policy), ops, Events, size))
    ensures var s := RunOps(NewSession(policy), BLANK, ops, size).0;
            var s' := Do(s, Push(Events, Event(id, body)), size);
            var p := OrderedFrame(Events, Event(id, body), size(Event(id, body)));
            if p.bytes <= MAX_PENDING_BYTES then s'.ordered != [] && s'.ordered[|s'.ordered| - 1] == p
            else s'.ordered == s.ordered && s'.droppedOrdered == s.droppedOrdered + 1
  {
    var s := RunOps(NewSession(policy), BLANK, ops, size).0;
    var frame := Event(id, body);
    FloorsAreLargest(policy, ops, size);
    NormalOrdered(s, Events, frame, Seen(NewSession(policy), ops, Events, size));
    var s1 := Normalize(s, Events, frame).0;
    hide RunOps, Seen, Beyond, IsLargest;
    assert Do(s, Push(Events, frame), size) == PushOrdered(s1, Events, frame, size);
    if size(frame) <= MAX_PENDING_BYTES {
      var state, ordered := PushOrderedIs(s1, Events, frame, size);
    }
    hide RoomForOrdered;
  }
}
