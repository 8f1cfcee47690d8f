/**
 What coalescing one frame preserves (gateway/src/gemba.rs): the keyed table means the same as
 the frames pushed into it in order.
 */
module GembaMeaning {
  import opened Basics
  import opened Gemba

  // ------------------------------------------------------------------ a consumer's view

  /** The consumer's state: a snapshot resets its family, an item overwrites its identity. */
  function ApplyOne(view: map<StateKey, Frame>, k: StateKey, f: Frame): map<StateKey, Frame> {
    if k.slot == 0 then (map x <- view | x.family != k.family :: view[x])[k := f]
    else view[k := f]
  }

  function ApplyTable(view: map<StateKey, Frame>, t: seq<Pending>): map<StateKey, Frame>
    decreases |t|
  {
    if t == [] then view else ApplyTable(ApplyOne(view, t[0].key, t[0].frame), t[1..])
  }

  function ApplyKeyed(view: map<StateKey, Frame>, pushes: seq<Keyed>): map<StateKey, Frame>
    decreases |pushes|
  {
    if pushes == [] then view else ApplyKeyed(ApplyOne(view, pushes[0].key, pushes[0].frame), pushes[1..])
  }

  lemma {:induction false} ApplyKeyedConcat(view: map<StateKey, Frame>, a: seq<Keyed>, b: seq<Keyed>)
    ensures ApplyKeyed(view, a + b) == ApplyKeyed(ApplyKeyed(view, a), b)
    decreases |a|
  {
    if a == [] {
      assert a + b == b;
    } else {
      assert (a + b)[1..] == a[1..] + b;
      ApplyKeyedConcat(ApplyOne(view, a[0].key, a[0].frame), a[1..], b);
    }
  }

  /** What a sorted table leaves at one key. */
  function After(view: map<StateKey, Frame>, t: seq<Pending>, x: StateKey): Option<Frame> {
    if Lookup(t, x).Some? then Some(Lookup(t, x).value.frame)
    else if Lookup(t, StateKey(x.family, 0)).Some? then None
    else if x in view then Some(view[x])
    else None
  }

  function At(view: map<StateKey, Frame>, x: StateKey): Option<Frame> {
    if x in view then Some(view[x]) else None
  }

  lemma {:induction false} TableAt(view: map<StateKey, Frame>, t: seq<Pending>, x: StateKey)
    requires Sorted(t)
    ensures At(ApplyTable(view, t), x) == After(view, t, x)
    decreases |t|
  {
    if t != [] {
      TableAt(ApplyOne(view, t[0].key, t[0].frame), t[1..], x);
      LookupIn(t[1..], x);
      LookupIn(t[1..], StateKey(x.family, 0));
    }
  }

  lemma {:induction false} LookupIn(t: seq<Pending>, k: StateKey)
    ensures Lookup(t, k).Some? ==> Lookup(t, k).value in t && Lookup(t, k).value.key == k
    ensures Lookup(t, k).None? ==> forall p <- t :: p.key != k
  {
    if t != [] {
      LookupIn(t[1..], k);
    }
  }

  lemma {:induction false} LookupRetain(t: seq<Pending>, keep: StateKey -> bool, x: StateKey)
    ensures Lookup(Retain(t, keep), x) == if keep(x) then Lookup(t, x) else None
  {
    if t != [] {
      LookupRetain(t[1..], keep, x);
    }
  }

  lemma {:induction false} LookupInsert(t: seq<Pending>, p: Pending, x: StateKey)
    requires forall q <- t :: q.key != p.key
    ensures Lookup(Insert(t, p), x) == if x == p.key then Some(p) else Lookup(t, x)
  {
    if t != [] {
      LookupInsert(t[1..], p, x);
    }
  }

  // ------------------------------------------------------------------ one push

  function Put(t: seq<Pending>, p: Pending): seq<Pending> {
    Insert(Without(t, p.key), p)
  }

  lemma PutSorted(t: seq<Pending>, p: Pending)
    requires Sorted(t)
    ensures Sorted(Put(t, p))
  {
    RetainSorted(t, (x: StateKey) => x != p.key);
    InsertSorted(Without(t, p.key), p);
  }

  lemma LookupPut(t: seq<Pending>, p: Pending, x: StateKey)
    ensures Lookup(Put(t, p), x) == if x == p.key then Some(p) else Lookup(t, x)
  {
    LookupInsert(Without(t, p.key), p, x);
    LookupRetain(t, (y: StateKey) => y != p.key, x);
  }

  ghost predicate NoItems(t: seq<Pending>, family: Family) {
    forall p <- t :: p.key.family == family ==> p.key.slot == 0
  }

  lemma SameAt(a: map<StateKey, Frame>, b: map<StateKey, Frame>)
    requires forall x :: At(a, x) == At(b, x)
    ensures a == b
  {
    forall x ensures x in a <==> x in b {
      assert At(a, x) == At(b, x);
    }
    forall x | x in a ensures a[x] == b[x] {
      assert At(a, x) == At(b, x);
    }
  }

  /** Coalescing one push is exact unless a snapshot overtakes items of its own family. */
  lemma PutMeaning(view: map<StateKey, Frame>, t: seq<Pending>, p: Pending)
    requires Sorted(t)
    ensures ApplyTable(view, Put(t, p)) == ApplyOne(ApplyTable(view, t), p.key, p.frame)
       <==> (p.key.slot == 0 ==> NoItems(t, p.key.family))
  {
    PutSorted(t, p);
    var whole, before := ApplyTable(view, Put(t, p)), ApplyTable(view, t);
    var once := ApplyOne(before, p.key, p.frame);
    if p.key.slot == 0 ==> NoItems(t, p.key.family) {
      forall x ensures At(whole, x) == At(once, x) {
        TableAt(view, Put(t, p), x);
        TableAt(view, t, x);
        LookupPut(t, p, x);
        LookupPut(t, p, StateKey(x.family, 0));
        LookupIn(t, x);
      }
      SameAt(whole, once);
    } else {
      var q :| q in t && q.key.family == p.key.family && q.key.slot != 0;
      TableAt(view, Put(t, p), q.key);
      LookupPut(t, p, q.key);
      LookupIn(t, q.key);
      assert q.key in whole && q.key !in once;
    }
  }

  /** A numbered fleet snapshot first retires its family, and is then always exact. */
  lemma RetireMeaning(view: map<StateKey, Frame>, t: seq<Pending>, p: Pending)
    requires Sorted(t) && p.key.slot == 0
    ensures ApplyTable(view, Put(WithoutFamily(t, p.key.family), p)) == ApplyOne(ApplyTable(view, t), p.key, p.frame)
  {
    var f := p.key.family;
    var rest := WithoutFamily(t, f);
    var keep := (k: StateKey) => k.family != f;
    RetainSorted(t, keep);
    PutMeaning(view, rest, p);
    var a, b := ApplyOne(ApplyTable(view, rest), p.key, p.frame), ApplyOne(ApplyTable(view, t), p.key, p.frame);
    forall x ensures At(a, x) == At(b, x) {
      TableAt(view, rest, x);
      TableAt(view, t, x);
      LookupRetain(t, keep, x);
      LookupRetain(t, keep, StateKey(x.family, 0));
    }
    SameAt(a, b);
  }

  // ------------------------------------------------------------------ whole frames and runs

  ghost predicate NothingDropped(s: Session, s': Session) {
    s'.droppedState == s.droppedState && s'.droppedOrdered == s.droppedOrdered
  }

  lemma {:induction false} DropsGrow(s: Session, pushes: seq<Keyed>, size: Frame -> nat)
    ensures var s' := PushKeyed(s, pushes, size);
            s.droppedState <= s'.droppedState && s.droppedOrdered <= s'.droppedOrdered
    decreases |pushes|
  {
    if pushes != [] {
      DropsGrow(PushState(s, pushes[0].key, pushes[0].frame, size), pushes[1..], size);
    }
  }

  lemma PushStateUndropped(s: Session, key: StateKey, frame: Frame, size: Frame -> nat)
    requires NothingDropped(s, PushState(s, key, frame, size))
    ensures var s' := PushState(s, key, frame, size);
            s' == s.(state := Put(s.state, Pending(key, frame, size(frame))))
  {
    var kept := Without(s.state, key);
    RoomForStateIs(kept, s.ordered, size(frame));
    var (state, ordered) := RoomForState(kept, s.ordered, size(frame));
    assert state == kept && ordered == s.ordered;
  }

  lemma {:induction false} PushItemsMeaning(view: map<StateKey, Frame>, s: Session, pushes: seq<Keyed>, size: Frame -> nat)
    requires Sorted(s.state) && NothingDropped(s, PushKeyed(s, pushes, size))
    requires forall p <- pushes :: p.key.slot != 0
    ensures var s' := PushKeyed(s, pushes, size);
            && Sorted(s'.state) && s'.ordered == s.ordered
            && ApplyTable(view, s'.state) == ApplyKeyed(ApplyTable(view, s.state), pushes)
    decreases |pushes|
  {
    if pushes != [] {
      var p := pushes[0];
      var s1 := PushState(s, p.key, p.frame, size);
      DropsGrow(s1, pushes[1..], size);
      PushStateUndropped(s, p.key, p.frame, size);
      PutSorted(s.state, Pending(p.key, p.frame, size(p.frame)));
      PutMeaning(view, s.state, Pending(p.key, p.frame, size(p.frame)));
      PushItemsMeaning(view, s1, pushes[1..], size);
    }
  }

  /** The keyed entries a frame contributes once its stale part is discarded. */
  function Accepted(s: Session, family: Family, frame: Frame): seq<Keyed> {
    var normal := Normalize(s, family, frame).1;
    if !s.ready || family !in s.subscriptions || IsOrdered(family) || normal.None? then []
    else KeyedPushes(family, normal.value)
  }

  /** A frame kept whole finds no item of its family pending, or is a numbered fleet snapshot. */
  ghost predicate ResetIsSafe(s: Session, family: Family, frame: Frame) {
    forall p <- Accepted(s, family, frame) :: p.key.slot == 0 ==>
      NoItems(s.state, family) || (family == Fleet && frame.Snapshot? && frame.seqNo.Some?)
  }

  lemma OrderedUndropped(s: Session, family: Family, frame: Frame, size: Frame -> nat)
    requires NothingDropped(s, PushOrdered(s, family, frame, size))
    ensures PushOrdered(s, family, frame, size).state == s.state
  {
    RoomForOrderedIs(s.state, s.ordered, size(frame));
  }

  /** A frame kept whole, pushed to the snapshot slot of its family. */
  lemma PushWholeMeaning(view: map<StateKey, Frame>, s: Session, s1: Session, p: Keyed, numbered: bool, size: Frame -> nat)
    requires Sorted(s.state) && Sorted(s1.state) && p.key.slot == 0
    requires s1.state == if numbered then WithoutFamily(s.state, p.key.family) else s.state
    requires numbered || NoItems(s.state, p.key.family)
    requires NothingDropped(s1, PushKeyed(s1, [p], size))
    ensures ApplyTable(view, PushKeyed(s1, [p], size).state) == ApplyKeyed(ApplyTable(view, s.state), [p])
  {
    assert [p][1..] == [];
    assert PushKeyed(s1, [p], size) == PushState(s1, p.key, p.frame, size);
    assert ApplyKeyed(ApplyTable(view, s.state), [p]) == ApplyOne(ApplyTable(view, s.state), p.key, p.frame);
    PushStateUndropped(s1, p.key, p.frame, size);
    hide PushState, PushKeyed, ApplyOne, ApplyTable, ApplyKeyed, Retain;
    if numbered {
      RetireMeaning(view, s.state, Pending(p.key, p.frame, size(p.frame)));
    } else {
      PutMeaning(view, s.state, Pending(p.key, p.frame, size(p.frame)));
    }
  }

  lemma NormalizeSpares(s: Session, family: Family, frame: Frame)
    ensures var s1 := Normalize(s, family, frame).0;
            && s1.ordered == s.ordered && s1.droppedState == s.droppedState && s1.droppedOrdered == s.droppedOrdered
            && s1.droppedUpstream == s.droppedUpstream
  {
  }

  lemma NormalizeState(s: Session, family: Family, frame: Frame)
    requires Sorted(s.state)
    ensures var s1 := Normalize(s, family, frame).0;
            && Sorted(s1.state)
            && s1.state == if family == Fleet && frame.Snapshot? && frame.seqNo.Some? then WithoutFamily(s.state, Fleet) else s.state
  {
    RetainSorted(s.state, (k: StateKey) => k.family != Fleet);
  }

  lemma PushFrameMeaning(view: map<StateKey, Frame>, s: Session, family: Family, frame: Frame, size: Frame -> nat)
    requires ValidSession(s) && NothingDropped(s, PushFrame(s, family, frame, size))
    requires ResetIsSafe(s, family, frame)
    ensures ApplyTable(view, PushFrame(s, family, frame, size).state)
         == ApplyKeyed(ApplyTable(view, s.state), Accepted(s, family, frame))
  {
    var (s1, normal) := Normalize(s, family, frame);
    NormalizeState(s, family, frame);
    NormalizeSpares(s, family, frame);
    if !s.ready || family !in s.subscriptions {
    } else if IsOrdered(family) {
      if normal.Some? { OrderedUndropped(s1, family, normal.value, size); }
    } else if normal.Some? {
      var pushes := KeyedPushes(family, normal.value);
      assert Accepted(s, family, frame) == pushes && PushFrame(s, family, frame, size) == PushKeyed(s1, pushes, size);
      if normal.value.Items? && normal.value.items != [] {
        hide Retain, PushKeyed, ApplyTable, ApplyKeyed;
        PushItemsMeaning(view, s1, pushes, size);
      } else {
        assert pushes[0] in pushes && pushes == [pushes[0]];
        hide Retain, PushKeyed, ApplyTable, ApplyKeyed;
        PushWholeMeaning(view, s, s1, pushes[0], family == Fleet && frame.Snapshot? && frame.seqNo.Some?, size);
      }
    }
  }

  lemma PushFrameDrops(s: Session, family: Family, frame: Frame, size: Frame -> nat)
    ensures var s' := PushFrame(s, family, frame, size);
            s.droppedState <= s'.droppedState && s.droppedOrdered <= s'.droppedOrdered
  {
    var (s1, normal) := Normalize(s, family, frame);
    if normal.Some? { DropsGrow(s1, KeyedPushes(family, normal.value), size); }
  }
}
