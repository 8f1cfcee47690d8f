/**
 The browser's command bookkeeping (ui/src/fleet/command-store.ts): one entry per request,
 whose result slot is fixed when the request is made.
 */
module Commands {
  import opened Basics

  datatype Phase = Pending | Succeeded(result: Json) | Failed(code: string)

  datatype Entry = Entry(seqNo: nat, component: string, verb: string, instance: Option<string>, phase: Phase, elapsed: Option<nat>)

  type Entries = map<nat, Entry>

  /** Where a widget looks an entry up. */
  datatype Slot = Slot(component: string, verb: string, instance: string)

  function SlotOf(e: Entry): Slot {
    Slot(e.component, e.verb, e.instance.GetOr(""))
  }

  function PendingIds(entries: Entries): set<nat> {
    set id <- entries | entries[id].phase.Pending?
  }

  function SettledIds(entries: Entries): set<nat> {
    set id <- entries | !entries[id].phase.Pending?
  }

  /** Insertion numbers identify entries. */
  ghost predicate Numbered(entries: Entries, last: nat) {
    && (forall id <- entries :: entries[id].seqNo <= last)
    && (forall a <- entries, b <- entries :: a != b ==> entries[a].seqNo != entries[b].seqNo)
  }

  /** `kept` lost settled entries only, older ones first. */
  ghost predicate DropsOldest(kept: Entries, entries: Entries) {
    && kept.Keys <= entries.Keys && (forall id <- kept :: kept[id] == entries[id])
    && (forall gone <- entries :: gone !in kept ==>
          !entries[gone].phase.Pending?
          && forall stays <- kept :: !kept[stays].phase.Pending? ==> entries[gone].seqNo <= kept[stays].seqNo)
  }

  /** As few entries as the cap asks for are dropped. */
  ghost predicate Trimmed(kept: Entries, entries: Entries, cap: nat) {
    && DropsOldest(kept, entries)
    && (|kept.Keys| == |entries.Keys| || |kept.Keys| >= cap)
    && (|kept.Keys| <= cap || SettledIds(kept) == {})
  }

  lemma TrimKeepsPending(kept: Entries, entries: Entries)
    requires DropsOldest(kept, entries)
    ensures PendingIds(kept) == PendingIds(entries)
  {
  }

  /** Of two trims, neither can have dropped an entry the other kept in exchange for another. */
  lemma NoExchange(a: Entries, b: Entries, entries: Entries, last: nat, x: nat, y: nat)
    requires Numbered(entries, last) && DropsOldest(a, entries) && DropsOldest(b, entries)
    requires x in a && y in b
    ensures x in b || y in a
  {
  }

  /** Trimming determines its result: two trims of the same entries agree. */
  lemma TrimIsUnique(a: Entries, b: Entries, entries: Entries, last: nat, cap: nat)
    requires Numbered(entries, last)
    requires Trimmed(a, entries, cap) && Trimmed(b, entries, cap)
    ensures a == b
  {
    if a.Keys <= b.Keys {
      SameSize(a, b, entries, cap);
    } else {
      var x :| x in a && x !in b;
      forall y | y in b ensures y in a { NoExchange(a, b, entries, last, x, y); }
      SameSize(b, a, entries, cap);
    }
  }

  lemma SameSize(a: Entries, b: Entries, entries: Entries, cap: nat)
    requires Trimmed(a, entries, cap) && Trimmed(b, entries, cap) && a.Keys <= b.Keys
    ensures a == b
  {
    SubsetSize(a.Keys, b.Keys);
    SubsetSize(b.Keys, entries.Keys);
    assert b.Keys - a.Keys <= SettledIds(b);
    assert b.Keys == a.Keys + (b.Keys - a.Keys);
  }

  lemma SubsetSize(a: set<nat>, b: set<nat>)
    requires a <= b
    ensures |a| <= |b| && (a != b ==> |a| < |b|)
  {
    assert b == a + (b - a);
    assert |b| == |a| + |b - a|;
    if b - a == {} { assert a == b; }
  }

  lemma DropOne(kept: Entries, entries: Entries, oldest: nat)
    requires DropsOldest(kept, entries) && oldest in SettledIds(kept)
    requires forall id <- SettledIds(kept) :: kept[oldest].seqNo <= kept[id].seqNo
    ensures DropsOldest(kept - {oldest}, entries) && |(kept - {oldest}).Keys| == |kept.Keys| - 1
  {
    assert (kept - {oldest}).Keys == kept.Keys - {oldest};
    assert forall id <- kept :: !kept[id].phase.Pending? ==> id in SettledIds(kept);
  }

  lemma TrimExists(entries: Entries, cap: nat) returns (kept: Entries)
    ensures Trimmed(kept, entries, cap)
  {
    kept := entries;
    while |kept.Keys| > cap && SettledIds(kept) != {}
      invariant DropsOldest(kept, entries)
      invariant |kept.Keys| == |entries.Keys| || |kept.Keys| >= cap
      decreases |kept.Keys|
    {
      var oldest := OldestOf(kept, SettledIds(kept));
      DropOne(kept, entries, oldest);
      kept := kept - {oldest};
    }
  }

  lemma {:induction false} OldestOf(entries: Entries, ids: set<nat>) returns (oldest: nat)
    requires ids != {} && ids <= entries.Keys
    ensures oldest in ids && forall id <- ids :: entries[oldest].seqNo <= entries[id].seqNo
    decreases |ids|
  {
    oldest :| oldest in ids;
    var rest := ids - {oldest};
    assert ids == rest + {oldest};
    if rest != {} {
      var other := OldestOf(entries, rest);
      if entries[other].seqNo < entries[oldest].seqNo { oldest := other; }
    }
  }

  /** The entries a trim leaves; `TrimIsUnique` makes the choice the only one. */
  ghost function TrimTo(entries: Entries, cap: nat): (kept: Entries)
    ensures Trimmed(kept, entries, cap)
  {
    assert exists kept :: Trimmed(kept, entries, cap) by {
      var kept := TrimExists(entries, cap);
    }
    var kept :| Trimmed(kept, entries, cap);
    kept
  }

  // ------------------------------------------------------------------ the store as a value

  datatype Book = Book(entries: Entries, last: nat)

  ghost predicate BookOk(b: Book) {
    Numbered(b.entries, b.last)
  }

  ghost function Note(b: Book, id: nat, component: string, verb: string, instance: Option<string>, cap: nat): Book {
    Book(TrimTo(b.entries[id := Requested(b, component, verb, instance)], cap), b.last + 1)
  }

  /** A reply settles the entry it was sent for, keeping the slot fixed at request time; only
      when that entry is gone does it open a component-scoped one. */
  function Settle(b: Book, id: nat, component: string, verb: string, phase: Phase, elapsed: nat): Book {
    if id in b.entries then
      b.(entries := b.entries[id := b.entries[id].(phase := phase, elapsed := Some(elapsed))])
    else
      Book(b.entries[id := Entry(b.last + 1, component, verb, None, phase, Some(elapsed))], b.last + 1)
  }

  function Fail(b: Book, id: nat, code: string): Book {
    if id in b.entries && b.entries[id].phase.Pending? then
      b.(entries := b.entries[id := b.entries[id].(phase := Failed(code))])
    else b
  }

  function FailAll(b: Book, code: string): Book {
    b.(entries := map id <- b.entries :: if b.entries[id].phase.Pending? then b.entries[id].(phase := Failed(code)) else b.entries[id])
  }

  lemma PutPends(entries: Entries, id: nat, e: Entry)
    ensures PendingIds(entries[id := e]) == PendingIds(entries) - {id} + (if e.phase.Pending? then {id} else {})
  {
  }

  lemma PutNumbered(entries: Entries, last: nat, id: nat, e: Entry)
    requires Numbered(entries, last)
    requires if id in entries then e.seqNo == entries[id].seqNo || e.seqNo == last + 1 else e.seqNo == last + 1
    ensures Numbered(entries[id := e], Max(last, e.seqNo))
  {
  }

  lemma SubsetNumbered(kept: Entries, entries: Entries, last: nat)
    requires DropsOldest(kept, entries) && Numbered(entries, last)
    ensures Numbered(kept, last)
  {
  }

  function Requested(b: Book, component: string, verb: string, instance: Option<string>): Entry {
    Entry(b.last + 1, component, verb, instance, Pending, None)
  }

  /** A request is pending afterwards and no other pending one was lost to the trim. */
  lemma NotePends(b: Book, id: nat, component: string, verb: string, instance: Option<string>, cap: nat)
    requires BookOk(b)
    ensures var b' := Note(b, id, component, verb, instance, cap);
            BookOk(b') && PendingIds(b'.entries) == PendingIds(b.entries) + {id}
  {
    var e := Requested(b, component, verb, instance);
    var all := b.entries[id := e];
    PutPends(b.entries, id, e);
    PutNumbered(b.entries, b.last, id, e);
    var kept := TrimTo(all, cap);
    assert DropsOldest(kept, all);
    hide Numbered, DropsOldest, Trimmed, PendingIds, SettledIds, TrimTo, Max;
    SubsetNumbered(kept, all, b.last + 1);
    TrimKeepsPending(kept, all);
  }

  lemma SettlePends(b: Book, id: nat, component: string, verb: string, phase: Phase, elapsed: nat)
    requires BookOk(b) && !phase.Pending?
    ensures var b' := Settle(b, id, component, verb, phase, elapsed);
            BookOk(b') && PendingIds(b'.entries) == PendingIds(b.entries) - {id}
  {
    var e := Settle(b, id, component, verb, phase, elapsed).entries[id];
    PutPends(b.entries, id, e);
    PutNumbered(b.entries, b.last, id, e);
    hide Numbered;
  }

  lemma FailPends(b: Book, id: nat, code: string)
    requires BookOk(b)
    ensures BookOk(Fail(b, id, code)) && PendingIds(Fail(b, id, code).entries) == PendingIds(b.entries) - {id}
  {
  }

  lemma FailAllPends(b: Book, code: string)
    requires BookOk(b)
    ensures BookOk(FailAll(b, code)) && PendingIds(FailAll(b, code).entries) == {}
  {
  }

  class CommandStore {
    const maxRecent: nat
    var entries: Entries
    var seqCounter: nat

    ghost function Value(): Book
      reads this
    {
      Book(entries, seqCounter)
    }

    constructor (maxRecent: nat)
      ensures Value() == Book(map[], 0) && this.maxRecent == Max(1, maxRecent)
    {
      this.maxRecent := Max(1, maxRecent);
      entries, seqCounter := map[], 0;
    }

    /** Records a request as pending; only settled entries may make room for it. */
    method NotePending(id: nat, component: string, verb: string, instance: Option<string>)
      requires BookOk(Value())
      modifies this
      ensures Value() == Note(old(Value()), id, component, verb, instance, maxRecent)
    {
      PutNumbered(entries, seqCounter, id, Requested(Value(), component, verb, instance));
      hide Numbered, TrimTo;
      seqCounter := seqCounter + 1;
      entries := entries[id := Entry(seqCounter, component, verb, instance, Pending, None)];
      Trim();
    }

    method Trim()
      requires BookOk(Value())
      modifies this`entries
      ensures entries == TrimTo(old(entries), maxRecent)
    {
      ghost var all := entries;
      while |entries.Keys| > maxRecent && SettledIds(entries) != {}
        invariant DropsOldest(entries, all)
        invariant |entries.Keys| == |all.Keys| || |entries.Keys| >= maxRecent
        decreases |entries.Keys|
      {
        var oldest := OldestSettled();
        DropOne(entries, all, oldest);
        entries := entries - {oldest};
      }
      TrimIsUnique(entries, TrimTo(all, maxRecent), all, seqCounter, maxRecent);
    }

    method OldestSettled() returns (oldest: nat)
      requires SettledIds(entries) != {}
      ensures oldest in SettledIds(entries)
      ensures forall id <- SettledIds(entries) :: entries[oldest].seqNo <= entries[id].seqNo
    {
      var todo := SettledIds(entries);
      oldest :| oldest in todo;
      while todo != {}
        invariant todo <= SettledIds(entries) && oldest in SettledIds(entries)
        invariant forall id <- SettledIds(entries) - todo :: entries[oldest].seqNo <= entries[id].seqNo
        decreases todo
      {
        var id :| id in todo;
        if entries[id].seqNo < entries[oldest].seqNo {
          oldest := id;
        }
        todo := todo - {id};
      }
    }

    method ApplyResult(id: nat, component: string, verb: string, phase: Phase, elapsed: nat)
      modifies this
      ensures Value() == Settle(old(Value()), id, component, verb, phase, elapsed)
    {
      if id !in entries {
        seqCounter := seqCounter + 1;
        entries := entries[id := Entry(seqCounter, component, verb, None, Pending, None)];
      }
      entries := entries[id := entries[id].(phase := phase, elapsed := Some(elapsed))];
    }

    method FailClient(id: nat, code: string)
      modifies this`entries
      ensures Value() == Fail(old(Value()), id, code)
    {
      if id in entries && entries[id].phase.Pending? {
        entries := entries[id := entries[id].(phase := Failed(code))];
      }
    }

    method FailAllPending(code: string)
      modifies this`entries
      ensures Value() == FailAll(old(Value()), code)
    {
      ghost var all := entries;
      ghost var goal := FailAll(Value(), code).entries;
      var todo := entries.Keys;
      while todo != {}
        invariant todo <= entries.Keys && entries.Keys == all.Keys
        invariant forall id <- all :: entries[id] == if id in todo then all[id] else goal[id]
        decreases todo
      {
        var id :| id in todo;
        if entries[id].phase.Pending? {
          entries := entries[id := entries[id].(phase := Failed(code))];
        }
        todo := todo - {id};
      }
    }

    /** Per-button state: the newest entry of every slot that has one. */
    method LatestBySlot() returns (latest: map<Slot, Entry>)
      ensures forall id <- entries :: SlotOf(entries[id]) in latest && entries[id].seqNo <= latest[SlotOf(entries[id])].seqNo
      ensures forall s <- latest :: latest[s] in entries.Values && SlotOf(latest[s]) == s
    {
      latest := map[];
      var todo := entries.Keys;
      while todo != {}
        invariant todo <= entries.Keys
        invariant forall id <- entries.Keys - todo ::
          SlotOf(entries[id]) in latest && entries[id].seqNo <= latest[SlotOf(entries[id])].seqNo
        invariant forall s <- latest :: latest[s] in entries.Values && SlotOf(latest[s]) == s
        decreases todo
      {
        var id :| id in todo;
        var e := entries[id];
        if SlotOf(e) !in latest || e.seqNo > latest[SlotOf(e)].seqNo {
          latest := latest[SlotOf(e) := e];
        }
        todo := todo - {id};
      }
    }
  }
}
