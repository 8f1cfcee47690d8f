/**
 Component log tails: the gateway's deduplicated rings and filtered replies
 (gateway/src/model.rs `ingest_log`, `LogsView`) and the browser's sorted tail
 (ui/src/fleet/log-store.ts).
 */
module Logs {
  import opened Basics
  import Fleet

  const DEDUPE_DEPTH: nat := 2048

  datatype Message = Message(
    key: Fleet.Key, instance: string, channelLevel: Option<string>, bodyLevel: Option<string>,
    logger: Option<string>, message: Option<string>, bodyTs: Option<string>, headerTs: Option<string>,
    sequence: Option<nat>, body: Json, at: nat)

  /** What makes two log messages the same: a missing sequence counts as 0, a missing timestamp as "". */
  datatype Dedupe = Dedupe(key: Fleet.Key, instance: string, level: string, sequence: nat, ts: string, logger: string, message: string)

  datatype Record = Record(id: nat, key: Fleet.Key, instance: string, level: string, dedupe: Dedupe, body: Json, at: nat)

  datatype Config = Config(maxRecords: nat, maxPerComponent: nat)

  datatype Table = Table(
    seen: set<Dedupe>, queue: seq<Dedupe>, nextId: nat, all: seq<Record>,
    byComponent: map<Fleet.Key, seq<Record>>, drops: map<Fleet.Key, nat>)

  datatype Push = Push(record: Record, dropped: Option<nat>)

  // ------------------------------------------------------------------ the gateway

  /** A message is readable when it has a level, a logger and a text. */
  predicate Readable(m: Message) {
    && m.channelLevel.OrElse(m.bodyLevel).Some?
    && m.logger.Some? && m.logger.value != "" && m.message.Some? && m.message.value != ""
  }

  function KeyOf(m: Message): Dedupe
    requires Readable(m)
  {
    Dedupe(m.key, m.instance, m.channelLevel.OrElse(m.bodyLevel).value, m.sequence.GetOr(0),
           m.bodyTs.OrElse(m.headerTs).GetOr(""), m.logger.value, m.message.value)
  }

  function RecordFor(m: Message, id: nat): Record
    requires Readable(m)
  {
    Record(id, m.key, m.instance, KeyOf(m).level, KeyOf(m), m.body, m.at)
  }

  predicate Accepts(t: Table, m: Message) {
    Readable(m) && KeyOf(m) !in t.seen
  }

  function Remember(t: Table, d: Dedupe): Table {
    var queue := t.queue + [d];
    if |queue| > DEDUPE_DEPTH then t.(queue := queue[1..], seen := t.seen + {d} - {queue[0]})
    else t.(queue := queue, seen := t.seen + {d})
  }

  function RingOf(t: Table, k: Fleet.Key): seq<Record> {
    if k in t.byComponent then t.byComponent[k] else []
  }

  function DropsOf(t: Table, k: Fleet.Key): nat {
    if k in t.drops then t.drops[k] else 0
  }

  function Store(t: Table, r: Record, cfg: Config): Table {
    var ring := RingOf(t, r.key) + [r];
    var over := |ring| > cfg.maxPerComponent;
    t.(nextId := t.nextId + 1,
       all := Newest(t.all + [r], cfg.maxRecords),
       byComponent := t.byComponent[r.key := if over then ring[1..] else ring],
       drops := if over then t.drops[r.key := DropsOf(t, r.key) + 1] else t.drops)
  }

  function IngestLog(t: Table, m: Message, cfg: Config): (Table, Option<Push>) {
    if !Accepts(t, m) then (t, None)
    else
      var t' := Store(Remember(t, KeyOf(m)), RecordFor(m, t.nextId), cfg);
      (t', Some(Push(RecordFor(m, t.nextId), if DropsOf(t', m.key) > 0 then Some(DropsOf(t', m.key)) else None)))
  }

  const EMPTY := Table({}, [], 1, [], map[], map[])

  function Ingested(ms: seq<Message>, cfg: Config): Table
    decreases |ms|
  {
    if ms == [] then EMPTY else IngestLog(Ingested(ms[..|ms| - 1], cfg), ms[|ms| - 1], cfg).0
  }

  /** The records accepted out of a message history, in order. */
  function Accepted(ms: seq<Message>, cfg: Config): seq<Record>
    decreases |ms|
  {
    if ms == [] then []
    else
      var t, m := Ingested(ms[..|ms| - 1], cfg), ms[|ms| - 1];
      Accepted(ms[..|ms| - 1], cfg) + if Accepts(t, m) then [RecordFor(m, t.nextId)] else []
  }

  function Of(rs: seq<Record>, k: Fleet.Key): (r: seq<Record>)
    ensures forall x :: x in r <==> x in rs && x.key == k
    decreases |rs|
  {
    if rs == [] then []
    else
      var last := rs[|rs| - 1];
      Of(rs[..|rs| - 1], k) + if last.key == k then [last] else []
  }

  function Keys(rs: seq<Record>): (r: seq<Dedupe>)
    ensures |r| == |rs|
  {
    seq(|rs|, i requires 0 <= i < |rs| => rs[i].dedupe)
  }

  ghost predicate Increasing(rs: seq<Record>) {
    forall i, j | 0 <= i < j < |rs| :: rs[i].id < rs[j].id
  }

  ghost predicate Distinct(ds: seq<Dedupe>) {
    forall i, j | 0 <= i < j < |ds| :: ds[i] != ds[j]
  }

  /** The dedupe set always holds exactly the keys of its bounded queue. */
  ghost predicate DedupeOk(t: Table, accepted: seq<Record>) {
    && t.queue == Newest(Keys(accepted), DEDUPE_DEPTH) && Distinct(t.queue)
    && t.seen == Contents(t.queue)
  }

  /** Nothing is lost without being counted: ring and drop counter account for every record. */
  ghost predicate RingOk(t: Table, accepted: seq<Record>, cfg: Config, k: Fleet.Key) {
    && RingOf(t, k) == Newest(Of(accepted, k), cfg.maxPerComponent)
    && |Of(accepted, k)| == |RingOf(t, k)| + DropsOf(t, k)
  }

  ghost predicate RingsOk(t: Table, accepted: seq<Record>, cfg: Config) {
    && t.nextId == |accepted| + 1 && t.all == Newest(accepted, cfg.maxRecords)
    && forall k :: RingOk(t, accepted, cfg, k)
  }

  lemma KeysSnoc(rs: seq<Record>, r: Record)
    ensures Keys(rs + [r]) == Keys(rs) + [r.dedupe]
  {
  }

  lemma OfSnoc(rs: seq<Record>, r: Record, k: Fleet.Key)
    ensures Of(rs + [r], k) == if r.key == k then Of(rs, k) + [r] else Of(rs, k)
  {
    assert (rs + [r])[..|rs|] == rs;
  }

  function Contents(ds: seq<Dedupe>): set<Dedupe> {
    set d <- ds
  }

  lemma DropFirst(ds: seq<Dedupe>)
    requires ds != [] && Distinct(ds)
    ensures Distinct(ds[1..]) && Contents(ds[1..]) == Contents(ds) - {ds[0]}
  {
    assert ds == [ds[0]] + ds[1..];
    assert ds[0] !in ds[1..];
  }

  lemma AddLast(ds: seq<Dedupe>, d: Dedupe)
    requires Distinct(ds) && d !in Contents(ds)
    ensures Distinct(ds + [d]) && Contents(ds + [d]) == Contents(ds) + {d}
  {
  }

  lemma RememberKeeps(t: Table, accepted: seq<Record>, r: Record)
    requires DedupeOk(t, accepted) && r.dedupe !in t.seen
    ensures DedupeOk(Remember(t, r.dedupe), accepted + [r])
  {
    var queue := t.queue + [r.dedupe];
    KeysSnoc(accepted, r);
    NewestPush(Keys(accepted), r.dedupe, DEDUPE_DEPTH);
    AddLast(t.queue, r.dedupe);
    DropFirst(queue);
    hide Contents, Distinct, Keys;
  }

  lemma StoreRing(t: Table, accepted: seq<Record>, r: Record, cfg: Config, k: Fleet.Key)
    requires RingOk(t, accepted, cfg, k)
    ensures RingOk(Store(t, r, cfg), accepted + [r], cfg, k)
  {
    var of := Of(accepted, k);
    OfSnoc(accepted, r, k);
    if k == r.key { NewestPush(of, r, cfg.maxPerComponent); }
    hide Of;
  }

  lemma StoreKeeps(t: Table, accepted: seq<Record>, r: Record, cfg: Config)
    requires RingsOk(t, accepted, cfg)
    ensures RingsOk(Store(t, r, cfg), accepted + [r], cfg)
  {
    hide RingOk, Newest;
    NewestPush(accepted, r, cfg.maxRecords);
    forall k ensures RingOk(Store(t, r, cfg), accepted + [r], cfg, k) {
      StoreRing(t, accepted, r, cfg, k);
    }
  }

  lemma AcceptKeeps(t: Table, accepted: seq<Record>, m: Message, cfg: Config)
    requires DedupeOk(t, accepted) && RingsOk(t, accepted, cfg) && Accepts(t, m)
    ensures var t' := IngestLog(t, m, cfg).0;
            var accepted' := accepted + [RecordFor(m, t.nextId)];
            DedupeOk(t', accepted') && RingsOk(t', accepted', cfg)
  {
    var r := RecordFor(m, t.nextId);
    var t1 := Remember(t, r.dedupe);
    hide DedupeOk, RingsOk, Store;
    RememberKeeps(t, accepted, r);
    RingsIgnoreDedupe(t, t1, accepted, cfg);
    StoreKeeps(t1, accepted, r, cfg);
    assert Store(t1, r, cfg).queue == t1.queue && Store(t1, r, cfg).seen == t1.seen by { StoreFrame(t1, r, cfg); }
    DedupeIgnoresRings(t1, Store(t1, r, cfg), accepted + [r]);
  }

  lemma StoreFrame(t: Table, r: Record, cfg: Config)
    ensures Store(t, r, cfg).queue == t.queue && Store(t, r, cfg).seen == t.seen
  {
  }

  /** Log conservation over every history: rings, drop counters and the dedupe memory all
      follow from the accepted records, whose ids count 1, 2, 3, ... */
  lemma {:induction false} LogConservation(ms: seq<Message>, cfg: Config)
    ensures var t, accepted := Ingested(ms, cfg), Accepted(ms, cfg);
            && DedupeOk(t, accepted) && RingsOk(t, accepted, cfg)
            && forall i | 0 <= i < |accepted| :: accepted[i].id == i + 1
    decreases |ms|
  {
    if ms != [] {
      var before, m := ms[..|ms| - 1], ms[|ms| - 1];
      LogConservation(before, cfg);
      var t, accepted := Ingested(before, cfg), Accepted(before, cfg);
      if Accepts(t, m) {
        AcceptKeeps(t, accepted, m, cfg);
        RingsCount(t, accepted, cfg);
      } else {
        assert accepted + [] == accepted;
      }
      hide DedupeOk, RingsOk, IngestLog, Accepts;
    } else {
      EmptyOk(cfg);
    }
  }

  lemma EmptyOk(cfg: Config)
    ensures DedupeOk(EMPTY, []) && RingsOk(EMPTY, [], cfg)
  {
  }

  lemma RingsCount(t: Table, accepted: seq<Record>, cfg: Config)
    requires RingsOk(t, accepted, cfg)
    ensures t.nextId == |accepted| + 1
  {
  }

  lemma RingsIgnoreDedupe(t: Table, t': Table, accepted: seq<Record>, cfg: Config)
    requires RingsOk(t, accepted, cfg)
    requires t'.nextId == t.nextId && t'.all == t.all && t'.byComponent == t.byComponent && t'.drops == t.drops
    ensures RingsOk(t', accepted, cfg)
  {
    forall k ensures RingOk(t', accepted, cfg, k) {
      assert RingOk(t, accepted, cfg, k);
    }
  }

  lemma DedupeIgnoresRings(t: Table, t': Table, accepted: seq<Record>)
    requires DedupeOk(t, accepted) && t'.queue == t.queue && t'.seen == t.seen
    ensures DedupeOk(t', accepted)
  {
  }

  /** A readable message is refused exactly when it repeats one of the last 2048 accepted. */
  lemma RefusedExactlyWhenRecent(ms: seq<Message>, m: Message, cfg: Config)
    requires Readable(m)
    ensures IngestLog(Ingested(ms, cfg), m, cfg).1.None?
       <==> KeyOf(m) in Newest(Keys(Accepted(ms, cfg)), 2048)
  {
    LogConservation(ms, cfg);
  }

  lemma {:induction false} OfIncreasing(rs: seq<Record>, k: Fleet.Key)
    requires Increasing(rs)
    ensures Increasing(Of(rs, k))
    decreases |rs|
  {
    if rs != [] {
      var n := |rs| - 1;
      OfIncreasing(rs[..n], k);
      assert forall x <- Of(rs[..n], k) :: x in rs[..n];
      forall i | 0 <= i < |Of(rs[..n], k)| ensures Of(rs[..n], k)[i].id < rs[n].id {
        assert Of(rs[..n], k)[i] in rs[..n];
      }
    }
  }

  /** Every component ring runs upwards in ids, with no duplicates. */
  lemma RingsIncrease(ms: seq<Message>, cfg: Config, k: Fleet.Key)
    ensures Increasing(RingOf(Ingested(ms, cfg), k))
  {
    LogConservation(ms, cfg);
    OfIncreasing(Accepted(ms, cfg), k);
    var t := Ingested(ms, cfg);
    assert RingOk(t, Accepted(ms, cfg), cfg, k);
  }

  // ------------------------------------------------------------------ filtered replies

  datatype Query = Query(limit: Option<nat>, levels: Option<seq<string>>, sinceId: Option<nat>)

  predicate Matches(r: Record, q: Query) {
    (q.sinceId.None? || r.id > q.sinceId.value) && (q.levels.None? || r.level in q.levels.value)
  }

  predicate WithinLimit(n: nat, q: Query) {
    q.limit.None? || n < q.limit.value
  }

  ghost predicate Descending(rs: seq<Record>) {
    forall i, j | 0 <= i < j < |rs| :: rs[i].id > rs[j].id
  }

  /** The reply is the newest matching records, newest first: what is left out either does not
      match, or is older than everything shown and the limit is used up. */
  ghost predicate IsReply(reply: seq<Record>, ring: seq<Record>, q: Query) {
    && Descending(reply)
    && (forall r <- reply :: r in ring && (q.sinceId.Some? ==> r.id > q.sinceId.value) && (q.levels.Some? ==> r.level in q.levels.value))
    && (q.limit.Some? ==> |reply| <= q.limit.value)
    && (forall r <- ring :: (q.sinceId.Some? ==> r.id > q.sinceId.value) && (q.levels.Some? ==> r.level in q.levels.value) && r !in reply
          ==> q.limit == Some(|reply|) && forall s <- reply :: r.id < s.id)
  }

  method LogsReply(ring: seq<Record>, q: Query) returns (reply: seq<Record>)
    requires Increasing(ring)
    ensures IsReply(reply, ring, q)
  {
    reply := [];
    var i := |ring|;
    while i > 0 && WithinLimit(|reply|, q)
      invariant 0 <= i <= |ring|
      invariant Descending(reply) && (q.limit.Some? ==> |reply| <= q.limit.value)
      invariant forall r <- reply :: r in ring[i..] && Matches(r, q)
      invariant forall r <- ring[i..] :: Matches(r, q) ==> r in reply
    {
      i := i - 1;
      assert ring[i..] == [ring[i]] + ring[i + 1..];
      if Matches(ring[i], q) {
        forall r | r in reply ensures r.id > ring[i].id {
          assert r in ring[i + 1..];
        }
        reply := reply + [ring[i]];
      }
    }
    forall r | r in ring && Matches(r, q) && r !in reply
      ensures q.limit == Some(|reply|)
      ensures forall s <- reply :: r.id < s.id
    {
      assert r !in ring[i..];
    }
  }

  // ------------------------------------------------------------------ the browser

  predicate DistinctIds(rs: seq<Record>) {
    forall i, j | 0 <= i < j < |rs| :: rs[i].id != rs[j].id
  }

  function InsertDesc(rs: seq<Record>, r: Record): (s: seq<Record>)
    ensures multiset(s) == multiset(rs) + multiset{r}
    ensures |s| == |rs| + 1
  {
    if rs == [] then [r]
    else if rs[0].id < r.id then [r] + rs
    else
      assert rs == [rs[0]] + rs[1..];
      [rs[0]] + InsertDesc(rs[1..], r)
  }

  /** The library sort by descending id. */
  function SortDesc(rs: seq<Record>): (s: seq<Record>)
    ensures multiset(s) == multiset(rs)
    ensures |s| == |rs|
    decreases |rs|
  {
    if rs == [] then []
    else
      assert rs == rs[..|rs| - 1] + [rs[|rs| - 1]];
      InsertDesc(SortDesc(rs[..|rs| - 1]), rs[|rs| - 1])
  }

  function Take(rs: seq<Record>, n: nat): seq<Record> {
    if |rs| <= n then rs else rs[..n]
  }

  function Unseen(rs: seq<Record>, current: seq<Record>): (r: seq<Record>)
    ensures forall x :: x in r <==> x in rs && forall c <- current :: c.id != x.id
  {
    if rs == [] then []
    else
      var rest := Unseen(rs[1..], current);
      if exists c <- current :: c.id == rs[0].id then rest else [rs[0]] + rest
  }

  function FoldRecords(current: seq<Record>, rs: seq<Record>, cap: nat): seq<Record> {
    var unseen := Unseen(rs, current);
    if unseen == [] then current else Take(SortDesc(unseen + current), cap)
  }

  datatype Tail = Tail(records: seq<Record>, dropped: Option<nat>, unavailable: Option<string>)

  class LogStore {
    const cap: nat
    var byId: map<Fleet.Key, Tail>

    constructor (cap: nat)
      ensures byId == map[] && this.cap == cap
    {
      this.cap, byId := cap, map[];
    }

    method ApplySnapshot(key: Fleet.Key, records: seq<Record>, dropped: Option<nat>)
      modifies this
      ensures byId == old(byId)[key := Tail(Take(SortDesc(records), cap), dropped, None)]
    {
      byId := byId[key := Tail(Take(SortDesc(records), cap), dropped, None)];
    }

    method ApplyRecords(key: Fleet.Key, records: seq<Record>, dropped: Option<nat>)
      modifies this
      ensures records == [] && dropped.None? ==> byId == old(byId)
      ensures records != [] || dropped.Some? ==>
        var current := if key in old(byId) then old(byId)[key] else Tail([], None, None);
        byId == old(byId)[key := Tail(FoldRecords(current.records, records, cap), dropped.OrElse(current.dropped), None)]
    {
      if records == [] && dropped.None? {
        return;
      }
      var current := if key in byId then byId[key] else Tail([], None, None);
      var unseen := Unseen(records, current.records);
      var next := current.records;
      if |unseen| > 0 {
        next := Take(SortDesc(unseen + current.records), cap);
      }
      byId := byId[key := Tail(next, dropped.OrElse(current.dropped), None)];
    }

    method ApplyUnavailable(key: Fleet.Key, reason: string)
      modifies this
      ensures byId == old(byId)[key := Tail([], None, Some(reason))]
    {
      byId := byId[key := Tail([], None, Some(reason))];
    }
  }

  // ------------------------------------------------------------------ order independence

  function Members(rs: seq<Record>): set<Record> {
    set r <- rs
  }

  /** `rs` is the `cap` newest of `all`, newest first. */
  ghost predicate IsTop(rs: seq<Record>, all: set<Record>, cap: nat) {
    && Descending(rs) && |rs| <= cap
    && (forall r <- rs :: r in all)
    && (forall r <- all :: r !in rs ==> |rs| == cap && forall s <- rs :: r.id < s.id)
  }

  /** Ids identify records. */
  ghost predicate Identified(all: set<Record>) {
    forall a <- all, b <- all :: a.id == b.id ==> a == b
  }

  lemma {:induction false} InsertDescDescending(rs: seq<Record>, r: Record)
    requires Descending(rs) && forall x <- rs :: x.id != r.id
    ensures Descending(InsertDesc(rs, r))
  {
    if rs != [] && rs[0].id >= r.id {
      InsertDescDescending(rs[1..], r);
      var rest := InsertDesc(rs[1..], r);
      forall i | 0 <= i < |rest| ensures rs[0].id > rest[i].id {
        assert rest[i] in multiset(rest);
      }
    }
  }

  lemma {:induction false} SortDescDescending(rs: seq<Record>)
    requires DistinctIds(rs)
    ensures Descending(SortDesc(rs))
    decreases |rs|
  {
    if rs != [] {
      var n := |rs| - 1;
      SortDescDescending(rs[..n]);
      forall x | x in SortDesc(rs[..n]) ensures x.id != rs[n].id {
        assert x in multiset(rs[..n]);
      }
      InsertDescDescending(SortDesc(rs[..n]), rs[n]);
    }
  }

  lemma SortMembers(rs: seq<Record>, x: Record)
    ensures x in SortDesc(rs) <==> x in rs
  {
    assert x in SortDesc(rs) <==> x in multiset(SortDesc(rs));
  }

  /** What a fold adds: one more batch of records to choose the newest from. */
  lemma FoldIsTop(current: seq<Record>, rs: seq<Record>, all: set<Record>, cap: nat)
    requires IsTop(current, all, cap) && DistinctIds(rs) && Identified(all + Members(rs))
    ensures IsTop(FoldRecords(current, rs, cap), all + Members(rs), cap)
  {
    var unseen := Unseen(rs, current);
    var all' := all + Members(rs);
    forall r | r in rs ensures r in unseen || r in current {
      if r !in unseen {
        var c :| c in current && c.id == r.id;
        assert c in all' && r in all';
      }
    }
    if unseen != [] {
      UnseenDistinct(rs, current);
      ConcatDistinct(unseen, current);
      SortedIsTop(unseen + current, cap);
      TopOfTop(FoldRecords(current, rs, cap), unseen + current, current, all, all', cap);
    }
  }

  lemma {:induction false} UnseenDistinct(rs: seq<Record>, current: seq<Record>)
    requires DistinctIds(rs)
    ensures DistinctIds(Unseen(rs, current))
  {
    if rs != [] {
      UnseenDistinct(rs[1..], current);
      var rest := Unseen(rs[1..], current);
      forall i | 0 <= i < |rest| ensures rest[i].id != rs[0].id {
        assert rest[i] in rs[1..];
      }
    }
  }

  lemma ConcatDistinct(unseen: seq<Record>, current: seq<Record>)
    requires DistinctIds(unseen) && Descending(current)
    requires forall x <- unseen, c <- current :: c.id != x.id
    ensures DistinctIds(unseen + current)
  {
  }

  lemma SortedIsTop(rs: seq<Record>, cap: nat)
    requires DistinctIds(rs)
    ensures IsTop(Take(SortDesc(rs), cap), Members(rs), cap)
  {
    SortDescDescending(rs);
    var s := SortDesc(rs);
    forall x ensures x in s <==> x in rs { SortMembers(rs, x); }
    forall r | r in rs && r !in Take(s, cap)
      ensures |Take(s, cap)| == cap
      ensures forall x <- Take(s, cap) :: r.id < x.id
    {
      assert r in s;
      var i :| 0 <= i < |s| && s[i] == r;
      assert i >= cap;
    }
  }

  /** The newest of (some records and the newest of the rest) are the newest of all. */
  lemma TopOfTop(top: seq<Record>, both: seq<Record>, current: seq<Record>, all: set<Record>, all': set<Record>, cap: nat)
    requires IsTop(top, Members(both), cap) && IsTop(current, all, cap)
    requires forall r <- current :: r in both
    requires forall r <- both :: r in all'
    requires forall r <- all' :: r in all || r in both
    ensures IsTop(top, all', cap)
  {
    forall r | r in all' && r !in top
      ensures |top| == cap
      ensures forall s <- top :: r.id < s.id
    {
      if r !in both {
        OldStaysOut(top, both, current, all, cap, r);
      }
    }
  }

  lemma OldStaysOut(top: seq<Record>, both: seq<Record>, current: seq<Record>, all: set<Record>, cap: nat, r: Record)
    requires IsTop(top, Members(both), cap) && IsTop(current, all, cap)
    requires forall x <- current :: x in both
    requires r in all && r !in current
    ensures |top| == cap && forall s <- top :: r.id < s.id
  {
    if exists x :: x in current && x !in top {
      var x :| x in current && x !in top;
      assert x in both;
    } else {
      DescendingSet(current);
      DescendingSet(top);
      var c, t := Members(current), Members(top);
      SubsetSize(c, t);
      assert c == t;
      assert forall s <- top :: s in t;
    }
  }

  lemma {:induction false} DescendingSet(rs: seq<Record>)
    requires Descending(rs)
    ensures |Members(rs)| == |rs|
  {
    if rs != [] {
      DescendingSet(rs[1..]);
      assert rs == [rs[0]] + rs[1..];
      assert Members(rs) == Members(rs[1..]) + {rs[0]};
      assert rs[0] !in rs[1..];
    }
  }

  lemma SubsetSize(a: set<Record>, b: set<Record>)
    requires a <= b
    ensures |a| <= |b| && (|a| == |b| ==> a == b)
  {
    assert b == a + (b - a);
    assert |b| == |a| + |b - a|;
  }

  /** The newest records determine the list. */
  lemma {:induction false} TopIsUnique(a: seq<Record>, b: seq<Record>, all: set<Record>, cap: nat)
    requires IsTop(a, all, cap) && IsTop(b, all, cap)
    ensures a == b
  {
    SameMembers(a, b, all, cap);
    SameDescending(a, b);
  }

  lemma SameMembers(a: seq<Record>, b: seq<Record>, all: set<Record>, cap: nat)
    requires IsTop(a, all, cap) && IsTop(b, all, cap)
    ensures forall x :: x in a <==> x in b
  {
    DescendingSet(a);
    DescendingSet(b);
    var sa, sb := Members(a), Members(b);
    if forall x <- sa :: x in sb {
      SubsetSize(sa, sb);
      MissingMeansFull(a, b, all, cap);
    } else {
      MissingMeansFull(b, a, all, cap);
      SubsetSize(sb, sa);
    }
    assert forall x :: (x in sa <==> x in a) && (x in sb <==> x in b);
  }

  /** If `a` lacks a member of `b`, it lacks nothing else: it is full of newer ones. */
  lemma MissingMeansFull(a: seq<Record>, b: seq<Record>, all: set<Record>, cap: nat)
    requires IsTop(a, all, cap) && IsTop(b, all, cap)
    ensures (exists x :: x in b && x !in a) ==> |a| == cap
  {
  }

  lemma {:induction false} SameDescending(a: seq<Record>, b: seq<Record>)
    requires Descending(a) && Descending(b) && forall x :: x in a <==> x in b
    ensures a == b
  {
    assert b != [] ==> b[0] in a;
    if a != [] {
      assert a[0] in b && b[0] in a;
      forall x ensures x in a[1..] <==> x in b[1..] {
        assert x in a <==> x == a[0] || x in a[1..];
        assert x in b <==> x == b[0] || x in b[1..];
        assert a[0] !in a[1..] && b[0] !in b[1..];
      }
      SameDescending(a[1..], b[1..]);
    }
  }

  function FoldAll(current: seq<Record>, batches: seq<seq<Record>>, cap: nat): seq<Record>
    decreases |batches|
  {
    if batches == [] then current else FoldAll(FoldRecords(current, batches[0], cap), batches[1..], cap)
  }

  function Pushed(batches: seq<seq<Record>>): set<Record>
    decreases |batches|
  {
    if batches == [] then {} else Members(batches[0]) + Pushed(batches[1..])
  }

  lemma {:induction false} FoldAllIsTop(current: seq<Record>, all: set<Record>, batches: seq<seq<Record>>, cap: nat)
    requires IsTop(current, all, cap) && Identified(all + Pushed(batches))
    requires forall b <- batches :: DistinctIds(b)
    ensures IsTop(FoldAll(current, batches, cap), all + Pushed(batches), cap)
    decreases |batches|
  {
    if batches == [] {
      assert all + Pushed(batches) == all;
    } else {
      var all1 := all + Members(batches[0]);
      assert all1 + Pushed(batches[1..]) == all + Pushed(batches);
      assert Identified(all1) by { assert all1 <= all + Pushed(batches); }
      FoldIsTop(current, batches[0], all, cap);
      hide IsTop, Identified;
      FoldAllIsTop(FoldRecords(current, batches[0], cap), all1, batches[1..], cap);
    }
  }

  /** The tail after a snapshot and any pushes is the `cap` newest records among them all, so
      reordering or repeating pushes changes nothing. */
  lemma TailIsOrderIndependent(snapshot: seq<Record>, a: seq<seq<Record>>, b: seq<seq<Record>>, cap: nat)
    requires DistinctIds(snapshot) && (forall x <- a :: DistinctIds(x)) && (forall x <- b :: DistinctIds(x))
    requires Identified(Members(snapshot) + Pushed(a)) && Pushed(a) == Pushed(b)
    ensures var start := Take(SortDesc(snapshot), cap);
            && IsTop(FoldAll(start, a, cap), Members(snapshot) + Pushed(a), cap)
            && FoldAll(start, a, cap) == FoldAll(start, b, cap)
  {
    hide IsTop, Identified;
    var start := Take(SortDesc(snapshot), cap);
    SortedIsTop(snapshot, cap);
    FoldAllIsTop(start, Members(snapshot), a, cap);
    FoldAllIsTop(start, Members(snapshot), b, cap);
    TopIsUnique(FoldAll(start, a, cap), FoldAll(start, b, cap), Members(snapshot) + Pushed(a), cap);
  }
}
