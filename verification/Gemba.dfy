/**
 The bounded egress coalescer of one application session (gateway/src/gemba.rs): a keyed
 latest-wins table and an ordered queue that share one byte budget.  The class is the
 session; `Session` is its value, and the functions on it are what its methods compute.
 */
module Gemba {
  import opened Basics

  const MAX_ORDERED_FRAMES: nat := 256
  const MAX_PENDING_STATE_FRAMES: nat := 512
  const MAX_PENDING_BYTES: nat := 1024 * 1024

  datatype Family = Fleet | Events | Metrics | Logs | Signals | Attributes | Alarms

  predicate IsOrdered(f: Family) {
    f == Events || f == Logs
  }

  datatype ArrayName = Updates | Deltas | Series

  /** One element of an `updates`/`deltas`/`series` array; `id` is its projected identity,
      numbered in the order of the identities' text. */
  datatype Item = Item(id: nat, seqNo: Option<nat>, body: Json)

  datatype Frame =
    | Snapshot(seqNo: Option<nat>, body: Json)
    | Items(list: ArrayName, items: seq<Item>, header: Json)
    | Backlog(ids: seq<Option<nat>>, body: Json)
    | Event(id: Option<nat>, body: Json)
    | Whole(body: Json)

  /** Slot 0 is the family's snapshot slot, which sorts before every item's. */
  datatype StateKey = StateKey(family: Family, slot: nat)

  datatype Pending = Pending(key: StateKey, frame: Frame, bytes: nat)

  datatype OrderedFrame = OrderedFrame(family: Family, frame: Frame, bytes: nat)

  datatype Session = Session(
    policy: set<Family>, ready: bool, subscriptions: set<Family>,
    state: seq<Pending>, ordered: seq<OrderedFrame>,
    fleetFloor: nat, eventFloor: nat,
    droppedState: nat, droppedOrdered: nat, droppedUpstream: nat)

  // ------------------------------------------------------------------ the keyed table

  function Rank(f: Family): nat {
    match f
    case Fleet => 0
    case Events => 1
    case Metrics => 2
    case Logs => 3
    case Signals => 4
    case Attributes => 5
    case Alarms => 6
  }

  predicate Before(a: StateKey, b: StateKey) {
    Rank(a.family) < Rank(b.family) || (a.family == b.family && a.slot < b.slot)
  }

  ghost predicate Sorted(t: seq<Pending>) {
    forall i, j | 0 <= i < j < |t| :: Before(t[i].key, t[j].key)
  }

  /** The entries of an ordered map whose key satisfies `keep`. */
  function Retain(t: seq<Pending>, keep: StateKey -> bool): (r: seq<Pending>)
    ensures forall p :: p in r <==> p in t && keep(p.key)
    ensures |r| <= |t|
  {
    if t == [] then []
    else
      var rest := Retain(t[1..], keep);
      if keep(t[0].key) then [t[0]] + rest else rest
  }

  function Without(t: seq<Pending>, k: StateKey): (r: seq<Pending>) {
    Retain(t, (x: StateKey) => x != k)
  }

  lemma {:induction false} RetainSorted(t: seq<Pending>, keep: StateKey -> bool)
    requires Sorted(t)
    ensures Sorted(Retain(t, keep)) && StateBytes(Retain(t, keep)) <= StateBytes(t)
  {
    if t != [] {
      RetainSorted(t[1..], keep);
      var rest := Retain(t[1..], keep);
      forall i | 0 <= i < |rest| ensures Before(t[0].key, rest[i].key) {
        assert rest[i] in t[1..];
      }
    }
  }

  function Insert(t: seq<Pending>, p: Pending): (r: seq<Pending>)
    ensures forall q :: q in r <==> q in t || q == p
    ensures |r| == |t| + 1
  {
    if t == [] then [p]
    else if Before(p.key, t[0].key) then [p] + t
    else [t[0]] + Insert(t[1..], p)
  }

  lemma {:induction false} InsertSorted(t: seq<Pending>, p: Pending)
    requires Sorted(t) && forall q <- t :: q.key != p.key
    ensures Sorted(Insert(t, p))
  {
    if t == [] {
    } else if Before(p.key, t[0].key) {
      var r := [p] + t;
      forall j | 1 <= j < |r| ensures Before(p.key, r[j].key) {
        assert r[j] == t[j - 1];
      }
    } else {
      InsertSorted(t[1..], p);
      var rest := Insert(t[1..], p);
      assert Before(t[0].key, p.key) by { DistinctRanks(t[0].key.family, p.key.family); }
      forall i | 0 <= i < |rest| ensures Before(t[0].key, rest[i].key) {
        assert rest[i] in rest;
      }
    }
  }

  lemma DistinctRanks(a: Family, b: Family)
    ensures Rank(a) == Rank(b) <==> a == b
  {
  }

  function StateBytes(t: seq<Pending>): nat {
    if t == [] then 0 else t[0].bytes + StateBytes(t[1..])
  }

  function OrderedBytes(q: seq<OrderedFrame>): nat {
    if q == [] then 0 else q[0].bytes + OrderedBytes(q[1..])
  }

  function Lookup(t: seq<Pending>, k: StateKey): Option<Pending> {
    if t == [] then None
    else if t[0].key == k then Some(t[0])
    else Lookup(t[1..], k)
  }

  lemma {:induction false} InsertBytes(t: seq<Pending>, p: Pending)
    ensures StateBytes(Insert(t, p)) == StateBytes(t) + p.bytes
  {
    if t != [] && !Before(p.key, t[0].key) {
      InsertBytes(t[1..], p);
    }
  }

  lemma {:induction false} RetainAll(t: seq<Pending>, keep: StateKey -> bool)
    requires forall p <- t :: keep(p.key)
    ensures Retain(t, keep) == t
  {
    if t != [] {
      RetainAll(t[1..], keep);
    }
  }

  lemma {:induction false} LookupAbsent(t: seq<Pending>, k: StateKey)
    requires forall p <- t :: p.key != k
    ensures Lookup(t, k) == None
  {
    if t != [] {
      LookupAbsent(t[1..], k);
    }
  }

  lemma {:induction false} RemoveOne(t: seq<Pending>, k: StateKey, keep: StateKey -> bool)
    requires Sorted(t)
    requires forall x :: keep(x) <==> x != k
    ensures var found := Lookup(t, k);
            && StateBytes(t) == StateBytes(Retain(t, keep)) + (if found.Some? then found.value.bytes else 0)
            && |t| == |Retain(t, keep)| + (if found.Some? then 1 else 0)
  {
    if t != [] {
      if t[0].key == k {
        LookupAbsent(t[1..], k);
        RetainAll(t[1..], keep);
      } else {
        RemoveOne(t[1..], k, keep);
      }
    }
  }

  lemma WithoutBytes(t: seq<Pending>, k: StateKey)
    requires Sorted(t)
    ensures var found := Lookup(t, k);
            && StateBytes(t) == StateBytes(Without(t, k)) + (if found.Some? then found.value.bytes else 0)
            && |t| == |Without(t, k)| + (if found.Some? then 1 else 0)
  {
    RemoveOne(t, k, (x: StateKey) => x != k);
  }

  // ------------------------------------------------------------------ making room

  predicate StateFits(state: seq<Pending>, ordered: seq<OrderedFrame>, bytes: nat) {
    |state| < MAX_PENDING_STATE_FRAMES && StateBytes(state) + OrderedBytes(ordered) + bytes <= MAX_PENDING_BYTES
  }

  predicate OrderedFits(state: seq<Pending>, ordered: seq<OrderedFrame>, bytes: nat) {
    |ordered| < MAX_ORDERED_FRAMES && StateBytes(state) + OrderedBytes(ordered) + bytes <= MAX_PENDING_BYTES
  }

  /** Evicts state entries in key order, then ordered frames oldest first, until a new state entry fits. */
  function RoomForState(state: seq<Pending>, ordered: seq<OrderedFrame>, bytes: nat): (seq<Pending>, seq<OrderedFrame>)
    decreases |state| + |ordered|
  {
    if StateFits(state, ordered, bytes) then (state, ordered)
    else if state != [] then RoomForState(state[1..], ordered, bytes)
    else if ordered != [] then RoomForState(state, ordered[1..], bytes)
    else (state, ordered)
  }

  /** The same for an ordered frame: ordered frames go first. */
  function RoomForOrdered(state: seq<Pending>, ordered: seq<OrderedFrame>, bytes: nat): (seq<Pending>, seq<OrderedFrame>)
    decreases |state| + |ordered|
  {
    if OrderedFits(state, ordered, bytes) then (state, ordered)
    else if ordered != [] then RoomForOrdered(state, ordered[1..], bytes)
    else if state != [] then RoomForOrdered(state[1..], ordered, bytes)
    else (state, ordered)
  }

  /** Evictions come from the front only, spare the other queue while they can, and always end
      in a fitting pair. */
  lemma {:induction false} RoomForStateIs(state: seq<Pending>, ordered: seq<OrderedFrame>, bytes: nat)
    requires bytes <= MAX_PENDING_BYTES
    ensures var (s, o) := RoomForState(state, ordered, bytes);
            && IsSuffix(s, state) && IsSuffix(o, ordered)
            && StateFits(s, o, bytes)
            && (o != ordered ==> s == [])
    decreases |state| + |ordered|
  {
    if StateFits(state, ordered, bytes) {
    } else if state != [] {
      RoomForStateIs(state[1..], ordered, bytes);
    } else if ordered != [] {
      RoomForStateIs(state, ordered[1..], bytes);
    }
  }

  lemma {:induction false} RoomForOrderedIs(state: seq<Pending>, ordered: seq<OrderedFrame>, bytes: nat)
    requires bytes <= MAX_PENDING_BYTES
    ensures var (s, o) := RoomForOrdered(state, ordered, bytes);
            && IsSuffix(s, state) && IsSuffix(o, ordered)
            && OrderedFits(s, o, bytes)
            && (s != state ==> o == [])
    decreases |state| + |ordered|
  {
    if OrderedFits(state, ordered, bytes) {
    } else if ordered != [] {
      RoomForOrderedIs(state, ordered[1..], bytes);
    } else if state != [] {
      RoomForOrderedIs(state[1..], ordered, bytes);
    }
  }

  // ------------------------------------------------------------------ pushing

  function PushState(s: Session, key: StateKey, frame: Frame, size: Frame -> nat): Session {
    var bytes := size(frame);
    if bytes > MAX_PENDING_BYTES then
      s.(droppedState := s.droppedState + 1)
    else
      var kept := Without(s.state, key);
      var (state, ordered) := RoomForState(kept, s.ordered, bytes);
      s.(state := Insert(state, Pending(key, frame, bytes)), ordered := ordered,
         droppedState := s.droppedState + |kept| - Min(|kept|, |state|),
         droppedOrdered := s.droppedOrdered + |s.ordered| - Min(|s.ordered|, |ordered|))
  }

  function PushOrdered(s: Session, family: Family, frame: Frame, size: Frame -> nat): Session {
    var bytes := size(frame);
    if bytes > MAX_PENDING_BYTES then
      s.(droppedOrdered := s.droppedOrdered + 1)
    else
      var (state, ordered) := RoomForOrdered(s.state, s.ordered, bytes);
      s.(state := state, ordered := ordered + [OrderedFrame(family, frame, bytes)],
         droppedState := s.droppedState + |s.state| - Min(|s.state|, |state|),
         droppedOrdered := s.droppedOrdered + |s.ordered| - Min(|s.ordered|, |ordered|))
  }

  datatype Keyed = Keyed(key: StateKey, frame: Frame)

  /** A state frame is split into one entry per array element, or kept whole in the snapshot slot. */
  function KeyedPushes(family: Family, frame: Frame): (r: seq<Keyed>)
    ensures forall p <- r :: p.key.family == family
  {
    if frame.Items? && frame.items != [] then
      seq(|frame.items|, i requires 0 <= i < |frame.items| =>
        Keyed(StateKey(family, frame.items[i].id + 1), frame.(items := [frame.items[i]])))
    else
      [Keyed(StateKey(family, 0), frame)]
  }

  function PushKeyed(s: Session, pushes: seq<Keyed>, size: Frame -> nat): Session
    decreases |pushes|
  {
    if pushes == [] then s
    else PushKeyed(PushState(s, pushes[0].key, pushes[0].frame, size), pushes[1..], size)
  }

  function KeepNewer(items: seq<Item>, floor: nat): (r: seq<Item>)
    ensures forall x :: x in r <==> x in items && (x.seqNo.None? || x.seqNo.value > floor)
  {
    if items == [] then []
    else
      var rest := KeepNewer(items[1..], floor);
      if items[0].seqNo.None? || items[0].seqNo.value > floor then [items[0]] + rest else rest
  }

  function NewestOf(seqNos: seq<Option<nat>>, floor: nat): (r: nat)
    ensures r >= floor && forall n <- seqNos :: n.Some? ==> n.value <= r
    decreases |seqNos|
  {
    if seqNos == [] then floor else NewestOf(seqNos[1..], Max(floor, seqNos[0].GetOr(0)))
  }

  function SeqNos(items: seq<Item>): (r: seq<Option<nat>>)
    ensures |r| == |items|
  {
    seq(|items|, i requires 0 <= i < |items| => items[i].seqNo)
  }

  function WithoutFamily(t: seq<Pending>, family: Family): seq<Pending> {
    Retain(t, (k: StateKey) => k.family != family)
  }

  /** Sequence floors: a fleet snapshot retires the family's pending entries, deltas and
      events at or below the floor are discarded. */
  function Normalize(s: Session, family: Family, frame: Frame): (Session, Option<Frame>) {
    if family == Fleet && frame.Snapshot? && frame.seqNo.Some? then
      (s.(fleetFloor := Max(s.fleetFloor, frame.seqNo.value), state := WithoutFamily(s.state, Fleet)), Some(frame))
    else if family == Fleet && frame.Items? && frame.list == Deltas then
      var kept := KeepNewer(frame.items, s.fleetFloor);
      (s.(fleetFloor := NewestOf(SeqNos(kept), s.fleetFloor)),
       if kept == [] then None else Some(frame.(items := kept)))
    else if family == Events && frame.Backlog? then
      (s.(eventFloor := NewestOf(frame.ids, s.eventFloor)), Some(frame))
    else if family == Events && frame.Event? && frame.id.Some? then
      if frame.id.value <= s.eventFloor then (s, None)
      else (s.(eventFloor := frame.id.value), Some(frame))
    else
      (s, Some(frame))
  }

  function PushFrame(s: Session, family: Family, frame: Frame, size: Frame -> nat): Session {
    if !s.ready || family !in s.subscriptions then s
    else
      var (s1, normal) := Normalize(s, family, frame);
      if normal.None? then s1
      else if IsOrdered(family) then PushOrdered(s1, family, normal.value, size)
      else PushKeyed(s1, KeyedPushes(family, normal.value), size)
  }

  // ------------------------------------------------------------------ subscribing, lag, drain

  function KeepState(t: seq<Pending>, families: set<Family>): seq<Pending> {
    Retain(t, (k: StateKey) => k.family in families)
  }

  function KeepOrdered(q: seq<OrderedFrame>, families: set<Family>): (r: seq<OrderedFrame>)
    ensures forall p :: p in r <==> p in q && p.family in families
    ensures |r| <= |q| && OrderedBytes(r) <= OrderedBytes(q)
  {
    if q == [] then []
    else
      var rest := KeepOrdered(q[1..], families);
      if q[0].family in families then [q[0]] + rest else rest
  }

  /** A requested capability: not a string, an unknown name, or a family. */
  datatype Requested = NotAString | UnknownName | Named(family: Family)

  datatype Response = Subscribed(families: set<Family>) | Malformed | Denied

  function Parse(policy: set<Family>, requested: seq<Requested>): Response {
    if requested == [] then Subscribed({})
    else match requested[0]
      case NotAString => Malformed
      case UnknownName => Denied
      case Named(f) =>
        if f !in policy then Denied
        else match Parse(policy, requested[1..])
          case Subscribed(rest) => Subscribed({f} + rest)
          case bad => bad
  }

  function Subscribe(s: Session, requested: seq<Requested>): (Session, Response) {
    var response := Parse(s.policy, requested);
    if response.Subscribed? then
      (s.(subscriptions := response.families, state := KeepState(s.state, response.families),
          ordered := KeepOrdered(s.ordered, response.families)), response)
    else (s, response)
  }

  function MarkResyncRequired(s: Session, skipped: nat): Session {
    s.(state := [], ordered := [], droppedUpstream := s.droppedUpstream + Max(skipped, 1))
  }

  datatype Report = Report(state: seq<Pending>, ordered: seq<OrderedFrame>,
                           droppedState: nat, droppedOrdered: nat, droppedUpstream: nat, resyncRequired: bool)

  function Drain(s: Session): (Session, Option<Report>) {
    if s.state == [] && s.ordered == [] && s.droppedState == 0 && s.droppedOrdered == 0 && s.droppedUpstream == 0 then
      (s, None)
    else
      (s.(state := [], ordered := [], droppedState := 0, droppedOrdered := 0, droppedUpstream := 0),
       Some(Report(s.state, s.ordered, s.droppedState, s.droppedOrdered, s.droppedUpstream,
                   s.droppedState > 0 || s.droppedOrdered > 0 || s.droppedUpstream > 0)))
  }

  // ------------------------------------------------------------------ what every session keeps

  /** Bounded egress: both queues and their shared budget, and nothing pending that the
      subscription or the policy does not cover. */
  ghost predicate ValidSession(s: Session) {
    && Sorted(s.state)
    && |s.state| <= 512 && |s.ordered| <= 256
    && StateBytes(s.state) + OrderedBytes(s.ordered) <= 1048576
    && s.subscriptions <= s.policy
    && (forall p <- s.state :: p.key.family in s.subscriptions && !IsOrdered(p.key.family))
    && (forall p <- s.ordered :: p.family in s.subscriptions && IsOrdered(p.family))
  }

  lemma {:induction false} OrderedBytesSnoc(q: seq<OrderedFrame>, p: OrderedFrame)
    ensures OrderedBytes(q + [p]) == OrderedBytes(q) + p.bytes
  {
    if q != [] {
      assert (q + [p])[1..] == q[1..] + [p];
      OrderedBytesSnoc(q[1..], p);
    }
  }

  lemma SuffixSorted(part: seq<Pending>, whole: seq<Pending>)
    requires Sorted(whole) && IsSuffix(part, whole)
    ensures Sorted(part) && forall p <- part :: p in whole
  {
  }

  /** Adding an entry to a table with room for it. */
  lemma InsertKeepsValid(s: Session, p: Pending)
    requires ValidSession(s) && StateFits(s.state, s.ordered, p.bytes)
    requires p.key.family in s.subscriptions && !IsOrdered(p.key.family)
    requires forall q <- s.state :: q.key != p.key
    ensures ValidSession(s.(state := Insert(s.state, p)))
  {
    InsertBytes(s.state, p);
    InsertSorted(s.state, p);
  }

  lemma EvictKeepsValid(s: Session, state: seq<Pending>, ordered: seq<OrderedFrame>, bytes: nat)
    requires ValidSession(s)
    requires forall p <- state :: p in s.state
    requires IsSuffix(ordered, s.ordered) && Sorted(state)
    requires StateFits(state, ordered, bytes)
    ensures ValidSession(s.(state := state, ordered := ordered))
  {
  }

  lemma DropCountsAside(s: Session, s': Session)
    requires ValidSession(s)
    requires s'.policy == s.policy && s'.subscriptions == s.subscriptions && s'.state == s.state && s'.ordered == s.ordered
    ensures ValidSession(s')
  {
  }

  lemma PushStateKeepsValid(s: Session, key: StateKey, frame: Frame, size: Frame -> nat)
    requires ValidSession(s) && key.family in s.subscriptions && !IsOrdered(key.family)
    ensures ValidSession(PushState(s, key, frame, size))
  {
    var bytes := size(frame);
    if bytes <= MAX_PENDING_BYTES {
      var kept := Without(s.state, key);
      RetainSorted(s.state, (x: StateKey) => x != key);
      RoomForStateIs(kept, s.ordered, bytes);
      var (state, ordered) := RoomForState(kept, s.ordered, bytes);
      SuffixSorted(state, kept);
      EvictKeepsValid(s, state, ordered, bytes);
      var s1 := s.(state := state, ordered := ordered);
      var p := Pending(key, frame, bytes);
      assert forall q <- state :: q.key != p.key;
      hide RoomForState, Retain, Without, IsSuffix, Sorted;
      InsertKeepsValid(s1, p);
      hide ValidSession, Insert, StateFits;
      DropCountsAside(s1.(state := Insert(state, p)), PushState(s, key, frame, size));
    } else {
      hide ValidSession;
      DropCountsAside(s, PushState(s, key, frame, size));
    }
  }

  lemma {:induction false} PushKeyedKeepsValid(s: Session, pushes: seq<Keyed>, size: Frame -> nat)
    requires ValidSession(s)
    requires forall p <- pushes :: p.key.family in s.subscriptions && !IsOrdered(p.key.family)
    ensures ValidSession(PushKeyed(s, pushes, size))
    decreases |pushes|
  {
    if pushes != [] {
      PushStateKeepsValid(s, pushes[0].key, pushes[0].frame, size);
      PushKeyedKeepsValid(PushState(s, pushes[0].key, pushes[0].frame, size), pushes[1..], size);
    }
  }

  /** Evicting from both fronts, then appending a frame there is room for. */
  lemma AppendKeepsValid(s: Session, state: seq<Pending>, ordered: seq<OrderedFrame>, p: OrderedFrame)
    requires ValidSession(s) && p.family in s.subscriptions && IsOrdered(p.family)
    requires IsSuffix(state, s.state) && IsSuffix(ordered, s.ordered) && OrderedFits(state, ordered, p.bytes)
    ensures ValidSession(s.(state := state, ordered := ordered + [p]))
  {
    SuffixSorted(state, s.state);
    SuffixMembers(state, s.state);
    SuffixMembers(ordered, s.ordered);
    OrderedBytesSnoc(ordered, p);
    hide OrderedBytes, StateBytes, IsSuffix, Sorted;
  }

  lemma PushOrderedKeepsValid(s: Session, family: Family, frame: Frame, size: Frame -> nat)
    requires ValidSession(s) && family in s.subscriptions && IsOrdered(family)
    ensures ValidSession(PushOrdered(s, family, frame, size))
  {
    var s' := PushOrdered(s, family, frame, size);
    if size(frame) <= MAX_PENDING_BYTES {
      RoomForOrderedIs(s.state, s.ordered, size(frame));
      var (state, ordered) := RoomForOrdered(s.state, s.ordered, size(frame));
      var p := OrderedFrame(family, frame, size(frame));
      hide RoomForOrdered, OrderedFits, IsSuffix;
      AppendKeepsValid(s, state, ordered, p);
      hide ValidSession;
      DropCountsAside(s.(state := state, ordered := ordered + [p]), s');
    } else {
      hide ValidSession;
      DropCountsAside(s, s');
    }
  }

  lemma PushFrameKeepsValid(s: Session, family: Family, frame: Frame, size: Frame -> nat)
    requires ValidSession(s)
    ensures ValidSession(PushFrame(s, family, frame, size))
  {
    var (s1, normal) := Normalize(s, family, frame);
    RetainSorted(s.state, (k: StateKey) => k.family != Fleet);
    assert ValidSession(s1);
    if s.ready && family in s.subscriptions && normal.Some? {
      if IsOrdered(family) {
        PushOrderedKeepsValid(s1, family, normal.value, size);
      } else {
        PushKeyedKeepsValid(s1, KeyedPushes(family, normal.value), size);
      }
    }
  }

  /** Entry `i` is the first one not to name an allowed family, and decides the refusal. */
  ghost predicate Refuses(policy: set<Family>, requested: seq<Requested>, i: nat, malformed: bool) {
    && i < |requested|
    && (forall j | 0 <= j < i :: requested[j].Named? && requested[j].family in policy)
    && (requested[i].Named? ==> requested[i].family !in policy)
    && (malformed <==> requested[i].NotAString?)
  }

  /** A request is granted exactly when every entry names an allowed family, and then it is
      exactly those families; otherwise the first entry that does not decides the refusal. */
  lemma {:induction false} ParseWithinPolicy(policy: set<Family>, requested: seq<Requested>)
    ensures var r := Parse(policy, requested);
            && (r.Subscribed? <==> forall x <- requested :: x.Named? && x.family in policy)
            && (r.Subscribed? ==> r.families <= policy && forall f :: f in r.families <==> Named(f) in requested)
            && (!r.Subscribed? ==> exists i: nat :: Refuses(policy, requested, i, r.Malformed?))
  {
    if requested != [] {
      var rest := requested[1..];
      ParseWithinPolicy(policy, rest);
      assert requested[0] in requested;
      assert forall x :: x in requested <==> x == requested[0] || x in rest;
      var malformed := Parse(policy, requested).Malformed?;
      if !Parse(policy, requested).Subscribed? {
        if requested[0].Named? && requested[0].family in policy {
          var i: nat :| Refuses(policy, rest, i, malformed);
          assert Refuses(policy, requested, i + 1, malformed);
        } else {
          assert Refuses(policy, requested, 0, malformed);
        }
      }
    }
  }

  lemma SubscribeKeepsValid(s: Session, requested: seq<Requested>)
    requires ValidSession(s)
    ensures ValidSession(Subscribe(s, requested).0)
  {
    ParseWithinPolicy(s.policy, requested);
    var families := Parse(s.policy, requested);
    if families.Subscribed? {
      RetainSorted(s.state, (k: StateKey) => k.family in families.families);
    }
  }

  // ------------------------------------------------------------------ the session object

  class GembaSession {
    const policy: set<Family>
    const size: Frame -> nat
    var ready: bool
    var subscriptions: set<Family>
    var pendingState: seq<Pending>
    var pendingOrdered: seq<OrderedFrame>
    var pendingBytes: nat
    var fleetFloor: nat
    var eventFloor: nat
    var droppedState: nat
    var droppedOrdered: nat
    var droppedUpstream: nat

    ghost function Value(): Session
      reads this
    {
      Session(policy, ready, subscriptions, pendingState, pendingOrdered, fleetFloor, eventFloor,
              droppedState, droppedOrdered, droppedUpstream)
    }

    /** The byte counter is exactly the sum over both queues. */
    ghost predicate Valid()
      reads this
    {
      ValidSession(Value()) && pendingBytes == StateBytes(pendingState) + OrderedBytes(pendingOrdered)
    }

    constructor (policy: set<Family>, size: Frame -> nat)
      ensures Valid() && this.policy == policy && this.size == size
      ensures Value() == Session(policy, false, {}, [], [], 0, 0, 0, 0, 0)
    {
      this.policy, this.size := policy, size;
      ready, subscriptions := false, {};
      pendingState, pendingOrdered, pendingBytes := [], [], 0;
      fleetFloor, eventFloor := 0, 0;
      droppedState, droppedOrdered, droppedUpstream := 0, 0, 0;
    }

    method Hello()
      requires Valid()
      modifies this`ready
      ensures Valid() && Value() == old(Value()).(ready := true)
    {
      ready := true;
    }

    method HandleSubscribe(requested: seq<Requested>) returns (response: Response)
      requires Valid()
      modifies this
      ensures Valid() && (Value(), response) == Subscribe(old(Value()), requested)
    {
      SubscribeKeepsValid(Value(), requested);
      hide ValidSession, KeepState, KeepOrdered, StateBytes, OrderedBytes;
      var parsed := {};
      for i := 0 to |requested|
        invariant Value() == old(Value()) && Valid()
        invariant match Parse(policy, requested[i..])
          case Subscribed(rest) => Parse(policy, requested) == Subscribed(parsed + rest)
          case bad => Parse(policy, requested) == bad
      {
        assert requested[i..][0] == requested[i] && requested[i..][1..] == requested[i + 1..];
        match requested[i] {
          case NotAString => return Malformed;
          case UnknownName => return Denied;
          case Named(family) =>
            if family !in policy {
              return Denied;
            }
            parsed := parsed + {family};
        }
      }
      subscriptions := parsed;
      PurgeUnsubscribed();
      response := Subscribed(subscriptions);
    }

    method PurgeUnsubscribed()
      modifies this`pendingState, this`pendingOrdered, this`pendingBytes
      ensures Value() == old(Value()).(state := KeepState(old(pendingState), subscriptions),
                                       ordered := KeepOrdered(old(pendingOrdered), subscriptions))
      ensures pendingBytes == StateBytes(pendingState) + OrderedBytes(pendingOrdered)
    {
      pendingState := KeepState(pendingState, subscriptions);
      pendingOrdered := KeepOrdered(pendingOrdered, subscriptions);
      pendingBytes := StateBytes(pendingState) + OrderedBytes(pendingOrdered);
    }

    method MakeRoomForState(bytes: nat)
      requires bytes <= MAX_PENDING_BYTES && pendingBytes == StateBytes(pendingState) + OrderedBytes(pendingOrdered)
      modifies this`pendingState, this`pendingOrdered, this`pendingBytes, this`droppedState, this`droppedOrdered
      ensures pendingBytes == StateBytes(pendingState) + OrderedBytes(pendingOrdered)
      ensures (pendingState, pendingOrdered) == RoomForState(old(pendingState), old(pendingOrdered), bytes)
      ensures |pendingState| <= |old(pendingState)| && |pendingOrdered| <= |old(pendingOrdered)|
      ensures droppedState == old(droppedState) + |old(pendingState)| - |pendingState|
      ensures droppedOrdered == old(droppedOrdered) + |old(pendingOrdered)| - |pendingOrdered|
    {
      while |pendingState| >= MAX_PENDING_STATE_FRAMES || pendingBytes + bytes > MAX_PENDING_BYTES
        invariant pendingBytes == StateBytes(pendingState) + OrderedBytes(pendingOrdered)
        invariant |pendingState| <= |old(pendingState)| && |pendingOrdered| <= |old(pendingOrdered)|
        invariant RoomForState(pendingState, pendingOrdered, bytes) == RoomForState(old(pendingState), old(pendingOrdered), bytes)
        invariant droppedState == old(droppedState) + |old(pendingState)| - |pendingState|
        invariant droppedOrdered == old(droppedOrdered) + |old(pendingOrdered)| - |pendingOrdered|
        decreases |pendingState| + |pendingOrdered|
      {
        if pendingState != [] {
          pendingBytes := pendingBytes - pendingState[0].bytes;
          pendingState := pendingState[1..];
          droppedState := droppedState + 1;
        } else {
          // with both queues empty every admissible frame fits, so there is an ordered frame to evict
          pendingBytes := pendingBytes - pendingOrdered[0].bytes;
          pendingOrdered := pendingOrdered[1..];
          droppedOrdered := droppedOrdered + 1;
        }
      }
    }

    method PushStateEntry(key: StateKey, frame: Frame)
      requires Valid() && key.family in subscriptions && !IsOrdered(key.family)
      modifies this`pendingState, this`pendingOrdered, this`pendingBytes, this`droppedState, this`droppedOrdered
      ensures Valid() && Value() == PushState(old(Value()), key, frame, size)
    {
      hide RoomForState, Retain, Without, Insert, StateBytes, OrderedBytes, Sorted;
      PushStateKeepsValid(Value(), key, frame, size);
      var bytes := size(frame);
      if bytes > MAX_PENDING_BYTES {
        droppedState := droppedState + 1;
        return;
      }
      WithoutBytes(pendingState, key);
      var replaced := Lookup(pendingState, key);
      pendingState := Without(pendingState, key);
      if replaced.Some? {
        pendingBytes := pendingBytes - replaced.value.bytes;
      }
      MakeRoomForState(bytes);
      pendingBytes := pendingBytes + bytes;
      InsertBytes(pendingState, Pending(key, frame, bytes));
      pendingState := Insert(pendingState, Pending(key, frame, bytes));
    }

    method MakeRoomForOrdered(bytes: nat)
      requires bytes <= MAX_PENDING_BYTES && pendingBytes == StateBytes(pendingState) + OrderedBytes(pendingOrdered)
      modifies this`pendingState, this`pendingOrdered, this`pendingBytes, this`droppedState, this`droppedOrdered
      ensures pendingBytes == StateBytes(pendingState) + OrderedBytes(pendingOrdered)
      ensures (pendingState, pendingOrdered) == RoomForOrdered(old(pendingState), old(pendingOrdered), bytes)
      ensures |pendingState| <= |old(pendingState)| && |pendingOrdered| <= |old(pendingOrdered)|
      ensures droppedState == old(droppedState) + |old(pendingState)| - |pendingState|
      ensures droppedOrdered == old(droppedOrdered) + |old(pendingOrdered)| - |pendingOrdered|
    {
      while |pendingOrdered| >= MAX_ORDERED_FRAMES || pendingBytes + bytes > MAX_PENDING_BYTES
        invariant pendingBytes == StateBytes(pendingState) + OrderedBytes(pendingOrdered)
        invariant |pendingState| <= |old(pendingState)| && |pendingOrdered| <= |old(pendingOrdered)|
        invariant RoomForOrdered(pendingState, pendingOrdered, bytes) == RoomForOrdered(old(pendingState), old(pendingOrdered), bytes)
        invariant droppedState == old(droppedState) + |old(pendingState)| - |pendingState|
        invariant droppedOrdered == old(droppedOrdered) + |old(pendingOrdered)| - |pendingOrdered|
        decreases |pendingState| + |pendingOrdered|
      {
        if pendingOrdered != [] {
          pendingBytes := pendingBytes - pendingOrdered[0].bytes;
          pendingOrdered := pendingOrdered[1..];
          droppedOrdered := droppedOrdered + 1;
        } else {
          pendingBytes := pendingBytes - pendingState[0].bytes;
          pendingState := pendingState[1..];
          droppedState := droppedState + 1;
        }
      }
    }

    method PushOrderedFrame(family: Family, frame: Frame)
      requires Valid() && family in subscriptions && IsOrdered(family)
      modifies this`pendingState, this`pendingOrdered, this`pendingBytes, this`droppedState, this`droppedOrdered
      ensures Valid() && Value() == PushOrdered(old(Value()), family, frame, size)
    {
      hide RoomForOrdered, StateBytes, OrderedBytes, Sorted;
      PushOrderedKeepsValid(Value(), family, frame, size);
      var bytes := size(frame);
      if bytes > MAX_PENDING_BYTES {
        droppedOrdered := droppedOrdered + 1;
        return;
      }
      MakeRoomForOrdered(bytes);
      pendingBytes := pendingBytes + bytes;
      OrderedBytesSnoc(pendingOrdered, OrderedFrame(family, frame, bytes));
      pendingOrdered := pendingOrdered + [OrderedFrame(family, frame, bytes)];
    }

    method NormalizeSequence(family: Family, frame: Frame) returns (normal: Option<Frame>)
      requires Valid()
      modifies this`fleetFloor, this`eventFloor, this`pendingState, this`pendingBytes
      ensures Valid() && (Value(), normal) == Normalize(old(Value()), family, frame)
    {
      normal := Some(frame);
      if family == Fleet {
        if frame.Snapshot? {
          if frame.seqNo.Some? {
            fleetFloor := Max(fleetFloor, frame.seqNo.value);
            RetainSorted(pendingState, (k: StateKey) => k.family != Fleet);
            pendingState := WithoutFamily(pendingState, Fleet);
            pendingBytes := StateBytes(pendingState) + OrderedBytes(pendingOrdered);
          }
        } else if frame.Items? && frame.list == Deltas {
          var kept := KeepNewer(frame.items, fleetFloor);
          fleetFloor := NewestOf(SeqNos(kept), fleetFloor);
          normal := if kept == [] then None else Some(frame.(items := kept));
        }
      } else if family == Events {
        if frame.Backlog? {
          eventFloor := NewestOf(frame.ids, eventFloor);
        } else if frame.Event? && frame.id.Some? {
          if frame.id.value <= eventFloor {
            return None;
          }
          eventFloor := frame.id.value;
        }
      }
    }

    method Push(family: Family, frame: Frame)
      requires Valid()
      modifies this
      ensures Valid() && Value() == PushFrame(old(Value()), family, frame, size)
    {
      hide ValidSession, PushState, PushOrdered, Normalize, KeyedPushes;
      if !ready || family !in subscriptions {
        return;
      }
      var normal := NormalizeSequence(family, frame);
      if normal.None? {
        return;
      }
      if IsOrdered(family) {
        PushOrderedFrame(family, normal.value);
        return;
      }
      var pushes := KeyedPushes(family, normal.value);
      ghost var start := Value();
      for i := 0 to |pushes|
        invariant Valid() && family in subscriptions
        invariant PushKeyed(Value(), pushes[i..], size) == PushKeyed(start, pushes, size)
      {
        assert pushes[i..][0] == pushes[i] && pushes[i..][1..] == pushes[i + 1..];
        PushStateEntry(pushes[i].key, pushes[i].frame);
      }
    }

    method MarkLag(skipped: nat)
      requires Valid()
      modifies this`pendingState, this`pendingOrdered, this`pendingBytes, this`droppedUpstream
      ensures Valid() && Value() == MarkResyncRequired(old(Value()), skipped)
    {
      pendingState, pendingOrdered, pendingBytes := [], [], 0;
      droppedUpstream := droppedUpstream + Max(skipped, 1);
    }

    method DrainUpdates() returns (report: Option<Report>)
      requires Valid()
      modifies this
      ensures Valid() && (Value(), report) == Drain(old(Value()))
    {
      if pendingState == [] && pendingOrdered == [] && droppedState == 0 && droppedOrdered == 0 && droppedUpstream == 0 {
        return None;
      }
      report := Some(Report(pendingState, pendingOrdered, droppedState, droppedOrdered, droppedUpstream,
                            droppedState > 0 || droppedOrdered > 0 || droppedUpstream > 0));
      pendingState, pendingOrdered, pendingBytes := [], [], 0;
      droppedState, droppedOrdered, droppedUpstream := 0, 0, 0;
    }
  }
}
