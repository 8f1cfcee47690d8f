/**
 The components tree (ui/src/components/components-tree.ts): a trie over the hierarchy
 values of the matching components, with the containment flag propagated up the path.
 */
module ComponentTree {
  import opened Basics
  import Fleet

  datatype Segment = Segment(level: string, value: string)

  datatype Comp = Comp(key: Fleet.Key, hier: seq<Segment>, liveness: Fleet.Liveness)

  datatype Device = Device(down: bool, components: seq<Comp>)

  /** A trie node; the forest of the tree is the children of one unnamed group. */
  datatype Group = Group(level: string, value: string, children: seq<Group>, components: seq<Comp>, down: bool)

  const ROOT := Group("", "", [], [], false)

  /** Components without an advertised hierarchy are grouped by their device alone. */
  function Segments(c: Comp): seq<Segment> {
    if c.hier != [] then c.hier else [Segment("device", c.key.device)]
  }

  function Values(segs: seq<Segment>): (r: seq<string>)
    ensures |r| == |segs|
  {
    seq(|segs|, i requires 0 <= i < |segs| => segs[i].value)
  }

  function PathOf(c: Comp): seq<string> {
    Values(Segments(c))
  }

  /** Where the child with this value is, or one past the end; children are keyed by value only. */
  function IndexOf(children: seq<Group>, value: string): (i: nat)
    ensures i <= |children| && (i < |children| ==> children[i].value == value)
    ensures forall j | 0 <= j < i :: children[j].value != value
  {
    if children == [] then 0
    else if children[0].value == value then 0
    else 1 + IndexOf(children[1..], value)
  }

  function ChildOr(g: Group, s: Segment): (child: Group)
    ensures child.value == s.value
  {
    var i := IndexOf(g.children, s.value);
    if i < |g.children| then g.children[i] else Group(s.level, s.value, [], [], false)
  }

  function PutChild(g: Group, child: Group): Group {
    g.(children := PutIn(g.children, child))
  }

  /** Walks or creates the group path and attaches the component at its end. */
  function Insert(g: Group, segs: seq<Segment>, c: Comp): (r: Group)
    ensures r.value == g.value && r.down == g.down
    decreases |segs|
  {
    if segs == [] then g.(components := g.components + [c])
    else PutChild(g, Insert(ChildOr(g, segs[0]), segs[1..], c))
  }

  /** Marks every existing group of the path. */
  function Mark(g: Group, segs: seq<Segment>): (r: Group)
    ensures r.value == g.value && r.down == g.down
    decreases |segs|
  {
    if segs == [] || IndexOf(g.children, segs[0].value) == |g.children| then g
    else PutChild(g, Mark(ChildOr(g, segs[0]).(down := true), segs[1..]))
  }

  datatype Item = Item(comp: Comp, deviceDown: bool)

  function Place(g: Group, item: Item): Group {
    var g1 := Insert(g, Segments(item.comp), item.comp);
    if item.deviceDown then Mark(g1, Segments(item.comp)) else g1
  }

  function Build(items: seq<Item>): Group
    decreases |items|
  {
    if items == [] then ROOT else Place(Build(items[..|items| - 1]), items[|items| - 1])
  }

  /** The matching components of the fleet, each with its device's flag, in fleet order. */
  function Matching(devices: seq<Device>, keep: Comp -> bool): seq<Item>
    decreases |devices|
  {
    if devices == [] then []
    else
      var d := devices[|devices| - 1];
      Matching(devices[..|devices| - 1], keep) + MatchingOf(d, |d.components|, keep)
  }

  function MatchingOf(d: Device, n: nat, keep: Comp -> bool): seq<Item>
    requires n <= |d.components|
  {
    if n == 0 then []
    else
      var c := d.components[n - 1];
      MatchingOf(d, n - 1, keep) + if keep(c) then [Item(c, d.down)] else []
  }

  lemma BuildSnoc(items: seq<Item>, item: Item)
    ensures Build(items + [item]) == Place(Build(items), item)
  {
    assert (items + [item])[..|items|] == items;
  }

  lemma MatchingSnoc(devices: seq<Device>, i: nat, keep: Comp -> bool)
    requires i < |devices|
    ensures Matching(devices[..i + 1], keep) == Matching(devices[..i], keep) + MatchingOf(devices[i], |devices[i].components|, keep)
  {
    assert devices[..i + 1][..i] == devices[..i];
  }

  lemma NoneMatching(before: seq<Item>, d: Device, keep: Comp -> bool)
    ensures before + MatchingOf(d, 0, keep) == before
  {
  }

  lemma MatchingStep(before: seq<Item>, d: Device, j: nat, keep: Comp -> bool)
    requires j < |d.components|
    ensures before + MatchingOf(d, j + 1, keep)
         == if keep(d.components[j]) then before + MatchingOf(d, j, keep) + [Item(d.components[j], d.down)]
            else before + MatchingOf(d, j, keep)
  {
  }

  method BuildComponentTree(devices: seq<Device>, keep: Comp -> bool) returns (root: Group, total: nat)
    ensures root == Build(Matching(devices, keep)) && total == |Matching(devices, keep)|
  {
    root, total := ROOT, 0;
    for i := 0 to |devices|
      invariant root == Build(Matching(devices[..i], keep)) && total == |Matching(devices[..i], keep)|
    {
      MatchingSnoc(devices, i, keep);
      root, total := PlaceDevice(root, total, devices[i], keep, Matching(devices[..i], keep));
    }
    assert devices[..|devices|] == devices;
  }

  method PlaceDevice(start: Group, count: nat, device: Device, keep: Comp -> bool, ghost before: seq<Item>)
    returns (root: Group, total: nat)
    requires start == Build(before) && count == |before|
    ensures var items := before + MatchingOf(device, |device.components|, keep);
            root == Build(items) && total == |items|
  {
    hide Build, Place, MatchingOf;
    root, total := start, count;
    ghost var items := before;
    NoneMatching(before, device, keep);
    for j := 0 to |device.components|
      invariant items == before + MatchingOf(device, j, keep)
      invariant root == Build(items) && total == |items|
    {
      var comp := device.components[j];
      MatchingStep(before, device, j, keep);
      if !keep(comp) {
        continue;
      }
      BuildSnoc(items, Item(comp, device.down));
      items := items + [Item(comp, device.down)];
      total := total + 1;
      root := PlaceComponent(root, comp, device.down);
    }
  }

  method PlaceComponent(start: Group, comp: Comp, deviceDown: bool) returns (root: Group)
    ensures root == Place(start, Item(comp, deviceDown))
  {
    root := Insert(start, Segments(comp), comp);
    if deviceDown {
      root := Mark(root, Segments(comp));
    }
  }

  // ------------------------------------------------------------------ looking up groups

  function Find(g: Group, p: seq<string>): Option<Group>
    decreases |p|
  {
    if p == [] then Some(g)
    else
      var i := IndexOf(g.children, p[0]);
      if i < |g.children| then Find(g.children[i], p[1..]) else None
  }

  function Has(g: Group, p: seq<string>): bool {
    Find(g, p).Some?
  }

  function Direct(g: Group, p: seq<string>): seq<Comp> {
    if Has(g, p) then Find(g, p).value.components else []
  }

  function IsDown(g: Group, p: seq<string>): bool {
    Has(g, p) && Find(g, p).value.down
  }

  /** Every component at or beneath a group. */
  function Under(g: Group): seq<Comp>
    decreases g, 1, 0
  {
    g.components + UnderChildren(g, |g.children|)
  }

  function UnderChildren(g: Group, n: nat): seq<Comp>
    requires n <= |g.children|
    decreases g, 0, n
  {
    if n == 0 then [] else UnderChildren(g, n - 1) + Under(g.children[n - 1])
  }

  function PutIn(children: seq<Group>, child: Group): seq<Group> {
    var i := IndexOf(children, child.value);
    if i < |children| then children[i := child] else children + [child]
  }

  lemma PutInStep(children: seq<Group>, child: Group)
    requires children != []
    ensures PutIn(children, child) == if children[0].value == child.value then [child] + children[1..]
                                      else [children[0]] + PutIn(children[1..], child)
  {
  }

  lemma IndexStep(head: Group, tail: seq<Group>, value: string)
    ensures IndexOf([head] + tail, value) == if head.value == value then 0 else 1 + IndexOf(tail, value)
  {
    assert ([head] + tail)[1..] == tail;
  }

  lemma {:induction false} IndexAfterPut(children: seq<Group>, child: Group, value: string)
    ensures var i, r := IndexOf(children, child.value), PutIn(children, child);
            IndexOf(r, value) == if value == child.value then i
                                 else if IndexOf(children, value) == |children| then |r| else IndexOf(children, value)
  {
    if children == [] {
      IndexStep(child, [], value);
      assert [child] + [] == [child] && PutIn(children, child) == [child];
    } else {
      IndexAfterPut(children[1..], child, value);
      PutInStep(children, child);
      assert children == [children[0]] + children[1..];
      IndexStep(children[0], children[1..], value);
      IndexStep(child, children[1..], value);
      IndexStep(children[0], PutIn(children[1..], child), value);
    }
  }

  /** Lookup after replacing one child. */
  lemma FindAfterPut(g: Group, child: Group, p: seq<string>)
    requires p != []
    ensures Find(PutChild(g, child), p) == if p[0] == child.value then Find(child, p[1..]) else Find(g, p)
  {
    IndexAfterPut(g.children, child, p[0]);
  }

  lemma FindInChild(g: Group, s: Segment, p: seq<string>)
    requires p != [] && p[0] == s.value
    ensures Find(g, p) == if IndexOf(g.children, s.value) < |g.children| then Find(ChildOr(g, s), p[1..]) else None
  {
  }

  lemma ValuesStep(segs: seq<Segment>)
    requires segs != []
    ensures Values(segs) == [segs[0].value] + Values(segs[1..])
  {
  }

  lemma PrefixStep(p: seq<string>, head: string, tail: seq<string>)
    requires p != []
    ensures p <= [head] + tail <==> p[0] == head && p[1..] <= tail
    ensures p == [head] + tail <==> p[0] == head && p[1..] == tail
  {
    assert p == [p[0]] + p[1..];
  }

  /** A placed component goes to the group of exactly its path, which exists from then on. */
  lemma {:induction false} InsertFind(g: Group, segs: seq<Segment>, c: Comp, p: seq<string>)
    ensures var r, q := Insert(g, segs, c), Values(segs);
            && (Has(r, p) <==> Has(g, p) || p <= q)
            && Direct(r, p) == Direct(g, p) + (if p == q then [c] else [])
            && (IsDown(r, p) <==> IsDown(g, p))
    decreases |segs|
  {
    if segs == [] {
      if p != [] { assert Find(g.(components := g.components + [c]), p) == Find(g, p); }
    } else if p == [] {
    } else {
      var s := segs[0];
      var child := ChildOr(g, s);
      var child' := Insert(child, segs[1..], c);
      ValuesStep(segs);
      PrefixStep(p, s.value, Values(segs[1..]));
      FindAfterPut(g, child', p);
      if p[0] == s.value {
        FindInChild(g, s, p);
        InsertFind(child, segs[1..], c, p[1..]);
        NewChildFinds(g, s, p[1..]);
      }
    }
  }

  lemma NewChildFinds(g: Group, s: Segment, p: seq<string>)
    ensures IndexOf(g.children, s.value) == |g.children| ==>
              Direct(ChildOr(g, s), p) == [] && !IsDown(ChildOr(g, s), p) && (Has(ChildOr(g, s), p) <==> p == [])
  {
  }

  /** Marking sets the flag of the groups on the path and of no other. */
  lemma {:induction false} MarkFind(g: Group, segs: seq<Segment>, p: seq<string>)
    requires Has(g, Values(segs)) && p != []
    ensures var r, q := Mark(g, segs), Values(segs);
            && Has(r, p) == Has(g, p) && Direct(r, p) == Direct(g, p)
            && (IsDown(r, p) <==> IsDown(g, p) || p <= q)
    decreases |segs|
  {
    if segs != [] {
      var s := segs[0];
      ValuesStep(segs);
      FindInChild(g, s, Values(segs));
      assert Values(segs)[1..] == Values(segs[1..]);
      var child := ChildOr(g, s).(down := true);
      var child' := Mark(child, segs[1..]);
      PrefixStep(p, s.value, Values(segs[1..]));
      FindAfterPut(g, child', p);
      if p[0] == s.value {
        FindInChild(g, s, p);
        assert Find(child, Values(segs[1..])).Some? by { RecolourFind(ChildOr(g, s), Values(segs[1..])); }
        RecolourFind(ChildOr(g, s), p[1..]);
        if p[1..] != [] { MarkFind(child, segs[1..], p[1..]); } else { MarkComponents(child, segs[1..]); }
      }
    }
  }

  lemma RecolourFind(g: Group, p: seq<string>)
    ensures Has(g.(down := true), p) == Has(g, p) && Direct(g.(down := true), p) == Direct(g, p)
    ensures p != [] ==> IsDown(g.(down := true), p) == IsDown(g, p)
  {
  }

  lemma MarkComponents(g: Group, segs: seq<Segment>)
    ensures Mark(g, segs).components == g.components
  {
  }

  // ------------------------------------------------------------------ what the tree shows

  function DirectItems(items: seq<Item>, p: seq<string>): seq<Comp>
    decreases |items|
  {
    if items == [] then []
    else DirectItems(items[..|items| - 1], p) + if PathOf(items[|items| - 1].comp) == p then [items[|items| - 1].comp] else []
  }

  ghost predicate SomeBelow(items: seq<Item>, p: seq<string>, onlyDown: bool) {
    exists x <- items :: p <= PathOf(x.comp) && (onlyDown ==> x.deviceDown)
  }

  lemma SomeBelowSnoc(items: seq<Item>, x: Item, p: seq<string>, onlyDown: bool)
    ensures SomeBelow(items + [x], p, onlyDown) <==>
              SomeBelow(items, p, onlyDown) || (p <= PathOf(x.comp) && (onlyDown ==> x.deviceDown))
  {
    if SomeBelow(items, p, onlyDown) {
      var y :| y in items && p <= PathOf(y.comp) && (onlyDown ==> y.deviceDown);
      assert y in items + [x];
    }
    assert x in items + [x];
  }

  /** What placing one component does to every group. */
  lemma PlaceFind(g: Group, x: Item, p: seq<string>)
    requires p != []
    ensures var r, q := Place(g, x), PathOf(x.comp);
            && (Has(r, p) <==> Has(g, p) || p <= q)
            && Direct(r, p) == Direct(g, p) + (if q == p then [x.comp] else [])
            && (IsDown(r, p) <==> IsDown(g, p) || (p <= q && x.deviceDown))
  {
    hide Has, Direct, IsDown, Insert, Mark, Values, Segments;
    var segs := Segments(x.comp);
    InsertFind(g, segs, x.comp, p);
    if x.deviceDown {
      InsertFind(g, segs, x.comp, Values(segs));
      MarkFind(Insert(g, segs, x.comp), segs, p);
    }
  }

  lemma DirectSnoc(items: seq<Item>, x: Item, p: seq<string>)
    ensures DirectItems(items + [x], p) == DirectItems(items, p) + if PathOf(x.comp) == p then [x.comp] else []
  {
    assert (items + [x])[..|items|] == items;
  }

  lemma RootFind(p: seq<string>)
    requires p != []
    ensures !Has(ROOT, p) && Direct(ROOT, p) == [] && !IsDown(ROOT, p)
  {
  }

  /** The tree is the grouping of the matching components by path: a group exists exactly on the
      paths of components, holds exactly the components of its path in fleet order, and is
      flagged exactly when a component of an unreachable device lies at or beneath it. */
  lemma {:induction false} TreeGroupsByPath(items: seq<Item>, p: seq<string>)
    requires p != []
    ensures var g := Build(items);
            && (Has(g, p) <==> SomeBelow(items, p, false))
            && Direct(g, p) == DirectItems(items, p)
            && (IsDown(g, p) <==> SomeBelow(items, p, true))
    decreases |items|
  {
    if items == [] {
      RootFind(p);
    } else {
      var n := |items| - 1;
      var before, x := items[..n], items[n];
      TreeGroupsByPath(before, p);
      assert items == before + [x];
      hide Has, Direct, IsDown, SomeBelow, Build, DirectItems, Place, PathOf;
      BuildSnoc(before, x);
      DirectSnoc(before, x, p);
      SomeBelowSnoc(before, x, p, false);
      SomeBelowSnoc(before, x, p, true);
      PlaceFind(Build(before), x, p);
    }
  }

  // ------------------------------------------------------------------ levels, paths and the filter

  function LevelOf(g: Group, p: seq<string>): Option<string> {
    if Has(g, p) then Some(Find(g, p).value.level) else None
  }

  /** A placed component names the levels of the groups it creates, and of no other. */
  lemma {:induction false} InsertLevel(g: Group, segs: seq<Segment>, c: Comp, p: seq<string>)
    requires p != []
    ensures LevelOf(Insert(g, segs, c), p)
         == if !Has(g, p) && p <= Values(segs) then Some(segs[|p| - 1].level) else LevelOf(g, p)
    decreases |segs|
  {
    if segs == [] {
      assert Find(g.(components := g.components + [c]), p) == Find(g, p);
    } else {
      var s := segs[0];
      var child := ChildOr(g, s);
      var child' := Insert(child, segs[1..], c);
      ValuesStep(segs);
      PrefixStep(p, s.value, Values(segs[1..]));
      FindAfterPut(g, child', p);
      if p[0] == s.value {
        FindInChild(g, s, p);
        if p[1..] != [] {
          InsertLevel(child, segs[1..], c, p[1..]);
          NewChildFinds(g, s, p[1..]);
        } else {
          InsertNamesNothing(child, segs[1..], c);
        }
      }
    }
  }

  lemma InsertNamesNothing(g: Group, segs: seq<Segment>, c: Comp)
    ensures Insert(g, segs, c).level == g.level
  {
  }

  lemma {:induction false} MarkLevel(g: Group, segs: seq<Segment>, p: seq<string>)
    requires p != []
    ensures LevelOf(Mark(g, segs), p) == LevelOf(g, p)
    decreases |segs|
  {
    if segs != [] && IndexOf(g.children, segs[0].value) < |g.children| {
      var s := segs[0];
      var child := ChildOr(g, s).(down := true);
      var child' := Mark(child, segs[1..]);
      FindAfterPut(g, child', p);
      if p[0] == s.value {
        FindInChild(g, s, p);
        if p[1..] != [] {
          MarkLevel(child, segs[1..], p[1..]);
          assert Find(child, p[1..]) == Find(ChildOr(g, s), p[1..]);
        } else {
          MarkNamesNothing(child, segs[1..]);
        }
      }
    }
  }

  lemma MarkNamesNothing(g: Group, segs: seq<Segment>)
    ensures Mark(g, segs).level == g.level
  {
  }

  /** The first component on a path names the level of its group. */
  function FirstLevel(items: seq<Item>, p: seq<string>): Option<string>
    requires p != []
    decreases |items|
  {
    if items == [] then None
    else
      var before, x := FirstLevel(items[..|items| - 1], p), items[|items| - 1];
      if before.Some? then before
      else if p <= PathOf(x.comp) then Some(Segments(x.comp)[|p| - 1].level)
      else None
  }

  lemma {:induction false} TreeLevels(items: seq<Item>, p: seq<string>)
    requires p != []
    ensures LevelOf(Build(items), p) == FirstLevel(items, p)
    decreases |items|
  {
    if items != [] {
      var n := |items| - 1;
      var before, x := items[..n], items[n];
      TreeLevels(before, p);
      var segs := Segments(x.comp);
      InsertLevel(Build(before), segs, x.comp, p);
      MarkLevel(Insert(Build(before), segs, x.comp), segs, p);
    }
  }

  /** A component's path: the values of its hierarchy, or its device alone when it has none. */
  lemma PathIs(c: Comp)
    ensures PathOf(c) != []
    ensures if c.hier == [] then PathOf(c) == [c.key.device]
            else |PathOf(c)| == |c.hier| && forall i | 0 <= i < |c.hier| :: PathOf(c)[i] == c.hier[i].value
  {
  }

  /** Where an item comes from: device, and place among its components. */
  datatype Spot = Spot(device: nat, place: nat)

  predicate Earlier(a: Spot, b: Spot) {
    a.device < b.device || (a.device == b.device && a.place < b.place)
  }

  predicate Kept(devices: seq<Device>, keep: Comp -> bool, at: Spot) {
    at.device < |devices| && at.place < |devices[at.device].components| && keep(devices[at.device].components[at.place])
  }

  /** The items are the kept components, each once, in fleet order, with their device's flag. */
  ghost predicate ItemsAt(items: seq<Item>, devices: seq<Device>, keep: Comp -> bool, spots: seq<Spot>) {
    && |items| == |spots|
    && (forall i | 0 <= i < |items| :: Kept(devices, keep, spots[i])
          && items[i] == Item(devices[spots[i].device].components[spots[i].place], devices[spots[i].device].down))
    && (forall i, j | 0 <= i < j < |spots| :: Earlier(spots[i], spots[j]))
    && (forall at | Kept(devices, keep, at) :: at in spots)
  }

  function SpotsOf(d: Device, device: nat, n: nat, keep: Comp -> bool): (r: seq<Spot>)
    requires n <= |d.components|
    ensures |r| == |MatchingOf(d, n, keep)|
    ensures forall i | 0 <= i < |r| :: r[i].device == device && r[i].place < n
              && keep(d.components[r[i].place]) && MatchingOf(d, n, keep)[i] == Item(d.components[r[i].place], d.down)
    ensures forall i, j | 0 <= i < j < |r| :: Earlier(r[i], r[j])
    ensures forall k | 0 <= k < n && keep(d.components[k]) :: Spot(device, k) in r
  {
    if n == 0 then [] else SpotsOf(d, device, n - 1, keep) + if keep(d.components[n - 1]) then [Spot(device, n - 1)] else []
  }

  lemma JoinedSpot(spots: seq<Spot>, d: Device, front: seq<Device>, keep: Comp -> bool, i: nat)
    requires forall at <- spots :: Kept(front, keep, at)
    requires i < |spots + SpotsOf(d, |front|, |d.components|, keep)|
    ensures var at := (spots + SpotsOf(d, |front|, |d.components|, keep))[i];
            && Kept(front + [d], keep, at)
            && (if i < |spots| then at == spots[i] && at.device < |front| else at.device == |front|)
            && (i >= |spots| ==> MatchingOf(d, |d.components|, keep)[i - |spots|] == Item(d.components[at.place], d.down))
  {
    var last := SpotsOf(d, |front|, |d.components|, keep);
    if i < |spots| { assert spots[i] in spots; } else { assert last[i - |spots|].device == |front|; }
  }

  lemma JoinedAll(spots: seq<Spot>, d: Device, front: seq<Device>, keep: Comp -> bool, at: Spot)
    requires Kept(front + [d], keep, at) && (Kept(front, keep, at) ==> at in spots)
    ensures at in spots + SpotsOf(d, |front|, |d.components|, keep)
  {
    if at.device < |front| {
      assert (front + [d])[at.device] == front[at.device];
    } else {
      assert at == Spot(|front|, at.place) && at in SpotsOf(d, |front|, |d.components|, keep);
    }
  }

  /** The items of one more device. */
  lemma ItemsJoin(items: seq<Item>, spots: seq<Spot>, d: Device, front: seq<Device>, keep: Comp -> bool)
    requires ItemsAt(items, front, keep, spots)
    ensures var n := |front|;
            ItemsAt(items + MatchingOf(d, |d.components|, keep), front + [d], keep, spots + SpotsOf(d, n, |d.components|, keep))
  {
    var n, devices := |front|, front + [d];
    var more, last := MatchingOf(d, |d.components|, keep), SpotsOf(d, n, |d.components|, keep);
    var all := spots + last;
    hide MatchingOf, SpotsOf, Kept;
    assert forall at <- spots :: Kept(front, keep, at);
    forall at | Kept(devices, keep, at) ensures at in all {
      JoinedAll(spots, d, front, keep, at);
    }
    forall i | 0 <= i < |all|
      ensures Kept(devices, keep, all[i]) && (items + more)[i] == Item(devices[all[i].device].components[all[i].place], devices[all[i].device].down)
    {
      JoinedSpot(spots, d, front, keep, i);
    }
    forall i, j | 0 <= i < j < |all| ensures Earlier(all[i], all[j]) {
      JoinedSpot(spots, d, front, keep, i);
      JoinedSpot(spots, d, front, keep, j);
    }
    hide Earlier;
  }

  lemma {:induction false} MatchingExactly(devices: seq<Device>, keep: Comp -> bool) returns (spots: seq<Spot>)
    ensures ItemsAt(Matching(devices, keep), devices, keep, spots)
    decreases |devices|
  {
    if devices == [] {
      spots := [];
    } else {
      hide ItemsAt, MatchingOf, SpotsOf;
      var n := |devices| - 1;
      var before := MatchingExactly(devices[..n], keep);
      ItemsJoin(Matching(devices[..n], keep), before, devices[n], devices[..n], keep);
      assert devices[..n] + [devices[n]] == devices;
      spots := before + SpotsOf(devices[n], n, |devices[n].components|, keep);
    }
  }

  // ------------------------------------------------------------------ conservation

  /** How often a component occurs at or beneath a group. */
  function Occurrences(g: Group, x: Comp): nat
    decreases g, 1, 0
  {
    multiset(g.components)[x] + OccurrencesIn(g, |g.children|, x)
  }

  function OccurrencesIn(g: Group, n: nat, x: Comp): nat
    requires n <= |g.children|
    decreases g, 0, n
  {
    if n == 0 then 0 else OccurrencesIn(g, n - 1, x) + Occurrences(g.children[n - 1], x)
  }

  lemma {:induction false} OccurrencesUnder(g: Group, x: Comp)
    ensures multiset(Under(g))[x] == Occurrences(g, x)
    decreases g, 1, 0
  {
    OccurrencesUnderChildren(g, |g.children|, x);
  }

  lemma {:induction false} OccurrencesUnderChildren(g: Group, n: nat, x: Comp)
    requires n <= |g.children|
    ensures multiset(UnderChildren(g, n))[x] == OccurrencesIn(g, n, x)
    decreases g, 0, n
  {
    if n > 0 {
      OccurrencesUnderChildren(g, n - 1, x);
      OccurrencesUnder(g.children[n - 1], x);
    }
  }

  lemma {:induction false} SameOccurrences(g: Group, g': Group, n: nat, x: Comp)
    requires n <= |g.children| && n <= |g'.children|
    requires forall j | 0 <= j < n :: g'.children[j] == g.children[j]
    ensures OccurrencesIn(g', n, x) == OccurrencesIn(g, n, x)
    decreases n
  {
    hide Occurrences;
    if n > 0 { SameOccurrences(g, g', n - 1, x); }
  }

  lemma {:induction false} UpdateOccurrences(g: Group, g': Group, n: nat, i: nat, x: Comp)
    requires i < n <= |g.children| == |g'.children|
    requires forall j | 0 <= j < |g.children| && j != i :: g'.children[j] == g.children[j]
    ensures OccurrencesIn(g', n, x) - Occurrences(g'.children[i], x) == OccurrencesIn(g, n, x) - Occurrences(g.children[i], x)
    decreases n
  {
    hide Occurrences;
    if n - 1 > i {
      UpdateOccurrences(g, g', n - 1, i, x);
    } else {
      SameOccurrences(g, g', i, x);
    }
  }

  lemma NewGroupEmpty(s: Segment, x: Comp)
    ensures Occurrences(Group(s.level, s.value, [], [], false), x) == 0
  {
  }

  /** Replacing the child of a value exchanges what lies beneath it. */
  lemma PutOccurrences(g: Group, s: Segment, child: Group, x: Comp)
    requires child.value == s.value
    ensures Occurrences(PutChild(g, child), x) - Occurrences(child, x) == Occurrences(g, x) - Occurrences(ChildOr(g, s), x)
  {
    var i, n := IndexOf(g.children, s.value), |g.children|;
    var g' := PutChild(g, child);
    assert Occurrences(g', x) == multiset(g.components)[x] + OccurrencesIn(g', |g'.children|, x);
    assert Occurrences(g, x) == multiset(g.components)[x] + OccurrencesIn(g, n, x);
    if i < n {
      hide Occurrences, OccurrencesIn;
      UpdateOccurrences(g, g', n, i, x);
    } else {
      assert OccurrencesIn(g', n + 1, x) == OccurrencesIn(g', n, x) + Occurrences(child, x);
      NewGroupEmpty(s, x);
      hide Occurrences, OccurrencesIn;
      SameOccurrences(g, g', n, x);
    }
  }

  lemma {:induction false} InsertOccurrences(g: Group, segs: seq<Segment>, c: Comp, x: Comp)
    ensures Occurrences(Insert(g, segs, c), x) == Occurrences(g, x) + if x == c then 1 else 0
    decreases |segs|
  {
    if segs == [] {
      SameOccurrences(g, g.(components := g.components + [c]), |g.children|, x);
    } else {
      hide Occurrences;
      var child := ChildOr(g, segs[0]);
      InsertOccurrences(child, segs[1..], c, x);
      PutOccurrences(g, segs[0], Insert(child, segs[1..], c), x);
    }
  }

  lemma {:induction false} MarkOccurrences(g: Group, segs: seq<Segment>, x: Comp)
    ensures Occurrences(Mark(g, segs), x) == Occurrences(g, x)
    decreases |segs|
  {
    if segs != [] && IndexOf(g.children, segs[0].value) < |g.children| {
      var child := ChildOr(g, segs[0]);
      RecolourOccurrences(child, x);
      hide Occurrences;
      MarkOccurrences(child.(down := true), segs[1..], x);
      PutOccurrences(g, segs[0], Mark(child.(down := true), segs[1..]), x);
    }
  }

  lemma RecolourOccurrences(g: Group, x: Comp)
    ensures Occurrences(g.(down := true), x) == Occurrences(g, x)
  {
    SameOccurrences(g, g.(down := true), |g.children|, x);
  }

  function Comps(items: seq<Item>): (r: seq<Comp>)
    ensures |r| == |items|
  {
    seq(|items|, i requires 0 <= i < |items| => items[i].comp)
  }

  lemma {:induction false} BuildOccurrences(items: seq<Item>, x: Comp)
    ensures Occurrences(Build(items), x) == multiset(Comps(items))[x]
    decreases |items|
  {
    if items == [] {
      assert Comps(items) == [];
    } else {
      var n := |items| - 1;
      var before, last := items[..n], items[n];
      assert items == before + [last];
      hide Occurrences, Build, Place, Comps;
      BuildOccurrences(before, x);
      BuildSnoc(before, last);
      PlaceOccurrences(Build(before), last, x);
      CompsSnoc(before, last, x);
    }
  }

  lemma CompsSnoc(items: seq<Item>, last: Item, x: Comp)
    ensures multiset(Comps(items + [last]))[x] == multiset(Comps(items))[x] + if x == last.comp then 1 else 0
  {
    assert Comps(items + [last]) == Comps(items) + [last.comp];
  }

  lemma PlaceOccurrences(g: Group, item: Item, x: Comp)
    ensures Occurrences(Place(g, item), x) == Occurrences(g, x) + if x == item.comp then 1 else 0
  {
    hide Occurrences, Insert, Mark;
    InsertOccurrences(g, Segments(item.comp), item.comp, x);
    MarkOccurrences(Insert(g, Segments(item.comp), item.comp), Segments(item.comp), x);
  }

  /** Conservation: the leaves of the whole tree are the matching components, each exactly as
      often as it occurs in the fleet, so the counts add up to the total. */
  lemma EveryComponentOnce(items: seq<Item>)
    ensures multiset(Under(Build(items))) == multiset(Comps(items)) && |Under(Build(items))| == |items|
  {
    forall x ensures multiset(Under(Build(items)))[x] == multiset(Comps(items))[x] {
      OccurrencesUnder(Build(items), x);
      BuildOccurrences(items, x);
    }
    hide Under, Build, Comps;
    assert multiset(Under(Build(items))) == multiset(Comps(items));
    assert |multiset(Under(Build(items)))| == |Under(Build(items))| && |multiset(Comps(items))| == |Comps(items)|;
  }
}
