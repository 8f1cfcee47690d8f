/**
 The browsed address space of a component (ui/src/components/ComponentDetailView.tsx):
 merging browse results into the table of loaded nodes, and flattening what is expanded
 into rows although references may form cycles.
 */
module AddressTree {
  import opened Basics

  /** A browsed node; `id` is None when no identifier could be read, and references count only
      when some (possibly none at all) were sent. */
  datatype Node = Node(id: Option<string>, props: map<string, Json>, hasRefs: bool, refs: seq<Ref>)

  datatype Ref = Ref(kind: string, target: Node)

  type Table = map<string, Node>

  function References(n: Node): seq<Ref> {
    if n.hasRefs then n.refs else []
  }

  /** The incoming properties win; references are kept when the incoming node brings none. */
  function MergeNode(existing: Node, incoming: Node): Node {
    Node(incoming.id, existing.props + incoming.props, incoming.hasRefs || existing.hasRefs,
         if incoming.hasRefs then incoming.refs else existing.refs)
  }

  function MergeInto(t: Table, id: string, n: Node): Table {
    t[id := if id in t then MergeNode(t[id], n) else n]
  }

  // ------------------------------------------------------------------ collecting a browse

  function Collect(t: Table, n: Node, path: set<string>): Table
    decreases n, 1, 0
  {
    if n.id.None? then CollectRefs(t, n, 0, path)
    else
      var t1 := MergeInto(t, n.id.value, n);
      if n.id.value in path then t1 else CollectRefs(t1, n, 0, path + {n.id.value})
  }

  function CollectRefs(t: Table, n: Node, i: nat, path: set<string>): Table
    requires i <= |References(n)|
    decreases n, 0, |References(n)| - i
  {
    if i == |References(n)| then t
    else CollectRefs(Collect(t, References(n)[i].target, path), n, i + 1, path)
  }

  function MergeTable(t: Table, collected: Table): Table {
    map id <- t.Keys + collected.Keys ::
      if id !in collected then t[id]
      else if id in t then MergeNode(t[id], collected[id])
      else collected[id]
  }

  function MergeTree(previous: Table, root: Node): Table {
    MergeTable(previous, Collect(map[], root, {}))
  }

  /** Fills a local record while walking the browse result. */
  method CollectAddressNodes(root: Node) returns (collected: Table)
    ensures collected == Collect(map[], root, {})
  {
    collected := Walk(map[], root, {});
  }

  method Walk(start: Table, n: Node, path: set<string>) returns (collected: Table)
    ensures collected == Collect(start, n, path)
    decreases n
  {
    collected := start;
    var inner := path;
    if n.id.Some? {
      var id := n.id.value;
      collected := collected[id := if id in collected then MergeNode(collected[id], n) else n];
      if id in path {
        return;
      }
      inner := path + {id};
    }
    ghost var first := collected;
    var refs := References(n);
    for i := 0 to |refs|
      invariant CollectRefs(first, n, 0, inner) == CollectRefs(collected, n, i, inner)
    {
      collected := Walk(collected, refs[i].target, inner);
    }
  }

  method MergeAddressTree(previous: Table, root: Node) returns (next: Table)
    ensures next == MergeTree(previous, root)
  {
    next := previous;
    var collected := CollectAddressNodes(root);
    var todo := collected.Keys;
    ghost var goal := MergeTree(previous, root);
    while todo != {}
      invariant todo <= collected.Keys && next.Keys == previous.Keys + (collected.Keys - todo)
      invariant forall id <- next :: next[id] == if id in todo then previous[id] else goal[id]
      decreases todo
    {
      var id :| id in todo;
      next := next[id := if id in next then MergeNode(next[id], collected[id]) else collected[id]];
      todo := todo - {id};
    }
  }

  // ------------------------------------------------------------------ nothing is lost

  /** `n` appears in the browse result rooted at `root`. */
  ghost predicate Occurs(root: Node, n: Node)
    decreases root
  {
    n == root || exists i | 0 <= i < |References(root)| :: Occurs(References(root)[i].target, n)
  }

  ghost predicate Keeps(before: Table, after: Table) {
    forall id <- before :: id in after && before[id].props.Keys <= after[id].props.Keys
                        && (before[id].hasRefs ==> after[id].hasRefs)
  }

  /** Every entry is filed under its own identifier. */
  ghost predicate Keyed(t: Table) {
    forall id <- t :: t[id].id == Some(id)
  }

  lemma MergeIntoKeeps(t: Table, n: Node)
    requires n.id.Some?
    ensures Keeps(t, MergeInto(t, n.id.value, n)) && (Keyed(t) ==> Keyed(MergeInto(t, n.id.value, n)))
  {
  }

  lemma KeepsTransitive(a: Table, b: Table, c: Table)
    requires Keeps(a, b) && Keeps(b, c)
    ensures Keeps(a, c)
  {
  }

  lemma {:induction false} CollectKeeps(t: Table, n: Node, path: set<string>)
    requires Keyed(t)
    ensures Keeps(t, Collect(t, n, path)) && Keyed(Collect(t, n, path))
    decreases n, 1, 0
  {
    if n.id.None? {
      CollectRefsKeeps(t, n, 0, path);
    } else {
      var t1 := MergeInto(t, n.id.value, n);
      MergeIntoKeeps(t, n);
      if n.id.value !in path {
        CollectRefsKeeps(t1, n, 0, path + {n.id.value});
        KeepsTransitive(t, t1, Collect(t, n, path));
      }
    }
  }

  lemma {:induction false} CollectRefsKeeps(t: Table, n: Node, i: nat, path: set<string>)
    requires Keyed(t) && i <= |References(n)|
    ensures Keeps(t, CollectRefs(t, n, i, path)) && Keyed(CollectRefs(t, n, i, path))
    decreases n, 0, |References(n)| - i
  {
    if i < |References(n)| {
      var t1 := Collect(t, References(n)[i].target, path);
      CollectKeeps(t, References(n)[i].target, path);
      CollectRefsKeeps(t1, n, i + 1, path);
      KeepsTransitive(t, t1, CollectRefs(t, n, i, path));
    }
  }

  /** The identified nodes a browse visits, in order: depth first, not below an identifier that
      repeats on the way down. */
  function Visits(n: Node, path: set<string>): seq<Node>
    decreases n, 1, 0
  {
    if n.id.None? then VisitsRefs(n, 0, path)
    else [n] + if n.id.value in path then [] else VisitsRefs(n, 0, path + {n.id.value})
  }

  function VisitsRefs(n: Node, i: nat, path: set<string>): seq<Node>
    requires i <= |References(n)|
    decreases n, 0, |References(n)| - i
  {
    if i == |References(n)| then [] else Visits(References(n)[i].target, path) + VisitsRefs(n, i + 1, path)
  }

  /** The last of the visited nodes of this identifier that brings a reference list, empty or not. */
  function Bringer(visited: seq<Node>, id: string): Option<Node>
    decreases |visited|
  {
    if visited == [] then None
    else
      var last := visited[|visited| - 1];
      if last.id == Some(id) && last.hasRefs then Some(last) else Bringer(visited[..|visited| - 1], id)
  }

  function HasId(visited: seq<Node>, id: string): bool {
    exists n <- visited :: n.id == Some(id)
  }

  /** The references of a table entry after a browse: the bringer's list if there is one, else
      what the entry had. */
  ghost predicate RefsAre(before: Table, visited: seq<Node>, after: Table, id: string)
    requires id in after
  {
    match Bringer(visited, id)
    case Some(n) => after[id].hasRefs && after[id].refs == n.refs
    case None =>
      if id in before then after[id].hasRefs == before[id].hasRefs && after[id].refs == before[id].refs
      else !after[id].hasRefs
  }

  /** The value the last visited node of this identifier that has the property gives it. */
  function Given(visited: seq<Node>, id: string, p: string): Option<Json>
    decreases |visited|
  {
    if visited == [] then None
    else
      var last := visited[|visited| - 1];
      if last.id == Some(id) && p in last.props then Some(last.props[p]) else Given(visited[..|visited| - 1], id, p)
  }

  function PropOf(t: Table, id: string, p: string): Option<Json> {
    if id in t && p in t[id].props then Some(t[id].props[p]) else None
  }

  /** Every property has the value the browse last gave it, else the one it had. */
  ghost predicate PropsAre(before: Table, visited: seq<Node>, after: Table, id: string) {
    forall p :: PropOf(after, id, p) == Given(visited, id, p).OrElse(PropOf(before, id, p))
  }

  /** `t'` is `t` after merging the visited nodes. */
  ghost predicate Collected(t: Table, visited: seq<Node>, t': Table) {
    && (forall id :: id in t' <==> id in t || HasId(visited, id))
    && (forall id <- t' :: RefsAre(t, visited, t', id))
    && (forall id :: PropsAre(t, visited, t', id))
  }

  lemma {:induction false} GivenConcat(a: seq<Node>, b: seq<Node>, id: string, p: string)
    ensures Given(a + b, id, p) == Given(b, id, p).OrElse(Given(a, id, p))
    decreases |b|
  {
    if b == [] {
      assert a + b == a;
    } else {
      assert (a + b)[..|a + b| - 1] == a + b[..|b| - 1];
      GivenConcat(a, b[..|b| - 1], id, p);
    }
  }

  lemma PropsThen(t: Table, a: seq<Node>, t1: Table, b: seq<Node>, t2: Table, id: string)
    requires PropsAre(t, a, t1, id) && PropsAre(t1, b, t2, id)
    ensures PropsAre(t, a + b, t2, id)
  {
    hide Given, PropOf;
    forall p ensures PropOf(t2, id, p) == Given(a + b, id, p).OrElse(PropOf(t, id, p)) {
      GivenConcat(a, b, id, p);
    }
  }

  lemma MergeProps(t: Table, n: Node, id: string)
    requires n.id.Some?
    ensures PropsAre(t, [n], MergeInto(t, n.id.value, n), id)
  {
    assert [n][..0] == [];
    forall p ensures Given([n], id, p) == if n.id == Some(id) && p in n.props then Some(n.props[p]) else None {
      assert Given([], id, p) == None;
    }
  }

  lemma {:induction false} BringerConcat(a: seq<Node>, b: seq<Node>, id: string)
    ensures Bringer(a + b, id) == Bringer(b, id).OrElse(Bringer(a, id))
    ensures HasId(a + b, id) <==> HasId(a, id) || HasId(b, id)
    ensures Bringer(a, id).Some? ==> HasId(a, id)
    decreases |b|
  {
    if b == [] {
      assert a + b == a;
      BringerHas(a, id);
    } else {
      assert (a + b)[..|a + b| - 1] == a + b[..|b| - 1] && b == b[..|b| - 1] + [b[|b| - 1]];
      BringerConcat(a, b[..|b| - 1], id);
    }
  }

  lemma {:induction false} BringerHas(a: seq<Node>, id: string)
    ensures Bringer(a, id).Some? ==> Bringer(a, id).value in a && Bringer(a, id).value.id == Some(id) && Bringer(a, id).value.hasRefs
    decreases |a|
  {
    if a != [] { BringerHas(a[..|a| - 1], id); }
  }

  lemma CollectedThen(t: Table, a: seq<Node>, t1: Table, b: seq<Node>, t2: Table)
    requires Collected(t, a, t1) && Collected(t1, b, t2)
    ensures Collected(t, a + b, t2)
  {
    hide HasId, Bringer, PropsAre;
    forall id ensures PropsAre(t, a + b, t2, id) { PropsThen(t, a, t1, b, t2, id); }
    forall id ensures id in t2 <==> id in t || HasId(a + b, id) {
      BringerConcat(a, b, id);
    }
    forall id | id in t2 ensures RefsAre(t, a + b, t2, id) {
      BringerConcat(a, b, id);
      BringerConcat(b, [], id);
      assert b + [] == b;
      if id !in t1 { assert id !in t; }
    }
  }

  lemma MergeCollected(t: Table, n: Node)
    requires n.id.Some? && Keyed(t)
    ensures Collected(t, [n], MergeInto(t, n.id.value, n))
  {
    forall id ensures PropsAre(t, [n], MergeInto(t, n.id.value, n), id) { MergeProps(t, n, id); }
    hide PropsAre;
    assert [n][..0] == [];
    forall id ensures Bringer([n], id) == if n.id == Some(id) && n.hasRefs then Some(n) else None {
      assert Bringer([], id) == None;
    }
    assert forall id :: HasId([n], id) <==> n.id == Some(id);
  }

  lemma {:induction false} CollectIs(t: Table, n: Node, path: set<string>)
    requires Keyed(t)
    ensures Collected(t, Visits(n, path), Collect(t, n, path))
    decreases n, 1, 0
  {
    if n.id.None? {
      CollectRefsIs(t, n, 0, path);
    } else {
      var t1 := MergeInto(t, n.id.value, n);
      MergeCollected(t, n);
      MergeIntoKeeps(t, n);
      if n.id.value !in path {
        CollectRefsIs(t1, n, 0, path + {n.id.value});
        CollectedThen(t, [n], t1, VisitsRefs(n, 0, path + {n.id.value}), Collect(t, n, path));
      } else {
        assert [n] + [] == [n];
      }
    }
  }

  lemma {:induction false} CollectRefsIs(t: Table, n: Node, i: nat, path: set<string>)
    requires Keyed(t) && i <= |References(n)|
    ensures Collected(t, VisitsRefs(n, i, path), CollectRefs(t, n, i, path))
    decreases n, 0, |References(n)| - i
  {
    if i == |References(n)| {
      assert forall id :: Bringer([], id) == None && !HasId([], id);
      assert forall id :: PropsAre(t, [], t, id);
    } else {
      var target := References(n)[i].target;
      var t1 := Collect(t, target, path);
      CollectKeeps(t, target, path);
      CollectIs(t, target, path);
      CollectRefsIs(t1, n, i + 1, path);
      CollectedThen(t, Visits(target, path), t1, VisitsRefs(n, i + 1, path), CollectRefs(t, n, i, path));
    }
  }

  lemma OccursBelow(root: Node, n: Node, i: nat)
    requires i < |References(n)| && Occurs(root, n)
    ensures Occurs(root, References(n)[i].target)
    decreases root
  {
    if n == root {
      assert Occurs(References(root)[i].target, References(n)[i].target);
    } else {
      var j :| 0 <= j < |References(root)| && Occurs(References(root)[j].target, n);
      OccursBelow(References(root)[j].target, n, i);
    }
  }

  lemma {:induction false} VisitsOccur(root: Node, n: Node, path: set<string>)
    requires Occurs(root, n)
    ensures forall v <- Visits(n, path) :: Occurs(root, v) && v.id.Some?
    decreases n, 1, 0
  {
    hide Occurs;
    if n.id.None? {
      VisitsRefsOccur(root, n, 0, path);
    } else if n.id.value !in path {
      VisitsRefsOccur(root, n, 0, path + {n.id.value});
    }
  }

  lemma {:induction false} VisitsRefsOccur(root: Node, n: Node, i: nat, path: set<string>)
    requires Occurs(root, n) && i <= |References(n)|
    ensures forall v <- VisitsRefs(n, i, path) :: Occurs(root, v) && v.id.Some?
    decreases n, 0, |References(n)| - i
  {
    if i < |References(n)| {
      OccursBelow(root, n, i);
      hide Occurs;
      VisitsOccur(root, References(n)[i].target, path);
      VisitsRefsOccur(root, n, i + 1, path);
    }
  }

  lemma MergedProps(previous: Table, collected: Table, visited: seq<Node>, id: string)
    requires PropsAre(map[], visited, collected, id)
    ensures PropsAre(previous, visited, MergeTable(previous, collected), id)
  {
    hide Given;
    forall p ensures PropOf(MergeTable(previous, collected), id, p) == Given(visited, id, p).OrElse(PropOf(previous, id, p)) {
      assert PropOf(collected, id, p) == Given(visited, id, p).OrElse(PropOf(map[], id, p));
    }
  }

  lemma MergedIs(previous: Table, collected: Table, visited: seq<Node>)
    requires Keyed(previous) && Keyed(collected) && Collected(map[], visited, collected)
    ensures var next := MergeTable(previous, collected);
            && Keeps(previous, next) && Keyed(next)
            && (forall id :: id in next <==> id in previous || HasId(visited, id))
            && (forall id <- next :: RefsAre(previous, visited, next, id))
            && (forall id :: PropsAre(previous, visited, next, id))
  {
    forall id ensures PropsAre(previous, visited, MergeTable(previous, collected), id) { MergedProps(previous, collected, visited, id); }
    hide Bringer, HasId, PropsAre;
    var next := MergeTable(previous, collected);
    BringersCollected(collected, visited);
  }

  /** Without a bringer the collected entry, if any, brings no references. */
  lemma BringersCollected(collected: Table, visited: seq<Node>)
    requires Collected(map[], visited, collected)
    ensures forall id :: Bringer(visited, id).Some? ==> id in collected
    ensures forall id :: id in collected <==> HasId(visited, id)
  {
    forall id | Bringer(visited, id).Some? ensures id in collected {
      BringerHas(visited, id);
    }
  }

  /** A new browse never loses a loaded node or a property; a property has the value the browse
      last gave it, else the one it had.  An entry's references are replaced
      exactly when a visited node of its identifier brings a list of its own, the empty one
      included, and then by the last such list; otherwise they are what they were. */
  lemma BrowseLosesNothing(previous: Table, root: Node)
    requires Keyed(previous)
    ensures var next := MergeTree(previous, root);
            var visited := Visits(root, {});
            && Keeps(previous, next) && Keyed(next)
            && (forall id :: id in next <==> id in previous || HasId(visited, id))
            && (forall v <- visited :: Occurs(root, v) && v.id.Some?)
            && (forall id <- next :: RefsAre(previous, visited, next, id))
            && (forall id :: PropsAre(previous, visited, next, id))
  {
    var collected := Collect(map[], root, {});
    CollectKeeps(map[], root, {});
    CollectIs(map[], root, {});
    VisitsOccur(root, root, {});
    MergedIs(previous, collected, Visits(root, {}));
    hide Collect, Occurs, Bringer, Visits, HasId, RefsAre, PropsAre, Keeps, Keyed, MergeTable;
  }

  // ------------------------------------------------------------------ flattening

  /** One step of a row's structural key: the reference's kind and target, and how many equal
      ones stand before it under the same parent. */
  datatype Step = Step(kind: string, target: Option<string>, duplicate: nat)

  type RowKey = seq<Step>

  datatype Row = Row(id: Option<string>, key: RowKey, depth: nat)

  function Base(r: Ref): (string, Option<string>) {
    (r.kind, r.target.id)
  }

  function CountBase(refs: seq<Ref>, base: (string, Option<string>)): nat
    decreases |refs|
  {
    if refs == [] then 0
    else CountBase(refs[..|refs| - 1], base) + if Base(refs[|refs| - 1]) == base then 1 else 0
  }

  function StepOf(refs: seq<Ref>, i: nat): Step
    requires i < |refs|
  {
    Step(refs[i].kind, refs[i].target.id, CountBase(refs[..i], Base(refs[i])))
  }

  /** The node shown for a reference: its target, completed by what is loaded under its id. */
  function Shown(r: Ref, loaded: Table): Node {
    if r.target.id.Some? && r.target.id.value in loaded then MergeNode(r.target, loaded[r.target.id.value]) else r.target
  }

  predicate IsOpen(n: Node, expanded: set<string>, path: set<string>) {
    n.id.Some? && n.id.value in expanded && n.id.value !in path
  }

  lemma OpenDecreases(id: string, expanded: set<string>, path: set<string>)
    requires id in expanded && id !in path
    ensures |expanded - (path + {id})| < |expanded - path|
  {
    assert expanded - path == (expanded - (path + {id})) + {id};
  }

  /** The rows of a subtree; the expanded ids not yet on the path bound the recursion. */
  function Rows(n: Node, key: RowKey, loaded: Table, expanded: set<string>, path: set<string>): seq<Row>
    decreases |expanded - path|, 1, 0
  {
    [Row(n.id, key, |key|)]
    + if IsOpen(n, expanded, path) then
        OpenDecreases(n.id.value, expanded, path);
        ChildRows(n, |References(n)|, key, loaded, expanded, path + {n.id.value})
      else []
  }

  /** The rows below the first `count` references. */
  function ChildRows(n: Node, count: nat, key: RowKey, loaded: Table, expanded: set<string>, path: set<string>): seq<Row>
    requires count <= |References(n)|
    decreases |expanded - path|, 2, count
  {
    if count == 0 then []
    else
      ChildRows(n, count - 1, key, loaded, expanded, path)
      + Rows(Shown(References(n)[count - 1], loaded), key + [StepOf(References(n), count - 1)], loaded, expanded, path)
  }

  function Flatten(root: string, loaded: Table, expanded: set<string>): seq<Row> {
    if root in loaded then Rows(loaded[root], [], loaded, expanded, {}) else []
  }

  /** Pushes the rows of a subtree onto a local list, counting duplicates as it goes. */
  method WalkRows(n: Node, key: RowKey, loaded: Table, expanded: set<string>, path: set<string>) returns (rows: seq<Row>)
    ensures rows == Rows(n, key, loaded, expanded, path)
    decreases |expanded - path|
  {
    rows := [Row(n.id, key, |key|)];
    if n.id.None? || n.id.value !in expanded || n.id.value in path {
      return;
    }
    OpenDecreases(n.id.value, expanded, path);
    var nextPath := path + {n.id.value};
    var refs := References(n);
    var duplicates: map<(string, Option<string>), nat> := map[];
    var below: seq<Row> := [];
    for i := 0 to |refs|
      invariant below == ChildRows(n, i, key, loaded, expanded, nextPath)
      invariant forall b :: (if b in duplicates then duplicates[b] else 0) == CountBase(refs[..i], b)
    {
      var base := Base(refs[i]);
      var index := if base in duplicates then duplicates[base] else 0;
      duplicates := duplicates[base := index + 1];
      assert refs[..i + 1][..i] == refs[..i];
      var inner := WalkRows(Shown(refs[i], loaded), key + [Step(refs[i].kind, refs[i].target.id, index)], loaded, expanded, nextPath);
      below := below + inner;
    }
    rows := rows + below;
  }

  // ------------------------------------------------------------------ keys

  lemma {:induction false} CountGrows(refs: seq<Ref>, i: nat, j: nat, base: (string, Option<string>))
    requires i <= j <= |refs|
    ensures CountBase(refs[..i], base) <= CountBase(refs[..j], base)
    decreases j - i
  {
    if i < j {
      CountGrows(refs, i, j - 1, base);
      assert refs[..j][..j - 1] == refs[..j - 1];
    }
  }

  /** Different references of a node make different steps. */
  lemma StepsDiffer(refs: seq<Ref>, i: nat, j: nat)
    requires i < j < |refs|
    ensures StepOf(refs, i) != StepOf(refs, j)
  {
    if Base(refs[i]) == Base(refs[j]) {
      assert refs[..i + 1][..i] == refs[..i];
      CountGrows(refs, i + 1, j, Base(refs[i]));
    }
  }

  ghost predicate AllBelow(rows: seq<Row>, key: RowKey) {
    forall r <- rows :: key <= r.key && r.depth == |r.key|
  }

  ghost predicate DistinctKeys(rows: seq<Row>) {
    forall i, j | 0 <= i < j < |rows| :: rows[i].key != rows[j].key
  }

  lemma {:induction false} RowsBelow(n: Node, key: RowKey, loaded: Table, expanded: set<string>, path: set<string>)
    ensures AllBelow(Rows(n, key, loaded, expanded, path), key)
    decreases |expanded - path|, 1, 0
  {
    if IsOpen(n, expanded, path) {
      OpenDecreases(n.id.value, expanded, path);
      ChildRowsBelow(n, |References(n)|, key, loaded, expanded, path + {n.id.value});
    }
  }

  /** Rows under the first `count` references start with one of those references' steps. */
  lemma {:induction false} ChildRowsBelow(n: Node, count: nat, key: RowKey, loaded: Table, expanded: set<string>, path: set<string>)
    requires count <= |References(n)|
    ensures AllBelow(ChildRows(n, count, key, loaded, expanded, path), key)
    ensures forall r <- ChildRows(n, count, key, loaded, expanded, path) ::
              |r.key| > |key| && exists i | 0 <= i < count :: r.key[|key|] == StepOf(References(n), i)
    decreases |expanded - path|, 2, count
  {
    if count > 0 {
      var child, step := Shown(References(n)[count - 1], loaded), StepOf(References(n), count - 1);
      ChildRowsBelow(n, count - 1, key, loaded, expanded, path);
      RowsBelow(child, key + [step], loaded, expanded, path);
      forall r | r in Rows(child, key + [step], loaded, expanded, path)
        ensures key <= r.key && |r.key| > |key| && r.key[|key|] == step
      {
        assert (key + [step])[|key|] == step;
      }
    }
  }

  lemma DistinctConcat(a: seq<Row>, b: seq<Row>)
    requires DistinctKeys(a) && DistinctKeys(b) && forall x <- a, y <- b :: x.key != y.key
    ensures DistinctKeys(a + b)
  {
  }

  lemma {:induction false} RowsDistinct(n: Node, key: RowKey, loaded: Table, expanded: set<string>, path: set<string>)
    ensures DistinctKeys(Rows(n, key, loaded, expanded, path))
    decreases |expanded - path|, 1, 0
  {
    if IsOpen(n, expanded, path) {
      OpenDecreases(n.id.value, expanded, path);
      var inner := path + {n.id.value};
      ChildRowsBelow(n, |References(n)|, key, loaded, expanded, inner);
      ChildRowsDistinct(n, |References(n)|, key, loaded, expanded, inner);
      DistinctConcat([Row(n.id, key, |key|)], ChildRows(n, |References(n)|, key, loaded, expanded, inner));
    }
  }

  lemma {:induction false} ChildRowsDistinct(n: Node, count: nat, key: RowKey, loaded: Table, expanded: set<string>, path: set<string>)
    requires count <= |References(n)|
    ensures DistinctKeys(ChildRows(n, count, key, loaded, expanded, path))
    decreases |expanded - path|, 2, count
  {
    if count > 0 {
      var child, step := Shown(References(n)[count - 1], loaded), StepOf(References(n), count - 1);
      var before, last := ChildRows(n, count - 1, key, loaded, expanded, path), Rows(child, key + [step], loaded, expanded, path);
      ChildRowsDistinct(n, count - 1, key, loaded, expanded, path);
      RowsDistinct(child, key + [step], loaded, expanded, path);
      ChildRowsBelow(n, count - 1, key, loaded, expanded, path);
      RowsBelow(child, key + [step], loaded, expanded, path);
      forall x, y | x in before && y in last ensures x.key != y.key {
        var i :| 0 <= i < count - 1 && x.key[|key|] == StepOf(References(n), i);
        StepsDiffer(References(n), i, count - 1);
        assert y.key[|key|] == (key + [step])[|key|];
      }
      DistinctConcat(before, last);
    }
  }

  // ------------------------------------------------------------------ preorder and depth

  /** Every row's descendants follow it directly. */
  ghost predicate Contiguous(rows: seq<Row>) {
    forall i, j, k | 0 <= i < j < k < |rows| :: rows[i].key <= rows[k].key ==> rows[i].key <= rows[j].key
  }

  lemma ContiguousConcat(a: seq<Row>, b: seq<Row>)
    requires Contiguous(a) && Contiguous(b) && forall x <- a, y <- b :: !(x.key <= y.key)
    ensures Contiguous(a + b)
  {
    var c := a + b;
    forall i, j, k | 0 <= i < j < k < |c| && c[i].key <= c[k].key ensures c[i].key <= c[j].key {
      assert i < |a| ==> c[i] in a;
      assert k >= |a| ==> c[k] in b;
      if k < |a| {
        assert c[i] == a[i] && c[j] == a[j] && c[k] == a[k];
      } else {
        assert c[i] == b[i - |a|] && c[j] == b[j - |a|] && c[k] == b[k - |a|];
      }
    }
  }

  lemma RootContiguous(row: Row, below: seq<Row>)
    requires Contiguous(below) && AllBelow(below, row.key)
    ensures Contiguous([row] + below)
  {
    var rows := [row] + below;
    forall i, j, k | 0 <= i < j < k < |rows| && rows[i].key <= rows[k].key ensures rows[i].key <= rows[j].key {
      assert rows[j] == below[j - 1] && rows[k] == below[k - 1] && rows[j] in below;
      assert i > 0 ==> rows[i] == below[i - 1];
    }
  }

  lemma {:induction false} RowsContiguous(n: Node, key: RowKey, loaded: Table, expanded: set<string>, path: set<string>)
    ensures Contiguous(Rows(n, key, loaded, expanded, path))
    decreases |expanded - path|, 1, 0
  {
    if IsOpen(n, expanded, path) {
      OpenDecreases(n.id.value, expanded, path);
      var below := ChildRows(n, |References(n)|, key, loaded, expanded, path + {n.id.value});
      ChildRowsBelow(n, |References(n)|, key, loaded, expanded, path + {n.id.value});
      ChildRowsContiguous(n, |References(n)|, key, loaded, expanded, path + {n.id.value});
      RootContiguous(Row(n.id, key, |key|), below);
    }
  }

  lemma {:induction false} ChildRowsContiguous(n: Node, count: nat, key: RowKey, loaded: Table, expanded: set<string>, path: set<string>)
    requires count <= |References(n)|
    ensures Contiguous(ChildRows(n, count, key, loaded, expanded, path))
    decreases |expanded - path|, 2, count
  {
    if count > 0 {
      var child, step := Shown(References(n)[count - 1], loaded), StepOf(References(n), count - 1);
      var before, last := ChildRows(n, count - 1, key, loaded, expanded, path), Rows(child, key + [step], loaded, expanded, path);
      ChildRowsContiguous(n, count - 1, key, loaded, expanded, path);
      RowsContiguous(child, key + [step], loaded, expanded, path);
      ChildRowsBelow(n, count - 1, key, loaded, expanded, path);
      RowsBelow(child, key + [step], loaded, expanded, path);
      forall x, y | x in before && y in last ensures !(x.key <= y.key) {
        var i :| 0 <= i < count - 1 && x.key[|key|] == StepOf(References(n), i);
        StepsDiffer(References(n), i, count - 1);
        assert y.key[|key|] == (key + [step])[|key|];
      }
      ContiguousConcat(before, last);
    }
  }

  lemma {:induction false} RowsShallow(n: Node, key: RowKey, loaded: Table, expanded: set<string>, path: set<string>)
    ensures forall r <- Rows(n, key, loaded, expanded, path) :: r.depth <= |key| + |expanded - path|
    decreases |expanded - path|, 1, 0
  {
    if IsOpen(n, expanded, path) {
      OpenDecreases(n.id.value, expanded, path);
      ChildRowsShallow(n, |References(n)|, key, loaded, expanded, path + {n.id.value});
    }
  }

  lemma {:induction false} ChildRowsShallow(n: Node, count: nat, key: RowKey, loaded: Table, expanded: set<string>, path: set<string>)
    requires count <= |References(n)|
    ensures forall r <- ChildRows(n, count, key, loaded, expanded, path) :: r.depth <= |key| + 1 + |expanded - path|
    decreases |expanded - path|, 2, count
  {
    if count > 0 {
      ChildRowsShallow(n, count - 1, key, loaded, expanded, path);
      RowsShallow(Shown(References(n)[count - 1], loaded), key + [StepOf(References(n), count - 1)], loaded, expanded, path);
    }
  }

  // ------------------------------------------------------------------ exactly the visible rows

  /** Following `rest` from `n` passes open nodes only, none of them twice on the way. */
  ghost predicate Visible(n: Node, rest: RowKey, loaded: Table, expanded: set<string>, path: set<string>)
    decreases |rest|
  {
    rest == [] ||
    (n.id.Some? && n.id.value in expanded && n.id.value !in path &&
     exists i | 0 <= i < |References(n)| ::
       StepOf(References(n), i) == rest[0] && Visible(Shown(References(n)[i], loaded), rest[1..], loaded, expanded, path + {n.id.value}))
  }

  ghost predicate HasKey(rows: seq<Row>, key: RowKey) {
    exists r <- rows :: r.key == key
  }

  lemma {:induction false} ChildRowsUnion(n: Node, count: nat, key: RowKey, loaded: Table, expanded: set<string>, path: set<string>, r: Row)
    requires count <= |References(n)|
    ensures r in ChildRows(n, count, key, loaded, expanded, path) <==>
              exists i | 0 <= i < count :: r in Rows(Shown(References(n)[i], loaded), key + [StepOf(References(n), i)], loaded, expanded, path)
    decreases count
  {
    hide Rows;
    if count > 0 { ChildRowsUnion(n, count - 1, key, loaded, expanded, path, r); }
  }

  lemma {:induction false} RowsAreVisible(n: Node, key: RowKey, rest: RowKey, loaded: Table, expanded: set<string>, path: set<string>)
    ensures HasKey(Rows(n, key, loaded, expanded, path), key + rest) <==> Visible(n, rest, loaded, expanded, path)
    decreases |rest|
  {
    var rows := Rows(n, key, loaded, expanded, path);
    if rest == [] {
      assert rows[0].key == key + rest;
    } else if IsOpen(n, expanded, path) {
      var refs, inner := References(n), path + {n.id.value};
      OpenDecreases(n.id.value, expanded, path);
      var below := ChildRows(n, |refs|, key, loaded, expanded, inner);
      forall i | 0 <= i < |refs|
        ensures HasKey(Rows(Shown(refs[i], loaded), key + [StepOf(refs, i)], loaded, expanded, inner), key + rest) <==>
                  StepOf(refs, i) == rest[0] && Visible(Shown(refs[i], loaded), rest[1..], loaded, expanded, inner)
      {
        ChildHasKey(n, i, key, rest, loaded, expanded, inner);
      }
      forall r ensures r in below <==>
        exists i | 0 <= i < |refs| :: r in Rows(Shown(refs[i], loaded), key + [StepOf(refs, i)], loaded, expanded, inner)
      {
        ChildRowsUnion(n, |refs|, key, loaded, expanded, inner, r);
      }
      assert HasKey(rows, key + rest) <==> HasKey(below, key + rest) by {
        assert rows == [Row(n.id, key, |key|)] + below;
        assert |key + rest| != |key|;
      }
    } else {
      assert rows == [Row(n.id, key, |key|)];
      assert |key + rest| != |key|;
    }
  }

  lemma {:induction false} ChildHasKey(n: Node, i: nat, key: RowKey, rest: RowKey, loaded: Table, expanded: set<string>, inner: set<string>)
    requires rest != [] && i < |References(n)|
    ensures HasKey(Rows(Shown(References(n)[i], loaded), key + [StepOf(References(n), i)], loaded, expanded, inner), key + rest) <==>
              StepOf(References(n), i) == rest[0] && Visible(Shown(References(n)[i], loaded), rest[1..], loaded, expanded, inner)
    decreases |rest|, 0
  {
    var child, step := Shown(References(n)[i], loaded), StepOf(References(n), i);
    if step == rest[0] {
      assert key + rest == (key + [step]) + rest[1..];
      RowsAreVisible(child, key + [step], rest[1..], loaded, expanded, inner);
    } else {
      RowsBelow(child, key + [step], loaded, expanded, inner);
      assert (key + rest)[|key|] == rest[0] && (key + [step])[|key|] == step;
    }
  }

  /** What a reference shows: its target's own references unless loading brought a list, and its
      target's own properties where loading brought none. */
  lemma ShownIs(r: Ref, loaded: Table)
    ensures var shown := Shown(r, loaded);
            if r.target.id.Some? && r.target.id.value in loaded then
              var more := loaded[r.target.id.value];
              && References(shown) == (if more.hasRefs then more.refs else References(r.target))
              && shown.props.Keys == r.target.props.Keys + more.props.Keys
              && (forall p <- shown.props :: shown.props[p] == if p in more.props then more.props[p] else r.target.props[p])
            else shown == r.target
  {
  }

  // ------------------------------------------------------------------ order and identifiers

  /** The row at `a` stands before the row at `b`: an ancestor, or through an earlier reference. */
  ghost predicate StandsBefore(n: Node, a: RowKey, b: RowKey, loaded: Table)
    decreases |a|
  {
    b != [] && (a == [] ||
      exists i, j | 0 <= i < |References(n)| && 0 <= j < |References(n)| ::
        && StepOf(References(n), i) == a[0] && StepOf(References(n), j) == b[0]
        && (i < j || (i == j && StandsBefore(Shown(References(n)[i], loaded), a[1..], b[1..], loaded))))
  }

  ghost predicate Ordered(n: Node, key: RowKey, x: RowKey, y: RowKey, loaded: Table) {
    key <= x && key <= y && StandsBefore(n, x[|key|..], y[|key|..], loaded)
  }

  ghost predicate InOrder(rows: seq<Row>, n: Node, key: RowKey, loaded: Table) {
    forall i, j | 0 <= i < j < |rows| :: Ordered(n, key, rows[i].key, rows[j].key, loaded)
  }

  lemma InOrderConcat(a: seq<Row>, b: seq<Row>, n: Node, key: RowKey, loaded: Table)
    requires InOrder(a, n, key, loaded) && InOrder(b, n, key, loaded)
    requires forall x <- a, y <- b :: Ordered(n, key, x.key, y.key, loaded)
    ensures InOrder(a + b, n, key, loaded)
  {
    hide Ordered;
  }

  lemma {:induction false} RowsInOrder(n: Node, key: RowKey, loaded: Table, expanded: set<string>, path: set<string>)
    ensures InOrder(Rows(n, key, loaded, expanded, path), n, key, loaded)
    decreases |expanded - path|, 1, 0
  {
    if IsOpen(n, expanded, path) {
      OpenDecreases(n.id.value, expanded, path);
      var inner := path + {n.id.value};
      var below := ChildRows(n, |References(n)|, key, loaded, expanded, inner);
      ChildRowsInOrder(n, |References(n)|, key, loaded, expanded, inner);
      ChildRowsBelow(n, |References(n)|, key, loaded, expanded, inner);
      hide ChildRows, StepOf;
      forall y | y in below ensures Ordered(n, key, key, y.key, loaded) {
        assert key[|key|..] == [];
      }
      hide Ordered;
      InOrderConcat([Row(n.id, key, |key|)], below, n, key, loaded);
    }
  }

  lemma {:induction false} ChildRowsInOrder(n: Node, count: nat, key: RowKey, loaded: Table, expanded: set<string>, path: set<string>)
    requires count <= |References(n)|
    ensures InOrder(ChildRows(n, count, key, loaded, expanded, path), n, key, loaded)
    decreases |expanded - path|, 2, count
  {
    if count > 0 {
      var c := count - 1;
      var child, step := Shown(References(n)[c], loaded), StepOf(References(n), c);
      var before, last := ChildRows(n, c, key, loaded, expanded, path), Rows(child, key + [step], loaded, expanded, path);
      assert ChildRows(n, count, key, loaded, expanded, path) == before + last;
      ChildRowsInOrder(n, c, key, loaded, expanded, path);
      RowsInOrder(child, key + [step], loaded, expanded, path);
      ChildRowsBelow(n, c, key, loaded, expanded, path);
      RowsBelow(child, key + [step], loaded, expanded, path);
      hide Rows, ChildRows, StepOf, Shown, Ordered;
      forall x, y | x in before && y in last ensures Ordered(n, key, x.key, y.key, loaded) {
        EarlierReference(n, key, x.key, y.key, c, loaded);
      }
      forall i, j | 0 <= i < j < |last| ensures Ordered(n, key, last[i].key, last[j].key, loaded) {
        assert last[i] in last && last[j] in last;
        SameReference(n, c, key, last[i].key, last[j].key, loaded);
      }
      InOrderConcat(before, last, n, key, loaded);
    }
  }

  lemma EarlierReference(n: Node, key: RowKey, x: RowKey, y: RowKey, c: nat, loaded: Table)
    requires c < |References(n)| && key <= x && |x| > |key| && key + [StepOf(References(n), c)] <= y
    requires exists i | 0 <= i < c :: x[|key|] == StepOf(References(n), i)
    ensures Ordered(n, key, x, y, loaded)
  {
    var i :| 0 <= i < c && x[|key|] == StepOf(References(n), i);
    var step := StepOf(References(n), c);
    assert y[|key|] == (key + [step])[|key|];
    assert x[|key|..][0] == StepOf(References(n), i) && y[|key|..][0] == StepOf(References(n), c);
    hide StepOf;
  }

  lemma SameReference(n: Node, c: nat, key: RowKey, x: RowKey, y: RowKey, loaded: Table)
    requires c < |References(n)|
    requires Ordered(Shown(References(n)[c], loaded), key + [StepOf(References(n), c)], x, y, loaded)
    ensures Ordered(n, key, x, y, loaded)
  {
    var step := StepOf(References(n), c);
    var a, b := x[|key|..], y[|key|..];
    assert |key + [step]| == |key| + 1 && a[1..] == x[|key| + 1..] && b[1..] == y[|key| + 1..];
    assert a[0] == (key + [step])[|key|] && b[0] == (key + [step])[|key|];
    hide StepOf, Shown;
  }

  /** A row names the node it stands for: the root, or the target of its last step. */
  ghost predicate Named(r: Row, root: Option<string>, key: RowKey) {
    r.id == if |r.key| <= |key| then root else r.key[|r.key| - 1].target
  }

  lemma {:induction false} RowsNamed(n: Node, key: RowKey, loaded: Table, expanded: set<string>, path: set<string>)
    requires Keyed(loaded)
    ensures forall r <- Rows(n, key, loaded, expanded, path) :: key <= r.key && Named(r, n.id, key)
    decreases |expanded - path|, 1, 0
  {
    if IsOpen(n, expanded, path) {
      OpenDecreases(n.id.value, expanded, path);
      ChildRowsNamed(n, |References(n)|, key, loaded, expanded, path + {n.id.value});
    }
  }

  lemma {:induction false} ChildRowsNamed(n: Node, count: nat, key: RowKey, loaded: Table, expanded: set<string>, path: set<string>)
    requires Keyed(loaded) && count <= |References(n)|
    ensures forall r <- ChildRows(n, count, key, loaded, expanded, path) :: |r.key| > |key| && key <= r.key && r.id == r.key[|r.key| - 1].target
    decreases |expanded - path|, 2, count
  {
    if count > 0 {
      var c := count - 1;
      var child, step := Shown(References(n)[c], loaded), StepOf(References(n), c);
      ChildRowsNamed(n, c, key, loaded, expanded, path);
      RowsNamed(child, key + [step], loaded, expanded, path);
      assert child.id == step.target;
      hide Rows, StepOf, Shown;
      forall r | r in Rows(child, key + [step], loaded, expanded, path)
        ensures |r.key| > |key| && key <= r.key && r.id == r.key[|r.key| - 1].target
      {
        if |r.key| == |key| + 1 { assert r.key == key + [step]; }
      }
    }
  }

  /** Flattening, on any table however cyclic: it shows exactly the rows reachable through open
      nodes that do not repeat on their own path, once each, descendants right behind their
      ancestor, and never deeper than there are expanded identifiers. */
  lemma FlattenShowsTheVisible(root: string, loaded: Table, expanded: set<string>, key: RowKey)
    requires root in loaded
    ensures var rows := Flatten(root, loaded, expanded);
            && (HasKey(rows, key) <==> Visible(loaded[root], key, loaded, expanded, {}))
            && DistinctKeys(rows) && Contiguous(rows) && InOrder(rows, loaded[root], [], loaded)
            && (forall r <- rows :: r.depth == |r.key| <= |expanded|)
            && (Keyed(loaded) ==> forall r <- rows :: Named(r, Some(root), []))
  {
    var n := loaded[root];
    RowsAreVisible(n, [], key, loaded, expanded, {});
    assert [] + key == key && expanded - {} == expanded;
    RowsDistinct(n, [], loaded, expanded, {});
    RowsContiguous(n, [], loaded, expanded, {});
    RowsShallow(n, [], loaded, expanded, {});
    RowsBelow(n, [], loaded, expanded, {});
    RowsInOrder(n, [], loaded, expanded, {});
    if Keyed(loaded) { RowsNamed(n, [], loaded, expanded, {}); }
    hide Rows, Visible, Named, InOrder;
  }
}
