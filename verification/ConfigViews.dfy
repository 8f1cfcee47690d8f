/**
 The structured views of a component's configuration (ui/src/configreview/selectors.ts):
 the flat rows, the nested tree, and the redaction tallies, which must all tell one story.
 */
module ConfigViews {
  import opened Basics
  import opened JsonText

  datatype Row = Row(path: string, display: string, kind: ValueKind)

  datatype Node =
    | Leaf(caption: string, path: string, display: string, kind: ValueKind)
    | Branch(caption: string, path: string, isArray: bool, children: seq<Node>)

  predicate IsScalar(v: Value) {
    !v.Obj? && !v.Arr?
  }

  /** Shown as a single leaf: a scalar or an empty container. */
  predicate IsLeaf(v: Value) {
    IsScalar(v) || v == Obj([]) || v == Arr([])
  }

  function DisplayScalar(v: Value): string
    requires IsScalar(v)
  {
    match v
    case Null => "null"
    case Bool(b) => if b then "true" else "false"
    case Num(text) => text
    case Str(s) => s
  }

  function Classify(v: Value): ValueKind {
    if v.Str? then ClassifyString(v.s) else Plain
  }

  function Decimal(n: nat): string {
    (if n < 10 then "" else Decimal(n / 10)) + ["0123456789"[n % 10]]
  }

  function ChildPath(prefix: string, key: string): string {
    if prefix == "" then key else prefix + "." + key
  }

  function IndexPath(prefix: string, i: nat): (r: string)
    ensures r != ""
  {
    prefix + "[" + Decimal(i) + "]"
  }

  // ------------------------------------------------------------------ flat rows

  function Flatten(v: Value, prefix: string): seq<Row>
    decreases v, 1, 0
  {
    match v
    case Obj(fields) =>
      if fields == [] then (if prefix == "" then [] else [Row(prefix, "{}", Plain)])
      else FlattenFields(v, |fields|, prefix)
    case Arr(items) =>
      if items == [] then (if prefix == "" then [] else [Row(prefix, "[]", Plain)])
      else FlattenItems(v, |items|, prefix)
    case _ => [Row(if prefix == "" then "(value)" else prefix, DisplayScalar(v), Classify(v))]
  }

  function FlattenFields(v: Value, n: nat, prefix: string): seq<Row>
    requires v.Obj? && n <= |v.fields|
    decreases v, 0, n
  {
    if n == 0 then []
    else FlattenFields(v, n - 1, prefix) + Flatten(v.fields[n - 1].value, ChildPath(prefix, v.fields[n - 1].key))
  }

  function FlattenItems(v: Value, n: nat, prefix: string): seq<Row>
    requires v.Arr? && n <= |v.items|
    decreases v, 0, n
  {
    if n == 0 then []
    else FlattenItems(v, n - 1, prefix) + Flatten(v.items[n - 1], IndexPath(prefix, n - 1))
  }

  // ------------------------------------------------------------------ the tree

  function NodeFor(caption: string, path: string, v: Value): Node
    decreases v, 1, 0
  {
    match v
    case Obj(fields) =>
      if fields == [] then Leaf(caption, path, "{}", Plain) else Branch(caption, path, false, FieldNodes(v, |fields|, path))
    case Arr(items) =>
      if items == [] then Leaf(caption, path, "[]", Plain) else Branch(caption, path, true, ItemNodes(v, |items|, path))
    case _ => Leaf(caption, path, DisplayScalar(v), Classify(v))
  }

  function FieldNodes(v: Value, n: nat, path: string): (r: seq<Node>)
    requires v.Obj? && n <= |v.fields|
    decreases v, 0, n
  {
    if n == 0 then []
    else
      var f := v.fields[n - 1];
      FieldNodes(v, n - 1, path) + [NodeFor(f.key, ChildPath(path, f.key), f.value)]
  }

  function ItemNodes(v: Value, n: nat, path: string): (r: seq<Node>)
    requires v.Arr? && n <= |v.items|
    decreases v, 0, n
  {
    if n == 0 then []
    else ItemNodes(v, n - 1, path) + [NodeFor("[" + Decimal(n - 1) + "]", IndexPath(path, n - 1), v.items[n - 1])]
  }

  function BuildTree(v: Value): seq<Node> {
    match v
    case Obj(fields) => FieldNodes(v, |fields|, "")
    case Arr(items) => ItemNodes(v, |items|, "")
    case _ => [NodeFor("(value)", "(value)", v)]
  }

  /** The leaves of a node, in document order. */
  function Leaves(node: Node): seq<Row>
    decreases node, 1, 0
  {
    match node
    case Leaf(_, path, display, kind) => [Row(path, display, kind)]
    case Branch(_, _, _, children) => LeavesOfChildren(node, |children|)
  }

  function LeavesOfChildren(node: Node, n: nat): seq<Row>
    requires node.Branch? && n <= |node.children|
    decreases node, 0, n
  {
    if n == 0 then [] else LeavesOfChildren(node, n - 1) + Leaves(node.children[n - 1])
  }

  function TreeRows(nodes: seq<Node>): seq<Row>
    decreases |nodes|
  {
    if nodes == [] then [] else TreeRows(nodes[..|nodes| - 1]) + Leaves(nodes[|nodes| - 1])
  }

  lemma {:induction false} ChildrenRows(node: Node, n: nat)
    requires node.Branch? && n <= |node.children|
    ensures LeavesOfChildren(node, n) == TreeRows(node.children[..n])
    decreases n
  {
    if n > 0 {
      ChildrenRows(node, n - 1);
      assert node.children[..n][..n - 1] == node.children[..n - 1];
    }
  }

  lemma TreeRowsSnoc(nodes: seq<Node>, node: Node)
    ensures TreeRows(nodes + [node]) == TreeRows(nodes) + Leaves(node)
  {
    assert (nodes + [node])[..|nodes|] == nodes;
  }

  lemma BranchRows(node: Node)
    requires node.Branch?
    ensures Leaves(node) == TreeRows(node.children)
  {
    ChildrenRows(node, |node.children|);
    assert node.children[..|node.children|] == node.children;
  }

  // ------------------------------------------------------------------ do they agree?

  /** Under a chain of empty keys sits a leaf: its path would be the empty string. */
  predicate EmptyPathLeaf(v: Value) {
    IsLeaf(v) || (v.Obj? && exists i | 0 <= i < |v.fields| :: v.fields[i].key == "" && EmptyPathLeaf(v.fields[i].value))
  }

  lemma {:induction false} NodeRows(caption: string, path: string, v: Value)
    requires path != "" || !EmptyPathLeaf(v)
    ensures Leaves(NodeFor(caption, path, v)) == Flatten(v, path)
    decreases v, 1, 0
  {
    match v {
      case Obj(fields) =>
        if fields != [] {
          FieldRows(v, |fields|, path);
          BranchRows(NodeFor(caption, path, v));
        }
      case Arr(items) =>
        if items != [] {
          ItemRows(v, |items|, path);
          BranchRows(NodeFor(caption, path, v));
        }
      case _ =>
    }
  }

  lemma {:induction false} FieldRows(v: Value, n: nat, path: string)
    requires v.Obj? && n <= |v.fields|
    requires path != "" || forall i | 0 <= i < |v.fields| :: v.fields[i].key == "" ==> !EmptyPathLeaf(v.fields[i].value)
    ensures TreeRows(FieldNodes(v, n, path)) == FlattenFields(v, n, path)
    decreases v, 0, n
  {
    if n > 0 {
      var f := v.fields[n - 1];
      var node := NodeFor(f.key, ChildPath(path, f.key), f.value);
      FieldRows(v, n - 1, path);
      NodeRows(f.key, ChildPath(path, f.key), f.value);
      TreeRowsSnoc(FieldNodes(v, n - 1, path), node);
    }
  }

  lemma {:induction false} ItemRows(v: Value, n: nat, path: string)
    requires v.Arr? && n <= |v.items|
    ensures TreeRows(ItemNodes(v, n, path)) == FlattenItems(v, n, path)
    decreases v, 0, n
  {
    if n > 0 {
      var caption := "[" + Decimal(n - 1) + "]";
      ItemRows(v, n - 1, path);
      NodeRows(caption, IndexPath(path, n - 1), v.items[n - 1]);
      TreeRowsSnoc(ItemNodes(v, n - 1, path), NodeFor(caption, IndexPath(path, n - 1), v.items[n - 1]));
    }
  }

  /** No flat row has an empty path. */
  lemma {:induction false} FlattenPaths(v: Value, prefix: string)
    ensures forall r <- Flatten(v, prefix) :: r.path != ""
    decreases v, 1, 0
  {
    match v {
      case Obj(fields) => FlattenFieldPaths(v, |fields|, prefix);
      case Arr(items) => FlattenItemPaths(v, |items|, prefix);
      case _ =>
    }
  }

  lemma {:induction false} FlattenFieldPaths(v: Value, n: nat, prefix: string)
    requires v.Obj? && n <= |v.fields|
    ensures forall r <- FlattenFields(v, n, prefix) :: r.path != ""
    decreases v, 0, n
  {
    if n > 0 {
      FlattenFieldPaths(v, n - 1, prefix);
      FlattenPaths(v.fields[n - 1].value, ChildPath(prefix, v.fields[n - 1].key));
    }
  }

  lemma {:induction false} FlattenItemPaths(v: Value, n: nat, prefix: string)
    requires v.Arr? && n <= |v.items|
    ensures forall r <- FlattenItems(v, n, prefix) :: r.path != ""
    decreases v, 0, n
  {
    if n > 0 {
      FlattenItemPaths(v, n - 1, prefix);
      FlattenPaths(v.items[n - 1], IndexPath(prefix, n - 1));
    }
  }

  /** An empty-path leaf does show up in the tree. */
  lemma {:induction false} EmptyLeafShows(caption: string, v: Value)
    requires EmptyPathLeaf(v)
    ensures exists r :: r in Leaves(NodeFor(caption, "", v)) && r.path == ""
    decreases v
  {
    if IsLeaf(v) {
      var node := NodeFor(caption, "", v);
      assert Row("", node.display, node.kind) in Leaves(node);
    } else {
      EmptyFieldShows(v);
      BranchRows(NodeFor(caption, "", v));
    }
  }

  lemma {:induction false} EmptyFieldShows(v: Value)
    requires v.Obj? && exists i | 0 <= i < |v.fields| :: v.fields[i].key == "" && EmptyPathLeaf(v.fields[i].value)
    ensures exists r :: r in TreeRows(FieldNodes(v, |v.fields|, "")) && r.path == ""
    decreases v, 0
  {
    var i :| 0 <= i < |v.fields| && v.fields[i].key == "" && EmptyPathLeaf(v.fields[i].value);
    EmptyLeafShows("", v.fields[i].value);
    FieldNodeRows(v, |v.fields|, "", i);
    var r :| r in Leaves(NodeFor("", "", v.fields[i].value)) && r.path == "";
    assert r in TreeRows(FieldNodes(v, |v.fields|, ""));
  }

  lemma FieldNodesStep(v: Value, n: nat, path: string)
    requires v.Obj? && 0 < n <= |v.fields|
    ensures FieldNodes(v, n, path)
         == FieldNodes(v, n - 1, path) + [NodeFor(v.fields[n - 1].key, ChildPath(path, v.fields[n - 1].key), v.fields[n - 1].value)]
  {
    hide NodeFor, ChildPath;
  }

  lemma {:induction false} FieldNodeRows(v: Value, n: nat, path: string, i: nat)
    requires v.Obj? && i < n <= |v.fields|
    ensures forall r <- Leaves(NodeFor(v.fields[i].key, ChildPath(path, v.fields[i].key), v.fields[i].value)) ::
              r in TreeRows(FieldNodes(v, n, path))
    decreases n
  {
    hide NodeFor, Leaves, ChildPath, TreeRows, FieldNodes;
    var f := v.fields[n - 1];
    FieldNodesStep(v, n, path);
    TreeRowsSnoc(FieldNodes(v, n - 1, path), NodeFor(f.key, ChildPath(path, f.key), f.value));
    if i < n - 1 { FieldNodeRows(v, n - 1, path, i); }
  }

  /** The two structured views of a configuration show the same rows exactly when no leaf sits
      under nothing but empty keys. */
  lemma ViewsAgreeExactly(v: Value)
    ensures TreeRows(BuildTree(v)) == Flatten(v, "") <==>
              !(v.Obj? && exists i | 0 <= i < |v.fields| :: v.fields[i].key == "" && EmptyPathLeaf(v.fields[i].value))
  {
    if v.Obj? {
      if exists i | 0 <= i < |v.fields| :: v.fields[i].key == "" && EmptyPathLeaf(v.fields[i].value) {
        EmptyFieldShows(v);
        FlattenPaths(v, "");
      } else {
        FieldRows(v, |v.fields|, "");
      }
    } else if v.Arr? {
      ItemRows(v, |v.items|, "");
    } else {
      TreeRowsSnoc([], NodeFor("(value)", "(value)", v));
    }
  }

  // ------------------------------------------------------------------ rows are the leaves

  /** The members of an object or the items of an array. */
  function Size(v: Value): nat {
    if v.Obj? then |v.fields| else if v.Arr? then |v.items| else 0
  }

  function Child(v: Value, i: nat): Value
    requires i < Size(v)
  {
    if v.Obj? then v.fields[i].value else v.items[i]
  }

  /** The path of a child: the key after a dot, or the position in brackets. */
  function PathBelow(v: Value, prefix: string, i: nat): string
    requires i < Size(v)
  {
    if v.Arr? then prefix + "[" + Decimal(i) + "]"
    else if prefix == "" then v.fields[i].key
    else prefix + "." + v.fields[i].key
  }

  /** `r` is the row of the leaf reached by the child positions `pos`. */
  ghost predicate ShowsLeaf(r: Row, v: Value, prefix: string, pos: seq<nat>)
    decreases |pos|
  {
    if pos != [] then pos[0] < Size(v) && ShowsLeaf(r, Child(v, pos[0]), PathBelow(v, prefix, pos[0]), pos[1..])
    else
      match v
      case Null => r == Row(if prefix == "" then "(value)" else prefix, "null", Plain)
      case Bool(b) => r == Row(if prefix == "" then "(value)" else prefix, if b then "true" else "false", Plain)
      case Num(text) => r == Row(if prefix == "" then "(value)" else prefix, text, Plain)
      case Str(s) =>
        && r.path == (if prefix == "" then "(value)" else prefix) && r.display == s
        && (r.kind == Redacted <==> s == "***") && (r.kind == SecretRef <==> |s| >= 7 && s[..7] == "$secret")
      case Obj(fields) => fields == [] && prefix != "" && r == Row(prefix, "{}", Plain)
      case Arr(items) => items == [] && prefix != "" && r == Row(prefix, "[]", Plain)
  }

  /** The positions lead to a leaf that has a row: not an empty container with an empty path. */
  predicate HasRow(v: Value, prefix: string, pos: seq<nat>)
    decreases |pos|
  {
    if pos == [] then IsLeaf(v) && (IsScalar(v) || prefix != "")
    else pos[0] < Size(v) && HasRow(Child(v, pos[0]), PathBelow(v, prefix, pos[0]), pos[1..])
  }

  predicate Precedes(a: seq<nat>, b: seq<nat>)
    decreases |a|
  {
    a != [] && b != [] && (a[0] < b[0] || (a[0] == b[0] && Precedes(a[1..], b[1..])))
  }

  function Under(i: nat, places: seq<seq<nat>>): (r: seq<seq<nat>>)
    ensures |r| == |places| && forall j | 0 <= j < |r| :: r[j] == [i] + places[j]
  {
    seq(|places|, j requires 0 <= j < |places| => [i] + places[j])
  }

  /** The rows are those of the leaves at `places`: in document order, each with a row once. */
  ghost predicate RowsAt(rows: seq<Row>, v: Value, prefix: string, places: seq<seq<nat>>, n: nat) {
    && |rows| == |places|
    && (forall i | 0 <= i < |rows| :: ShowsLeaf(rows[i], v, prefix, places[i]))
    && (forall i, j | 0 <= i < j < |places| :: Precedes(places[i], places[j]))
    && (forall i | 0 <= i < |places| :: places[i] != [] ==> places[i][0] < n)
    && (forall pos | HasRow(v, prefix, pos) && (pos != [] ==> pos[0] < n) :: pos in places)
  }

  function FlattenChildren(v: Value, n: nat, prefix: string): seq<Row>
    requires n <= Size(v)
  {
    if v.Obj? then FlattenFields(v, n, prefix) else if v.Arr? then FlattenItems(v, n, prefix) else []
  }

  lemma FlattenChildrenStep(v: Value, n: nat, prefix: string)
    requires 0 < n <= Size(v)
    ensures FlattenChildren(v, n, prefix)
         == FlattenChildren(v, n - 1, prefix) + Flatten(Child(v, n - 1), PathBelow(v, prefix, n - 1))
  {
    hide Flatten;
  }

  lemma ShowsBelow(r: Row, v: Value, prefix: string, n: nat, p: seq<nat>)
    requires n < Size(v) && ShowsLeaf(r, Child(v, n), PathBelow(v, prefix, n), p)
    ensures ShowsLeaf(r, v, prefix, [n] + p)
  {
    assert ([n] + p)[1..] == p;
  }

  lemma ShowsUnder(before: seq<Row>, placed: seq<seq<nat>>, rows: seq<Row>, places: seq<seq<nat>>, v: Value, prefix: string, n: nat, i: nat)
    requires n < Size(v) && i < |before + rows|
    requires RowsAt(before, v, prefix, placed, n)
    requires RowsAt(rows, Child(v, n), PathBelow(v, prefix, n), places, Size(Child(v, n)))
    ensures ShowsLeaf((before + rows)[i], v, prefix, (placed + Under(n, places))[i])
  {
    hide ShowsLeaf, HasRow, Precedes, PathBelow, Child, Size;
    if i >= |placed| { ShowsBelow(rows[i - |placed|], v, prefix, n, places[i - |placed|]); }
  }

  lemma OrderUnder(placed: seq<seq<nat>>, places: seq<seq<nat>>, n: nat, i: nat, j: nat)
    requires i < j < |placed + Under(n, places)|
    requires forall k | 0 <= k < |placed| :: placed[k] != [] && placed[k][0] < n
    requires forall k, l | 0 <= k < l < |placed| :: Precedes(placed[k], placed[l])
    requires forall k, l | 0 <= k < l < |places| :: Precedes(places[k], places[l])
    ensures Precedes((placed + Under(n, places))[i], (placed + Under(n, places))[j])
  {
    if i >= |placed| {
      var a, b := places[i - |placed|], places[j - |placed|];
      assert ([n] + a)[1..] == a && ([n] + b)[1..] == b;
    }
  }

  lemma CompleteUnder(before: seq<Row>, placed: seq<seq<nat>>, rows: seq<Row>, places: seq<seq<nat>>, v: Value, prefix: string, n: nat, pos: seq<nat>)
    requires n < Size(v) && HasRow(v, prefix, pos) && pos != [] && pos[0] <= n
    requires RowsAt(before, v, prefix, placed, n)
    requires RowsAt(rows, Child(v, n), PathBelow(v, prefix, n), places, Size(Child(v, n)))
    ensures pos in placed + Under(n, places)
  {
    if pos[0] == n {
      assert pos[1..] != [] ==> pos[1..][0] < Size(Child(v, n));
      assert pos[1..] in places;
      var i :| 0 <= i < |places| && places[i] == pos[1..];
      assert Under(n, places)[i] == pos;
    } else {
      assert pos in placed;
    }
  }

  /** Placing the rows of one more child. */
  lemma RowsUnder(before: seq<Row>, placed: seq<seq<nat>>, rows: seq<Row>, places: seq<seq<nat>>, v: Value, prefix: string, n: nat)
    requires n < Size(v) && (forall p <- placed :: p != [])
    requires RowsAt(before, v, prefix, placed, n)
    requires RowsAt(rows, Child(v, n), PathBelow(v, prefix, n), places, Size(Child(v, n)))
    ensures RowsAt(before + rows, v, prefix, placed + Under(n, places), n + 1)
    ensures forall p <- placed + Under(n, places) :: p != []
  {
    var all := placed + Under(n, places);
    assert forall k | 0 <= k < |placed| :: placed[k] in placed;
    forall i | 0 <= i < |all| ensures ShowsLeaf((before + rows)[i], v, prefix, all[i]) {
      ShowsUnder(before, placed, rows, places, v, prefix, n, i);
    }
    forall i, j | 0 <= i < j < |all| ensures Precedes(all[i], all[j]) {
      OrderUnder(placed, places, n, i, j);
    }
    forall pos | HasRow(v, prefix, pos) && (pos != [] ==> pos[0] < n + 1) ensures pos in all {
      assert pos != [];
      CompleteUnder(before, placed, rows, places, v, prefix, n, pos);
    }
    hide ShowsLeaf, Precedes, HasRow;
  }

  lemma LeafRow(v: Value, prefix: string) returns (places: seq<seq<nat>>)
    requires IsLeaf(v)
    ensures RowsAt(Flatten(v, prefix), v, prefix, places, Size(v))
  {
    places := if IsScalar(v) || prefix != "" then [[]] else [];
    if v.Str? { SecretPrefix(v.s); }
  }

  lemma SecretPrefix(s: string)
    ensures "$secret" <= s <==> |s| >= 7 && s[..7] == "$secret"
  {
  }

  /** The flat rows are exactly the rows of the configuration's leaves, in document order, each
      under the path that leads to it, with its text and its marking; only an empty container
      without a path has none. */
  lemma {:induction false} RowsAreTheLeaves(v: Value, prefix: string) returns (places: seq<seq<nat>>)
    ensures RowsAt(Flatten(v, prefix), v, prefix, places, Size(v))
    decreases v, 1, 0
  {
    if IsLeaf(v) {
      places := LeafRow(v, prefix);
    } else {
      places := ChildRowsAre(v, Size(v), prefix);
      assert Flatten(v, prefix) == FlattenChildren(v, Size(v), prefix);
    }
  }

  lemma NoRowsYet(v: Value, prefix: string)
    requires !IsLeaf(v)
    ensures RowsAt(FlattenChildren(v, 0, prefix), v, prefix, [], 0)
  {
  }

  lemma {:induction false} ChildRowsAre(v: Value, n: nat, prefix: string) returns (places: seq<seq<nat>>)
    requires !IsLeaf(v) && n <= Size(v)
    ensures RowsAt(FlattenChildren(v, n, prefix), v, prefix, places, n)
    ensures forall p <- places :: p != []
    decreases v, 0, n
  {
    hide RowsAt, Flatten, FlattenChildren, PathBelow;
    if n == 0 {
      NoRowsYet(v, prefix);
      places := [];
    } else {
      var placed := ChildRowsAre(v, n - 1, prefix);
      var under := RowsAreTheLeaves(Child(v, n - 1), PathBelow(v, prefix, n - 1));
      RowsUnder(FlattenChildren(v, n - 1, prefix), placed, Flatten(Child(v, n - 1), PathBelow(v, prefix, n - 1)), under, v, prefix, n - 1);
      FlattenChildrenStep(v, n, prefix);
      places := placed + Under(n - 1, under);
    }
  }

  /** A node carries its caption and path; a container has one child per member or item, captioned
      by its key or its bracketed position. */
  ghost predicate NodeIs(node: Node, caption: string, path: string, v: Value)
    decreases v
  {
    && node.caption == caption && node.path == path
    && (node.Leaf? <==> IsLeaf(v))
    && (node.Branch? ==>
          && node.isArray == v.Arr? && |node.children| == Size(v)
          && forall i | 0 <= i < Size(v) ::
               NodeIs(node.children[i], if v.Arr? then "[" + Decimal(i) + "]" else v.fields[i].key, PathBelow(v, path, i), Child(v, i)))
  }

  lemma {:induction false} FieldNodesAre(v: Value, n: nat, path: string, i: nat)
    requires v.Obj? && i < n <= |v.fields|
    ensures |FieldNodes(v, n, path)| == n && FieldNodes(v, n, path)[i] == NodeFor(v.fields[i].key, ChildPath(path, v.fields[i].key), v.fields[i].value)
    decreases n
  {
    hide NodeFor;
    if i < n - 1 { FieldNodesAre(v, n - 1, path, i); } else { FieldNodesCount(v, n - 1, path); }
  }

  lemma {:induction false} FieldNodesCount(v: Value, n: nat, path: string)
    requires v.Obj? && n <= |v.fields|
    ensures |FieldNodes(v, n, path)| == n
    decreases n
  {
    if n > 0 { FieldNodesCount(v, n - 1, path); }
  }

  lemma {:induction false} ItemNodesAre(v: Value, n: nat, path: string, i: nat)
    requires v.Arr? && i < n <= |v.items|
    ensures |ItemNodes(v, n, path)| == n && ItemNodes(v, n, path)[i] == NodeFor("[" + Decimal(i) + "]", IndexPath(path, i), v.items[i])
    decreases n
  {
    hide NodeFor;
    if i < n - 1 { ItemNodesAre(v, n - 1, path, i); } else { ItemNodesCount(v, n - 1, path); }
  }

  lemma {:induction false} ItemNodesCount(v: Value, n: nat, path: string)
    requires v.Arr? && n <= |v.items|
    ensures |ItemNodes(v, n, path)| == n
    decreases n
  {
    if n > 0 { ItemNodesCount(v, n - 1, path); }
  }

  /** The tree has the configuration's own shape. */
  lemma {:induction false} NodesHaveTheShape(caption: string, path: string, v: Value)
    ensures NodeIs(NodeFor(caption, path, v), caption, path, v)
    decreases v
  {
    var node := NodeFor(caption, path, v);
    if v.Obj? && v.fields != [] {
      FieldNodesCount(v, |v.fields|, path);
      forall i | 0 <= i < Size(v) ensures NodeIs(node.children[i], v.fields[i].key, PathBelow(v, path, i), Child(v, i)) {
        FieldNodesAre(v, |v.fields|, path, i);
        NodesHaveTheShape(v.fields[i].key, PathBelow(v, path, i), v.fields[i].value);
      }
    } else if v.Arr? && v.items != [] {
      ItemNodesCount(v, |v.items|, path);
      forall i | 0 <= i < Size(v) ensures NodeIs(node.children[i], "[" + Decimal(i) + "]", PathBelow(v, path, i), Child(v, i)) {
        ItemNodesAre(v, |v.items|, path, i);
        NodesHaveTheShape("[" + Decimal(i) + "]", PathBelow(v, path, i), v.items[i]);
      }
    }
  }

  predicate AllDigits(s: string) {
    forall i | 0 <= i < |s| :: '0' <= s[i] <= '9'
  }

  function ReadDecimal(s: string): nat
    requires AllDigits(s)
  {
    if s == "" then 0 else 10 * ReadDecimal(s[..|s| - 1]) + (s[|s| - 1] as nat - '0' as nat)
  }

  /** The text of a position reads back as its number. */
  lemma {:induction false} DecimalReads(n: nat)
    ensures var s := Decimal(n); s != "" && AllDigits(s) && ReadDecimal(s) == n
  {
    if n >= 10 { DecimalReads(n / 10); }
    DecimalSnoc(n);
    hide Decimal, ReadDecimal, AllDigits;
    DigitIs(n % 10);
    EmptyReads();
    ReadSnoc(if n < 10 then "" else Decimal(n / 10), "0123456789"[n % 10]);
    assert n == 10 * (n / 10) + n % 10;
  }

  lemma EmptyReads()
    ensures AllDigits("") && ReadDecimal("") == 0
  {
  }

  lemma DigitIs(k: nat)
    requires k < 10
    ensures '0' <= "0123456789"[k] <= '9' && "0123456789"[k] as nat == '0' as nat + k
  {
  }

  lemma DecimalSnoc(n: nat)
    ensures Decimal(n) == (if n < 10 then "" else Decimal(n / 10)) + ["0123456789"[n % 10]]
  {
  }

  lemma ReadSnoc(front: string, digit: char)
    requires AllDigits(front) && '0' <= digit <= '9'
    ensures AllDigits(front + [digit]) && ReadDecimal(front + [digit]) == 10 * ReadDecimal(front) + (digit as nat - '0' as nat)
  {
    assert (front + [digit])[..|front|] == front;
  }

  // ------------------------------------------------------------------ redaction tallies

  datatype RedactionCounts = RedactionCounts(redacted: nat, secretRefs: nat)

  function Tally(rows: seq<Row>, kind: ValueKind): nat
    decreases |rows|
  {
    if rows == [] then 0 else Tally(rows[..|rows| - 1], kind) + if rows[|rows| - 1].kind == kind then 1 else 0
  }

  method CountRedactions(rows: seq<Row>) returns (counts: RedactionCounts)
    ensures counts == RedactionCounts(Tally(rows, Redacted), Tally(rows, SecretRef))
  {
    var redacted, secretRefs := 0, 0;
    for i := 0 to |rows|
      invariant redacted == Tally(rows[..i], Redacted) && secretRefs == Tally(rows[..i], SecretRef)
    {
      assert rows[..i + 1][..i] == rows[..i];
      if rows[i].kind == Redacted {
        redacted := redacted + 1;
      } else if rows[i].kind == SecretRef {
        secretRefs := secretRefs + 1;
      }
    }
    assert rows[..|rows|] == rows;
    counts := RedactionCounts(redacted, secretRefs);
  }

  function TokenKindOf(kind: ValueKind): TokenKind {
    match kind
    case Plain => StringToken
    case Redacted => RedactedToken
    case SecretRef => SecretRefToken
  }

  function TallyTokens(ts: seq<Token>, kind: TokenKind): nat
    decreases |ts|
  {
    if ts == [] then 0 else (if ts[0].kind == kind then 1 else 0) + TallyTokens(ts[1..], kind)
  }

  lemma {:induction false} TallyConcat(a: seq<Row>, b: seq<Row>, kind: ValueKind)
    ensures Tally(a + b, kind) == Tally(a, kind) + Tally(b, kind)
    decreases |b|
  {
    if b == [] {
      assert a + b == a;
    } else {
      assert (a + b)[..|a + b| - 1] == a + b[..|b| - 1];
      TallyConcat(a, b[..|b| - 1], kind);
    }
  }

  lemma {:induction false} TallyTokensConcat(a: seq<Token>, b: seq<Token>, kind: TokenKind)
    ensures TallyTokens(a + b, kind) == TallyTokens(a, kind) + TallyTokens(b, kind)
    decreases |a|
  {
    if a == [] {
      assert a + b == b;
    } else {
      assert (a + b)[1..] == a[1..] + b;
      TallyTokensConcat(a[1..], b, kind);
    }
  }

  lemma {:induction false} OtherTokens(ts: seq<Token>, kind: TokenKind)
    requires forall t <- ts :: t.kind != kind
    ensures TallyTokens(ts, kind) == 0
    decreases |ts|
  {
    if ts != [] { OtherTokens(ts[1..], kind); }
  }

  predicate IsMark(kind: TokenKind) {
    kind == RedactedToken || kind == SecretRefToken
  }

  lemma TallyWrapped(before: seq<Token>, punct: seq<Token>, value: seq<Token>, after: seq<Token>, kind: TokenKind)
    requires IsMark(kind) && (forall t <- punct :: !IsMark(t.kind)) && (forall t <- after :: !IsMark(t.kind))
    ensures TallyTokens(before + punct + value + after, kind) == TallyTokens(before, kind) + TallyTokens(value, kind)
  {
    TallyTokensConcat(before + punct + value, after, kind);
    TallyTokensConcat(before + punct, value, kind);
    TallyTokensConcat(before, punct, kind);
    OtherTokens(punct, kind);
    OtherTokens(after, kind);
  }

  lemma TallyContainer(open: string, inner: seq<Token>, close: string, kind: TokenKind)
    requires IsMark(kind)
    ensures TallyTokens([Token(open, Punct)] + inner + [Token(close, Punct)], kind) == TallyTokens(inner, kind)
  {
    assert [] + [Token(open, Punct)] + inner + [Token(close, Punct)] == [Token(open, Punct)] + inner + [Token(close, Punct)];
    TallyWrapped([], [Token(open, Punct)], inner, [Token(close, Punct)], kind);
  }

  lemma TallyField(before: seq<Token>, pad: string, key: string, value: seq<Token>, sep: string, kind: TokenKind)
    requires IsMark(kind)
    ensures TallyTokens(before + [Token(pad, Punct), Token(key, KeyToken), Token(": ", Punct)] + value + [Token(sep, Punct)], kind)
         == TallyTokens(before, kind) + TallyTokens(value, kind)
  {
    TallyWrapped(before, [Token(pad, Punct), Token(key, KeyToken), Token(": ", Punct)], value, [Token(sep, Punct)], kind);
  }

  lemma TallyItem(before: seq<Token>, pad: string, value: seq<Token>, sep: string, kind: TokenKind)
    requires IsMark(kind)
    ensures TallyTokens(before + [Token(pad, Punct)] + value + [Token(sep, Punct)], kind)
         == TallyTokens(before, kind) + TallyTokens(value, kind)
  {
    TallyWrapped(before, [Token(pad, Punct)], value, [Token(sep, Punct)], kind);
  }

  lemma TallyScalar(v: Value, prefix: string, depth: nat, kind: ValueKind)
    requires kind != Plain && IsLeaf(v)
    ensures TallyTokens(Tokens(v, depth), TokenKindOf(kind)) == Tally(Flatten(v, prefix), kind)
  {
    hide Quote, DisplayScalar, ClassifyString;
    if IsScalar(v) {
      assert Tokens(v, depth)[1..] == [] && Flatten(v, prefix)[..0] == [];
    } else {
      assert Tokens(v, depth)[1..] == [];
    }
  }

  /** The raw tab colours exactly as many values redacted, and as many references, as the note
      above it counts, whatever the configuration. */
  lemma {:induction false} TalliesAgree(v: Value, prefix: string, depth: nat, kind: ValueKind)
    requires kind != Plain
    ensures TallyTokens(Tokens(v, depth), TokenKindOf(kind)) == Tally(Flatten(v, prefix), kind)
    decreases v, 1, 0
  {
    if IsLeaf(v) {
      TallyScalar(v, prefix, depth, kind);
    } else if v.Obj? {
      assert Tokens(v, depth) == [Token("{\n", Punct)] + FieldTokens(v, |v.fields|, depth) + [Token(Pad(depth) + "}", Punct)];
      assert Flatten(v, prefix) == FlattenFields(v, |v.fields|, prefix);
      hide Tokens, Flatten, FieldTokens, FlattenFields, TallyTokens, Tally, Pad;
      FieldTallies(v, |v.fields|, prefix, depth, kind);
      TallyContainer("{\n", FieldTokens(v, |v.fields|, depth), Pad(depth) + "}", TokenKindOf(kind));
    } else {
      assert Tokens(v, depth) == [Token("[\n", Punct)] + ItemTokens(v, |v.items|, depth) + [Token(Pad(depth) + "]", Punct)];
      assert Flatten(v, prefix) == FlattenItems(v, |v.items|, prefix);
      hide Tokens, Flatten, ItemTokens, FlattenItems, TallyTokens, Tally, Pad;
      ItemTallies(v, |v.items|, prefix, depth, kind);
      TallyContainer("[\n", ItemTokens(v, |v.items|, depth), Pad(depth) + "]", TokenKindOf(kind));
    }
  }

  lemma NothingToTally(v: Value, prefix: string, depth: nat, kind: ValueKind)
    requires !IsScalar(v) && kind != Plain
    ensures v.Obj? ==> TallyTokens(FieldTokens(v, 0, depth), TokenKindOf(kind)) == Tally(FlattenFields(v, 0, prefix), kind)
    ensures v.Arr? ==> TallyTokens(ItemTokens(v, 0, depth), TokenKindOf(kind)) == Tally(FlattenItems(v, 0, prefix), kind)
  {
  }

  lemma FieldTallyStep(v: Value, n: nat, prefix: string, depth: nat, kind: ValueKind)
    requires v.Obj? && 0 < n <= |v.fields| && kind != Plain
    requires var f := v.fields[n - 1];
             TallyTokens(Tokens(f.value, depth + 1), TokenKindOf(kind)) == Tally(Flatten(f.value, ChildPath(prefix, f.key)), kind)
    ensures TallyTokens(FieldTokens(v, n, depth), TokenKindOf(kind)) - TallyTokens(FieldTokens(v, n - 1, depth), TokenKindOf(kind))
         == Tally(FlattenFields(v, n, prefix), kind) - Tally(FlattenFields(v, n - 1, prefix), kind)
  {
    var f := v.fields[n - 1];
    var path := ChildPath(prefix, f.key);
    hide Tokens, Flatten, FieldTokens, TallyTokens, Tally, Pad, Quote, Separator, ChildPath;
    assert FlattenFields(v, n, prefix) == FlattenFields(v, n - 1, prefix) + Flatten(f.value, path);
    hide FlattenFields;
    TallyConcat(FlattenFields(v, n - 1, prefix), Flatten(f.value, path), kind);
    FieldTokensStep(v, n, depth);
    TallyField(FieldTokens(v, n - 1, depth), Pad(depth + 1), Quote(f.key),
               Tokens(f.value, depth + 1), Separator(n == |v.fields|), TokenKindOf(kind));
  }

  lemma {:induction false} FieldTallies(v: Value, n: nat, prefix: string, depth: nat, kind: ValueKind)
    requires v.Obj? && n <= |v.fields| && kind != Plain
    ensures TallyTokens(FieldTokens(v, n, depth), TokenKindOf(kind)) == Tally(FlattenFields(v, n, prefix), kind)
    decreases v, 0, n
  {
    hide Tokens, Flatten, FieldTokens, FlattenFields, TallyTokens, Tally, ChildPath;
    if n == 0 {
      NothingToTally(v, prefix, depth, kind);
    } else {
      FieldTallies(v, n - 1, prefix, depth, kind);
      TalliesAgree(v.fields[n - 1].value, ChildPath(prefix, v.fields[n - 1].key), depth + 1, kind);
      FieldTallyStep(v, n, prefix, depth, kind);
    }
  }

  lemma ItemTallyStep(v: Value, n: nat, prefix: string, depth: nat, kind: ValueKind)
    requires v.Arr? && 0 < n <= |v.items| && kind != Plain
    requires TallyTokens(Tokens(v.items[n - 1], depth + 1), TokenKindOf(kind)) == Tally(Flatten(v.items[n - 1], IndexPath(prefix, n - 1)), kind)
    ensures TallyTokens(ItemTokens(v, n, depth), TokenKindOf(kind)) - TallyTokens(ItemTokens(v, n - 1, depth), TokenKindOf(kind))
         == Tally(FlattenItems(v, n, prefix), kind) - Tally(FlattenItems(v, n - 1, prefix), kind)
  {
    var x := v.items[n - 1];
    var path := IndexPath(prefix, n - 1);
    hide Tokens, Flatten, TallyTokens, Tally, Pad, Separator, IndexPath;
    assert FlattenItems(v, n, prefix) == FlattenItems(v, n - 1, prefix) + Flatten(x, path);
    assert ItemTokens(v, n, depth) == ItemTokens(v, n - 1, depth) + [Token(Pad(depth + 1), Punct)]
                                       + Tokens(x, depth + 1) + [Token(Separator(n == |v.items|), Punct)];
    hide ItemTokens, FlattenItems;
    TallyConcat(FlattenItems(v, n - 1, prefix), Flatten(x, path), kind);
    TallyItem(ItemTokens(v, n - 1, depth), Pad(depth + 1), Tokens(x, depth + 1), Separator(n == |v.items|), TokenKindOf(kind));
  }

  lemma {:induction false} ItemTallies(v: Value, n: nat, prefix: string, depth: nat, kind: ValueKind)
    requires v.Arr? && n <= |v.items| && kind != Plain
    ensures TallyTokens(ItemTokens(v, n, depth), TokenKindOf(kind)) == Tally(FlattenItems(v, n, prefix), kind)
    decreases v, 0, n
  {
    hide Tokens, Flatten, ItemTokens, FlattenItems, TallyTokens, Tally, IndexPath;
    if n == 0 {
      NothingToTally(v, prefix, depth, kind);
    } else {
      ItemTallies(v, n - 1, prefix, depth, kind);
      TalliesAgree(v.items[n - 1], IndexPath(prefix, n - 1), depth + 1, kind);
      ItemTallyStep(v, n, prefix, depth, kind);
    }
  }
}
