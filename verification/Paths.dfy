/**
 Dot paths into request objects and the assembly of a command's arguments from its form
 controls (ui/src/components/panel-descriptor.ts).
 */
module Paths {
  import opened Basics

  datatype Scalar = Text(s: string) | Integer(n: int) | Flag(b: bool) | Pair(lo: int, hi: int)

  /** A request object; a scalar or an array is an atom, never traversed. */
  datatype Tree = Atom(value: Scalar) | Object(fields: map<string, Tree>)

  type Path = seq<string>

  // ------------------------------------------------------------------ safe paths

  const MAX_PATH_LENGTH: nat := 128
  const MAX_PATH_DEPTH: nat := 8

  function Split(s: string): (r: Path)
    ensures |r| >= 1
  {
    if s == "" then [""]
    else
      var rest := Split(s[1..]);
      if s[0] == '.' then [""] + rest else [[s[0]] + rest[0]] + rest[1..]
  }

  function Join(p: Path): string
    requires |p| >= 1
  {
    if |p| == 1 then p[0] else p[0] + "." + Join(p[1..])
  }

  lemma {:induction false} JoinSplit(s: string)
    ensures Join(Split(s)) == s
  {
    if s != "" {
      JoinSplit(s[1..]);
      var rest := Split(s[1..]);
      if s[0] == '.' {
        assert ([""] + rest)[1..] == rest;
        assert "" + "." + s[1..] == s;
      } else {
        var p := [[s[0]] + rest[0]] + rest[1..];
        assert p[1..] == rest[1..];
        if |rest| > 1 { assert [s[0]] + (rest[0] + "." + Join(rest[1..])) == [s[0]] + rest[0] + "." + Join(rest[1..]); }
        assert [s[0]] + s[1..] == s;
      }
    }
  }

  predicate SafeToken(t: string) {
    && t != "" && (forall c <- t :: c !in "[]$*()")
    && t != "__proto__" && t != "prototype" && t != "constructor"
  }

  predicate IsSafePath(s: string) {
    && s != "" && |s| <= MAX_PATH_LENGTH && |Split(s)| <= MAX_PATH_DEPTH
    && forall t <- Split(s) :: SafeToken(t)
  }

  predicate Dotless(t: string) {
    forall i | 0 <= i < |t| :: t[i] != '.'
  }

  lemma {:induction false} SplitOne(t: string)
    requires Dotless(t)
    ensures Split(t) == [t]
  {
    if t != "" {
      SplitOne(t[1..]);
      assert [t[0]] + t[1..] == t && [t[1..]][1..] == [];
    }
  }

  lemma {:induction false} SplitFirst(t: string, rest: string)
    requires Dotless(t)
    ensures Split(t + "." + rest) == [t] + Split(rest)
  {
    var s := t + "." + rest;
    if t == "" {
      assert s[1..] == rest;
    } else {
      assert s[1..] == t[1..] + "." + rest && s[0] == t[0];
      SplitFirst(t[1..], rest);
      assert [t[0]] + t[1..] == t;
    }
  }

  /** A path splits into the one sequence of dotless tokens that joins to it. */
  lemma {:induction false} SplitJoin(ts: Path)
    requires |ts| >= 1 && forall t <- ts :: Dotless(t)
    ensures Split(Join(ts)) == ts
    decreases |ts|
  {
    assert ts[0] in ts;
    if |ts| == 1 {
      SplitOne(ts[0]);
    } else {
      SplitJoin(ts[1..]);
      SplitFirst(ts[0], Join(ts[1..]));
    }
  }

  /** Not empty, free of the characters of an expression, and no way into a prototype. */
  predicate PlainToken(t: string) {
    && |t| > 0 && t != "__proto__" && t != "prototype" && t != "constructor"
    && forall i | 0 <= i < |t| :: t[i] != '[' && t[i] != ']' && t[i] != '$' && t[i] != '*' && t[i] != '(' && t[i] != ')'
  }

  lemma SafeTokenExactly(t: string)
    ensures SafeToken(t) <==> PlainToken(t)
  {
    var bad := "[]$*()";
    assert |bad| == 6 && bad[0] == '[' && bad[1] == ']' && bad[2] == '$' && bad[3] == '*' && bad[4] == '(' && bad[5] == ')';
    assert forall i | 0 <= i < |t| :: t[i] in t;
  }

  /** Which dotted paths a descriptor may name: at most 128 characters in at most eight plain tokens. */
  lemma SafePathExactly(ts: Path)
    requires |ts| >= 1 && forall t <- ts :: Dotless(t)
    ensures IsSafePath(Join(ts)) <==> 1 <= |Join(ts)| <= 128 && |ts| <= 8 && forall t <- ts :: PlainToken(t)
  {
    SplitJoin(ts);
    hide SafeToken, PlainToken, Split, Join;
    forall t | t in ts ensures SafeToken(t) <==> PlainToken(t) {
      SafeTokenExactly(t);
    }
  }

  // ------------------------------------------------------------------ get and set

  function Resolve(t: Tree, p: Path): Option<Tree>
    decreases |p|
  {
    if p == [] then Some(t)
    else if t.Object? && p[0] in t.fields then Resolve(t.fields[p[0]], p[1..])
    else None
  }

  function ResolvePath(root: Tree, path: string): Option<Tree> {
    if IsSafePath(path) then Resolve(root, Split(path)) else None
  }

  method ResolvePathSteps(root: Tree, path: string) returns (r: Option<Tree>)
    ensures r == ResolvePath(root, path)
  {
    if !IsSafePath(path) {
      return None;
    }
    var tokens := Split(path);
    var current := root;
    for i := 0 to |tokens|
      invariant Resolve(root, tokens) == Resolve(current, tokens[i..])
    {
      assert tokens[i..][0] == tokens[i] && tokens[i..][1..] == tokens[i + 1..];
      if !current.Object? || tokens[i] !in current.fields {
        return None;
      }
      current := current.fields[tokens[i]];
    }
    r := Some(current);
  }

  /** Writes along a path; whatever is not an object on the way is replaced by one. */
  function SetAt(t: Tree, p: Path, v: Tree): (r: Tree)
    requires p != []
    ensures r.Object?
    decreases |p|
  {
    var fields := if t.Object? then t.fields else map[];
    if |p| == 1 then Object(fields[p[0] := v])
    else Object(fields[p[0] := SetAt(if p[0] in fields then fields[p[0]] else Object(map[]), p[1..], v)])
  }

  /** Neither path leads through the other. */
  predicate Unrelated(p: Path, q: Path) {
    !(p <= q) && !(q <= p)
  }

  lemma {:induction false} SetThenGet(t: Tree, p: Path, v: Tree)
    requires p != []
    ensures Resolve(SetAt(t, p, v), p) == Some(v)
    decreases |p|
  {
    if |p| > 1 {
      var fields := if t.Object? then t.fields else map[];
      SetThenGet(if p[0] in fields then fields[p[0]] else Object(map[]), p[1..], v);
    } else {
      assert p[1..] == [];
    }
  }

  /** A write changes nothing at an unrelated path. */
  lemma {:induction false} SetElsewhere(t: Tree, p: Path, v: Tree, q: Path)
    requires p != [] && Unrelated(p, q)
    ensures Resolve(SetAt(t, p, v), q) == Resolve(t, q)
    decreases |p|
  {
    assert q != [];
    var fields := if t.Object? then t.fields else map[];
    if p[0] == q[0] {
      assert p == [p[0]] + p[1..] && q == [q[0]] + q[1..];
      assert Unrelated(p[1..], q[1..]);
      assert p[1..] != [];
      var child := if p[0] in fields then fields[p[0]] else Object(map[]);
      SetElsewhere(child, p[1..], v, q[1..]);
      assert q[1..] != [];
    }
  }

  /** Above the written path there is an object; below a written atom there is nothing. */
  lemma {:induction false} SetAbove(t: Tree, p: Path, v: Tree, q: Path)
    requires p != [] && q <= p && q != p
    ensures var r := Resolve(SetAt(t, p, v), q); r.Some? && r.value.Object?
    decreases |p|
  {
    if q != [] {
      assert p[1..] != [] && q[1..] <= p[1..] && q[1..] != p[1..] by {
        assert p == [p[0]] + p[1..] && q == [q[0]] + q[1..];
      }
      var fields := if t.Object? then t.fields else map[];
      SetAbove(if p[0] in fields then fields[p[0]] else Object(map[]), p[1..], v, q[1..]);
    }
  }

  lemma {:induction false} BelowAtom(t: Tree, p: Path, q: Path)
    requires p <= q && p != q && Resolve(t, p).Some? && Resolve(t, p).value.Atom?
    ensures Resolve(t, q) == None
    decreases |p|
  {
    if p != [] {
      assert p == [p[0]] + p[1..] && q == [q[0]] + q[1..];
      BelowAtom(t.fields[p[0]], p[1..], q[1..]);
    }
  }

  // ------------------------------------------------------------------ assembling

  /** What a form emits: a path and the parsed value to put there. */
  datatype Emission = Emission(path: Path, value: Scalar)

  function Assemble(es: seq<Emission>): (r: Tree)
    requires forall e <- es :: e.path != []
    ensures r.Object?
    decreases |es|
  {
    if es == [] then Object(map[])
    else SetAt(Assemble(es[..|es| - 1]), es[|es| - 1].path, Atom(es[|es| - 1].value))
  }

  ghost predicate PairwiseUnrelated(es: seq<Emission>) {
    forall i, j | 0 <= i < j < |es| :: Unrelated(es[i].path, es[j].path)
  }

  ghost predicate AllArrive(es: seq<Emission>)
    requires forall e <- es :: e.path != []
  {
    forall e <- es :: Resolve(Assemble(es), e.path) == Some(Atom(e.value))
  }

  lemma {:induction false} UnrelatedArrive(es: seq<Emission>)
    requires (forall e <- es :: e.path != []) && PairwiseUnrelated(es)
    ensures AllArrive(es)
    decreases |es|
  {
    if es != [] {
      var n := |es| - 1;
      var before, last := es[..n], es[n];
      UnrelatedArrive(before);
      SetThenGet(Assemble(before), last.path, Atom(last.value));
      forall e | e in es ensures Resolve(Assemble(es), e.path) == Some(Atom(e.value)) {
        if e in before {
          SetElsewhere(Assemble(before), last.path, Atom(last.value), e.path);
        }
      }
    }
  }

  /** Every emitted value arrives in the request exactly when no emitted path leads through
      another one (paths being distinct, which the control parser sees to). */
  lemma ArriveExactlyWhenUnrelated(es: seq<Emission>)
    requires forall e <- es :: e.path != []
    requires forall i, j | 0 <= i < j < |es| :: es[i].path != es[j].path
    ensures AllArrive(es) <==> PairwiseUnrelated(es)
  {
    if AllArrive(es) {
      forall i, j | 0 <= i < j < |es| ensures Unrelated(es[i].path, es[j].path) {
        assert es[i] in es && es[j] in es;
        if es[i].path <= es[j].path { BelowAtom(Assemble(es), es[i].path, es[j].path); }
        if es[j].path <= es[i].path { BelowAtom(Assemble(es), es[j].path, es[i].path); }
      }
    } else if PairwiseUnrelated(es) {
      UnrelatedArrive(es);
    }
  }

  /** Nothing else is in the request: a path resolves exactly when it leads to an emitted one. */
  lemma {:induction false} NothingElse(es: seq<Emission>, q: Path)
    requires (forall e <- es :: e.path != []) && PairwiseUnrelated(es) && q != []
    ensures Resolve(Assemble(es), q).Some? <==> exists e <- es :: q <= e.path
    decreases |es|
  {
    if es != [] {
      var n := |es| - 1;
      var before, p, v := es[..n], es[n].path, Atom(es[n].value);
      NothingElse(before, q);
      assert es == before + [es[n]];
      if q == p {
        SetThenGet(Assemble(before), p, v);
      } else if q <= p {
        SetAbove(Assemble(before), p, v, q);
      } else if p <= q {
        SetThenGet(Assemble(before), p, v);
        BelowAtom(Assemble(es), p, q);
        forall i | 0 <= i < n ensures !(q <= es[i].path) {
          assert Unrelated(es[i].path, p);
        }
      } else {
        SetElsewhere(Assemble(before), p, v, q);
      }
    }
  }

  // ------------------------------------------------------------------ controls

  datatype ControlType = TEXT | INTEGER | INTEGER_RANGE | BOOLEAN | DURATION_MS | SELECT

  /** A select option: the scalar it stands for and the text the form shows for it. */
  datatype SelectOption = SelectOption(value: Scalar, text: string)

  datatype Control = Control(field: string, kind: ControlType, options: seq<SelectOption>)

  /** A descriptor entry as read: no field, or an unknown type, is None; options when they resolve. */
  datatype RawControl = RawControl(field: Option<string>, kind: Option<ControlType>, options: Option<seq<SelectOption>>)

  datatype ParsedControls = ParsedControls(controls: seq<Control>, rejected: nat)

  predicate Acceptable(raw: RawControl, seen: set<string>) {
    && raw.field.Some? && IsSafePath(raw.field.value) && raw.kind.Some? && raw.field.value !in seen
    && (raw.kind.value == SELECT ==> raw.options.Some?)
  }

  function Fields(cs: seq<Control>): set<string> {
    set c <- cs :: c.field
  }

  ghost predicate ControlsOk(cs: seq<Control>) {
    && (forall c <- cs :: IsSafePath(c.field))
    && (forall i, j | 0 <= i < j < |cs| :: cs[i].field != cs[j].field)
  }

  /** The entry is usable, and the first usable one to name its field. */
  ghost predicate TakenFrom(c: Control, raw: seq<RawControl>, i: nat) {
    && i < |raw| && raw[i].field == Some(c.field) && IsSafePath(c.field) && raw[i].kind == Some(c.kind)
    && (if c.kind == SELECT then raw[i].options == Some(c.options) else c.options == [])
    && forall j | 0 <= j < i :: Acceptable(raw[j], {}) ==> raw[j].field != raw[i].field
  }

  /** The accepted controls: safe, pairwise distinct fields, each with the kind and options of the
      first usable entry that names it, in entry order; every entry is accepted or counted
      rejected, and a field is refused only if unusable or already taken. */
  method ParseControls(raw: seq<RawControl>) returns (parsed: ParsedControls, ghost from: seq<nat>)
    ensures ControlsOk(parsed.controls) && |parsed.controls| + parsed.rejected == |raw|
    ensures forall r <- raw :: Acceptable(r, {}) ==> r.field.value in Fields(parsed.controls)
    ensures |from| == |parsed.controls| && forall n | 0 <= n < |from| :: TakenFrom(parsed.controls[n], raw, from[n])
    ensures forall m, n | 0 <= m < n < |from| :: from[m] < from[n]
  {
    hide IsSafePath;
    var controls: seq<Control>, rejected := [], 0;
    var seen: set<string> := {};
    from := [];
    for i := 0 to |raw|
      invariant ControlsOk(controls) && |controls| + rejected == i && seen == Fields(controls)
      invariant forall j | 0 <= j < i :: Acceptable(raw[j], {}) ==> raw[j].field.value in seen
      invariant |from| == |controls| && forall n | 0 <= n < |from| :: from[n] < i && TakenFrom(controls[n], raw, from[n])
      invariant forall m, n | 0 <= m < n < |from| :: from[m] < from[n]
    {
      var entry := raw[i];
      if !Acceptable(entry, seen) {
        rejected := rejected + 1;
        continue;
      }
      var control := Control(entry.field.value, entry.kind.value, if entry.kind.value == SELECT then entry.options.value else []);
      assert control.field !in Fields(controls);
      assert forall c <- controls :: c.field in Fields(controls);
      seen := seen + {control.field};
      assert Fields(controls + [control]) == seen;
      assert TakenFrom(control, raw, i);
      controls, from := controls + [control], from + [i];
    }
    parsed := ParsedControls(controls, rejected);
  }

  datatype ControlValue = Typed(s: string) | Checked(b: bool) | Range(lo: string, hi: string)

  /** How the form reads text: trimming, and the integer a text denotes if any. */
  datatype Reader = Reader(trim: string -> string, integer: string -> Option<int>)

  function FirstOption(options: seq<SelectOption>, text: string): Option<Scalar> {
    if options == [] then None
    else if options[0].text == text then Some(options[0].value)
    else FirstOption(options[1..], text)
  }

  /** The value a control emits for its live form value; invalid and empty inputs emit nothing. */
  function ParsedValue(c: Control, v: ControlValue, reader: Reader): Option<Scalar> {
    match c.kind
    case TEXT => if v.Typed? && reader.trim(v.s) != "" then Some(Text(reader.trim(v.s))) else None
    case INTEGER =>
      if v.Typed? && reader.integer(v.s).Some? then Some(Integer(reader.integer(v.s).value)) else None
    case DURATION_MS =>
      if v.Typed? && reader.integer(v.s).Some? && reader.integer(v.s).value >= 0 then Some(Integer(reader.integer(v.s).value)) else None
    case INTEGER_RANGE =>
      if v.Range? && reader.integer(v.lo).Some? && reader.integer(v.hi).Some? && reader.integer(v.lo).value <= reader.integer(v.hi).value
      then Some(Pair(reader.integer(v.lo).value, reader.integer(v.hi).value)) else None
    case BOOLEAN => if v == Checked(true) then Some(Flag(true)) else None
    case SELECT => if v.Typed? && v.s != "" then FirstOption(c.options, v.s) else None
  }

  /** The text names option `i`, and none before it. */
  ghost predicate Chooses(options: seq<SelectOption>, text: string, i: nat) {
    i < |options| && options[i].text == text && forall j | 0 <= j < i :: options[j].text != text
  }

  lemma {:induction false} FirstOptionIs(options: seq<SelectOption>, text: string, x: Scalar)
    ensures FirstOption(options, text) == Some(x) <==> exists i: nat :: Chooses(options, text, i) && options[i].value == x
  {
    if options != [] {
      FirstOptionIs(options[1..], text, x);
      if options[0].text == text {
        assert Chooses(options, text, 0);
      } else {
        if exists i: nat :: Chooses(options[1..], text, i) && options[1..][i].value == x {
          var i: nat :| Chooses(options[1..], text, i) && options[1..][i].value == x;
          assert Chooses(options, text, i + 1);
        }
        if exists i: nat :: Chooses(options, text, i) && options[i].value == x {
          var i: nat :| Chooses(options, text, i) && options[i].value == x;
          assert Chooses(options[1..], text, i - 1);
        }
      }
    }
  }

  /** What each kind of control emits, and for which input: everything else emits nothing. */
  lemma EmitsExactly(c: Control, v: ControlValue, reader: Reader, x: Scalar)
    ensures ParsedValue(c, v, reader) == Some(x) <==>
      || (c.kind == TEXT && v.Typed? && |reader.trim(v.s)| > 0 && x == Text(reader.trim(v.s)))
      || (c.kind == INTEGER && v.Typed? && x.Integer? && reader.integer(v.s) == Some(x.n))
      || (c.kind == DURATION_MS && v.Typed? && x.Integer? && reader.integer(v.s) == Some(x.n) && x.n >= 0)
      || (c.kind == INTEGER_RANGE && v.Range? && x.Pair? && reader.integer(v.lo) == Some(x.lo) && reader.integer(v.hi) == Some(x.hi) && x.lo <= x.hi)
      || (c.kind == BOOLEAN && v.Checked? && v.b && x == Flag(true))
      || (c.kind == SELECT && v.Typed? && |v.s| > 0 && exists i: nat :: Chooses(c.options, v.s, i) && c.options[i].value == x)
  {
    if c.kind == SELECT && v.Typed? { FirstOptionIs(c.options, v.s, x); }
    hide FirstOption, Chooses;
  }

  function EmissionOf(c: Control, values: map<string, ControlValue>, reader: Reader): seq<Emission> {
    if c.field !in values then []
    else
      var parsed := ParsedValue(c, values[c.field], reader);
      if parsed.None? then [] else [Emission(Split(c.field), parsed.value)]
  }

  function Emitted(cs: seq<Control>, values: map<string, ControlValue>, reader: Reader): (es: seq<Emission>)
    ensures forall e <- es :: e.path != []
    decreases |cs|
  {
    if cs == [] then []
    else Emitted(cs[..|cs| - 1], values, reader) + EmissionOf(cs[|cs| - 1], values, reader)
  }

  method AssembleControlArgs(cs: seq<Control>, values: map<string, ControlValue>, reader: Reader) returns (args: Tree)
    ensures args == Assemble(Emitted(cs, values, reader))
  {
    args := Object(map[]);
    for i := 0 to |cs|
      invariant args == Assemble(Emitted(cs[..i], values, reader))
    {
      assert cs[..i + 1][..i] == cs[..i];
      assert Emitted(cs[..i], values, reader) + [] == Emitted(cs[..i], values, reader);
      if cs[i].field !in values {
        continue;
      }
      var parsed := ParsedValue(cs[i], values[cs[i].field], reader);
      if parsed.Some? {
        ghost var before := Emitted(cs[..i], values, reader);
        ghost var e := Emission(Split(cs[i].field), parsed.value);
        assert (before + [e])[..|before|] == before;
        args := SetAt(args, Split(cs[i].field), Atom(parsed.value));
      }
    }
    assert cs[..|cs|] == cs;
  }

  // ------------------------------------------------------------------ the request

  lemma {:induction false} EmittedFrom(cs: seq<Control>, values: map<string, ControlValue>, reader: Reader)
    requires ControlsOk(cs)
    ensures var es := Emitted(cs, values, reader);
            && (forall e <- es :: exists c <- cs :: e.path == Split(c.field))
            && (forall i, j | 0 <= i < j < |es| :: es[i].path != es[j].path)
    decreases |cs|
  {
    if cs != [] {
      var n := |cs| - 1;
      EmittedFrom(cs[..n], values, reader);
      var before := Emitted(cs[..n], values, reader);
      forall i | 0 <= i < |before| ensures before[i].path != Split(cs[n].field) {
        var c :| c in cs[..n] && before[i].path == Split(c.field);
        JoinSplit(c.field);
        JoinSplit(cs[n].field);
      }
    }
  }

  lemma {:induction false} EmittedHas(cs: seq<Control>, values: map<string, ControlValue>, reader: Reader, i: nat)
    requires i < |cs| && cs[i].field in values && ParsedValue(cs[i], values[cs[i].field], reader).Some?
    ensures Emission(Split(cs[i].field), ParsedValue(cs[i], values[cs[i].field], reader).value) in Emitted(cs, values, reader)
    decreases |cs|
  {
    hide ParsedValue;
    if i < |cs| - 1 { EmittedHas(cs[..|cs| - 1], values, reader, i); }
  }

  /** The assembled request of accepted controls, when no emitted field leads through another:
      a field with a valid value resolves to exactly that value, and any other safe path
      resolves only on the way to an emitted field. */
  lemma RequestIsWhatWasEntered(cs: seq<Control>, values: map<string, ControlValue>, reader: Reader, path: string)
    requires ControlsOk(cs) && IsSafePath(path) && PairwiseUnrelated(Emitted(cs, values, reader))
    ensures var args := Assemble(Emitted(cs, values, reader));
            && (forall c <- cs :: c.field == path && path in values && ParsedValue(c, values[path], reader).Some? ==>
                  ResolvePath(args, path) == Some(Atom(ParsedValue(c, values[path], reader).value)))
            && (ResolvePath(args, path).Some? <==> exists e <- Emitted(cs, values, reader) :: Split(path) <= e.path)
  {
    var es := Emitted(cs, values, reader);
    UnrelatedArrive(es);
    NothingElse(es, Split(path));
    forall c | c in cs && c.field == path && path in values && ParsedValue(c, values[path], reader).Some?
      ensures ResolvePath(Assemble(es), path) == Some(Atom(ParsedValue(c, values[path], reader).value))
    {
      var i :| 0 <= i < |cs| && cs[i] == c;
      EmittedHas(cs, values, reader, i);
    }
  }

  /** Otherwise some entered value is lost: accepted controls deliver all their values exactly
      when their emitted fields are pairwise unrelated. */
  lemma RequestCompleteExactly(cs: seq<Control>, values: map<string, ControlValue>, reader: Reader)
    requires ControlsOk(cs)
    ensures AllArrive(Emitted(cs, values, reader)) <==> PairwiseUnrelated(Emitted(cs, values, reader))
  {
    EmittedFrom(cs, values, reader);
    var es := Emitted(cs, values, reader);
    assert forall e <- es :: e.path != [];
    hide Emitted, ControlsOk, AllArrive, PairwiseUnrelated;
    ArriveExactlyWhenUnrelated(es);
  }
}
