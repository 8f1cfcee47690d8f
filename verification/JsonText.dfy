/**
 JSON values, the syntax-classified pretty printer of the raw configuration tab
 (ui/src/configreview/selectors.ts `jsonTokens`), and a parser for the grammar of RFC 8259,
 sections 2 to 7, that reads the printed text back.
 */
module JsonText {
  import opened Basics

  /** A number is its text; object members keep their document order. */
  datatype Value = Null | Bool(b: bool) | Num(text: string) | Str(s: string) | Arr(items: seq<Value>) | Obj(fields: seq<Field>)

  datatype Field = Field(key: string, value: Value)

  datatype ValueKind = Plain | Redacted | SecretRef

  datatype TokenKind = Punct | KeyToken | StringToken | NumberToken | Literal | RedactedToken | SecretRefToken

  datatype Token = Token(text: string, kind: TokenKind)

  const REDACTED_SENTINEL := "***"

  function ClassifyString(s: string): ValueKind {
    if s == REDACTED_SENTINEL then Redacted
    else if "$secret" <= s then SecretRef
    else Plain
  }

  // ------------------------------------------------------------------ printing

  function Hex(n: nat): char
    requires n < 16
  {
    "0123456789abcdef"[n]
  }

  function EscapeChar(c: char): string {
    var n := c as int;
    if c == '"' then "\\\""
    else if c == '\\' then "\\\\"
    else if n == 8 then "\\b"
    else if n == 12 then "\\f"
    else if n == 10 then "\\n"
    else if n == 13 then "\\r"
    else if n == 9 then "\\t"
    else if n < 32 then "\\u00" + [Hex(n / 16), Hex(n % 16)]
    else [c]
  }

  function Escape(s: string): string {
    if s == "" then "" else EscapeChar(s[0]) + Escape(s[1..])
  }

  /** A quoted string, as JSON.stringify writes it. */
  function Quote(s: string): string {
    "\"" + (Escape(s) + "\"")
  }

  function Pad(depth: nat): string {
    if depth == 0 then "" else "  " + Pad(depth - 1)
  }

  /** Two spaces per level. */
  lemma {:induction false} PadIs(depth: nat)
    ensures |Pad(depth)| == 2 * depth && forall i | 0 <= i < 2 * depth :: Pad(depth)[i] == ' '
  {
    if depth > 0 { PadIs(depth - 1); }
  }

  function ScalarToken(v: Value): Token
    requires !v.Arr? && !v.Obj?
  {
    match v
    case Null => Token("null", Literal)
    case Bool(b) => Token(if b then "true" else "false", Literal)
    case Num(text) => Token(text, NumberToken)
    case Str(s) => Token(Quote(s), match ClassifyString(s) case Plain => StringToken case Redacted => RedactedToken case SecretRef => SecretRefToken)
  }

  function Separator(last: bool): string {
    if last then "\n" else ",\n"
  }

  function Tokens(v: Value, depth: nat): seq<Token>
    decreases v, 1, 0
  {
    match v
    case Obj(fields) =>
      if fields == [] then [Token("{}", Punct)]
      else [Token("{\n", Punct)] + FieldTokens(v, |fields|, depth) + [Token(Pad(depth) + "}", Punct)]
    case Arr(items) =>
      if items == [] then [Token("[]", Punct)]
      else [Token("[\n", Punct)] + ItemTokens(v, |items|, depth) + [Token(Pad(depth) + "]", Punct)]
    case _ => [ScalarToken(v)]
  }

  /** The tokens of the first `n` members. */
  function FieldTokens(v: Value, n: nat, depth: nat): seq<Token>
    requires v.Obj? && n <= |v.fields|
    decreases v, 0, n
  {
    if n == 0 then []
    else
      var f := v.fields[n - 1];
      FieldTokens(v, n - 1, depth)
      + [Token(Pad(depth + 1), Punct), Token(Quote(f.key), KeyToken), Token(": ", Punct)]
      + Tokens(f.value, depth + 1)
      + [Token(Separator(n == |v.fields|), Punct)]
  }

  function ItemTokens(v: Value, n: nat, depth: nat): seq<Token>
    requires v.Arr? && n <= |v.items|
    decreases v, 0, n
  {
    if n == 0 then []
    else
      ItemTokens(v, n - 1, depth)
      + [Token(Pad(depth + 1), Punct)]
      + Tokens(v.items[n - 1], depth + 1)
      + [Token(Separator(n == |v.items|), Punct)]
  }

  function Text(tokens: seq<Token>): string
    decreases |tokens|
  {
    if tokens == [] then "" else tokens[0].text + Text(tokens[1..])
  }

  /** `jsonTokens`: pushes the tokens of a value onto a list, members in document order. */
  method JsonTokens(v: Value, depth: nat) returns (tokens: seq<Token>)
    ensures tokens == Tokens(v, depth)
    decreases v
  {
    match v {
      case Obj(fields) =>
        if |fields| == 0 {
          return [Token("{}", Punct)];
        }
        tokens := [];
        for i := 0 to |fields|
          invariant tokens == FieldTokens(v, i, depth)
        {
          var inner := JsonTokens(fields[i].value, depth + 1);
          tokens := tokens + [Token(Pad(depth + 1), Punct), Token(Quote(fields[i].key), KeyToken), Token(": ", Punct)]
            + inner + [Token(if i < |fields| - 1 then ",\n" else "\n", Punct)];
        }
        tokens := [Token("{\n", Punct)] + tokens + [Token(Pad(depth) + "}", Punct)];
      case Arr(items) =>
        if |items| == 0 {
          return [Token("[]", Punct)];
        }
        tokens := [];
        for i := 0 to |items|
          invariant tokens == ItemTokens(v, i, depth)
        {
          var inner := JsonTokens(items[i], depth + 1);
          tokens := tokens + [Token(Pad(depth + 1), Punct)] + inner + [Token(if i < |items| - 1 then ",\n" else "\n", Punct)];
        }
        tokens := [Token("[\n", Punct)] + tokens + [Token(Pad(depth) + "]", Punct)];
      case _ => tokens := [ScalarToken(v)];
    }
  }

  // ------------------------------------------------------------------ the printed text

  /** The text of a value followed by `rest`. */
  function Emit(v: Value, depth: nat, rest: string): string
    decreases v, 1, 0
  {
    match v
    case Obj(fields) =>
      if fields == [] then "{}" + rest else "{\n" + EmitFields(v, 0, depth, rest)
    case Arr(items) =>
      if items == [] then "[]" + rest else "[\n" + EmitItems(v, 0, depth, rest)
    case _ => ScalarToken(v).text + rest
  }

  function EmitFields(v: Value, i: nat, depth: nat, rest: string): string
    requires v.Obj? && i <= |v.fields|
    decreases v, 0, |v.fields| - i
  {
    if i == |v.fields| then Pad(depth) + ("}" + rest)
    else
      var f := v.fields[i];
      Pad(depth + 1) + (Quote(f.key) + (": "
        + Emit(f.value, depth + 1, Separator(i + 1 == |v.fields|) + EmitFields(v, i + 1, depth, rest))))
  }

  function EmitItems(v: Value, i: nat, depth: nat, rest: string): string
    requires v.Arr? && i <= |v.items|
    decreases v, 0, |v.items| - i
  {
    if i == |v.items| then Pad(depth) + ("]" + rest)
    else
      Pad(depth + 1) + Emit(v.items[i], depth + 1, Separator(i + 1 == |v.items|) + EmitItems(v, i + 1, depth, rest))
  }

  lemma {:induction false} TextConcat(a: seq<Token>, b: seq<Token>)
    ensures Text(a + b) == Text(a) + Text(b)
    decreases |a|
  {
    if a == [] {
      assert a + b == b;
    } else {
      assert (a + b)[1..] == a[1..] + b;
      TextConcat(a[1..], b);
    }
  }

  lemma TextOne(t: Token)
    ensures Text([t]) == t.text
  {
    assert [t][1..] == [];
  }

  lemma Assoc(a: string, b: string, c: string)
    ensures (a + b) + c == a + (b + c)
  {
  }

  lemma TextSnoc(ts: seq<Token>, t: Token, rest: string)
    ensures Text(ts + [t]) + rest == Text(ts) + (t.text + rest)
  {
    TextConcat(ts, [t]);
    TextOne(t);
    Assoc(Text(ts), t.text, rest);
  }

  lemma TextAppend(a: seq<Token>, b: seq<Token>, rest: string)
    ensures Text(a + b) + rest == Text(a) + (Text(b) + rest)
  {
    TextConcat(a, b);
    Assoc(Text(a), Text(b), rest);
  }

  lemma WrapText(open: Token, inner: seq<Token>, close: Token, rest: string)
    ensures Text([open] + inner + [close]) + rest == open.text + (Text(inner) + (close.text + rest))
  {
    hide Text;
    TextSnoc([open] + inner, close, rest);
    TextAppend([open], inner, close.text + rest);
    TextOne(open);
  }

  function Member(pad: string, key: string, colon: string, tail: string): string {
    pad + (key + (colon + tail))
  }

  lemma MemberText(before: seq<Token>, pad: Token, key: Token, colon: Token, value: seq<Token>, sep: Token, rest: string)
    ensures Text(before + [pad, key, colon] + value + [sep]) + rest
         == Text(before) + Member(pad.text, key.text, colon.text, Text(value) + (sep.text + rest))
  {
    hide Text;
    var r1 := sep.text + rest;
    var r2 := Text(value) + r1;
    TextSnoc(before + [pad, key, colon] + value, sep, rest);
    TextAppend(before + [pad, key, colon], value, r1);
    assert before + [pad, key, colon] == before + [pad] + [key] + [colon];
    TextSnoc(before + [pad] + [key], colon, r2);
    TextSnoc(before + [pad], key, colon.text + r2);
    TextSnoc(before, pad, key.text + (colon.text + r2));
  }

  lemma ItemText(before: seq<Token>, pad: Token, value: seq<Token>, sep: Token, rest: string)
    ensures Text(before + [pad] + value + [sep]) + rest == Text(before) + (pad.text + (Text(value) + (sep.text + rest)))
  {
    hide Text;
    var r1 := sep.text + rest;
    TextSnoc(before + [pad] + value, sep, rest);
    TextAppend(before + [pad], value, r1);
    TextSnoc(before, pad, Text(value) + r1);
  }

  /** The tokens of a value, joined, are its printed text. */
  lemma {:induction false} TokensEmit(v: Value, depth: nat, rest: string)
    ensures Text(Tokens(v, depth)) + rest == Emit(v, depth, rest)
    decreases v, 1, 0
  {
    hide Text, Pad, Quote;
    match v {
      case Obj(fields) =>
        if fields == [] {
          TextOne(Token("{}", Punct));
        } else {
          var inner, close := FieldTokens(v, |fields|, depth), Token(Pad(depth) + "}", Punct);
          FieldsEmit(v, |fields|, depth, rest);
          WrapText(Token("{\n", Punct), inner, close, rest);
          Assoc(Pad(depth), "}", rest);
        }
      case Arr(items) =>
        if items == [] {
          TextOne(Token("[]", Punct));
        } else {
          var inner, close := ItemTokens(v, |items|, depth), Token(Pad(depth) + "]", Punct);
          ItemsEmit(v, |items|, depth, rest);
          WrapText(Token("[\n", Punct), inner, close, rest);
          Assoc(Pad(depth), "]", rest);
        }
      case _ => TextOne(ScalarToken(v));
    }
  }

  lemma EmitFieldsStep(v: Value, i: nat, depth: nat, rest: string)
    requires v.Obj? && i < |v.fields|
    ensures EmitFields(v, i, depth, rest) == Member(Pad(depth + 1), Quote(v.fields[i].key), ": ",
              Emit(v.fields[i].value, depth + 1, Separator(i + 1 == |v.fields|) + EmitFields(v, i + 1, depth, rest)))
  {
    hide Pad, Quote, Separator, Emit;
  }

  lemma FieldTokensStep(v: Value, n: nat, depth: nat)
    requires v.Obj? && 0 < n <= |v.fields|
    ensures var f := v.fields[n - 1];
            FieldTokens(v, n, depth)
              == FieldTokens(v, n - 1, depth)
                 + [Token(Pad(depth + 1), Punct), Token(Quote(f.key), KeyToken), Token(": ", Punct)]
                 + Tokens(f.value, depth + 1) + [Token(Separator(n == |v.fields|), Punct)]
  {
    hide Pad, Quote, Separator, Tokens;
  }

  lemma NoTokens(rest: string)
    ensures Text([]) + rest == rest
  {
  }

  lemma FieldsEmitStep(v: Value, n: nat, depth: nat, rest: string)
    requires v.Obj? && 0 < n <= |v.fields|
    requires var tail := Separator(n == |v.fields|) + EmitFields(v, n, depth, rest);
             Text(Tokens(v.fields[n - 1].value, depth + 1)) + tail == Emit(v.fields[n - 1].value, depth + 1, tail)
    ensures Text(FieldTokens(v, n, depth)) + EmitFields(v, n, depth, rest)
         == Text(FieldTokens(v, n - 1, depth)) + EmitFields(v, n - 1, depth, rest)
  {
    hide Text, Pad, Quote, FieldTokens, Tokens, EmitFields, Emit, Separator, Member;
    var f := v.fields[n - 1];
    var pad, key, colon := Token(Pad(depth + 1), Punct), Token(Quote(f.key), KeyToken), Token(": ", Punct);
    var sep := Token(Separator(n == |v.fields|), Punct);
    FieldTokensStep(v, n, depth);
    EmitFieldsStep(v, n - 1, depth, rest);
    MemberText(FieldTokens(v, n - 1, depth), pad, key, colon, Tokens(f.value, depth + 1), sep, EmitFields(v, n, depth, rest));
  }

  lemma {:induction false} FieldsEmit(v: Value, n: nat, depth: nat, rest: string)
    requires v.Obj? && n <= |v.fields|
    ensures Text(FieldTokens(v, n, depth)) + EmitFields(v, n, depth, rest) == EmitFields(v, 0, depth, rest)
    decreases v, 0, n
  {
    if n == 0 {
      NoTokens(EmitFields(v, 0, depth, rest));
    } else {
      hide Text, FieldTokens, Tokens, EmitFields, Emit, Separator;
      TokensEmit(v.fields[n - 1].value, depth + 1, Separator(n == |v.fields|) + EmitFields(v, n, depth, rest));
      FieldsEmitStep(v, n, depth, rest);
      FieldsEmit(v, n - 1, depth, rest);
    }
  }

  lemma {:induction false} ItemsEmit(v: Value, n: nat, depth: nat, rest: string)
    requires v.Arr? && n <= |v.items|
    ensures Text(ItemTokens(v, n, depth)) + EmitItems(v, n, depth, rest) == EmitItems(v, 0, depth, rest)
    decreases v, 0, n
  {
    if n == 0 {
      assert Text([]) + EmitItems(v, n, depth, rest) == EmitItems(v, n, depth, rest);
    } else {
      hide Text, Pad, Quote;
      var before := ItemTokens(v, n - 1, depth);
      var pad := Token(Pad(depth + 1), Punct);
      var value, sep := Tokens(v.items[n - 1], depth + 1), Token(Separator(n == |v.items|), Punct);
      var after := EmitItems(v, n, depth, rest);
      ItemsEmit(v, n - 1, depth, rest);
      assert ItemTokens(v, n, depth) == before + [pad] + value + [sep];
      assert EmitItems(v, n - 1, depth, rest) == pad.text + Emit(v.items[n - 1], depth + 1, sep.text + after);
      hide ItemTokens, EmitItems, Tokens, Emit, Separator;
      TokensEmit(v.items[n - 1], depth + 1, sep.text + after);
      ItemText(before, pad, value, sep, after);
    }
  }

  // ------------------------------------------------------------------ parsing

  datatype Parsed<T> = Failure | Success(value: T, rest: string)

  predicate IsWs(c: char) {
    c == ' ' || c == '\t' || c == '\n' || c == '\r'
  }

  function SkipWs(s: string): (r: string)
    ensures |r| <= |s| && (r != "" ==> !IsWs(r[0]))
  {
    if s != "" && IsWs(s[0]) then SkipWs(s[1..]) else s
  }

  function HexValue(c: char): Option<nat> {
    if '0' <= c <= '9' then Some((c as int) - ('0' as int))
    else if 'a' <= c <= 'f' then Some((c as int) - ('a' as int) + 10)
    else if 'A' <= c <= 'F' then Some((c as int) - ('A' as int) + 10)
    else None
  }

  /** The four digits after a `\u` escape; surrogates are not characters. */
  function ParseHex4(s: string): (r: Parsed<char>)
    ensures r.Success? ==> |r.rest| + 4 == |s|
  {
    if |s| < 4 || HexValue(s[0]).None? || HexValue(s[1]).None? || HexValue(s[2]).None? || HexValue(s[3]).None? then Failure
    else
      var n := ((HexValue(s[0]).value * 16 + HexValue(s[1]).value) * 16 + HexValue(s[2]).value) * 16 + HexValue(s[3]).value;
      if 0xD800 <= n < 0xE000 || n > 0xFFFF then Failure else Success(n as char, s[4..])
  }

  /** One possibly escaped character. */
  function ParseChar(s: string): (r: Parsed<char>)
    ensures r.Success? ==> |r.rest| < |s|
  {
    if s == "" || s[0] == '"' || (s[0] as int) < 32 then Failure
    else if s[0] != '\\' then Success(s[0], s[1..])
    else if |s| == 1 then Failure
    else
      match s[1]
      case '"' => Success('"', s[2..])
      case '\\' => Success('\\', s[2..])
      case '/' => Success('/', s[2..])
      case 'b' => Success(8 as char, s[2..])
      case 'f' => Success(12 as char, s[2..])
      case 'n' => Success(10 as char, s[2..])
      case 'r' => Success(13 as char, s[2..])
      case 't' => Success(9 as char, s[2..])
      case 'u' => ParseHex4(s[2..])
      case _ => Failure
  }

  /** The characters up to and including the closing quotation mark. */
  function ParseChars(s: string): (r: Parsed<string>)
    ensures r.Success? ==> |r.rest| < |s|
    decreases |s|
  {
    if s == "" then Failure
    else if s[0] == '"' then Success("", s[1..])
    else
      match ParseChar(s)
      case Failure => Failure
      case Success(c, s1) =>
        match ParseChars(s1)
        case Failure => Failure
        case Success(cs, s2) => Success([c] + cs, s2)
  }

  predicate IsDigit(c: char) {
    '0' <= c <= '9'
  }

  predicate IsNumberChar(c: char) {
    IsDigit(c) || c == '-' || c == '+' || c == '.' || c == 'e' || c == 'E'
  }

  function NumberRun(s: string): (n: nat)
    ensures n <= |s|
  {
    if s != "" && IsNumberChar(s[0]) then 1 + NumberRun(s[1..]) else 0
  }

  /** Number of leading digits. */
  function Digits(s: string): (n: nat)
    ensures n <= |s| && forall i | 0 <= i < n :: IsDigit(s[i])
  {
    if s != "" && IsDigit(s[0]) then 1 + Digits(s[1..]) else 0
  }

  predicate IsExponent(s: string) {
    s == "" || ((s[0] == 'e' || s[0] == 'E') &&
                var t := if |s| > 1 && (s[1] == '+' || s[1] == '-') then s[2..] else s[1..];
                t != "" && Digits(t) == |t|)
  }

  predicate IsFractionAndExponent(s: string) {
    if s != "" && s[0] == '.' then Digits(s[1..]) > 0 && IsExponent(s[1 + Digits(s[1..])..])
    else IsExponent(s)
  }

  /** The number grammar of section 6: minus, an integer with no leading zero, fraction, exponent. */
  predicate IsNumber(s: string) {
    var t := if s != "" && s[0] == '-' then s[1..] else s;
    var n := Digits(t);
    n > 0 && (t[0] == '0' ==> n == 1) && IsFractionAndExponent(t[n..])
  }

  function ParseLiteral(s: string, literal: string, v: Value): Parsed<Value> {
    if literal <= s then Success(v, s[|literal|..]) else Failure
  }

  function ParseNumber(s: string): (r: Parsed<Value>)
    ensures r.Success? ==> |r.rest| < |s|
  {
    var n := NumberRun(s);
    if IsNumber(s[..n]) then Success(Num(s[..n]), s[n..]) else Failure
  }

  /** ws value */
  function ParseValue(s: string): (r: Parsed<Value>)
    ensures r.Success? ==> |r.rest| < |s|
    decreases |s|, 0
  {
    var t := SkipWs(s);
    if t == "" then Failure
    else if t[0] == '{' then
      var u := SkipWs(t[1..]);
      if u != "" && u[0] == '}' then Success(Obj([]), u[1..])
      else
        match ParseMembers(t[1..])
        case Failure => Failure
        case Success(fields, rest) => Success(Obj(fields), rest)
    else if t[0] == '[' then
      var u := SkipWs(t[1..]);
      if u != "" && u[0] == ']' then Success(Arr([]), u[1..])
      else
        match ParseElements(t[1..])
        case Failure => Failure
        case Success(items, rest) => Success(Arr(items), rest)
    else if t[0] == '"' then
      match ParseChars(t[1..])
      case Failure => Failure
      case Success(cs, rest) => Success(Str(cs), rest)
    else if t[0] == 't' then ParseLiteral(t, "true", Bool(true))
    else if t[0] == 'f' then ParseLiteral(t, "false", Bool(false))
    else if t[0] == 'n' then ParseLiteral(t, "null", Null)
    else ParseNumber(t)
  }

  /** member *( , member ) } */
  function ParseMembers(s: string): (r: Parsed<seq<Field>>)
    ensures r.Success? ==> |r.rest| < |s|
    decreases |s|, 1
  {
    var t := SkipWs(s);
    if t == "" || t[0] != '"' then Failure
    else
      match ParseChars(t[1..])
      case Failure => Failure
      case Success(key, afterKey) =>
        var u := SkipWs(afterKey);
        if u == "" || u[0] != ':' then Failure
        else
          match ParseValue(u[1..])
          case Failure => Failure
          case Success(value, afterValue) =>
            var w := SkipWs(afterValue);
            if w == "" then Failure
            else if w[0] == '}' then Success([Field(key, value)], w[1..])
            else if w[0] != ',' then Failure
            else
              match ParseMembers(w[1..])
              case Failure => Failure
              case Success(more, rest) => Success([Field(key, value)] + more, rest)
  }

  /** value *( , value ) ] */
  function ParseElements(s: string): (r: Parsed<seq<Value>>)
    ensures r.Success? ==> |r.rest| < |s|
    decreases |s|, 1
  {
    match ParseValue(s)
    case Failure => Failure
    case Success(value, afterValue) =>
      var w := SkipWs(afterValue);
      if w == "" then Failure
      else if w[0] == ']' then Success([value], w[1..])
      else if w[0] != ',' then Failure
      else
        match ParseElements(w[1..])
        case Failure => Failure
        case Success(more, rest) => Success([value] + more, rest)
  }

  /** ws value ws, and nothing else. */
  function Parse(s: string): Option<Value> {
    match ParseValue(s)
    case Failure => None
    case Success(v, rest) => if SkipWs(rest) == "" then Some(v) else None
  }

  // ------------------------------------------------------------------ round trip

  lemma {:induction false} SkipPad(depth: nat, s: string)
    requires s != "" && !IsWs(s[0])
    ensures SkipWs(Pad(depth) + s) == s
  {
    if depth == 0 {
      assert Pad(0) + s == s;
    } else {
      var t := Pad(depth - 1) + s;
      assert Pad(depth) + s == "  " + t;
      assert ("  " + t)[1..] == " " + t && (" " + t)[1..] == t;
      SkipPad(depth - 1, s);
    }
  }

  lemma ParseEscapedChar(c: char, rest: string)
    ensures ParseChar(EscapeChar(c) + rest) == Success(c, rest)
    ensures (EscapeChar(c) + rest)[0] != '"'
  {
    var s := EscapeChar(c) + rest;
    var n := c as int;
    if |EscapeChar(c)| == 1 {
      assert s[1..] == rest;
    } else if |EscapeChar(c)| == 2 {
      assert s[2..] == rest;
    } else {
      var digits := [Hex(n / 16), Hex(n % 16)];
      assert s[2..] == "00" + digits + rest;
      assert HexValue(Hex(n / 16)) == Some(n / 16) && HexValue(Hex(n % 16)) == Some(n % 16);
      assert s[2..][4..] == rest;
    }
  }

  lemma CharsStep(c: char, more: string)
    requires ParseChars(more).Success?
    ensures ParseChars(EscapeChar(c) + more) == Success([c] + ParseChars(more).value, ParseChars(more).rest)
  {
    ParseEscapedChar(c, more);
    hide EscapeChar, ParseChar;
  }

  lemma {:induction false} ParseEscaped(s: string, rest: string)
    ensures ParseChars(Escape(s) + ("\"" + rest)) == Success(s, rest)
  {
    var tail := "\"" + rest;
    if s == "" {
      assert Escape(s) + tail == tail && tail[1..] == rest;
    } else {
      var more := Escape(s[1..]) + tail;
      Assoc(EscapeChar(s[0]), Escape(s[1..]), tail);
      assert Escape(s) + tail == EscapeChar(s[0]) + more;
      assert [s[0]] + s[1..] == s;
      hide EscapeChar, Escape, ParseChars;
      ParseEscaped(s[1..], rest);
      CharsStep(s[0], more);
    }
  }

  lemma ParseQuoted(s: string, rest: string)
    ensures (Quote(s) + rest)[0] == '"'
    ensures ParseChars((Quote(s) + rest)[1..]) == Success(s, rest)
  {
    assert (Quote(s) + rest)[1..] == Escape(s) + ("\"" + rest);
    ParseEscaped(s, rest);
  }

  /** Every number in the value is written in the number grammar. */
  predicate Printable(v: Value) {
    match v
    case Num(text) => IsNumber(text)
    case Arr(items) => forall i | 0 <= i < |items| :: Printable(items[i])
    case Obj(fields) => forall i | 0 <= i < |fields| :: Printable(fields[i].value)
    case _ => true
  }

  /** What may follow a value without being read into it. */
  predicate Boundary(rest: string) {
    rest == "" || !IsNumberChar(rest[0])
  }

  predicate AllNumberChars(s: string) {
    forall i | 0 <= i < |s| :: IsNumberChar(s[i])
  }

  lemma ExponentChars(s: string)
    requires IsExponent(s)
    ensures AllNumberChars(s)
  {
    if s != "" {
      var t := if |s| > 1 && (s[1] == '+' || s[1] == '-') then s[2..] else s[1..];
      forall i | 0 <= i < |s| ensures IsNumberChar(s[i]) {
        if i >= |s| - |t| { assert s[i] == t[i - (|s| - |t|)]; }
      }
    }
  }

  lemma FractionChars(s: string)
    requires IsFractionAndExponent(s)
    ensures AllNumberChars(s)
  {
    if s != "" && s[0] == '.' {
      var digits := s[1..];
      var n := Digits(digits);
      var exponent := digits[n..];
      assert exponent == s[1 + n..];
      ExponentChars(exponent);
      forall i | 0 <= i < |s| ensures IsNumberChar(s[i]) {
        if 0 < i <= n { assert s[i] == digits[i - 1]; }
        if i > n { assert s[i] == exponent[i - 1 - n]; }
      }
    } else {
      ExponentChars(s);
    }
  }

  lemma TailNumberChars(t: string, n: nat)
    requires n <= |t| && (forall i | 0 <= i < n :: IsNumberChar(t[i])) && AllNumberChars(t[n..])
    ensures AllNumberChars(t)
  {
    forall i | 0 <= i < |t| ensures IsNumberChar(t[i]) {
      if i >= n { assert t[i] == t[n..][i - n]; }
    }
  }

  lemma NumberChars(s: string)
    requires IsNumber(s)
    ensures s != "" && AllNumberChars(s) && (s[0] == '-' || IsDigit(s[0]))
  {
    var t := if s != "" && s[0] == '-' then s[1..] else s;
    var n := Digits(t);
    FractionChars(t[n..]);
    hide AllNumberChars, IsFractionAndExponent;
    TailNumberChars(t, n);
    TailNumberChars(s, |s| - |t|);
  }

  lemma {:induction false} RunStops(s: string, rest: string)
    requires AllNumberChars(s) && Boundary(rest)
    ensures NumberRun(s + rest) == |s|
  {
    if s == "" {
      assert s + rest == rest;
    } else {
      assert (s + rest)[1..] == s[1..] + rest;
      RunStops(s[1..], rest);
    }
  }

  lemma ParseScalar(v: Value, rest: string, s: string)
    requires !v.Arr? && !v.Obj? && Printable(v) && Boundary(rest)
    requires SkipWs(s) == ScalarToken(v).text + rest
    ensures ParseValue(s) == Success(v, rest)
  {
    hide ParseMembers, ParseElements, ParseChars, Escape, IsNumber, NumberRun, SkipWs, ClassifyString;
    var t := SkipWs(s);
    match v {
      case Null => assert t[4..] == rest;
      case Bool(b) => assert t[|ScalarToken(v).text|..] == rest;
      case Str(cs) => ParseQuoted(cs, rest);
      case Num(text) =>
        NumberChars(text);
        RunStops(text, rest);
        assert t[..|text|] == text && t[|text|..] == rest;
    }
  }

  lemma ScalarStarts(v: Value, rest: string)
    requires !v.Arr? && !v.Obj? && Printable(v)
    ensures var t := ScalarToken(v).text + rest; t != "" && !IsWs(t[0]) && t[0] != ']'
  {
    if v.Num? { NumberChars(v.text); }
  }

  lemma EmitStarts(v: Value, depth: nat, rest: string)
    requires Printable(v)
    ensures var t := Emit(v, depth, rest); t != "" && !IsWs(t[0]) && t[0] != ']'
  {
    if !v.Arr? && !v.Obj? { ScalarStarts(v, rest); }
  }

  lemma SkipNewline(s: string)
    ensures SkipWs("\n" + s) == SkipWs(s) && SkipWs(" " + s) == SkipWs(s)
  {
    assert ("\n" + s)[1..] == s && (" " + s)[1..] == s;
  }

  /** The separator after a member: a comma before another one, only white space before the end. */
  lemma SkipSeparator(last: bool, more: string)
    ensures SkipWs(Separator(last) + more) == if last then SkipWs(more) else ",\n" + more
    ensures !last ==> SkipWs((Separator(last) + more)[1..]) == SkipWs(more)
    ensures Boundary(Separator(last) + more)
  {
    SkipNewline(more);
    assert !last ==> (Separator(last) + more)[1..] == "\n" + more;
  }

  /** What follows the white space in front of the `i`-th member. */
  function MemberAt(v: Value, i: nat, depth: nat, rest: string): string
    requires v.Obj? && i < |v.fields|
  {
    Quote(v.fields[i].key) + (": " + Emit(v.fields[i].value, depth + 1,
                                          Separator(i + 1 == |v.fields|) + EmitFields(v, i + 1, depth, rest)))
  }

  lemma SkipToMember(v: Value, i: nat, depth: nat, rest: string)
    requires v.Obj? && i < |v.fields|
    ensures SkipWs(EmitFields(v, i, depth, rest)) == MemberAt(v, i, depth, rest)
    ensures MemberAt(v, i, depth, rest)[0] == '"'
  {
    var m := MemberAt(v, i, depth, rest);
    assert EmitFields(v, i, depth, rest) == Pad(depth + 1) + m;
    assert m[0] == Quote(v.fields[i].key)[0] == '"';
    SkipPad(depth + 1, m);
  }

  /** One step of the member loop, read off its parts. */
  lemma MembersStep(s: string, key: string, afterKey: string, value: Value, afterValue: string)
    requires SkipWs(s) != "" && SkipWs(s)[0] == '"' && ParseChars(SkipWs(s)[1..]) == Success(key, afterKey)
    requires SkipWs(afterKey) != "" && SkipWs(afterKey)[0] == ':' && ParseValue(SkipWs(afterKey)[1..]) == Success(value, afterValue)
    requires SkipWs(afterValue) != ""
    ensures SkipWs(afterValue)[0] == '}' ==> ParseMembers(s) == Success([Field(key, value)], SkipWs(afterValue)[1..])
    ensures SkipWs(afterValue)[0] == ',' && ParseMembers(SkipWs(afterValue)[1..]).Success? ==>
              var more := ParseMembers(SkipWs(afterValue)[1..]);
              ParseMembers(s) == Success([Field(key, value)] + more.value, more.rest)
  {
    hide SkipWs, ParseChars, ParseValue;
  }

  lemma SkipColon(value: string)
    requires value != "" && !IsWs(value[0])
    ensures SkipWs(": " + value) == ": " + value && (": " + value)[0] == ':' && (": " + value)[1..] == " " + value
    ensures SkipWs(" " + value) == value
  {
    SkipNewline(value);
    assert (": " + value)[1..] == " " + value;
  }

  lemma SkipClose(depth: nat, close: char, rest: string)
    requires !IsWs(close)
    ensures var t := SkipWs(Pad(depth) + ([close] + rest)); t != "" && t[0] == close && t[1..] == rest
  {
    SkipPad(depth, [close] + rest);
    assert ([close] + rest)[1..] == rest;
  }

  lemma ParseMemberAt(v: Value, i: nat, depth: nat, rest: string)
    requires v.Obj? && i < |v.fields|
    ensures var tail := Separator(i + 1 == |v.fields|) + EmitFields(v, i + 1, depth, rest);
            var m := MemberAt(v, i, depth, rest);
            m[0] == '"' && ParseChars(m[1..]) == Success(v.fields[i].key, ": " + Emit(v.fields[i].value, depth + 1, tail))
  {
    hide Quote, Emit, EmitFields, Separator, ParseChars;
    ParseQuoted(v.fields[i].key, ": " + Emit(v.fields[i].value, depth + 1, Separator(i + 1 == |v.fields|) + EmitFields(v, i + 1, depth, rest)));
  }

  lemma FieldsLeft(v: Value, i: nat, depth: nat, rest: string)
    requires v.Obj? && i < |v.fields| && Printable(v)
    ensures Printable(v.fields[i].value)
    ensures if i + 1 == |v.fields| then EmitFields(v, i + 1, depth, rest) == Pad(depth) + ("}" + rest)
            else [Field(v.fields[i].key, v.fields[i].value)] + v.fields[i + 1..] == v.fields[i..]
  {
    hide Pad;
  }

  lemma ItemsLeft(v: Value, i: nat, depth: nat, rest: string)
    requires v.Arr? && i < |v.items| && Printable(v)
    ensures Printable(v.items[i])
    ensures if i + 1 == |v.items| then EmitItems(v, i + 1, depth, rest) == Pad(depth) + ("]" + rest)
            else [v.items[i]] + v.items[i + 1..] == v.items[i..]
  {
    hide Pad;
  }

  lemma CommaSkips(more: string)
    ensures ",\n" + more != "" && (",\n" + more)[0] == ',' && (",\n" + more)[1..] == "\n" + more
    ensures SkipWs("\n" + more) == SkipWs(more)
  {
    SkipNewline(more);
  }

  lemma Closes(depth: nat, c: char, rest: string)
    requires c == '}' || c == ']'
    ensures var s := Pad(depth) + ([c] + rest); SkipWs(s) == [c] + rest && SkipWs(s)[0] == c && SkipWs(s)[1..] == rest
  {
    SkipClose(depth, c, rest);
  }

  lemma {:induction false} FieldsParse(v: Value, i: nat, depth: nat, rest: string, s: string)
    requires v.Obj? && i < |v.fields| && Printable(v)
    requires SkipWs(s) == MemberAt(v, i, depth, rest)
    ensures ParseMembers(s) == Success(v.fields[i..], rest)
    decreases v, 0, |v.fields| - i
  {
    var f, last := v.fields[i], i + 1 == |v.fields|;
    var more := EmitFields(v, i + 1, depth, rest);
    var tail := Separator(last) + more;
    var value := Emit(f.value, depth + 1, tail);
    hide Emit, EmitFields, Printable, SkipWs, ParseMembers, ParseValue, ParseChars, Pad, Quote, Separator, Boundary, MemberAt, IsWs;
    FieldsLeft(v, i, depth, rest);
    ParseMemberAt(v, i, depth, rest);
    SkipSeparator(last, more);
    EmitStarts(f.value, depth + 1, tail);
    SkipColon(value);
    EmitParses(f.value, depth + 1, tail, " " + value);
    if last {
      Closes(depth, '}', rest);
      assert v.fields[i..] == [Field(f.key, f.value)];
    } else {
      SkipToMember(v, i + 1, depth, rest);
      CommaSkips(more);
      FieldsParse(v, i + 1, depth, rest, "\n" + more);
    }
    MembersStep(s, f.key, ": " + value, f.value, tail);
  }

  function ItemAt(v: Value, i: nat, depth: nat, rest: string): string
    requires v.Arr? && i < |v.items|
  {
    Emit(v.items[i], depth + 1, Separator(i + 1 == |v.items|) + EmitItems(v, i + 1, depth, rest))
  }

  lemma SkipToItem(v: Value, i: nat, depth: nat, rest: string)
    requires v.Arr? && i < |v.items| && Printable(v)
    ensures SkipWs(EmitItems(v, i, depth, rest)) == ItemAt(v, i, depth, rest)
    ensures ItemAt(v, i, depth, rest) != "" && ItemAt(v, i, depth, rest)[0] != ']'
  {
    EmitStarts(v.items[i], depth + 1, Separator(i + 1 == |v.items|) + EmitItems(v, i + 1, depth, rest));
    SkipPad(depth + 1, ItemAt(v, i, depth, rest));
  }

  lemma ElementsStep(s: string, value: Value, afterValue: string)
    requires ParseValue(s) == Success(value, afterValue) && SkipWs(afterValue) != ""
    ensures SkipWs(afterValue)[0] == ']' ==> ParseElements(s) == Success([value], SkipWs(afterValue)[1..])
    ensures SkipWs(afterValue)[0] == ',' && ParseElements(SkipWs(afterValue)[1..]).Success? ==>
              var more := ParseElements(SkipWs(afterValue)[1..]);
              ParseElements(s) == Success([value] + more.value, more.rest)
  {
    hide SkipWs, ParseValue;
  }

  lemma {:induction false} ItemsParse(v: Value, i: nat, depth: nat, rest: string, s: string)
    requires v.Arr? && i < |v.items| && Printable(v)
    requires SkipWs(s) == ItemAt(v, i, depth, rest)
    ensures ParseElements(s) == Success(v.items[i..], rest)
    decreases v, 0, |v.items| - i
  {
    var x, last := v.items[i], i + 1 == |v.items|;
    var more := EmitItems(v, i + 1, depth, rest);
    var tail := Separator(last) + more;
    hide Emit, EmitItems, Printable, SkipWs, ParseElements, ParseValue, Pad, Separator, Boundary;
    ItemsLeft(v, i, depth, rest);
    SkipSeparator(last, more);
    EmitParses(x, depth + 1, tail, s);
    if last {
      Closes(depth, ']', rest);
      assert v.items[i..] == [x];
    } else {
      SkipToItem(v, i + 1, depth, rest);
      CommaSkips(more);
      ItemsParse(v, i + 1, depth, rest, "\n" + more);
    }
    ElementsStep(s, x, tail);
  }

  /** How the containers are read, in terms of what follows their opening bracket. */
  lemma ContainerStep(s: string, inner: string)
    ensures SkipWs(s) == "{" + inner && SkipWs(inner) != "" && SkipWs(inner)[0] == '}' ==>
              ParseValue(s) == Success(Obj([]), SkipWs(inner)[1..])
    ensures SkipWs(s) == "{" + inner && SkipWs(inner) != "" && SkipWs(inner)[0] != '}' && ParseMembers(inner).Success? ==>
              ParseValue(s) == Success(Obj(ParseMembers(inner).value), ParseMembers(inner).rest)
    ensures SkipWs(s) == "[" + inner && SkipWs(inner) != "" && SkipWs(inner)[0] == ']' ==>
              ParseValue(s) == Success(Arr([]), SkipWs(inner)[1..])
    ensures SkipWs(s) == "[" + inner && SkipWs(inner) != "" && SkipWs(inner)[0] != ']' && ParseElements(inner).Success? ==>
              ParseValue(s) == Success(Arr(ParseElements(inner).value), ParseElements(inner).rest)
  {
    assert ("{" + inner)[1..] == inner && ("[" + inner)[1..] == inner;
    hide SkipWs, ParseMembers, ParseElements;
  }

  lemma SkipBracket(c: char, rest: string)
    requires !IsWs(c)
    ensures SkipWs([c] + rest) == [c] + rest && ([c] + rest)[1..] == rest
  {
  }

  lemma {:induction false} ObjectParses(v: Value, depth: nat, rest: string, s: string)
    requires v.Obj? && Printable(v) && Boundary(rest)
    requires SkipWs(s) == Emit(v, depth, rest)
    ensures ParseValue(s) == Success(v, rest)
    decreases v, 0, |v.fields| + 1
  {
    if v.fields == [] {
      assert Emit(v, depth, rest) == "{" + ("}" + rest);
      hide Emit, ParseValue, ParseMembers, Printable, Boundary;
      SkipBracket('}', rest);
      ContainerStep(s, "}" + rest);
    } else {
      var inner := EmitFields(v, 0, depth, rest);
      assert Emit(v, depth, rest) == "{" + ("\n" + inner);
      hide Emit, EmitFields, SkipWs, ParseValue, ParseMembers, Printable, Boundary, MemberAt;
      SkipNewline(inner);
      SkipToMember(v, 0, depth, rest);
      FieldsParse(v, 0, depth, rest, "\n" + inner);
      ContainerStep(s, "\n" + inner);
      assert v.fields[0..] == v.fields;
    }
  }

  lemma {:induction false} ArrayParses(v: Value, depth: nat, rest: string, s: string)
    requires v.Arr? && Printable(v) && Boundary(rest)
    requires SkipWs(s) == Emit(v, depth, rest)
    ensures ParseValue(s) == Success(v, rest)
    decreases v, 0, |v.items| + 1
  {
    if v.items == [] {
      assert Emit(v, depth, rest) == "[" + ("]" + rest);
      hide Emit, ParseValue, ParseElements, Printable, Boundary;
      SkipBracket(']', rest);
      ContainerStep(s, "]" + rest);
    } else {
      var inner := EmitItems(v, 0, depth, rest);
      assert Emit(v, depth, rest) == "[" + ("\n" + inner);
      hide Emit, EmitItems, SkipWs, ParseValue, ParseElements, Printable, Boundary, ItemAt;
      SkipNewline(inner);
      SkipToItem(v, 0, depth, rest);
      ItemsParse(v, 0, depth, rest, "\n" + inner);
      ContainerStep(s, "\n" + inner);
      assert v.items[0..] == v.items;
    }
  }

  /** Parsing printed text gives the value back and leaves what follows it. */
  lemma {:induction false} EmitParses(v: Value, depth: nat, rest: string, s: string)
    requires Printable(v) && Boundary(rest)
    requires SkipWs(s) == Emit(v, depth, rest)
    ensures ParseValue(s) == Success(v, rest)
    decreases v, 1, 0
  {
    hide ParseValue, Boundary, SkipWs;
    if v.Obj? {
      ObjectParses(v, depth, rest, s);
    } else if v.Arr? {
      ArrayParses(v, depth, rest, s);
    } else {
      ParseScalar(v, rest, s);
    }
  }

  /** The raw tab is honest: the joined tokens of any value parse back to exactly that value. */
  lemma TokensRoundTrip(v: Value)
    requires Printable(v)
    ensures Parse(Text(Tokens(v, 0))) == Some(v)
  {
    var s := Text(Tokens(v, 0));
    TokensEmit(v, 0, "");
    assert s + "" == s;
    EmitStarts(v, 0, "");
    assert SkipWs(s) == s;
    EmitParses(v, 0, "", s);
  }
}
