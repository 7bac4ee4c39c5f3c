/**
 * JSON values and the one canonical text every JSON file of an app
 * directory is written in (JSON text as in RFC 8259): object keys in
 * ascending byte order, a four-space indent step, one array element or
 * object member per line, `[]` and `{}` for empty containers, and a single
 * trailing newline after the value.
 *
 * Only the subset the app files exercise is modelled: integers, booleans,
 * null, strings that need no escape sequence, arrays and objects.
 */
module Json {
  import opened Wrappers
  import opened Ordering

  datatype Json =
    | Null
    | Bool(b: bool)
    | Int(i: int)
    | Str(s: string)
    | Arr(items: seq<Json>)
    | Obj(fields: map<string, Json>)

  /* ---------------- values the model can write ---------------- */

  /** A character written between quotes as itself (no escape sequence, no HTML escaping). */
  predicate PlainChar(c: char)
  {
    ' ' <= c && c != '"' && c != '\\' && c != '<' && c != '>' && c != '&'
    && c != '\U{2028}' && c != '\U{2029}'
  }

  predicate PlainString(s: string)
  {
    forall i :: 0 <= i < |s| ==> PlainChar(s[i])
  }

  /** Every string and every object key inside `v` is plain. */
  predicate Plain(v: Json)
  {
    match v
    case Str(s) => PlainString(s)
    case Arr(xs) => forall i :: 0 <= i < |xs| ==> Plain(xs[i])
    case Obj(m) => forall k :: k in m ==> PlainString(k) && Plain(m[k])
    case _ => true
  }

  /* ---------------- canonical text ---------------- */

  /** `depth` indent steps of four spaces each. */
  function Indent(depth: nat): string
  {
    if depth == 0 then "" else "    " + Indent(depth - 1)
  }

  /** A line break followed by the indentation of the next line. */
  function Break(depth: nat): string
  {
    "\n" + Indent(depth)
  }

  function Quote(s: string): string
  {
    "\"" + s + "\""
  }

  function DigitChar(d: nat): char
    requires d < 10
  {
    ('0' as int + d) as char
  }

  /** Decimal notation of a natural number, most significant digit first. */
  function NatText(n: nat): string
  {
    if n < 10 then [DigitChar(n)] else NatText(n / 10) + [DigitChar(n % 10)]
  }

  function IntText(i: int): string
  {
    if i < 0 then "-" + NatText(-i) else NatText(i)
  }

  /** The object keys of `m` in the order they are written. */
  function SortedKeys(m: map<string, Json>): (ks: seq<string>)
    ensures forall i :: 0 <= i < |ks| ==> ks[i] in m
  {
    StringLtIsStrictTotalOrder();
    Sorted(m.Keys, StringLt)
  }

  /** The written key order lists every key of the object, each once. */
  lemma SortedKeysCover(m: map<string, Json>)
    ensures |SortedKeys(m)| == |m|
    ensures forall k :: k in SortedKeys(m) <==> k in m
  {
    StringLtIsStrictTotalOrder();
    assert |m.Keys| == |m|;
  }

  /** The written key order is ascending byte order. */
  lemma SortedKeysAscending(m: map<string, Json>)
    ensures StrictlyAscending(SortedKeys(m), StringLt)
  {
    StringLtIsStrictTotalOrder();
  }

  /**
   * The text of `v`, starting on a line indented `depth` steps, followed by
   * `tail` (whatever the enclosing text writes after the value).
   */
  function Render(v: Json, depth: nat, tail: string): string
    decreases v, 2
  {
    match v
    case Null => "null" + tail
    case Bool(b) => (if b then "true" else "false") + tail
    case Int(i) => IntText(i) + tail
    case Str(s) => Quote(s) + tail
    case Arr(xs) =>
      if xs == [] then "[]" + tail
      else "[" + (Break(depth + 1) + RenderItems(xs, depth + 1, Break(depth) + ("]" + tail)))
    case Obj(m) => RenderObject(m, depth, tail)
  }

  /** An object: `{}` when empty, otherwise its members one per line in ascending key order. */
  function RenderObject(m: map<string, Json>, depth: nat, tail: string): string
    decreases Obj(m), 1
  {
    if m == map[] then "{}" + tail
    else "{" + (Break(depth + 1) + RenderMembers(SortedKeys(m), m, depth + 1, Break(depth) + ("}" + tail)))
  }

  /** Array elements one per line, separated by commas, followed by `close`. */
  function RenderItems(xs: seq<Json>, depth: nat, close: string): string
    requires xs != []
    decreases xs, 0
  {
    Render(xs[0], depth,
      if |xs| == 1 then close else "," + (Break(depth) + RenderItems(xs[1..], depth, close)))
  }

  /** The members `"key": value` of `m` for the keys `ks` in that order, one per line, followed by `close`. */
  function RenderMembers(ks: seq<string>, m: map<string, Json>, depth: nat, close: string): string
    requires ks != []
    requires forall i :: 0 <= i < |ks| ==> ks[i] in m
    decreases Obj(m), 0, |ks|
  {
    Quote(ks[0]) + (": " + Render(m[ks[0]], depth,
      if |ks| == 1 then close else "," + (Break(depth) + RenderMembers(ks[1..], m, depth, close))))
  }

  /**
   * The content of a JSON file holding `v`: its text at depth zero and one
   * newline, so the file ends in exactly one newline; an empty object or
   * array is written `{}` or `[]`.
   */
  function FileText(v: Json): (text: string)
    ensures |text| >= 2 && text[|text| - 1] == '\n' && text[|text| - 2] != '\n'
    ensures v == Obj(map[]) ==> text == "{}\n"
    ensures v == Arr([]) ==> text == "[]\n"
  {
    RenderEnds(v, 0, "\n");
    EndsWithLast(Render(v, 0, "\n"), "\n");
    Render(v, 0, "\n")
  }

  /* ---------------- how a rendered text ends ---------------- */

  /** `s` ends with `t`. */
  predicate EndsWith(s: string, t: string)
  {
    |t| <= |s| && s[|s| - |t|..] == t
  }

  lemma EndsWithExtended(a: string, s: string, t: string)
    requires EndsWith(s, t)
    ensures EndsWith(a + s, t)
  {
    assert (a + s)[|a + s| - |t|..] == s[|s| - |t|..];
  }

  lemma EndsWithTransitive(s: string, u: string, t: string)
    requires EndsWith(s, u) && EndsWith(u, t)
    ensures EndsWith(s, t)
  {
    assert s[|s| - |t|..] == s[|s| - |u|..][|u| - |t|..];
  }

  lemma EndsWithConcat(u: string, t: string)
    ensures EndsWith(u + t, t)
  {
    assert (u + t)[|u|..] == t;
  }

  /** The character written just before the suffix `t`. */
  lemma EndsWithChar(s: string, c: char, t: string)
    requires EndsWith(s, [c] + t)
    ensures EndsWith(s, t) && |s| > |t| && s[|s| - |t| - 1] == c
  {
    EndsWithTransitive(s, [c] + t, t) by { EndsWithConcat([c], t); }
    assert s[|s| - |t| - 1] == s[|s| - |[c] + t|..][0];
  }

  lemma EndsWithLast(s: string, t: string)
    requires EndsWith(s, t) && |t| == 1
    ensures s[|s| - 1] == t[0]
  {
    assert s[|s| - 1] == s[|s| - |t|..][0];
  }

  /** A non-empty scalar text followed by `tail` ends with its own last character and then `tail`. */
  lemma WordThen(w: string, tail: string)
    requires |w| > 0 && w[|w| - 1] != '\n'
    ensures EndsCleanly(w + tail, tail)
  {
    EndsWithConcat(w, tail);
  }

  lemma IntTextLast(i: int)
    ensures |IntText(i)| > 0 && IntText(i)[|IntText(i)| - 1] != '\n'
  {
    var n := if i < 0 then -i else i;
    assert |NatText(n)| > 0 && NatText(n)[|NatText(n)| - 1] != '\n';
  }

  /** A bracket closing a container, then `tail`. */
  lemma ClosedBy(s: string, depth: nat, bracket: char, tail: string)
    requires EndsWith(s, Break(depth) + ([bracket] + tail)) && bracket != '\n'
    ensures EndsCleanly(s, tail)
  {
    EndsWithConcat(Break(depth), [bracket] + tail);
    EndsWithTransitive(s, Break(depth) + ([bracket] + tail), [bracket] + tail);
    EndsWithChar(s, bracket, tail);
  }

  /** `r` ends with `tail`, and the character before `tail` is not a line break. */
  predicate EndsCleanly(r: string, tail: string)
  {
    EndsWith(r, tail) && |r| > |tail| && r[|r| - |tail| - 1] != '\n'
  }

  /** The text of a value is followed by `tail`, and its last character before `tail` is never a line break. */
  lemma {:induction false} RenderEnds(v: Json, depth: nat, tail: string)
    ensures EndsCleanly(Render(v, depth, tail), tail)
    decreases v, 2
  {
    if v.Arr? {
      ArrayEnds(v.items, depth, tail);
    } else if v.Obj? {
      ObjectEnds(v.fields, depth, tail);
    } else {
      ScalarEnds(v, depth, tail);
    }
  }

  lemma ScalarEnds(v: Json, depth: nat, tail: string)
    requires !v.Arr? && !v.Obj?
    ensures EndsCleanly(Render(v, depth, tail), tail)
  {
    match v
    case Null => WordThen("null", tail);
    case Bool(b) => WordThen(if b then "true" else "false", tail);
    case Int(i) => IntTextLast(i); WordThen(IntText(i), tail);
    case Str(s) => WordThen(Quote(s), tail);
  }

  lemma {:induction false} ArrayEnds(xs: seq<Json>, depth: nat, tail: string)
    ensures EndsCleanly(Render(Arr(xs), depth, tail), tail)
    decreases Arr(xs), 1
  {
    if xs == [] {
      WordThen("[]", tail);
    } else {
      var close := Break(depth) + ("]" + tail);
      ItemsEnd(xs, depth + 1, close);
      EndsWithExtended(Break(depth + 1), RenderItems(xs, depth + 1, close), close);
      EndsWithExtended("[", Break(depth + 1) + RenderItems(xs, depth + 1, close), close);
      ClosedBy(Render(Arr(xs), depth, tail), depth, ']', tail);
    }
  }

  lemma {:induction false} ObjectEnds(m: map<string, Json>, depth: nat, tail: string)
    ensures EndsCleanly(Render(Obj(m), depth, tail), tail)
    decreases Obj(m), 1
  {
    assert Render(Obj(m), depth, tail) == RenderObject(m, depth, tail);
    if m == map[] {
      WordThen("{}", tail);
    } else {
      var close := Break(depth) + ("}" + tail);
      var ks := SortedKeys(m);
      MembersEnd(ks, m, depth + 1, close);
      EndsWithExtended(Break(depth + 1), RenderMembers(ks, m, depth + 1, close), close);
      EndsWithExtended("{", Break(depth + 1) + RenderMembers(ks, m, depth + 1, close), close);
      ClosedBy(Render(Obj(m), depth, tail), depth, '}', tail);
    }
  }

  lemma {:induction false} ItemsEnd(xs: seq<Json>, depth: nat, close: string)
    requires xs != []
    ensures EndsWith(RenderItems(xs, depth, close), close)
    decreases xs, 0
  {
    var after := if |xs| == 1 then close else "," + (Break(depth) + RenderItems(xs[1..], depth, close));
    RenderEnds(xs[0], depth, after);
    if |xs| > 1 {
      ItemsEnd(xs[1..], depth, close);
      EndsWithExtended(Break(depth), RenderItems(xs[1..], depth, close), close);
      EndsWithExtended(",", Break(depth) + RenderItems(xs[1..], depth, close), close);
      EndsWithTransitive(RenderItems(xs, depth, close), after, close);
    }
  }

  lemma {:induction false} MembersEnd(ks: seq<string>, m: map<string, Json>, depth: nat, close: string)
    requires ks != []
    requires forall i :: 0 <= i < |ks| ==> ks[i] in m
    ensures EndsWith(RenderMembers(ks, m, depth, close), close)
    decreases Obj(m), 0, |ks|
  {
    var after := if |ks| == 1 then close else "," + (Break(depth) + RenderMembers(ks[1..], m, depth, close));
    RenderEnds(m[ks[0]], depth, after);
    EndsWithExtended(": ", Render(m[ks[0]], depth, after), after);
    EndsWithExtended(Quote(ks[0]), ": " + Render(m[ks[0]], depth, after), after);
    if |ks| > 1 {
      MembersEnd(ks[1..], m, depth, close);
      EndsWithExtended(Break(depth), RenderMembers(ks[1..], m, depth, close), close);
      EndsWithExtended(",", Break(depth) + RenderMembers(ks[1..], m, depth, close), close);
      EndsWithTransitive(RenderMembers(ks, m, depth, close), after, close);
    }
  }

  /* ---------------- reading JSON text ---------------- */

  predicate IsWhitespace(c: char)
  {
    c == ' ' || c == '\n' || c == '\t' || c == '\r'
  }

  predicate IsDigit(c: char)
  {
    '0' <= c <= '9'
  }

  function SkipWhitespace(s: string): (r: string)
    ensures |r| <= |s|
  {
    if s != [] && IsWhitespace(s[0]) then SkipWhitespace(s[1..]) else s
  }

  /** The number of leading decimal digits of `s`. */
  function DigitSpan(s: string): (n: nat)
    ensures n <= |s|
  {
    if s != [] && IsDigit(s[0]) then 1 + DigitSpan(s[1..]) else 0
  }

  /** The value of a string of decimal digits. */
  function DigitsValue(ds: string): nat
    requires forall i :: 0 <= i < |ds| ==> IsDigit(ds[i])
  {
    if ds == [] then 0
    else
      assert IsDigit(ds[|ds| - 1]);
      10 * DigitsValue(ds[..|ds| - 1]) + (ds[|ds| - 1] as int - '0' as int)
  }

  /** `s` starts with the keyword `word`, which stands for `v`. */
  function ParseKeyword(s: string, word: string, v: Json): (r: Option<(Json, string)>)
    requires word != []
    ensures r.Some? ==> |r.value.1| < |s|
  {
    if |word| <= |s| && s[..|word|] == word then Some((v, s[|word|..])) else None
  }

  /** The characters of a string up to its closing quote; escape sequences and control characters are refused. */
  function ParseStringBody(s: string): (r: Option<(string, string)>)
    ensures r.Some? ==> |r.value.1| < |s|
  {
    if s == [] then None
    else if s[0] == '"' then Some(([], s[1..]))
    else if s[0] == '\\' || s[0] < ' ' then None
    else
      match ParseStringBody(s[1..])
      case None => None
      case Some((body, rest)) => Some(([s[0]] + body, rest))
  }

  /** An integer: an optional minus sign and decimal digits without a superfluous leading zero. */
  function ParseInt(s: string): (r: Option<(Json, string)>)
    ensures r.Some? ==> |r.value.1| < |s|
  {
    var negative := s != [] && s[0] == '-';
    var body := if negative then s[1..] else s;
    var n := DigitSpan(body);
    if n == 0 || (n > 1 && body[0] == '0') then None
    else
      DigitSpanDigits(body);
      var magnitude: int := DigitsValue(body[..n]);
      Some((Int(if negative then -magnitude else magnitude), body[n..]))
  }

  lemma {:induction false} DigitSpanDigits(s: string)
    ensures forall i :: 0 <= i < DigitSpan(s) ==> IsDigit(s[i])
  {
    if s != [] && IsDigit(s[0]) {
      DigitSpanDigits(s[1..]);
      forall i | 0 <= i < DigitSpan(s) ensures IsDigit(s[i]) {
        if i > 0 { assert s[i] == s[1..][i - 1]; }
      }
    }
  }

  /** One value, after optional whitespace; the rest of the input follows it. */
  function ParseValue(s: string): (r: Option<(Json, string)>)
    ensures r.Some? ==> |r.value.1| < |s|
    decreases |s|, 0
  {
    var t := SkipWhitespace(s);
    if t == [] then None
    else if t[0] == 'n' then ParseKeyword(t, "null", Null)
    else if t[0] == 't' then ParseKeyword(t, "true", Bool(true))
    else if t[0] == 'f' then ParseKeyword(t, "false", Bool(false))
    else if t[0] == '"' then
      match ParseStringBody(t[1..])
      case None => None
      case Some((body, rest)) => Some((Str(body), rest))
    else if t[0] == '-' || IsDigit(t[0]) then ParseInt(t)
    else if t[0] == '[' then ParseArray(t[1..])
    else if t[0] == '{' then ParseObject(t[1..])
    else None
  }

  /** The rest of an array after its opening bracket. */
  function ParseArray(s: string): (r: Option<(Json, string)>)
    ensures r.Some? ==> |r.value.1| < |s|
    decreases |s|, 2
  {
    var u := SkipWhitespace(s);
    if u != [] && u[0] == ']' then Some((Arr([]), u[1..]))
    else
      match ParseItems(u)
      case None => None
      case Some((xs, rest)) => Some((Arr(xs), rest))
  }

  /** The rest of an object after its opening brace. */
  function ParseObject(s: string): (r: Option<(Json, string)>)
    ensures r.Some? ==> |r.value.1| < |s|
    decreases |s|, 2
  {
    var u := SkipWhitespace(s);
    if u != [] && u[0] == '}' then Some((Obj(map[]), u[1..]))
    else
      match ParseMembers(u, map[])
      case None => None
      case Some((m, rest)) => Some((Obj(m), rest))
  }

  /** Array elements separated by commas, up to and including the closing bracket. */
  function ParseItems(s: string): (r: Option<(seq<Json>, string)>)
    ensures r.Some? ==> |r.value.1| < |s|
    decreases |s|, 1
  {
    match ParseValue(s)
    case None => None
    case Some((x, rest)) =>
      var t := SkipWhitespace(rest);
      if t != [] && t[0] == ',' then
        match ParseItems(t[1..])
        case None => None
        case Some((xs, rest')) => Some(([x] + xs, rest'))
      else if t != [] && t[0] == ']' then Some(([x], t[1..]))
      else None
  }

  /**
   * Object members separated by commas, up to and including the closing
   * brace, added to `acc`; a repeated key keeps its last value.
   */
  function ParseMembers(s: string, acc: map<string, Json>): (r: Option<(map<string, Json>, string)>)
    ensures r.Some? ==> |r.value.1| < |s|
    decreases |s|, 1
  {
    var t := SkipWhitespace(s);
    if t == [] || t[0] != '"' then None
    else
      match ParseStringBody(t[1..])
      case None => None
      case Some((key, rest)) =>
        var u := SkipWhitespace(rest);
        if u == [] || u[0] != ':' then None
        else
          match ParseValue(u[1..])
          case None => None
          case Some((x, rest')) =>
            var w := SkipWhitespace(rest');
            if w != [] && w[0] == ',' then ParseMembers(w[1..], acc[key := x])
            else if w != [] && w[0] == '}' then Some((acc[key := x], w[1..]))
            else None
  }

  /** The content of a JSON file: one value and nothing after it but whitespace. */
  function ParseFile(s: string): Option<Json>
  {
    match ParseValue(s)
    case None => None
    case Some((v, rest)) => if SkipWhitespace(rest) == [] then Some(v) else None
  }
}
