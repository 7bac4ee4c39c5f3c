/**
 * What the canonical JSON text guarantees: reading a written file gives
 * back the value that was written, so two different values never share a
 * file. (That a file ends in exactly one newline is `Json.FileText`'s own
 * contract.)
 */
module JsonLaws {
  import opened Wrappers
  import opened Ordering
  import opened Json

  /** What may follow a value without being read as part of it. */
  predicate Boundary(rest: string)
  {
    rest == [] || !IsDigit(rest[0])
  }

  predicate AllWhitespace(w: string)
  {
    forall i :: 0 <= i < |w| ==> IsWhitespace(w[i])
  }

  /** The members of `m` for the keys `ks`. */
  function Pick(m: map<string, Json>, ks: seq<string>): map<string, Json>
    requires forall i :: 0 <= i < |ks| ==> ks[i] in m
  {
    if ks == [] then map[] else map[ks[0] := m[ks[0]]] + Pick(m, ks[1..])
  }

  lemma {:induction false} PickKeys(m: map<string, Json>, ks: seq<string>)
    requires forall i :: 0 <= i < |ks| ==> ks[i] in m
    ensures forall k :: k in Pick(m, ks) <==> k in ks
    ensures forall k :: k in Pick(m, ks) ==> Pick(m, ks)[k] == m[k]
  {
    if ks != [] {
      PickKeys(m, ks[1..]);
      forall k | k in ks ensures k == ks[0] || k in ks[1..] {
        var i :| 0 <= i < |ks| && ks[i] == k;
        if i > 0 { assert ks[1..][i - 1] == k; }
      }
    }
  }

  /** Picking every key of `m` gives `m` back. */
  lemma PickAll(m: map<string, Json>, ks: seq<string>)
    requires forall k :: k in ks <==> k in m
    ensures Pick(m, ks) == m
  {
    PickKeys(m, ks);
  }

  /** The members picked in written key order, added to nothing, are the whole object. */
  lemma PickSortedKeys(m: map<string, Json>)
    ensures map[] + Pick(m, SortedKeys(m)) == m
  {
    SortedKeysCover(m);
    PickAll(m, SortedKeys(m));
    assert map[] + m == m;
  }

  lemma UpdateThenUnion(acc: map<string, Json>, k: string, v: Json, more: map<string, Json>)
    ensures acc[k := v] + more == acc + (map[k := v] + more)
  {
  }

  /* ---------------- whitespace ---------------- */

  lemma {:induction false} SkipWhitespaceOver(w: string, t: string)
    requires AllWhitespace(w)
    ensures SkipWhitespace(w + t) == SkipWhitespace(t)
    decreases |w|
  {
    if w != [] {
      assert (w + t)[0] == w[0] && IsWhitespace(w[0]);
      assert (w + t)[1..] == w[1..] + t;
      SkipWhitespaceOver(w[1..], t);
    } else {
      assert w + t == t;
    }
  }

  lemma {:induction false} IndentIsWhitespace(depth: nat)
    ensures AllWhitespace(Indent(depth))
    ensures AllWhitespace(Break(depth))
  {
    if depth > 0 { IndentIsWhitespace(depth - 1); }
  }

  /** Skipping a line break and its indentation before `t` leaves `t` when `t` starts with a non-blank. */
  lemma SkipBreak(depth: nat, t: string)
    requires t != [] && !IsWhitespace(t[0])
    ensures SkipWhitespace(Break(depth) + t) == t
  {
    IndentIsWhitespace(depth);
    SkipWhitespaceOver(Break(depth), t);
  }

  lemma ParseValueSkips(w: string, t: string)
    requires AllWhitespace(w)
    ensures ParseValue(w + t) == ParseValue(t)
  {
    SkipWhitespaceOver(w, t);
  }

  lemma ParseItemsSkips(w: string, t: string)
    requires AllWhitespace(w)
    ensures ParseItems(w + t) == ParseItems(t)
  {
    ParseValueSkips(w, t);
  }

  lemma ParseMembersSkips(w: string, t: string, acc: map<string, Json>)
    requires AllWhitespace(w)
    ensures ParseMembers(w + t, acc) == ParseMembers(t, acc)
  {
    SkipWhitespaceOver(w, t);
  }

  /* ---------------- numbers ---------------- */

  lemma {:induction false} NatTextDigits(n: nat)
    ensures NatText(n) != []
    ensures forall i :: 0 <= i < |NatText(n)| ==> IsDigit(NatText(n)[i])
    ensures |NatText(n)| > 1 ==> NatText(n)[0] != '0'
    ensures DigitsValue(NatText(n)) == n
  {
    if n >= 10 {
      NatTextDigits(n / 10);
      var s := NatText(n);
      assert s[..|s| - 1] == NatText(n / 10);
      assert s[0] == NatText(n / 10)[0];
    }
  }

  lemma {:induction false} DigitSpanOf(ds: string, rest: string)
    requires forall i :: 0 <= i < |ds| ==> IsDigit(ds[i])
    requires Boundary(rest)
    ensures DigitSpan(ds + rest) == |ds|
    decreases |ds|
  {
    if ds != [] {
      assert (ds + rest)[1..] == ds[1..] + rest;
      DigitSpanOf(ds[1..], rest);
    }
  }

  lemma NatRoundTrip(n: nat, rest: string)
    requires Boundary(rest)
    ensures ParseInt(NatText(n) + rest) == Some((Int(n), rest))
  {
    var ds := NatText(n);
    NatTextDigits(n);
    DigitSpanOf(ds, rest);
    assert (ds + rest)[..|ds|] == ds;
    assert (ds + rest)[|ds|..] == rest;
  }

  lemma IntRoundTrip(i: int, rest: string)
    requires Boundary(rest)
    ensures ParseInt(IntText(i) + rest) == Some((Int(i), rest))
  {
    if i < 0 {
      assert IntText(i) + rest == "-" + NatText(-i) + rest;
      NegRoundTrip(-i, rest);
    } else {
      NatRoundTrip(i, rest);
    }
  }

  lemma NegRoundTrip(n: nat, rest: string)
    requires n > 0
    requires Boundary(rest)
    ensures ParseInt("-" + NatText(n) + rest) == Some((Int(0 - n), rest))
  {
    var ds := NatText(n);
    NatTextDigits(n);
    DigitSpanOf(ds, rest);
    var s := "-" + ds + rest;
    assert s[1..] == ds + rest;
    assert (ds + rest)[..|ds|] == ds;
    assert (ds + rest)[|ds|..] == rest;
  }

  /* ---------------- strings ---------------- */

  lemma {:induction false} StringRoundTrip(s: string, rest: string)
    requires PlainString(s)
    ensures ParseStringBody(s + "\"" + rest) == Some((s, rest))
    decreases |s|
  {
    if s == [] {
      assert s + "\"" + rest == "\"" + rest;
    } else {
      assert (s + "\"" + rest)[1..] == s[1..] + "\"" + rest;
      StringRoundTrip(s[1..], rest);
      assert [s[0]] + s[1..] == s;
    }
  }

  /* ---------------- values ---------------- */

  /** The text of a value starts with a character that opens a value. */
  lemma RenderStart(v: Json, depth: nat, tail: string)
    ensures Render(v, depth, tail) != []
    ensures !IsWhitespace(Render(v, depth, tail)[0])
    ensures Render(v, depth, tail)[0] != ']' && Render(v, depth, tail)[0] != '}'
  {
    match v
    case Int(i) =>
      if i >= 0 { NatTextDigits(i); }
    case _ =>
  }

  lemma ParseValueOpenBracket(t: string)
    requires t != [] && t[0] == '['
    ensures ParseValue(t) == ParseArray(t[1..])
  {
  }

  lemma ParseValueOpenBrace(t: string)
    requires t != [] && t[0] == '{'
    ensures ParseValue(t) == ParseObject(t[1..])
  {
  }

  lemma {:induction false} ValueRoundTrip(v: Json, depth: nat, tail: string)
    requires Plain(v)
    requires Boundary(tail)
    ensures ParseValue(Render(v, depth, tail)) == Some((v, tail))
    decreases v, 4
  {
    match v
    case Arr(xs) => ArrayRoundTrip(xs, depth, tail);
    case Obj(m) => ObjectRoundTrip(m, depth, tail);
    case _ => ScalarRoundTrip(v, depth, tail);
  }

  lemma ScalarRoundTrip(v: Json, depth: nat, tail: string)
    requires !v.Arr? && !v.Obj?
    requires Plain(v)
    requires Boundary(tail)
    ensures ParseValue(Render(v, depth, tail)) == Some((v, tail))
  {
    match v
    case Null => KeywordRoundTrip(v, depth, tail);
    case Bool(_) => KeywordRoundTrip(v, depth, tail);
    case Int(_) => IntValueRoundTrip(v, depth, tail);
    case Str(_) => StrValueRoundTrip(v, depth, tail);
  }

  lemma KeywordRoundTrip(v: Json, depth: nat, tail: string)
    requires v.Null? || v.Bool?
    requires Boundary(tail)
    ensures ParseValue(Render(v, depth, tail)) == Some((v, tail))
  {
    var s := Render(v, depth, tail);
    RenderStart(v, depth, tail);
    assert SkipWhitespace(s) == s;
    if v.Null? {
      assert s[..4] == "null" && s[4..] == tail;
    } else if v.b {
      assert s[..4] == "true" && s[4..] == tail;
    } else {
      assert s[..5] == "false" && s[5..] == tail;
    }
  }

  lemma IntValueRoundTrip(v: Json, depth: nat, tail: string)
    requires v.Int?
    requires Boundary(tail)
    ensures ParseValue(Render(v, depth, tail)) == Some((v, tail))
  {
    var s := Render(v, depth, tail);
    RenderStart(v, depth, tail);
    assert SkipWhitespace(s) == s;
    IntRoundTrip(v.i, tail);
    if v.i >= 0 { NatTextDigits(v.i); }
  }

  lemma StrValueRoundTrip(v: Json, depth: nat, tail: string)
    requires v.Str? && Plain(v)
    requires Boundary(tail)
    ensures ParseValue(Render(v, depth, tail)) == Some((v, tail))
  {
    var s := Render(v, depth, tail);
    RenderStart(v, depth, tail);
    assert SkipWhitespace(s) == s;
    assert s[1..] == v.s + "\"" + tail;
    StringRoundTrip(v.s, tail);
  }

  /** Past the opening bracket of a non-empty array comes a line break and its elements. */
  lemma ArrayOpen(xs: seq<Json>, depth: nat, tail: string)
    requires xs != []
    ensures ParseValue(Render(Arr(xs), depth, tail))
         == ParseArray(Break(depth + 1) + RenderItems(xs, depth + 1, Break(depth) + ("]" + tail)))
  {
    ParseValueOpenBracket(Render(Arr(xs), depth, tail));
  }

  /** The elements of a non-empty array start with the first element's text. */
  lemma ItemsStart(xs: seq<Json>, depth: nat, close: string)
    requires xs != []
    ensures RenderItems(xs, depth, close) != []
    ensures !IsWhitespace(RenderItems(xs, depth, close)[0]) && RenderItems(xs, depth, close)[0] != ']'
  {
    RenderStart(xs[0], depth, if |xs| == 1 then close else "," + (Break(depth) + RenderItems(xs[1..], depth, close)));
  }

  /** An array whose elements read back as `xs` after a line break. */
  lemma ParseArrayBody(depth: nat, body: string, xs: seq<Json>, rest: string)
    requires body != [] && !IsWhitespace(body[0]) && body[0] != ']'
    requires ParseItems(body) == Some((xs, rest))
    ensures ParseArray(Break(depth) + body) == Some((Arr(xs), rest))
  {
    SkipBreak(depth, body);
  }

  lemma {:induction false} ArrayRoundTrip(xs: seq<Json>, depth: nat, tail: string)
    requires Plain(Arr(xs))
    requires Boundary(tail)
    ensures ParseValue(Render(Arr(xs), depth, tail)) == Some((Arr(xs), tail))
    decreases Arr(xs), 3
  {
    if xs == [] {
      ParseValueOpenBracket(Render(Arr(xs), depth, tail));
      assert Render(Arr(xs), depth, tail)[1..] == "]" + tail;
    } else {
      ArrayOpen(xs, depth, tail);
      ItemsRoundTrip(xs, depth + 1, depth, tail);
      ItemsStart(xs, depth + 1, Break(depth) + ("]" + tail));
      ParseArrayBody(depth + 1, RenderItems(xs, depth + 1, Break(depth) + ("]" + tail)), xs, tail);
    }
  }

  /** Past the opening brace of a non-empty object comes a line break and its members. */
  lemma ObjectOpen(m: map<string, Json>, depth: nat, tail: string)
    requires m != map[]
    ensures ParseValue(Render(Obj(m), depth, tail))
         == ParseObject(Break(depth + 1) + RenderMembers(SortedKeys(m), m, depth + 1, Break(depth) + ("}" + tail)))
  {
    assert Render(Obj(m), depth, tail) == RenderObject(m, depth, tail);
    ParseValueOpenBrace(Render(Obj(m), depth, tail));
  }

  /** The members of a non-empty object start with the quote of the first key. */
  lemma MembersStart(ks: seq<string>, m: map<string, Json>, depth: nat, close: string)
    requires ks != []
    requires forall i :: 0 <= i < |ks| ==> ks[i] in m
    ensures RenderMembers(ks, m, depth, close) != []
    ensures RenderMembers(ks, m, depth, close)[0] == '"'
  {
  }

  /** An object whose members read back as `m` after a line break. */
  lemma ParseObjectBody(depth: nat, body: string, m: map<string, Json>, rest: string)
    requires body != [] && body[0] == '"'
    requires ParseMembers(body, map[]) == Some((m, rest))
    ensures ParseObject(Break(depth) + body) == Some((Obj(m), rest))
  {
    SkipBreak(depth, body);
  }

  lemma {:induction false} ObjectRoundTrip(m: map<string, Json>, depth: nat, tail: string)
    requires Plain(Obj(m))
    requires Boundary(tail)
    ensures ParseValue(Render(Obj(m), depth, tail)) == Some((Obj(m), tail))
    decreases Obj(m), 3
  {
    if m == map[] {
      assert Render(Obj(m), depth, tail) == RenderObject(m, depth, tail);
      ParseValueOpenBrace(Render(Obj(m), depth, tail));
      assert Render(Obj(m), depth, tail)[1..] == "}" + tail;
    } else {
      ObjectOpen(m, depth, tail);
      ObjectMembers(m, depth, tail);
      MembersStart(SortedKeys(m), m, depth + 1, Break(depth) + ("}" + tail));
      ParseObjectBody(depth + 1, RenderMembers(SortedKeys(m), m, depth + 1, Break(depth) + ("}" + tail)), m, tail);
    }
  }

  /** The members of an object, written in key order, read back as the whole object. */
  lemma {:induction false} ObjectMembers(m: map<string, Json>, depth: nat, tail: string)
    requires Plain(Obj(m))
    requires Boundary(tail)
    requires m != map[]
    ensures ParseMembers(RenderMembers(SortedKeys(m), m, depth + 1, Break(depth) + ("}" + tail)), map[]) == Some((m, tail))
    decreases Obj(m), 2
  {
    MembersRoundTrip(SortedKeys(m), m, depth + 1, map[], depth, tail);
    PickSortedKeys(m);
  }

  lemma {:induction false} ItemsRoundTrip(xs: seq<Json>, depth: nat, outer: nat, rest: string)
    requires xs != []
    requires forall i :: 0 <= i < |xs| ==> Plain(xs[i])
    ensures ParseItems(RenderItems(xs, depth, Break(outer) + ("]" + rest))) == Some((xs, rest))
    decreases xs, 0
  {
    var close := Break(outer) + ("]" + rest);
    var after := if |xs| == 1 then close else "," + (Break(depth) + RenderItems(xs[1..], depth, close));
    assert after[0] == '\n' || after[0] == ',';
    ValueRoundTrip(xs[0], depth, after);
    if |xs| == 1 {
      SkipBreak(outer, "]" + rest);
      assert ("]" + rest)[1..] == rest;
      assert [xs[0]] == xs;
    } else {
      var next := RenderItems(xs[1..], depth, close);
      IndentIsWhitespace(depth);
      ParseItemsSkips(Break(depth), next);
      ItemsRoundTrip(xs[1..], depth, outer, rest);
      assert [xs[0]] + xs[1..] == xs;
    }
  }

  /** One member `"key": value` followed by what comes after the value. */
  lemma MemberHead(k: string, value: string, acc: map<string, Json>, x: Json, after: string)
    requires PlainString(k)
    requires ParseValue(value) == Some((x, after))
    ensures ParseMembers(Quote(k) + (": " + value), acc) == MembersAfter(after, acc[k := x])
  {
    var s := Quote(k) + (": " + value);
    assert s[0] == '"';
    assert SkipWhitespace(s) == s;
    assert s[1..] == k + "\"" + (": " + value);
    StringRoundTrip(k, ": " + value);
    assert SkipWhitespace(": " + value) == ": " + value;
    assert (": " + value)[1..] == " " + value;
    ParseValueSkips(" ", value);
  }

  /** How member parsing goes on after a value: another member after a comma, or the end at a brace. */
  function MembersAfter(after: string, acc: map<string, Json>): Option<(map<string, Json>, string)>
  {
    var w := SkipWhitespace(after);
    if w != [] && w[0] == ',' then ParseMembers(w[1..], acc)
    else if w != [] && w[0] == '}' then Some((acc, w[1..]))
    else None
  }

  /** What the text writes after the value of the first member in `ks`. */
  function MemberTail(ks: seq<string>, m: map<string, Json>, depth: nat, close: string): string
    requires ks != []
    requires forall i :: 0 <= i < |ks| ==> ks[i] in m
  {
    if |ks| == 1 then close else "," + (Break(depth) + RenderMembers(ks[1..], m, depth, close))
  }

  /** The first member of `ks`, read as a key, a colon and a value whose text is known to read back. */
  lemma MembersStep(ks: seq<string>, m: map<string, Json>, depth: nat, close: string, acc: map<string, Json>)
    requires ks != []
    requires forall i :: 0 <= i < |ks| ==> ks[i] in m
    requires PlainString(ks[0])
    requires ParseValue(Render(m[ks[0]], depth, MemberTail(ks, m, depth, close)))
          == Some((m[ks[0]], MemberTail(ks, m, depth, close)))
    ensures ParseMembers(RenderMembers(ks, m, depth, close), acc)
         == MembersAfter(MemberTail(ks, m, depth, close), acc[ks[0] := m[ks[0]]])
  {
    MemberHead(ks[0], Render(m[ks[0]], depth, MemberTail(ks, m, depth, close)), acc, m[ks[0]], MemberTail(ks, m, depth, close));
  }

  lemma MemberTailBoundary(ks: seq<string>, m: map<string, Json>, depth: nat, close: string)
    requires ks != []
    requires forall i :: 0 <= i < |ks| ==> ks[i] in m
    requires Boundary(close)
    ensures Boundary(MemberTail(ks, m, depth, close))
  {
  }

  /** After the last member, the closing brace ends the object. */
  lemma MembersClose(outer: nat, rest: string, acc: map<string, Json>)
    ensures MembersAfter(Break(outer) + ("}" + rest), acc) == Some((acc, rest))
  {
    SkipBreak(outer, "}" + rest);
    assert ("}" + rest)[1..] == rest;
  }

  /** After a comma and a line break, the next member follows. */
  lemma MembersNext(depth: nat, next: string, acc: map<string, Json>)
    ensures MembersAfter("," + (Break(depth) + next), acc) == ParseMembers(next, acc)
  {
    IndentIsWhitespace(depth);
    ParseMembersSkips(Break(depth), next, acc);
    assert ("," + (Break(depth) + next))[1..] == Break(depth) + next;
  }

  /** Picking the one key of a one-key list adds just that member. */
  lemma PickOne(m: map<string, Json>, ks: seq<string>, acc: map<string, Json>)
    requires |ks| == 1 && ks[0] in m
    ensures acc[ks[0] := m[ks[0]]] == acc + Pick(m, ks)
  {
    assert Pick(m, ks) == map[ks[0] := m[ks[0]]];
  }

  lemma {:induction false} MembersRoundTrip(
    ks: seq<string>, m: map<string, Json>, depth: nat,
    acc: map<string, Json>, outer: nat, rest: string)
    requires ks != []
    requires forall i :: 0 <= i < |ks| ==> ks[i] in m
    requires Plain(Obj(m))
    ensures ParseMembers(RenderMembers(ks, m, depth, Break(outer) + ("}" + rest)), acc)
         == Some((acc + Pick(m, ks), rest))
    decreases Obj(m), 1, |ks|
  {
    var close := Break(outer) + ("}" + rest);
    var k := ks[0];
    assert PlainString(k) && Plain(m[k]);
    MemberTailBoundary(ks, m, depth, close);
    ValueRoundTrip(m[k], depth, MemberTail(ks, m, depth, close));
    MembersStep(ks, m, depth, close, acc);
    if |ks| == 1 {
      MembersClose(outer, rest, acc[k := m[k]]);
      PickOne(m, ks, acc);
    } else {
      MembersNext(depth, RenderMembers(ks[1..], m, depth, close), acc[k := m[k]]);
      MembersRoundTrip(ks[1..], m, depth, acc[k := m[k]], outer, rest);
      UpdateThenUnion(acc, k, m[k], Pick(m, ks[1..]));
    }
  }

  /** Reading a written JSON file gives back the value that was written. */
  lemma FileRoundTrip(v: Json)
    requires Plain(v)
    ensures ParseFile(FileText(v)) == Some(v)
  {
    ValueRoundTrip(v, 0, "\n");
  }

  /** Different values are never written as the same file. */
  lemma FileTextInjective(v: Json, w: Json)
    requires Plain(v) && Plain(w)
    requires FileText(v) == FileText(w)
    ensures v == w
  {
    FileRoundTrip(v);
    FileRoundTrip(w);
  }
}
