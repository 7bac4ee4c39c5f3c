/**
 * The canonical JSON text line by line, for objects whose members all fit
 * on their key's line: the opening brace, then one line per member in
 * ascending key order at one more indent step, each but the last ending
 * in a comma, then the closing brace at the object's own indentation.
 */
module JsonLines {
  import opened Ordering
  import opened Json

  /** A value written on its key's line: a scalar, `{}` or `[]`. */
  predicate Inline(v: Json)
  {
    match v
    case Arr(xs) => xs == []
    case Obj(m) => m == map[]
    case _ => true
  }

  function InlineText(v: Json): string
    requires Inline(v)
  {
    match v
    case Null => "null"
    case Bool(b) => if b then "true" else "false"
    case Int(i) => IntText(i)
    case Str(s) => Quote(s)
    case Arr(_) => "[]"
    case Obj(_) => "{}"
  }

  /** An inline value is its text followed by whatever comes after it. */
  lemma InlineRender(v: Json, depth: nat, tail: string)
    requires Inline(v)
    ensures Render(v, depth, tail) == InlineText(v) + tail
  {
    if v.Obj? {
      assert Render(v, depth, tail) == RenderObject(v.fields, depth, tail);
    }
  }

  /** Concatenation regrouped to the left. */
  lemma Assoc4(a: string, b: string, c: string, d: string, e: string)
    ensures a + (b + (c + (d + e))) == a + b + c + d + e
  {
  }

  /** One member's line: indentation, the quoted key, the value, a comma unless it is the last member, and a newline. */
  function MemberLine(key: string, value: Json, depth: nat, comma: bool): string
    requires Inline(value)
  {
    Indent(depth) + Quote(key) + ": " + InlineText(value) + (if comma then "," else "") + "\n"
  }

  /** The lines of the members under `ks`, in that order, at `depth`. */
  function MemberLines(ks: seq<string>, m: map<string, Json>, depth: nat): string
    requires forall i :: 0 <= i < |ks| ==> ks[i] in m && Inline(m[ks[i]])
    decreases |ks|
  {
    if ks == [] then ""
    else MemberLine(ks[0], m[ks[0]], depth, |ks| > 1) + MemberLines(ks[1..], m, depth)
  }

  /** The last member's line. */
  lemma LastMemberLine(ks: seq<string>, m: map<string, Json>, depth: nat, rest: string)
    requires |ks| == 1 && ks[0] in m && Inline(m[ks[0]])
    ensures Indent(depth) + RenderMembers(ks, m, depth, "\n" + rest) == MemberLines(ks, m, depth) + rest
  {
    LastRendered(ks, m, depth, "\n" + rest);
    LastLines(ks, m, depth);
    LastAssoc(Indent(depth), Quote(ks[0]), ": ", InlineText(m[ks[0]]), "\n", rest);
  }

  lemma LastAssoc(i: string, q: string, c: string, t: string, nl: string, rest: string)
    ensures i + (q + (c + (t + (nl + rest)))) == i + q + c + t + "" + nl + rest
  {
  }

  lemma LastRendered(ks: seq<string>, m: map<string, Json>, depth: nat, close: string)
    requires |ks| == 1 && ks[0] in m && Inline(m[ks[0]])
    ensures RenderMembers(ks, m, depth, close) == Quote(ks[0]) + (": " + (InlineText(m[ks[0]]) + close))
  {
    InlineRender(m[ks[0]], depth, close);
  }

  lemma LastLines(ks: seq<string>, m: map<string, Json>, depth: nat)
    requires |ks| == 1 && ks[0] in m && Inline(m[ks[0]])
    ensures MemberLines(ks, m, depth) == Indent(depth) + Quote(ks[0]) + ": " + InlineText(m[ks[0]]) + "" + "\n"
  {
  }

  /** Concatenation of a line's parts regrouped to the left. */
  lemma LineAssoc(i: string, q: string, c: string, t: string, comma: string, rest: string)
    ensures i + (q + (c + (t + (comma + rest)))) == i + q + c + t + comma + rest
  {
  }

  lemma LineEnd(line: string, nl: string, rest: string)
    ensures line + (nl + rest) == line + nl + "" + rest
  {
  }

  /** A member that is not the last: its key and value, a comma, and the next member on a new line. */
  lemma MemberThenMore(ks: seq<string>, m: map<string, Json>, depth: nat, close: string)
    requires |ks| > 1
    requires forall i :: 0 <= i < |ks| ==> ks[i] in m && Inline(m[ks[i]])
    ensures Indent(depth) + RenderMembers(ks, m, depth, close)
         == Indent(depth) + Quote(ks[0]) + ": " + InlineText(m[ks[0]])
            + ("," + ("\n" + (Indent(depth) + RenderMembers(ks[1..], m, depth, close))))
  {
    var more := RenderMembers(ks[1..], m, depth, close);
    MoreRendered(ks, m, depth, close);
    BreakThen(depth, more);
    HeadAssoc(Indent(depth), Quote(ks[0]), ": ", InlineText(m[ks[0]]), "," + ("\n" + (Indent(depth) + more)));
  }

  lemma MoreRendered(ks: seq<string>, m: map<string, Json>, depth: nat, close: string)
    requires |ks| > 1
    requires forall i :: 0 <= i < |ks| ==> ks[i] in m && Inline(m[ks[i]])
    ensures RenderMembers(ks, m, depth, close)
         == Quote(ks[0]) + (": " + (InlineText(m[ks[0]]) + ("," + (Break(depth) + RenderMembers(ks[1..], m, depth, close)))))
  {
    InlineRender(m[ks[0]], depth, "," + (Break(depth) + RenderMembers(ks[1..], m, depth, close)));
  }

  lemma HeadAssoc(i: string, q: string, c: string, t: string, rest: string)
    ensures i + (q + (c + (t + rest))) == i + q + c + t + rest
  {
  }

  /** A member's line, followed by the lines of the members after it. */
  lemma NextMemberLine(ks: seq<string>, m: map<string, Json>, depth: nat, rest: string)
    requires |ks| > 1
    requires forall i :: 0 <= i < |ks| ==> ks[i] in m && Inline(m[ks[i]])
    requires Indent(depth) + RenderMembers(ks[1..], m, depth, "\n" + rest) == MemberLines(ks[1..], m, depth) + rest
    ensures Indent(depth) + RenderMembers(ks, m, depth, "\n" + rest) == MemberLines(ks, m, depth) + rest
  {
    var head := Indent(depth) + Quote(ks[0]) + ": " + InlineText(m[ks[0]]);
    MemberThenMore(ks, m, depth, "\n" + rest);
    MoreLines(ks, m, depth);
    Assoc4(head, ",", "\n", MemberLines(ks[1..], m, depth), rest);
  }

  lemma MoreLines(ks: seq<string>, m: map<string, Json>, depth: nat)
    requires |ks| > 1
    requires forall i :: 0 <= i < |ks| ==> ks[i] in m && Inline(m[ks[i]])
    ensures MemberLines(ks, m, depth)
         == Indent(depth) + Quote(ks[0]) + ": " + InlineText(m[ks[0]]) + "," + "\n" + MemberLines(ks[1..], m, depth)
  {
  }

  /** The rendered members, started at their indentation, are their lines. */
  lemma {:induction false} MembersAsLines(ks: seq<string>, m: map<string, Json>, depth: nat, rest: string)
    requires ks != []
    requires forall i :: 0 <= i < |ks| ==> ks[i] in m && Inline(m[ks[i]])
    ensures Indent(depth) + RenderMembers(ks, m, depth, "\n" + rest) == MemberLines(ks, m, depth) + rest
    decreases |ks|
  {
    if |ks| == 1 {
      LastMemberLine(ks, m, depth, rest);
    } else {
      MembersAsLines(ks[1..], m, depth, rest);
      NextMemberLine(ks, m, depth, rest);
    }
  }

  /** A non-empty object opens with a brace and a line break, and closes on a line of its own. */
  lemma ObjectFrame(m: map<string, Json>, depth: nat, tail: string)
    requires m != map[]
    ensures RenderObject(m, depth, tail)
         == "{" + ("\n" + (Indent(depth + 1) + RenderMembers(SortedKeys(m), m, depth + 1, "\n" + (Indent(depth) + ("}" + tail)))))
  {
    var ks := SortedKeys(m);
    var close := "\n" + (Indent(depth) + ("}" + tail));
    assert RenderObject(m, depth, tail) == "{" + (Break(depth + 1) + RenderMembers(ks, m, depth + 1, Break(depth) + ("}" + tail)));
    BreakThen(depth, "}" + tail);
    BreakThen(depth + 1, RenderMembers(ks, m, depth + 1, close));
  }

  /** A line break is a newline and the next line's indentation. */
  lemma BreakThen(depth: nat, rest: string)
    ensures Break(depth) + rest == "\n" + (Indent(depth) + rest)
  {
  }

  /**
   * An object whose members all fit on their key's line is written as an
   * opening brace, one line per member in ascending key order, and the
   * closing brace at the object's own indentation.
   */
  lemma FlatObject(m: map<string, Json>, depth: nat, inner: nat, tail: string)
    requires m != map[]
    requires forall k :: k in m ==> Inline(m[k])
    requires inner == depth + 1
    ensures RenderObject(m, depth, tail) == "{\n" + MemberLines(SortedKeys(m), m, inner) + Indent(depth) + "}" + tail
  {
    var ks := SortedKeys(m);
    SortedKeysInline(m);
    MembersAsLines(ks, m, inner, Indent(depth) + ("}" + tail));
    ObjectFrame(m, depth, tail);
    OpenAssoc("{", "\n", MemberLines(ks, m, inner), Indent(depth), "}", tail);
  }

  /** The keys of a non-empty object of inline members, in written order. */
  lemma SortedKeysInline(m: map<string, Json>)
    requires m != map[]
    requires forall k :: k in m ==> Inline(m[k])
    ensures SortedKeys(m) != []
    ensures forall i :: 0 <= i < |SortedKeys(m)| ==> SortedKeys(m)[i] in m && Inline(m[SortedKeys(m)[i]])
  {
    SortedKeysCover(m);
    var k :| k in m;
    assert k in SortedKeys(m);
  }

  lemma OpenAssoc(o: string, n: string, lines: string, i: string, c: string, tail: string)
    requires o == "{" && n == "\n"
    ensures o + (n + (lines + (i + (c + tail)))) == "{\n" + lines + i + c + tail
  {
    assert o + n == "{\n";
  }

  /** A JSON file holding an object whose members all fit on their key's line. */
  lemma FlatFile(m: map<string, Json>)
    requires m != map[]
    requires forall k :: k in m ==> Inline(m[k])
    ensures Render(Obj(m), 0, "\n") == "{\n" + MemberLines(SortedKeys(m), m, 1) + "}\n"
  {
    FlatFileFrame(m);
    CloseAtTop("{\n" + MemberLines(SortedKeys(m), m, 1));
  }

  lemma FlatFileFrame(m: map<string, Json>)
    requires m != map[]
    requires forall k :: k in m ==> Inline(m[k])
    ensures Render(Obj(m), 0, "\n") == "{\n" + MemberLines(SortedKeys(m), m, 1) + Indent(0) + "}" + "\n"
  {
    RenderOfObject(m, 0, "\n");
    FlatObject(m, 0, 1, "\n");
  }

  lemma RenderOfObject(m: map<string, Json>, depth: nat, tail: string)
    ensures Render(Obj(m), depth, tail) == RenderObject(m, depth, tail)
  {
  }

  lemma CloseAtTop(x: string)
    ensures x + Indent(0) + "}" + "\n" == x + "}\n"
  {
    assert Indent(0) == "";
    assert "}" + "\n" == "}\n";
  }

  /** The lines of one, two and four members. */
  lemma OneLine(a: string, va: Json, m: map<string, Json>, depth: nat)
    requires a in m && m[a] == va && Inline(va)
    ensures MemberLines([a], m, depth) == MemberLine(a, va, depth, false)
  {
    assert MemberLines([a], m, depth) == MemberLine(a, va, depth, false) + MemberLines([], m, depth);
  }

  lemma TwoLines(a: string, va: Json, b: string, vb: Json, m: map<string, Json>, depth: nat)
    requires a in m && m[a] == va && Inline(va)
    requires b in m && m[b] == vb && Inline(vb)
    ensures MemberLines([a, b], m, depth) == MemberLine(a, va, depth, true) + MemberLine(b, vb, depth, false)
  {
    assert [a, b][1..] == [b];
    OneLine(b, vb, m, depth);
  }

  lemma ThreeLines(a: string, va: Json, b: string, vb: Json, c: string, vc: Json, m: map<string, Json>, depth: nat)
    requires a in m && m[a] == va && Inline(va)
    requires b in m && m[b] == vb && Inline(vb)
    requires c in m && m[c] == vc && Inline(vc)
    ensures MemberLines([a, b, c], m, depth)
         == MemberLine(a, va, depth, true) + MemberLine(b, vb, depth, true) + MemberLine(c, vc, depth, false)
  {
    assert [a, b, c][1..] == [b, c];
    TwoLines(b, vb, c, vc, m, depth);
  }

  lemma FourLines(a: string, va: Json, b: string, vb: Json, c: string, vc: Json, d: string, vd: Json,
                  m: map<string, Json>, depth: nat)
    requires a in m && m[a] == va && Inline(va)
    requires b in m && m[b] == vb && Inline(vb)
    requires c in m && m[c] == vc && Inline(vc)
    requires d in m && m[d] == vd && Inline(vd)
    ensures MemberLines([a, b, c, d], m, depth)
         == MemberLine(a, va, depth, true) + MemberLine(b, vb, depth, true) + MemberLine(c, vc, depth, true)
          + MemberLine(d, vd, depth, false)
  {
    assert [a, b, c, d][1..] == [b, c, d];
    ThreeLines(b, vb, c, vc, d, vd, m, depth);
  }

  /** An object whose keys are those of an ascending list is written in that list's order. */
  lemma KeysInOrder(m: map<string, Json>, ks: seq<string>)
    requires StrictlyAscending(ks, StringLt)
    requires m.Keys == set k | k in ks
    ensures SortedKeys(m) == ks
  {
    StringLtIsStrictTotalOrder();
    SortedOfAscending(ks, StringLt);
  }

  /** A file holding one inline member. */
  lemma OneMemberFile(a: string, va: Json)
    requires Inline(va)
    ensures Render(Obj(map[a := va]), 0, "\n") == "{\n" + MemberLine(a, va, 1, false) + "}\n"
  {
    var m := map[a := va];
    KeysInOrder(m, [a]);
    FlatFile(m);
    OneLine(a, va, m, 1);
  }

  /** A file whose members, in written order, make up `lines`. */
  lemma LinesFile(m: map<string, Json>, ks: seq<string>, lines: string)
    requires m != map[]
    requires forall k :: k in m ==> Inline(m[k])
    requires SortedKeys(m) == ks
    requires MemberLines(ks, m, 1) == lines
    ensures Render(Obj(m), 0, "\n") == "{\n" + lines + "}\n"
  {
    FlatFile(m);
  }

  /** A file holding two inline members, keys in ascending order. */
  lemma TwoMemberFile(a: string, va: Json, b: string, vb: Json)
    requires StringLt(a, b)
    requires Inline(va) && Inline(vb)
    ensures Render(Obj(map[a := va, b := vb]), 0, "\n")
         == "{\n" + MemberLine(a, va, 1, true) + MemberLine(b, vb, 1, false) + "}\n"
  {
    var m := map[a := va, b := vb];
    var l1, l2 := MemberLine(a, va, 1, true), MemberLine(b, vb, 1, false);
    TwoKeys(m, a, va, b, vb);
    TwoLines(a, va, b, vb, m, 1);
    LinesFile(m, [a, b], l1 + l2);
    Regroup("{\n", l1, l2, "}\n");
  }

  /** Two keys in ascending order are the keys of their object in written order. */
  lemma TwoKeys(m: map<string, Json>, a: string, va: Json, b: string, vb: Json)
    requires m == map[a := va, b := vb]
    requires StringLt(a, b)
    requires Inline(va) && Inline(vb)
    ensures a in m && b in m && m[a] == va && m[b] == vb
    ensures m != map[] && forall k :: k in m ==> Inline(m[k])
    ensures SortedKeys(m) == [a, b]
  {
    StringLtIrreflexive(a);
    assert m.Keys == set k | k in [a, b];
    KeysInOrder(m, [a, b]);
  }

  /** A file holding four inline members, keys in ascending order. */
  lemma FourMemberFile(a: string, va: Json, b: string, vb: Json, c: string, vc: Json, d: string, vd: Json)
    requires StringLt(a, b) && StringLt(b, c) && StringLt(c, d)
    requires Inline(va) && Inline(vb) && Inline(vc) && Inline(vd)
    ensures Render(Obj(map[a := va, b := vb, c := vc, d := vd]), 0, "\n")
         == "{\n" + MemberLine(a, va, 1, true) + MemberLine(b, vb, 1, true) + MemberLine(c, vc, 1, true)
          + MemberLine(d, vd, 1, false) + "}\n"
  {
    var m := map[a := va, b := vb, c := vc, d := vd];
    FourKeys(m, a, va, b, vb, c, vc, d, vd);
    FourInline(m, a, va, b, vb, c, vc, d, vd);
    var l1, l2, l3, l4 := MemberLine(a, va, 1, true), MemberLine(b, vb, 1, true), MemberLine(c, vc, 1, true),
                          MemberLine(d, vd, 1, false);
    FourLines(a, va, b, vb, c, vc, d, vd, m, 1);
    LinesFile(m, [a, b, c, d], l1 + l2 + l3 + l4);
    FourRegroup("{\n", l1, l2, l3, l4, "}\n");
  }

  lemma FourRegroup(o: string, l1: string, l2: string, l3: string, l4: string, c: string)
    ensures o + (l1 + l2 + l3 + l4) + c == o + l1 + l2 + l3 + l4 + c
  {
  }

  lemma FourInline(m: map<string, Json>, a: string, va: Json, b: string, vb: Json, c: string, vc: Json, d: string, vd: Json)
    requires m == map[a := va, b := vb, c := vc, d := vd]
    requires Inline(va) && Inline(vb) && Inline(vc) && Inline(vd)
    ensures m != map[] && forall k :: k in m ==> Inline(m[k])
  {
    assert d in m;
  }

  /** Four keys in ascending order are the keys of their object in written order. */
  lemma FourKeys(m: map<string, Json>, a: string, va: Json, b: string, vb: Json, c: string, vc: Json, d: string, vd: Json)
    requires m == map[a := va, b := vb, c := vc, d := vd]
    requires StringLt(a, b) && StringLt(b, c) && StringLt(c, d)
    ensures a in m && b in m && c in m && d in m
    ensures m[a] == va && m[b] == vb && m[c] == vc && m[d] == vd
    ensures SortedKeys(m) == [a, b, c, d]
  {
    var ks := [a, b, c, d];
    FourAscending(a, b, c, d);
    FourKeySet(a, b, c, d);
    KeysInOrder(m, ks);
  }

  lemma FourKeySet(a: string, b: string, c: string, d: string)
    ensures (set k | k in [a, b, c, d]) == {a, b, c, d}
  {
  }

  lemma FourAscending(a: string, b: string, c: string, d: string)
    requires StringLt(a, b) && StringLt(b, c) && StringLt(c, d)
    ensures StrictlyAscending([a, b, c, d], StringLt)
    ensures a != b && a != c && a != d && b != c && b != d && c != d
  {
    StringLtTransitive(a, b, c);
    StringLtTransitive(b, c, d);
    StringLtTransitive(a, c, d);
    StringLtIrreflexive(a);
    StringLtIrreflexive(b);
    StringLtIrreflexive(c);
  }

  lemma Regroup(w: string, x: string, y: string, z: string)
    ensures w + (x + y) + z == w + x + y + z
  {
  }
}
