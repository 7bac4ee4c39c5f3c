/**
 * File paths as sequences of names, and the slash-separated text by which a
 * function's source file is keyed relative to the functions directory
 * ("nested/test.js" names the file `test.js` in the directory `nested`).
 */
module Paths {

  /** A path: the names of the directories from the root down, then the file's own name. */
  type Path = seq<string>

  /** The parts of `s` between slashes, in order; a string without a slash is one part. */
  function Split(s: string): (parts: seq<string>)
    ensures |parts| >= 1
    ensures forall i :: 0 <= i < |parts| ==> '/' !in parts[i]
  {
    if s == [] then [""]
    else if s[0] == '/' then [""] + Split(s[1..])
    else
      var rest := Split(s[1..]);
      [[s[0]] + rest[0]] + rest[1..]
  }

  /** The parts joined with a slash between each two. */
  function Join(parts: seq<string>): string
  {
    if parts == [] then ""
    else if |parts| == 1 then parts[0]
    else parts[0] + "/" + Join(parts[1..])
  }

  /** Joining the parts of a string gives the string back, so `Split` never maps two keys to one path. */
  lemma {:induction false} JoinSplit(s: string)
    ensures Join(Split(s)) == s
  {
    if s == [] {
    } else if s[0] == '/' {
      JoinSplit(s[1..]);
      assert s == "/" + s[1..];
    } else {
      JoinSplit(s[1..]);
      var rest := Split(s[1..]);
      if |rest| == 1 {
        assert s == [s[0]] + rest[0];
      } else {
        assert Join(rest) == rest[0] + "/" + Join(rest[1..]);
        assert s == [s[0]] + (rest[0] + "/" + Join(rest[1..]));
      }
    }
  }

  lemma SplitInjective(a: string, b: string)
    requires Split(a) == Split(b)
    ensures a == b
  {
    JoinSplit(a);
    JoinSplit(b);
  }

  /** A slash-free prefix joins the first part of what follows it. */
  lemma {:induction false} SplitSlashFreePrefix(a: string, s: string)
    requires '/' !in a
    ensures Split(a + s) == [a + Split(s)[0]] + Split(s)[1..]
  {
    if a == [] {
      assert a + s == s;
      assert a + Split(s)[0] == Split(s)[0];
      assert Split(s) == [Split(s)[0]] + Split(s)[1..];
    } else {
      assert (a + s)[1..] == a[1..] + s;
      assert a[0] != '/';
      SplitSlashFreePrefix(a[1..], s);
      assert [a[0]] + (a[1..] + Split(s)[0]) == a + Split(s)[0];
    }
  }

  /** Splitting joined slash-free parts gives the parts back. */
  lemma {:induction false} SplitJoin(parts: seq<string>)
    requires parts != []
    requires forall i :: 0 <= i < |parts| ==> '/' !in parts[i]
    ensures Split(Join(parts)) == parts
  {
    if |parts| == 1 {
      SplitSlashFreePrefix(parts[0], "");
      assert parts[0] + "" == parts[0];
    } else {
      SplitJoin(parts[1..]);
      var tail := "/" + Join(parts[1..]);
      assert Join(parts) == parts[0] + tail;
      SplitSlashFreePrefix(parts[0], tail);
      assert tail[1..] == Join(parts[1..]);
      assert Split(tail) == [""] + parts[1..];
      assert parts[0] + "" == parts[0];
      assert parts == [parts[0]] + parts[1..];
    }
  }

  /** A name without a slash is one part. */
  lemma SplitName(s: string)
    requires '/' !in s
    ensures Split(s) == [s]
  {
    SplitSlashFreePrefix(s, "");
    assert s + "" == s;
  }
}
