/** The Python string primitives the voice agent relies on, with Python's
    semantics for a one-character separator: `str.split`, `str.join` and
    `str.startswith`. */
module Strings {

  /** Position of the first occurrence of `c` in `s` (`s.index(c)`). */
  function IndexOf(s: string, c: char): (i: nat)
    requires c in s
    ensures i < |s| && s[i] == c
    ensures c !in s[..i]
  {
    if s[0] == c then 0
    else
      assert c in s[1..];
      var j := IndexOf(s[1..], c);
      assert s[..1 + j] == [s[0]] + s[1..][..j];
      1 + j
  }

  /** `s.split(c)` in Python: the pieces between consecutive occurrences of
      `c`, so `"".split("_") == [""]` and `"a_".split("_") == ["a", ""]`. */
  function Split(s: string, c: char): (parts: seq<string>)
    ensures |parts| >= 1
    ensures forall k :: 0 <= k < |parts| ==> c !in parts[k]
    ensures c in s <==> |parts| >= 2
    decreases |s|
  {
    if c in s then
      var i := IndexOf(s, c);
      [s[..i]] + Split(s[i + 1..], c)
    else
      [s]
  }

  /** `sep.join(parts)` in Python. */
  function Join(parts: seq<string>, sep: string): string
  {
    if |parts| == 0 then ""
    else if |parts| == 1 then parts[0]
    else parts[0] + sep + Join(parts[1..], sep)
  }

  /** `s.startswith(prefix)` in Python. */
  predicate StartsWith(s: string, prefix: string)
  {
    |prefix| <= |s| && s[..|prefix|] == prefix
  }

  /** `s.endswith(suffix)` in Python. */
  predicate EndsWith(s: string, suffix: string)
  {
    |suffix| <= |s| && s[|s| - |suffix|..] == suffix
  }

  /** The first occurrence of `c` after a `c`-free prefix is right after it. */
  lemma {:induction false} IndexOfAfterPrefix(p: string, c: char, t: string)
    requires c !in p
    ensures c in p + [c] + t
    ensures IndexOf(p + [c] + t, c) == |p|
  {
    var s := p + [c] + t;
    assert s[|p|] == c;
    if |p| > 0 {
      assert s[1..] == p[1..] + [c] + t;
      IndexOfAfterPrefix(p[1..], c, t);
    }
  }

  /** Joining the pieces of a split with the separator restores the string. */
  lemma {:induction false} JoinSplit(s: string, c: char)
    ensures Join(Split(s, c), [c]) == s
    decreases |s|
  {
    if c in s {
      var i := IndexOf(s, c);
      JoinSplit(s[i + 1..], c);
      assert s == s[..i] + [c] + s[i + 1..];
    }
  }

  /** A separator-free piece followed by the separator splits off as the
      first piece. */
  lemma SplitAfterPiece(p: string, c: char, t: string)
    requires c !in p
    ensures Split(p + [c] + t, c) == [p] + Split(t, c)
  {
    var s := p + [c] + t;
    IndexOfAfterPrefix(p, c, t);
    assert s[..|p|] == p;
    assert s[|p| + 1..] == t;
  }

  /** Splitting a join of separator-free pieces recovers the pieces. */
  lemma {:induction false} SplitJoin(parts: seq<string>, c: char)
    requires |parts| >= 1
    requires forall k :: 0 <= k < |parts| ==> c !in parts[k]
    ensures Split(Join(parts, [c]), c) == parts
  {
    if |parts| > 1 {
      SplitAfterPiece(parts[0], c, Join(parts[1..], [c]));
      SplitJoin(parts[1..], c);
      assert parts == [parts[0]] + parts[1..];
    }
  }

  /** The first piece of a split is a separator-free prefix that ends at the
      end of the string or just before a separator. */
  lemma SplitHead(s: string, c: char)
    ensures StartsWith(s, Split(s, c)[0])
    ensures |Split(s, c)[0]| == |s| || s[|Split(s, c)[0]|] == c
  {
  }

  /** Joining one more piece appends the separator and the piece, unless
      nothing was there before. */
  lemma {:induction false} JoinAppend(parts: seq<string>, last: string, sep: string)
    ensures Join(parts + [last], sep)
         == if |parts| == 0 then last else Join(parts, sep) + sep + last
  {
    if |parts| > 1 {
      assert (parts + [last])[1..] == parts[1..] + [last];
      JoinAppend(parts[1..], last, sep);
    }
  }

  /** Starting with `p + q` implies starting with `p`. */
  lemma StartsWithShorter(s: string, p: string, q: string)
    ensures StartsWith(s, p + q) ==> StartsWith(s, p)
  {
    if StartsWith(s, p + q) {
      assert s[..|p|] == (p + q)[..|p|];
    }
  }

  /** A join starts with its first piece. */
  lemma {:induction false} JoinStartsWithHead(parts: seq<string>, sep: string)
    requires |parts| >= 1
    ensures StartsWith(Join(parts, sep), parts[0])
  {
  }
}
