/**
 * The string operations the monitor relies on, written as Python defines them:
 * `s.split(c)`, `sep.join(parts)`, `s.replace(c, rep)` and the slice `s[:n]`.
 */
module Text {

  import opened Wrappers

  /** Number of occurrences of `c` in `s`. */
  function Count(s: string, c: char): nat
  {
    if |s| == 0 then 0 else (if s[0] == c then 1 else 0) + Count(s[1..], c)
  }

  /** Python's `s.split(c)` for a one-character separator: never empty, and no part holds `c`. */
  function Split(s: string, c: char): (parts: seq<string>)
    ensures |parts| == Count(s, c) + 1
    ensures forall i :: 0 <= i < |parts| ==> c !in parts[i]
  {
    if |s| == 0 then [""]
    else
      var rest := Split(s[1..], c);
      if s[0] == c then [""] + rest
      else [[s[0]] + rest[0]] + rest[1..]
  }

  /** Python's `sep.join(parts)`. */
  function Join(parts: seq<string>, sep: string): string
  {
    if |parts| == 0 then ""
    else if |parts| == 1 then parts[0]
    else parts[0] + sep + Join(parts[1..], sep)
  }

  /** Python's `s.replace(c, rep)` for a one-character pattern. */
  function Replace(s: string, c: char, rep: string): (r: string)
    ensures c !in rep ==> c !in r
    ensures |r| == |s| - Count(s, c) + Count(s, c) * |rep|
  {
    if |s| == 0 then ""
    else (if s[0] == c then rep else [s[0]]) + Replace(s[1..], c, rep)
  }

  /** Python's slice `s[:n]`: the first `n` characters, or all of `s` when it is shorter. */
  function Take(s: string, n: nat): (r: string)
    ensures r <= s
    ensures |r| == if |s| < n then |s| else n
  {
    if |s| <= n then s else s[..n]
  }

  /** Python's `s.split('\n')[0]`: the first line of `s`. */
  function FirstLine(s: string): (line: string)
    ensures '\n' !in line
    ensures line <= s
    ensures |line| < |s| ==> s[|line|] == '\n'
  {
    SplitHead(s, '\n');
    Split(s, '\n')[0]
  }

  /** `s` with `suffix` removed from its end, when it ends with it. */
  function DropSuffix(s: string, suffix: string): (r: string)
    ensures r + suffix == s || (r == s && !(|suffix| <= |s| && s[|s| - |suffix|..] == suffix))
  {
    if |suffix| <= |s| && s[|s| - |suffix|..] == suffix then s[..|s| - |suffix|] else s
  }

  /** `s` with `prefix` removed from its start, when it starts with it. */
  function DropPrefix(s: string, prefix: string): (r: Option<string>)
    ensures r.Some? <==> prefix <= s
    ensures r.Some? ==> prefix + r.value == s
  {
    if prefix <= s then Some(s[|prefix|..]) else None
  }

  /** The text between `head` and `tail`, when `s` starts with `head` and ends with `tail`. */
  function Unwrap(s: string, head: string, tail: string): Option<string>
  {
    match DropPrefix(s, head)
    case None => None
    case Some(rest) =>
      if |tail| <= |rest| && rest[|rest| - |tail|..] == tail then Some(rest[..|rest| - |tail|]) else None
  }

  /** What was put between `head` and `tail` is read back. */
  lemma UnwrapWrapped(head: string, x: string, tail: string)
    ensures Unwrap(head + x + tail, head, tail) == Some(x)
  {
    var s := head + x + tail;
    assert head <= s && s[|head|..] == x + tail;
    assert DropPrefix(s, head) == Some(x + tail);
    assert (x + tail)[|x|..] == tail;
    assert (x + tail)[..|x|] == x;
  }

  /** The first part of a split is the longest prefix free of the separator. */
  lemma {:induction false} SplitHead(s: string, c: char)
    ensures Split(s, c)[0] <= s
    ensures |Split(s, c)[0]| < |s| ==> s[|Split(s, c)[0]|] == c
  {
    if |s| > 0 && s[0] != c {
      SplitHead(s[1..], c);
    }
  }

  /** Joining a part that gained a leading character. */
  lemma JoinConsHead(a: char, parts: seq<string>, sep: string)
    requires |parts| >= 1
    ensures Join([[a] + parts[0]] + parts[1..], sep) == [a] + Join(parts, sep)
  {
    var p := [[a] + parts[0]] + parts[1..];
    if |parts| > 1 {
      assert p[1..] == parts[1..];
    }
  }

  /** Replacing each `c` by `rep` is splitting on `c` and joining with `rep`. */
  lemma {:induction false} ReplaceIsSplitJoin(s: string, c: char, rep: string)
    ensures Replace(s, c, rep) == Join(Split(s, c), rep)
  {
    if |s| > 0 {
      ReplaceIsSplitJoin(s[1..], c, rep);
      var rest := Split(s[1..], c);
      if s[0] == c {
        assert ([""] + rest)[1..] == rest;
      } else {
        JoinConsHead(s[0], rest, rep);
      }
    }
  }

  /** Replacing `c` by itself changes nothing. */
  lemma {:induction false} ReplaceSelf(s: string, c: char)
    ensures Replace(s, c, [c]) == s
  {
    if |s| > 0 {
      ReplaceSelf(s[1..], c);
      assert [s[0]] + s[1..] == s;
    }
  }

  /** Joining the parts of a split with the separator gives the string back. */
  lemma JoinSplit(s: string, c: char)
    ensures Join(Split(s, c), [c]) == s
  {
    ReplaceIsSplitJoin(s, c, [c]);
    ReplaceSelf(s, c);
  }

  /** A string without the separator splits into itself alone. */
  lemma {:induction false} SplitNoSeparator(x: string, c: char)
    requires c !in x
    ensures Split(x, c) == [x]
  {
    if |x| > 0 {
      SplitNoSeparator(x[1..], c);
      assert [x[0]] + x[1..] == x;
    }
  }

  /** A separator-free prefix followed by the separator splits off as the first part. */
  lemma {:induction false} SplitAfter(x: string, c: char, rest: string)
    requires c !in x
    ensures Split(x + [c] + rest, c) == [x] + Split(rest, c)
  {
    var s := x + [c] + rest;
    if |x| == 0 {
      assert s[1..] == rest;
    } else {
      assert s[1..] == x[1..] + [c] + rest;
      SplitAfter(x[1..], c, rest);
      assert [x[0]] + x[1..] == x;
    }
  }

  /** Splitting a join of separator-free parts gives the parts back. */
  lemma {:induction false} SplitJoin(parts: seq<string>, c: char)
    requires |parts| >= 1
    requires forall i :: 0 <= i < |parts| ==> c !in parts[i]
    ensures Split(Join(parts, [c]), c) == parts
  {
    if |parts| == 1 {
      SplitNoSeparator(parts[0], c);
    } else {
      SplitJoin(parts[1..], c);
      SplitAfter(parts[0], c, Join(parts[1..], [c]));
      assert [parts[0]] + parts[1..] == parts;
    }
  }
}
