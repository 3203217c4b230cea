/** The Python `str` operations the reports use, on strings as sequences of characters. */
module Text {
  import Seqs

  /** `s.split(c)` for a one-character separator: the pieces between the separators, at least one. */
  function Split(s: string, c: char): (parts: seq<string>)
    ensures |parts| >= 1
    ensures forall i :: 0 <= i < |parts| ==> c !in parts[i]
    ensures c !in s ==> parts == [s]
    ensures c in s ==> |parts| >= 2
  {
    if |s| == 0 then [""]
    else
      var rest := Split(s[1..], c);
      if s[0] == c then [""] + rest
      else
        assert c !in s ==> c !in s[1..] && [s[0]] + s[1..] == s;
        [[s[0]] + rest[0]] + rest[1..]
  }

  /** `sep.join(parts)`. */
  function Join(parts: seq<string>, sep: string): string
  {
    if |parts| == 0 then ""
    else if |parts| == 1 then parts[0]
    else parts[0] + sep + Join(parts[1..], sep)
  }

  /** A join is as long as its pieces plus one separator between each two, and starts with the first piece. */
  lemma {:induction false} JoinLength(parts: seq<string>, sep: string)
    requires |parts| >= 1
    ensures |Join(parts, sep)| == Seqs.TotalLength(parts) + |sep| * (|parts| - 1)
    ensures Join(parts, sep)[..|parts[0]|] == parts[0]
  {
    if |parts| > 1 {
      JoinLength(parts[1..], sep);
    }
  }

  /** Joining the pieces of a split with the separator gives back the original string. */
  lemma {:induction false} JoinSplit(s: string, c: char)
    ensures Join(Split(s, c), [c]) == s
  {
    if |s| > 0 {
      JoinSplit(s[1..], c);
      var rest := Split(s[1..], c);
      if s[0] == c {
        assert ([""] + rest)[1..] == rest;
      } else if |rest| > 1 {
        assert ([[s[0]] + rest[0]] + rest[1..])[1..] == rest[1..];
      }
    }
  }

  /** A suffix of `b` no longer than `b` is also that suffix of `a + b`. */
  lemma {:induction false} SuffixOfAppend(a: string, b: string, n: nat)
    requires n <= |b|
    ensures (a + b)[|a + b| - n..] == b[|b| - n..]
  {
  }

  /** A join of two pieces or more is the join of all but the last, the separator, and the last piece. */
  lemma {:induction false} JoinSnoc(parts: seq<string>, sep: string)
    requires |parts| >= 2
    ensures Join(parts, sep) == Join(parts[..|parts| - 1], sep) + (sep + parts[|parts| - 1])
  {
    var last := parts[|parts| - 1];
    var init := parts[..|parts| - 1];
    if |parts| == 2 {
      assert init == [parts[0]];
      AppendAssoc(parts[0], sep, last);
    } else {
      var tail := parts[1..];
      JoinSnoc(tail, sep);
      assert tail[..|tail| - 1] == init[1..];
      assert tail[|tail| - 1] == last;
      var rest := Join(init[1..], sep);
      assert Join(parts, sep) == (parts[0] + sep) + (rest + (sep + last));
      AppendAssoc(parts[0] + sep, rest, sep + last);
      assert Join(init, sep) == (parts[0] + sep) + rest;
    }
  }

  /** A join ends with its last piece, and with two pieces or more, with the separator and then that piece. */
  lemma {:induction false} JoinEndsWithLast(parts: seq<string>, sep: string)
    requires |parts| >= 1
    ensures
      var j := Join(parts, sep);
      var r := parts[|parts| - 1];
      && |r| <= |j| && j[|j| - |r|..] == r
      && (|parts| >= 2 ==> |sep| + |r| <= |j| && j[|j| - (|sep| + |r|)..] == sep + r)
  {
    if |parts| >= 2 {
      var r := parts[|parts| - 1];
      var front := Join(parts[..|parts| - 1], sep);
      JoinSnoc(parts, sep);
      SuffixOfAppend(front, sep + r, |sep| + |r|);
      SuffixOfAppend(front, sep + r, |r|);
      assert (sep + r)[|sep + r| - |r|..] == r;
    }
  }

  /** `s.split(c)[-1]` is the suffix of `s` after its last `c`, or all of `s` when there is none. */
  lemma {:induction false} LastPieceIsSuffix(s: string, c: char)
    ensures
      var parts := Split(s, c);
      var r := parts[|parts| - 1];
      && |r| <= |s| && s[|s| - |r|..] == r
      && (c !in s ==> r == s)
      && (c in s ==> |r| < |s| && s[|s| - |r| - 1] == c)
  {
    var parts := Split(s, c);
    JoinSplit(s, c);
    JoinEndsWithLast(parts, [c]);
    if c in s {
      var r := parts[|parts| - 1];
      assert |parts| >= 2;
      assert s[|s| - |r| - 1] == s[|s| - (1 + |r|)..][0] == ([c] + r)[0];
    }
  }

  lemma {:induction false} AppendAssoc(a: string, b: string, d: string)
    ensures a + (b + d) == (a + b) + d
  {
  }

  /** Splitting a piece free of the separator glued to the front of `t` extends the first piece of `t`. */
  lemma {:induction false} SplitPrefix(p: string, t: string, c: char)
    requires c !in p
    ensures Split(p + t, c) == [p + Split(t, c)[0]] + Split(t, c)[1..]
  {
    var rest := Split(t, c);
    if |p| > 0 {
      var s := p + t;
      assert s[0] == p[0] && s[1..] == p[1..] + t;
      SplitPrefix(p[1..], t, c);
      assert Split(s, c) == [[p[0]] + Split(s[1..], c)[0]] + Split(s[1..], c)[1..];
      assert p == [p[0]] + p[1..];
      AppendAssoc([p[0]], p[1..], rest[0]);
    } else {
      assert p + t == t && p + rest[0] == rest[0];
      assert rest == [rest[0]] + rest[1..];
    }
  }

  /** Splitting a join of separator-free pieces gives back the pieces. */
  lemma {:induction false} SplitJoin(parts: seq<string>, c: char)
    requires |parts| >= 1
    requires forall i :: 0 <= i < |parts| ==> c !in parts[i]
    ensures Split(Join(parts, [c]), c) == parts
  {
    if |parts| == 1 {
      SplitPrefix(parts[0], "", c);
      assert parts[0] + "" == parts[0];
    } else {
      var tail := Join(parts[1..], [c]);
      var t := [c] + tail;
      SplitJoin(parts[1..], c);
      assert Join(parts, [c]) == parts[0] + t;
      assert t[0] == c && t[1..] == tail;
      assert Split(t, c) == [""] + parts[1..];
      SplitPrefix(parts[0], t, c);
      assert parts[0] + "" == parts[0];
      assert [parts[0]] + parts[1..] == parts;
    }
  }

  /** `s.lstrip(c)`. */
  function TrimLeft(s: string, c: char): (r: string)
    ensures |r| <= |s| && r == s[|s| - |r|..]
    ensures |r| > 0 ==> r[0] != c
    ensures forall k :: 0 <= k < |s| - |r| ==> s[k] == c
  {
    if |s| > 0 && s[0] == c then TrimLeft(s[1..], c) else s
  }

  /** `s.rstrip(c)`. */
  function TrimRight(s: string, c: char): (r: string)
    ensures |r| <= |s| && r == s[..|r|]
    ensures |r| > 0 ==> r[|r| - 1] != c
    ensures forall k :: |r| <= k < |s| ==> s[k] == c
  {
    if |s| > 0 && s[|s| - 1] == c then TrimRight(s[..|s| - 1], c) else s
  }

  /** `s.strip(c)`: leading and trailing copies of `c` removed. */
  function Strip(s: string, c: char): string
  {
    TrimRight(TrimLeft(s, c), c)
  }

  /** `s.replace(a, b)` for single characters. */
  function Replace(s: string, a: char, b: char): (r: string)
    ensures |r| == |s|
    ensures forall k :: 0 <= k < |s| && s[k] != a ==> r[k] == s[k]
    ensures forall k :: 0 <= k < |s| && s[k] == a ==> r[k] == b
  {
    seq(|s|, k requires 0 <= k < |s| => if s[k] == a then b else s[k])
  }

  /** `s[:n]`: the first `n` characters, or all of `s` when it is shorter. */
  function Prefix(s: string, n: nat): (r: string)
    ensures |r| <= n && |r| <= |s|
    ensures r == s[..|r|]
    ensures |s| <= n ==> r == s
    ensures |s| > n ==> |r| == n
  {
    if |s| <= n then s else s[..n]
  }
}
