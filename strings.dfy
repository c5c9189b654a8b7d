/**
 * The few Python `str` operations the bot relies on, with Python's semantics:
 * `s.split(sep)` for a one-character separator, `sep.join(parts)`,
 * `s.replace(pat, rep)`, `sub in s` and `str(n)` for an integer `n`.
 */
module Strings {
  import Sequences


  /** `s.startswith(pat)`, compared one character at a time. */
  predicate StartsWith(s: string, pat: string)
    decreases |pat|
  {
    |pat| == 0 || (|s| > 0 && s[0] == pat[0] && StartsWith(s[1..], pat[1..]))
  }

  /** `s` starts with `pat` exactly when its first `|pat|` characters are `pat`. */
  lemma {:induction false} StartsWithSlice(s: string, pat: string)
    ensures StartsWith(s, pat) <==> |pat| <= |s| && s[..|pat|] == pat
    decreases |pat|
  {
    if |pat| > 0 && |s| > 0 {
      StartsWithSlice(s[1..], pat[1..]);
      if |pat| <= |s| {
        assert s[..|pat|] == [s[0]] + s[1..][..|pat| - 1];
        assert pat == [pat[0]] + pat[1..];
      }
    }
  }

  /** `sub in s`: `sub` occurs somewhere in `s`. */
  predicate Contains(s: string, sub: string)
    decreases |s|
  {
    StartsWith(s, sub) || (|s| > 0 && Contains(s[1..], sub))
  }

  /** Index of the first occurrence of `c` in `s`. */
  function IndexOf(s: string, c: char): (i: nat)
    requires c in s
    ensures i < |s| && s[i] == c && c !in s[..i]
  {
    if s[0] == c then 0 else 1 + IndexOf(s[1..], c)
  }

  /** `s.split(sep)` for a one-character separator: the pieces between separators, never an empty list. */
  function Split(s: string, sep: char): (pieces: seq<string>)
    ensures |pieces| >= 1
    ensures |pieces| >= 2 <==> sep in s
    ensures forall k :: 0 <= k < |pieces| ==> sep !in pieces[k]
    decreases |s|
  {
    if sep !in s then [s]
    else
      var i := IndexOf(s, sep);
      [s[..i]] + Split(s[i + 1..], sep)
  }

  /** `sep.join(parts)`. */
  function Join(parts: seq<string>, sep: string): (s: string)
    ensures |parts| == 0 ==> s == ""
    ensures |parts| > 0 ==> parts[0] <= s
  {
    if |parts| == 0 then ""
    else if |parts| == 1 then parts[0]
    else parts[0] + sep + Join(parts[1..], sep)
  }

  /** Joining two parts puts the separator between them. */
  lemma JoinPair(x: string, y: string, sep: string)
    ensures Join([x, y], sep) == x + sep + y
  {
    assert [x, y][1..] == [y];
  }

  /** Joining the pieces of a split with the same separator gives back the string. */
  lemma {:induction false} JoinSplit(s: string, sep: char)
    ensures Join(Split(s, sep), [sep]) == s
    decreases |s|
  {
    if sep in s {
      var i := IndexOf(s, sep);
      JoinSplit(s[i + 1..], sep);
      JoinCons(s[..i], Split(s[i + 1..], sep), [sep]);
      SplitAround(s, i);
    }
  }

  /** Joining a list of at least two parts puts the separator after the first. */
  lemma JoinCons(x: string, tail: seq<string>, sep: string)
    requires |tail| >= 1
    ensures Join([x] + tail, sep) == x + sep + Join(tail, sep)
  {
    assert ([x] + tail)[1..] == tail;
  }

  lemma SplitAround(s: string, i: nat)
    requires i < |s|
    ensures s == s[..i] + [s[i]] + s[i + 1..]
  {
  }

  /** Splitting a join of separator-free pieces gives back the pieces. */
  lemma {:induction false} SplitJoin(parts: seq<string>, sep: char)
    requires |parts| >= 1
    requires forall k :: 0 <= k < |parts| ==> sep !in parts[k]
    ensures Split(Join(parts, [sep]), sep) == parts
    decreases |parts|
  {
    if |parts| > 1 {
      var rest := Join(parts[1..], [sep]);
      assert Join(parts, [sep]) == parts[0] + [sep] + rest;
      SplitAfterPrefix(parts[0], sep, rest);
      SplitJoin(parts[1..], sep);
      assert parts == [parts[0]] + parts[1..];
    }
  }

  /** A separator-free piece followed by the separator is split off as the first piece. */
  lemma SplitAfterPrefix(a: string, c: char, b: string)
    requires c !in a
    ensures Split(a + [c] + b, c) == [a] + Split(b, c)
  {
    var s := a + [c] + b;
    assert s[|a|] == c;
    IndexOfAfterPrefix(a, c, b);
    assert s[..|a|] == a;
    assert s[|a| + 1..] == b;
  }

  lemma IndexOfAfterPrefix(a: string, c: char, b: string)
    requires c !in a
    ensures IndexOf(a + [c] + b, c) == |a|
  {
    var s := a + [c] + b;
    assert s[..|a|] == a;
    assert s[|a|] == c;
  }

  /**
   * `s.replace(pat, rep)`: every non-overlapping occurrence of `pat`, scanned from the left,
   * is replaced by `rep`; the inserted text is not scanned again.
   */
  function Replace(s: string, pat: string, rep: string): (r: string)
    requires |pat| > 0
    ensures |rep| == |pat| ==> |r| == |s|
    ensures |s| < |pat| ==> r == s
    decreases |s|
  {
    if |s| < |pat| then s
    else if StartsWith(s, pat) then rep + Replace(s[|pat|..], pat, rep)
    else [s[0]] + Replace(s[1..], pat, rep)
  }

  /** Replacing a pattern that does not occur changes nothing. */
  lemma {:induction false} ReplaceAbsent(s: string, pat: string, rep: string)
    requires |pat| > 0 && !Contains(s, pat)
    ensures Replace(s, pat, rep) == s
    decreases |s|
  {
    if |s| >= |pat| {
      ReplaceAbsent(s[1..], pat, rep);
      assert [s[0]] + s[1..] == s;
    }
  }

  /** `pat` occurs in `s` starting at position `k`. */
  predicate MatchesAt(s: string, pat: string, k: nat)
  {
    k + |pat| <= |s| && StartsWith(s[k..], pat)
  }

  /** An occurrence at a known position is an occurrence. */
  lemma {:induction false} MatchesAtContains(s: string, sub: string, k: nat)
    requires MatchesAt(s, sub, k)
    ensures Contains(s, sub)
    decreases k
  {
    if k == 0 {
      assert s[0..] == s;
    } else {
      MatchesAtTail(s, sub, k - 1);
      MatchesAtContains(s[1..], sub, k - 1);
    }
  }

  /** Whatever contains `a + m + b` contains `m`. */
  lemma {:induction false} ContainsMiddle(s: string, a: string, m: string, b: string)
    requires Contains(s, a + m + b)
    ensures Contains(s, m)
    decreases |s|
  {
    var whole := a + m + b;
    if StartsWith(s, whole) {
      StartsWithSlice(s, whole);
      StartsWithSlice(s[|a|..], m);
      assert s[|a|..][..|m|] == whole[|a|..|a| + |m|] == m;
      MatchesAtContains(s, m, |a|);
    } else {
      ContainsMiddle(s[1..], a, m, b);
    }
  }

  /** A string lacking one of the characters of `sub` does not contain `sub`. */
  lemma {:induction false} AbsentCharNotContained(s: string, sub: string, c: char)
    requires c in sub && c !in s
    ensures !Contains(s, sub)
    decreases |s|
  {
    StartsWithSlice(s, sub);
    if |sub| <= |s| {
      assert c !in s[..|sub|];
    }
    if |s| > 0 {
      AbsentCharNotContained(s[1..], sub, c);
    }
  }

  /** `pat` occurs at no position of `s` before `n`. */
  predicate NoMatchBefore(s: string, pat: string, n: nat)
  {
    forall k: nat :: k < n ==> !MatchesAt(s, pat, k)
  }

  /** `pat` starts nowhere before `n` when, at each such start, its `j`-th character differs. */
  lemma NoMatchBeforeByChar(s: string, pat: string, n: nat, j: nat)
    requires j < |pat|
    requires forall i :: j <= i < n + j && i < |s| ==> s[i] != pat[j]
    ensures NoMatchBefore(s, pat, n)
  {
    forall k: nat | k < n ensures !MatchesAt(s, pat, k) {
      if k + |pat| <= |s| {
        StartsWithSlice(s[k..], pat);
        assert s[k..][j] == s[k + j];
      }
    }
  }

  /**
   * A prefix in which `pat` starts nowhere is copied unchanged, and the occurrence right
   * after it is the first one replaced.
   */
  lemma ReplaceAfterPrefix(a: string, pat: string, rep: string, b: string)
    requires |pat| > 0
    requires NoMatchBefore(a + pat + b, pat, |a|)
    ensures Replace(a + pat + b, pat, rep) == a + rep + Replace(b, pat, rep)
  {
    var s := a + pat + b;
    assert s[|a|..][..|pat|] == pat;
    StartsWithSlice(s[|a|..], pat);
    assert MatchesAt(s, pat, |a|);
    NoMatchBeforePrefix(s, pat, |a|);
    ReplaceFirstAt(s, pat, rep, |a|);
    assert s[..|a|] == a;
    assert s[|a| + |pat|..] == b;
  }

  /**
   * A single occurrence of `pat` in `a + pat + b` is replaced, the rest copied: earlier
   * starts are ruled out by the `j`-th character of `pat`, later ones by a character `c` of
   * `pat` that `b` lacks.
   */
  lemma ReplaceSingleOccurrence(a: string, pat: string, rep: string, b: string, j: nat, c: char)
    requires j < |pat| && c in pat && c !in b
    requires forall i :: j <= i < |a| + j && i < |a + pat + b| ==> (a + pat + b)[i] != pat[j]
    ensures Replace(a + pat + b, pat, rep) == a + rep + b
  {
    NoMatchBeforeByChar(a + pat + b, pat, |a|, j);
    ReplaceAfterPrefix(a, pat, rep, b);
    AbsentCharNotContained(b, pat, c);
    ReplaceAbsent(b, pat, rep);
  }

  /** `pat` starts at none of the first `n` positions of `s`, peeled one character at a time. */
  predicate NoMatchPrefix(s: string, pat: string, n: nat)
    decreases n
  {
    n == 0 || (|s| > 0 && !MatchesAt(s, pat, 0) && NoMatchPrefix(s[1..], pat, n - 1))
  }

  lemma {:induction false} NoMatchBeforePrefix(s: string, pat: string, n: nat)
    requires n <= |s| && NoMatchBefore(s, pat, n)
    ensures NoMatchPrefix(s, pat, n)
    decreases n
  {
    if n > 0 {
      NoMatchBeforeTail(s, pat, n - 1);
      NoMatchBeforePrefix(s[1..], pat, n - 1);
    }
  }

  /** The first occurrence of `pat`, at `n`, is the first one replaced. */
  lemma {:induction false} ReplaceFirstAt(s: string, pat: string, rep: string, n: nat)
    requires |pat| > 0 && MatchesAt(s, pat, n) && NoMatchPrefix(s, pat, n)
    ensures Replace(s, pat, rep) == s[..n] + rep + Replace(s[n + |pat|..], pat, rep)
    decreases n, 1
  {
    if n == 0 {
      ReplaceAtStart(s, pat, rep);
    } else {
      ReplaceFirstAtStep(s, pat, rep, n);
    }
  }

  /** The inductive step of `ReplaceFirstAt`: the tail of `s` first, then its first character. */
  lemma {:induction false} ReplaceFirstAtStep(s: string, pat: string, rep: string, n: nat)
    requires |pat| > 0 && 0 < n && MatchesAt(s, pat, n) && NoMatchPrefix(s, pat, n)
    ensures Replace(s, pat, rep) == s[..n] + rep + Replace(s[n + |pat|..], pat, rep)
    decreases n, 0
  {
    assert !MatchesAt(s, pat, 0) && NoMatchPrefix(s[1..], pat, n - 1);
    MatchesAtTail(s, pat, n - 1);
    ReplaceFirstAt(s[1..], pat, rep, n - 1);
    ReplaceStep(s, pat, rep);
    ShiftedSlices(s, n, pat, rep);
  }

  /** An occurrence at the start is replaced, and the scan resumes after it. */
  lemma ReplaceAtStart(s: string, pat: string, rep: string)
    requires |pat| > 0 && MatchesAt(s, pat, 0)
    ensures Replace(s, pat, rep) == s[..0] + rep + Replace(s[0 + |pat|..], pat, rep)
  {
    assert s[0..] == s;
    assert s[..0] + rep == rep;
  }

  /** Bookkeeping of the inductive step: the slices of the tail are the shifted slices of `s`. */
  lemma ShiftedSlices(s: string, n: nat, pat: string, rep: string)
    requires 0 < n && n + |pat| <= |s| && |pat| > 0
    ensures [s[0]] + (s[1..][..n - 1] + rep + Replace(s[1..][n - 1 + |pat|..], pat, rep))
      == s[..n] + rep + Replace(s[n + |pat|..], pat, rep)
  {
    assert s[1..][n - 1 + |pat|..] == s[n + |pat|..];
    assert [s[0]] + s[1..][..n - 1] == s[..n];
    Sequences.AppendAssociative([s[0]], s[1..][..n - 1] + rep, Replace(s[n + |pat|..], pat, rep));
    Sequences.AppendAssociative([s[0]], s[1..][..n - 1], rep);
  }

  /** Where `pat` does not start, `replace` copies the first character and goes on. */
  lemma ReplaceStep(s: string, pat: string, rep: string)
    requires |pat| > 0 && |s| > 0 && !MatchesAt(s, pat, 0)
    ensures Replace(s, pat, rep) == [s[0]] + Replace(s[1..], pat, rep)
  {
    assert s[0..] == s;
    if |s| < |pat| {
      assert [s[0]] + s[1..] == s;
    }
  }

  /** A prefix without the pattern's first character passes through `replace` unchanged. */
  lemma {:induction false} ReplaceFreePrefix(x: string, b: string, pat: string, rep: string)
    requires |pat| > 0 && pat[0] !in x
    ensures Replace(x + b, pat, rep) == x + Replace(b, pat, rep)
    decreases |x|
  {
    if |x| == 0 {
      assert x + b == b;
    } else {
      var s := x + b;
      assert s[0..] == s;
      ReplaceStep(s, pat, rep);
      assert s[1..] == x[1..] + b;
      ReplaceFreePrefix(x[1..], b, pat, rep);
      Sequences.AppendAssociative([x[0]], x[1..], Replace(b, pat, rep));
      Sequences.HeadTail(x);
    }
  }

  /**
   * A prefix where the pattern does not start, and whose later characters never begin it,
   * passes through `replace` unchanged.
   */
  lemma ReplaceLeadPrefix(x: string, b: string, pat: string, rep: string)
    requires |pat| > 0 && |x| > 0 && !StartsWith(x + b, pat) && pat[0] !in x[1..]
    ensures Replace(x + b, pat, rep) == x + Replace(b, pat, rep)
  {
    var s := x + b;
    assert s[0..] == s;
    ReplaceStep(s, pat, rep);
    assert s[1..] == x[1..] + b;
    ReplaceFreePrefix(x[1..], b, pat, rep);
    Sequences.AppendAssociative([x[0]], x[1..], Replace(b, pat, rep));
    Sequences.HeadTail(x);
  }

  /** A string starting with `pat` agrees with it at each of its positions. */
  lemma StartsWithAt(s: string, pat: string, i: nat)
    requires StartsWith(s, pat) && i < |pat|
    ensures i < |s| && s[i] == pat[i]
  {
    StartsWithSlice(s, pat);
    assert s[..|pat|][i] == s[i];
  }

  /**
   * A pattern without a line break never spans one, so replacing in two lines joined by a
   * line break replaces in each line on its own.
   */
  lemma {:induction false} ReplaceAcrossNewline(x: string, y: string, pat: string, rep: string)
    requires |pat| > 0 && '\n' !in pat
    ensures Replace(x + "\n" + y, pat, rep) == Replace(x, pat, rep) + "\n" + Replace(y, pat, rep)
    decreases |x|
  {
    var s := x + "\n" + y;
    assert s[0..] == s;
    if |s| < |pat| {
    } else if |x| == 0 {
      assert s == "\n" + y;
      StartsWithSlice(s, pat);
      assert |pat| <= |s| ==> s[..|pat|][0] == '\n';
      ReplaceStep(s, pat, rep);
      assert s[1..] == y;
    } else if StartsWith(s, pat) {
      StartsWithSlice(s, pat);
      assert forall i :: 0 <= i < |pat| ==> pat[i] == s[i];
      assert s[|x|] == '\n';
      assert s[..|pat|] == x[..|pat|];
      StartsWithSlice(x, pat);
      assert s[|pat|..] == x[|pat|..] + "\n" + y;
      ReplaceAcrossNewline(x[|pat|..], y, pat, rep);
      var rx, ry := Replace(x[|pat|..], pat, rep), Replace(y, pat, rep);
      assert Replace(s, pat, rep) == rep + (rx + "\n" + ry);
      assert Replace(x, pat, rep) == rep + rx;
      Sequences.AppendAssociative(rep, rx + "\n", ry);
      Sequences.AppendAssociative(rep, rx, "\n");
    } else {
      StartsWithSlice(x, pat);
      StartsWithSlice(s, pat);
      assert |pat| <= |x| ==> s[..|pat|] == x[..|pat|];
      ReplaceStep(s, pat, rep);
      assert s[1..] == x[1..] + "\n" + y;
      ReplaceAcrossNewline(x[1..], y, pat, rep);
      var rx, ry := Replace(x[1..], pat, rep), Replace(y, pat, rep);
      assert Replace(x, pat, rep) == [x[0]] + rx by {
        if |x| < |pat| {
          Sequences.HeadTail(x);
        }
      }
      Sequences.AppendAssociative([x[0]], rx + "\n", ry);
      Sequences.AppendAssociative([x[0]], rx, "\n");
    }
  }

  /** An occurrence in the tail is an occurrence one position further on in the whole. */
  lemma MatchesAtTail(s: string, pat: string, k: nat)
    requires |s| > 0
    ensures MatchesAt(s[1..], pat, k) <==> MatchesAt(s, pat, k + 1)
  {
    if k <= |s[1..]| {
      assert s[1..][k..] == s[k + 1..];
    }
  }

  lemma NoMatchBeforeTail(s: string, pat: string, n: nat)
    requires |s| > 0 && NoMatchBefore(s, pat, n + 1)
    ensures NoMatchBefore(s[1..], pat, n)
  {
    forall k: nat | k < n
      ensures !MatchesAt(s[1..], pat, k)
    {
      MatchesAtTail(s, pat, k);
    }
  }

  /** Decimal digits of a natural number. */
  function NatToString(n: nat): (s: string)
    ensures |s| >= 1
    ensures forall k :: 0 <= k < |s| ==> '0' <= s[k] <= '9'
  {
    if n < 10 then [Digit(n)] else NatToString(n / 10) + [Digit(n % 10)]
  }

  function Digit(d: nat): (c: char)
    requires d < 10
    ensures '0' <= c <= '9'
  {
    ['0', '1', '2', '3', '4', '5', '6', '7', '8', '9'][d]
  }

  /** `str(n)` for a Python `int`. */
  function IntToString(n: int): (s: string)
    ensures |s| >= 1
  {
    if n < 0 then "-" + NatToString(-n) else NatToString(n)
  }
}
