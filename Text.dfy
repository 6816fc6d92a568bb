/**
 * String operations the resolver relies on, with JavaScript's semantics:
 * `s.split(c)` on a one-character separator, `parts.join(sep)`, and a global
 * literal replacement `s.replace(/pat/g, rep)`, which scans left to right and
 * replaces non-overlapping occurrences.
 */
module Text {

  /** `s.split(sep)`: the maximal sep-free pieces between separators, never empty. */
  function Split(s: string, sep: char): (parts: seq<string>)
    ensures |parts| >= 1
    ensures forall i :: 0 <= i < |parts| ==> sep !in parts[i]
    decreases |s|
  {
    if |s| == 0 then [""]
    else
      var rest := Split(s[1..], sep);
      if s[0] == sep then [""] + rest
      else [[s[0]] + rest[0]] + rest[1..]
  }

  /** `parts.join(sep)`. */
  function Join(parts: seq<string>, sep: string): string
    requires |parts| >= 1
    decreases |parts|
  {
    if |parts| == 1 then parts[0] else parts[0] + sep + Join(parts[1..], sep)
  }

  /** Splitting and joining again gives back the original string. */
  lemma {:induction false} JoinSplit(s: string, sep: char)
    ensures Join(Split(s, sep), [sep]) == s
    decreases |s|
  {
    if |s| > 0 {
      JoinSplit(s[1..], sep);
      var rest := Split(s[1..], sep);
      if s[0] == sep {
        assert Split(s, sep) == [""] + rest;
        assert Join([""] + rest, [sep]) == "" + [sep] + Join(rest, [sep]);
        assert s == [s[0]] + s[1..];
      } else {
        var parts := Split(s, sep);
        assert parts == [[s[0]] + rest[0]] + rest[1..];
        if |rest| == 1 {
          assert Join(parts, [sep]) == [s[0]] + rest[0];
        } else {
          assert parts[1..] == rest[1..];
          assert Join(parts, [sep]) == [s[0]] + rest[0] + [sep] + Join(rest[1..], [sep]);
        }
        assert s == [s[0]] + s[1..];
      }
    }
  }

  /** A sep-free prefix followed by the separator becomes the first piece. */
  lemma {:induction false} SplitAfterPrefix(a: string, sep: char, s: string)
    requires sep !in a
    ensures Split(a + [sep] + s, sep) == [a] + Split(s, sep)
    decreases |a|
  {
    var t := a + [sep] + s;
    if |a| == 0 {
      assert t[0] == sep && t[1..] == s;
    } else {
      SplitAfterPrefix(a[1..], sep, s);
      assert t[0] == a[0] && t[1..] == a[1..] + [sep] + s;
      assert [a[0]] + a[1..] == a;
    }
  }

  /** A string without the separator is a single piece. */
  lemma {:induction false} SplitWithoutSeparator(a: string, sep: char)
    requires sep !in a
    ensures Split(a, sep) == [a]
    decreases |a|
  {
    if |a| > 0 {
      SplitWithoutSeparator(a[1..], sep);
      assert [a[0]] + a[1..] == a;
    }
  }

  /** Joining sep-free pieces and splitting again gives back the pieces. */
  lemma {:induction false} SplitJoin(parts: seq<string>, sep: char)
    requires |parts| >= 1
    requires forall i :: 0 <= i < |parts| ==> sep !in parts[i]
    ensures Split(Join(parts, [sep]), sep) == parts
    decreases |parts|
  {
    if |parts| == 1 {
      SplitWithoutSeparator(parts[0], sep);
    } else {
      SplitJoin(parts[1..], sep);
      SplitAfterPrefix(parts[0], sep, Join(parts[1..], [sep]));
      assert [parts[0]] + parts[1..] == parts;
    }
  }

  /** `pat` starts at index `i` of `s`. */
  predicate OccursAt(s: string, pat: string, i: int)
  {
    0 <= i && i + |pat| <= |s| && s[i..i + |pat|] == pat
  }

  /** `pat` occurs somewhere in `s`. */
  predicate Occurs(s: string, pat: string)
  {
    exists i :: 0 <= i <= |s| && OccursAt(s, pat, i)
  }

  /**
   * `s.split(pat)` for a non-empty literal pattern: the pieces between the
   * occurrences that a left-to-right scan finds.
   */
  function SplitOn(s: string, pat: string): (pieces: seq<string>)
    requires |pat| > 0
    ensures |pieces| >= 1
    decreases |s|
  {
    if |s| < |pat| then [s]
    else if s[..|pat|] == pat then [""] + SplitOn(s[|pat|..], pat)
    else
      var rest := SplitOn(s[1..], pat);
      [[s[0]] + rest[0]] + rest[1..]
  }

  /** `s.replace(/pat/g, rep)` for a literal pattern and a replacement without `$`. */
  function ReplaceAll(s: string, pat: string, rep: string): string
    requires |pat| > 0
    decreases |s|
  {
    if |s| < |pat| then s
    else if s[..|pat|] == pat then rep + ReplaceAll(s[|pat|..], pat, rep)
    else [s[0]] + ReplaceAll(s[1..], pat, rep)
  }

  /** The pieces, put back together around the pattern, give the input. */
  lemma {:induction false} JoinSplitOn(s: string, pat: string)
    requires |pat| > 0
    ensures Join(SplitOn(s, pat), pat) == s
    decreases |s|
  {
    if |s| >= |pat| {
      if s[..|pat|] == pat {
        JoinSplitOn(s[|pat|..], pat);
        var rest := SplitOn(s[|pat|..], pat);
        assert ([""] + rest)[1..] == rest;
        assert s == s[..|pat|] + s[|pat|..];
      } else {
        JoinSplitOn(s[1..], pat);
        JoinPrependToHead([s[0]], SplitOn(s[1..], pat), pat);
        assert s == [s[0]] + s[1..];
      }
    }
  }

  /** Text put in front of the first piece comes out in front of the join. */
  lemma JoinPrependToHead(c: string, parts: seq<string>, sep: string)
    requires |parts| >= 1
    ensures Join([c + parts[0]] + parts[1..], sep) == c + Join(parts, sep)
  {
    var pieces := [c + parts[0]] + parts[1..];
    if |parts| > 1 {
      assert pieces[1..] == parts[1..];
      assert (c + parts[0]) + sep + Join(parts[1..], sep) == c + (parts[0] + sep + Join(parts[1..], sep));
    }
  }

  /** The first piece is a prefix of the input. */
  lemma {:induction false} SplitOnHeadIsPrefix(s: string, pat: string)
    requires |pat| > 0
    ensures SplitOn(s, pat)[0] <= s
    decreases |s|
  {
    if |s| >= |pat| && s[..|pat|] != pat {
      SplitOnHeadIsPrefix(s[1..], pat);
    }
  }

  /** No piece contains the pattern: every occurrence was a cut point. */
  lemma {:induction false} SplitOnPiecesFree(s: string, pat: string)
    requires |pat| > 0
    ensures forall k :: 0 <= k < |SplitOn(s, pat)| ==> !Occurs(SplitOn(s, pat)[k], pat)
    decreases |s|
  {
    var pieces := SplitOn(s, pat);
    if |s| < |pat| {
      assert pieces == [s];
      forall i | OccursAt(s, pat, i) ensures false { }
    } else if s[..|pat|] == pat {
      SplitOnPiecesFree(s[|pat|..], pat);
      var rest := SplitOn(s[|pat|..], pat);
      assert pieces == [""] + rest;
      forall i | OccursAt("", pat, i) ensures false { }
      assert forall k :: 1 <= k < |pieces| ==> pieces[k] == rest[k - 1];
    } else {
      SplitOnPiecesFree(s[1..], pat);
      SplitOnHeadIsPrefix(s[1..], pat);
      var rest := SplitOn(s[1..], pat);
      var head := [s[0]] + rest[0];
      assert pieces == [head] + rest[1..];
      assert head <= s;
      forall i | OccursAt(head, pat, i) ensures false {
        if i > 0 {
          assert head[i..i + |pat|] == rest[0][i - 1..i - 1 + |pat|];
          assert OccursAt(rest[0], pat, i - 1);
        }
      }
      assert forall k :: 1 <= k < |pieces| ==> pieces[k] == rest[k];
    }
  }

  /** `pieces` cut `s` at every occurrence of `pat`: joined by `pat` they give `s`, and none contains it. */
  predicate Decomposes(pieces: seq<string>, s: string, pat: string)
  {
    && |pieces| >= 1
    && Join(pieces, pat) == s
    && forall k :: 0 <= k < |pieces| ==> !Occurs(pieces[k], pat)
  }

  lemma SplitOnDecomposes(s: string, pat: string)
    requires |pat| > 0
    ensures Decomposes(SplitOn(s, pat), s, pat)
  {
    JoinSplitOn(s, pat);
    SplitOnPiecesFree(s, pat);
  }

  /** Global replacement is splitting at the pattern and joining with the replacement. */
  lemma {:induction false} ReplaceAllIsSplitJoin(s: string, pat: string, rep: string)
    requires |pat| > 0
    ensures ReplaceAll(s, pat, rep) == Join(SplitOn(s, pat), rep)
    decreases |s|
  {
    if |s| >= |pat| {
      if s[..|pat|] == pat {
        ReplaceAllIsSplitJoin(s[|pat|..], pat, rep);
        var rest := SplitOn(s[|pat|..], pat);
        assert ([""] + rest)[1..] == rest;
      } else {
        ReplaceAllIsSplitJoin(s[1..], pat, rep);
        JoinPrependToHead([s[0]], SplitOn(s[1..], pat), rep);
      }
    }
  }

  /** A string in which the pattern does not occur is returned unchanged. */
  lemma {:induction false} ReplaceAllAbsent(s: string, pat: string, rep: string)
    requires |pat| > 0
    requires !Occurs(s, pat)
    ensures ReplaceAll(s, pat, rep) == s
    decreases |s|
  {
    if |s| >= |pat| {
      assert !OccursAt(s, pat, 0);
      forall i | OccursAt(s[1..], pat, i) ensures OccursAt(s, pat, i + 1) {
        assert s[1..][i..i + |pat|] == s[i + 1..i + 1 + |pat|];
      }
      ReplaceAllAbsent(s[1..], pat, rep);
      assert s == [s[0]] + s[1..];
    }
  }

  /** A replacement happens wherever the scan meets the pattern at the front. */
  lemma ReplaceAllFront(pat: string, s: string, rep: string)
    requires |pat| > 0
    ensures ReplaceAll(pat + s, pat, rep) == rep + ReplaceAll(s, pat, rep)
  {
    assert (pat + s)[..|pat|] == pat;
    assert (pat + s)[|pat|..] == s;
  }

  /** Text free of the pattern's first character passes through unchanged. */
  lemma {:induction false} ReplaceAllKeepsPlainPrefix(a: string, s: string, pat: string, rep: string)
    requires |pat| > 0
    requires pat[0] !in a
    ensures ReplaceAll(a + s, pat, rep) == a + ReplaceAll(s, pat, rep)
    decreases |a|
  {
    if |a| > 0 {
      var t := a + s;
      ReplaceAllKeepsPlainPrefix(a[1..], s, pat, rep);
      assert t[1..] == a[1..] + s;
      if |t| >= |pat| {
        assert t[..|pat|][0] == a[0] != pat[0];
        assert ReplaceAll(t, pat, rep) == [a[0]] + ReplaceAll(a[1..] + s, pat, rep);
        var r := ReplaceAll(s, pat, rep);
        assert [a[0]] + (a[1..] + r) == ([a[0]] + a[1..]) + r;
        assert a == [a[0]] + a[1..];
      } else {
        assert ReplaceAll(t, pat, rep) == t;
        ReplaceAllAbsentShort(s, pat, rep);
      }
    } else {
      assert a + s == s;
    }
  }

  /** A string shorter than the pattern is returned unchanged. */
  lemma ReplaceAllAbsentShort(s: string, pat: string, rep: string)
    requires |pat| > 0
    requires |s| < |pat|
    ensures ReplaceAll(s, pat, rep) == s
  {
  }

  /** Decimal digits of a natural number, as JavaScript prints an array index. */
  function NatToString(n: nat): (r: string)
    ensures |r| >= 1
    ensures forall i :: 0 <= i < |r| ==> '0' <= r[i] <= '9'
    decreases n
  {
    if n < 10 then [(n + '0' as int) as char]
    else NatToString(n / 10) + [((n % 10) + '0' as int) as char]
  }

  /** Different numbers print differently, so no two array indices share a key. */
  lemma {:induction false} NatToStringInjective(a: nat, b: nat)
    requires NatToString(a) == NatToString(b)
    ensures a == b
    decreases a
  {
    var ra := NatToString(a);
    var rb := NatToString(b);
    if a >= 10 && b >= 10 {
      assert ra[|ra| - 1] == rb[|rb| - 1];
      assert a % 10 == b % 10;
      assert ra[..|ra| - 1] == NatToString(a / 10);
      assert rb[..|rb| - 1] == NatToString(b / 10);
      NatToStringInjective(a / 10, b / 10);
    }
  }
}
