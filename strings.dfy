/**
 * Text operations the agent, the tool registry and the web front end rely on:
 * Python's `str.find`, `in`, `startswith`/`endswith` and `join`, JavaScript's
 * `split` and `replace`, decimal rendering of integers, and ASCII case mapping.
 */
module Strings {
  import opened Wrappers

  /** `pat` occurs in `s` starting at index `k`. */
  predicate OccursAt(s: string, pat: string, k: nat) {
    k + |pat| <= |s| && s[k..k + |pat|] == pat
  }

  /** Python's `s.find(pat, from)`: the first index at or after `from` where `pat` occurs. */
  function IndexOf(s: string, pat: string, from: nat): (r: Option<nat>)
    decreases |s| - from
    ensures r.Some? ==> from <= r.value && OccursAt(s, pat, r.value)
    ensures r.Some? ==> forall k :: from <= k < r.value ==> !OccursAt(s, pat, k)
    ensures r.None? ==> forall k :: from <= k ==> !OccursAt(s, pat, k)
  {
    if from + |pat| > |s| then None
    else if s[from..from + |pat|] == pat then Some(from)
    else IndexOf(s, pat, from + 1)
  }

  /** A one-character pattern occurs exactly where that character is. */
  lemma OccursAtChar(s: string, c: char, k: nat)
    ensures OccursAt(s, [c], k) <==> k < |s| && s[k] == c
  {
    if k < |s| {
      assert s[k..k + 1] == [s[k]];
    }
  }

  /** Concatenation is associative; stated on plain texts so that it is cheap to use. */
  lemma AppendAssoc(a: string, b: string, c: string)
    ensures (a + b) + c == a + (b + c)
  {
  }

  /** Python's `pat in s` on two strings. */
  predicate Contains(s: string, pat: string) {
    IndexOf(s, pat, 0).Some?
  }

  lemma ContainsIff(s: string, pat: string)
    ensures Contains(s, pat) <==> exists k :: OccursAt(s, pat, k)
  {
    if Contains(s, pat) {
      assert OccursAt(s, pat, IndexOf(s, pat, 0).value);
    }
  }

  /** An occurrence that lies wholly inside a prefix of the text is still an occurrence in the text. */
  lemma OccursInExtension(s: string, t: string, pat: string, k: nat)
    requires OccursAt(s, pat, k)
    ensures OccursAt(s + t, pat, k)
  {
    assert (s + t)[k..k + |pat|] == s[k..k + |pat|];
  }

  /**
   * Appending text never moves the first occurrence of a pattern that the
   * text already contains: `find` reports the same index before and after.
   */
  lemma {:induction false} IndexOfExtension(s: string, t: string, pat: string, from: nat)
    requires IndexOf(s, pat, from).Some?
    ensures IndexOf(s + t, pat, from) == IndexOf(s, pat, from)
    decreases |s| - from
  {
    var k := IndexOf(s, pat, from).value;
    if from + |pat| > |s| {
    } else if s[from..from + |pat|] == pat {
      assert (s + t)[from..from + |pat|] == s[from..from + |pat|];
    } else {
      assert (s + t)[from..from + |pat|] == s[from..from + |pat|];
      IndexOfExtension(s, t, pat, from + 1);
    }
  }

  /** JavaScript's `s.startsWith(p)`. */
  predicate StartsWith(s: string, p: string) {
    |p| <= |s| && s[..|p|] == p
  }

  /** Python's `s.endswith(p)`. */
  predicate EndsWith(s: string, p: string) {
    |p| <= |s| && s[|s| - |p|..] == p
  }

  /** Python's `sep.join(parts)` and JavaScript's `parts.join(sep)`. */
  function Join(parts: seq<string>, sep: string): string {
    if |parts| == 0 then ""
    else if |parts| == 1 then parts[0]
    else parts[0] + sep + Join(parts[1..], sep)
  }

  /** Joining one more part adds the separator and the part at the end. */
  lemma {:induction false} JoinSnoc(parts: seq<string>, last: string, sep: string)
    requires |parts| > 0
    ensures Join(parts + [last], sep) == Join(parts, sep) + sep + last
  {
    if |parts| == 1 {
      assert (parts + [last])[1..] == [last];
    } else {
      assert (parts + [last])[1..] == parts[1..] + [last];
      JoinSnoc(parts[1..], last, sep);
    }
  }

  /** Every part of a join is found in the joined text. */
  lemma {:induction false} JoinContainsPart(parts: seq<string>, sep: string, i: nat)
    requires i < |parts|
    ensures Contains(Join(parts, sep), parts[i])
    decreases |parts|
  {
    var j := Join(parts, sep);
    if |parts| == 1 {
      assert OccursAt(j, parts[i], 0);
    } else if i == 0 {
      assert j == parts[0] + (sep + Join(parts[1..], sep));
      OccursInExtension(parts[0], sep + Join(parts[1..], sep), parts[0], 0);
    } else {
      var head := parts[0] + sep;
      var rest := Join(parts[1..], sep);
      JoinContainsPart(parts[1..], sep, i - 1);
      assert parts[1..][i - 1] == parts[i];
      ContainsInMiddle(head, rest, "", parts[i]);
      assert head + rest + "" == j;
    }
  }

  /** A slice of a slice is a slice of the whole. */
  lemma SliceOfSlice(s: string, lo: nat, hi: nat, i: nat, j: nat)
    requires lo <= hi <= |s| && i <= j <= hi - lo
    ensures s[lo..hi][i..j] == s[lo + i..lo + j]
  {
    assert forall k :: 0 <= k < j - i ==> s[lo..hi][i..j][k] == s[lo + i + k];
  }

  /** Containment is transitive: a text inside a text inside `outer` is inside `outer`. */
  lemma ContainsWithin(outer: string, mid: string, inner: string)
    requires Contains(outer, mid) && Contains(mid, inner)
    ensures Contains(outer, inner)
  {
    var a := IndexOf(outer, mid, 0).value;
    var b := IndexOf(mid, inner, 0).value;
    assert OccursAt(outer, mid, a) && OccursAt(mid, inner, b);
    SliceOfSlice(outer, a, a + |mid|, b, b + |inner|);
    assert OccursAt(outer, inner, a + b);
    ContainsIff(outer, inner);
  }

  /** A text found in `b` is found in `a + b + c`. */
  lemma ContainsInMiddle(a: string, b: string, c: string, inner: string)
    requires Contains(b, inner)
    ensures Contains(a + b + c, inner)
  {
    var k := IndexOf(b, inner, 0).value;
    assert (a + b + c)[|a| + k..|a| + k + |inner|] == b[k..k + |inner|];
    assert OccursAt(a + b + c, inner, |a| + k);
    ContainsIff(a + b + c, inner);
  }

  /** No character of `t` is one of `seps`. */
  predicate HasNoSeparator(t: string, seps: set<char>) {
    forall j :: 0 <= j < |t| ==> t[j] !in seps
  }

  /**
   * JavaScript's `s.split(r)` where `r` matches any one character of `seps`:
   * the maximal runs between separators, so `k` separators give `k + 1` parts
   * and the empty text gives one empty part.
   */
  function SplitBy(s: string, seps: set<char>): (parts: seq<string>)
    ensures |parts| >= 1
  {
    if |s| == 0 then [""]
    else
      var rest := SplitBy(s[1..], seps);
      if s[0] in seps then [""] + rest else [[s[0]] + rest[0]] + rest[1..]
  }

  /** No part of a split holds a separator. */
  lemma {:induction false} SplitPartsHaveNoSeparator(s: string, seps: set<char>)
    ensures forall i :: 0 <= i < |SplitBy(s, seps)| ==> HasNoSeparator(SplitBy(s, seps)[i], seps)
  {
    if |s| > 0 {
      SplitPartsHaveNoSeparator(s[1..], seps);
    }
  }

  /** A text without separators splits into itself. */
  lemma {:induction false} SplitWithoutSeparator(t: string, seps: set<char>)
    requires HasNoSeparator(t, seps)
    ensures SplitBy(t, seps) == [t]
  {
    if |t| > 0 {
      SplitWithoutSeparator(t[1..], seps);
      assert t == [t[0]] + t[1..];
    }
  }

  /** A separator ends the first part: what comes before it is the first part, the rest splits on. */
  lemma {:induction false} SplitAtSeparator(a: string, c: char, b: string, seps: set<char>)
    requires HasNoSeparator(a, seps)
    requires c in seps
    ensures SplitBy(a + [c] + b, seps) == [a] + SplitBy(b, seps)
  {
    if |a| == 0 {
      assert a + [c] + b == [c] + b;
      assert ([c] + b)[1..] == b;
    } else {
      SplitAtSeparator(a[1..], c, b, seps);
      assert (a + [c] + b)[1..] == a[1..] + [c] + b;
      assert a == [a[0]] + a[1..];
    }
  }

  /** Each separator replaced by `c`: what joining the parts of a split with `c` gives back. */
  function ReplaceSeparators(s: string, seps: set<char>, c: char): (r: string)
    ensures |r| == |s|
  {
    if |s| == 0 then "" else [if s[0] in seps then c else s[0]] + ReplaceSeparators(s[1..], seps, c)
  }

  /** Split and join are inverse up to the choice of separator character. */
  lemma {:induction false} JoinSplit(s: string, seps: set<char>, c: char)
    ensures Join(SplitBy(s, seps), [c]) == ReplaceSeparators(s, seps, c)
  {
    if |s| > 0 {
      JoinSplit(s[1..], seps, c);
      var rest := SplitBy(s[1..], seps);
      if s[0] in seps {
        assert ([""] + rest)[1..] == rest;
      } else if |rest| == 1 {
      } else {
        assert ([[s[0]] + rest[0]] + rest[1..])[1..] == rest[1..];
      }
    }
  }

  /** The last part of a split: for a split on `.`, a file name's extension. */
  function LastPart(s: string, seps: set<char>): string {
    var parts := SplitBy(s, seps);
    parts[|parts| - 1]
  }

  /** The last part of `s` is that of `s[1..]`, or `s[1..]`'s single part extended by `s[0]`. */
  lemma LastPartCons(s: string, seps: set<char>)
    requires |s| > 0
    ensures s[0] in seps || |SplitBy(s[1..], seps)| > 1 ==> LastPart(s, seps) == LastPart(s[1..], seps)
    ensures s[0] !in seps && |SplitBy(s[1..], seps)| == 1 ==> LastPart(s, seps) == [s[0]] + LastPart(s[1..], seps)
  {
  }

  /**
   * The last part of a split is the text after the last separator: a suffix
   * of `s` without separators, preceded in `s` by a separator unless it is the
   * whole of `s`.
   */
  lemma LastPartIsTextAfterLast(s: string, seps: set<char>)
    ensures HasNoSeparator(LastPart(s, seps), seps)
    ensures EndsWith(s, LastPart(s, seps))
    ensures |LastPart(s, seps)| < |s| ==> s[|s| - |LastPart(s, seps)| - 1] in seps
  {
    SplitPartsHaveNoSeparator(s, seps);
    LastPartIsSuffix(s, seps);
  }

  /** `t` ends `s` and, unless it is all of `s`, a separator comes right before it. */
  predicate AfterSeparator(s: string, t: string, seps: set<char>) {
    EndsWith(s, t) && (|t| < |s| ==> s[|s| - |t| - 1] in seps)
  }

  /** Text after a separator in `s[1..]` is text after a separator in `s` unless it is all of `s[1..]` and `s[0]` is no separator. */
  lemma AfterSeparatorShift(s: string, t: string, seps: set<char>)
    requires |s| > 0 && AfterSeparator(s[1..], t, seps)
    requires s[0] in seps || |t| < |s| - 1
    ensures AfterSeparator(s, t, seps)
  {
    assert s[|s| - |t|..] == s[1..][|s[1..]| - |t|..];
    if |t| < |s| - 1 {
      assert s[|s| - |t| - 1] == s[1..][|s[1..]| - |t| - 1];
    }
  }

  lemma {:induction false} LastPartIsSuffix(s: string, seps: set<char>)
    ensures AfterSeparator(s, LastPart(s, seps), seps)
  {
    if |s| > 0 {
      var t := LastPart(s[1..], seps);
      LastPartIsSuffix(s[1..], seps);
      LastPartCons(s, seps);
      if s[0] in seps {
        AfterSeparatorShift(s, t, seps);
      } else if |SplitBy(s[1..], seps)| > 1 {
        SplitHasSeparator(s[1..], seps);
        SplitPartsHaveNoSeparator(s[1..], seps);
        LastPartShorter(s[1..], seps);
        AfterSeparatorShift(s, t, seps);
      } else {
        SplitSingle(s[1..], seps);
        assert LastPart(s, seps) == [s[0]] + s[1..] == s;
      }
    }
  }

  /** When the text holds a separator, the last part is shorter than the text. */
  lemma LastPartShorter(t: string, seps: set<char>)
    requires exists i :: 0 <= i < |t| && t[i] in seps
    requires HasNoSeparator(LastPart(t, seps), seps)
    requires EndsWith(t, LastPart(t, seps))
    ensures |LastPart(t, seps)| < |t|
  {
    var last := LastPart(t, seps);
    var i :| 0 <= i < |t| && t[i] in seps;
    assert forall j :: |t| - |last| <= j < |t| ==> t[j] == last[j - (|t| - |last|)];
  }

  /** A text without separators splits into itself alone. */
  lemma {:induction false} SplitSingle(t: string, seps: set<char>)
    requires |SplitBy(t, seps)| == 1
    ensures SplitBy(t, seps) == [t]
  {
    if |t| > 0 {
      SplitSingle(t[1..], seps);
      assert t == [t[0]] + t[1..];
    }
  }

  /** A split into more than one part means the text holds a separator. */
  lemma {:induction false} SplitHasSeparator(t: string, seps: set<char>)
    ensures |SplitBy(t, seps)| > 1 ==> exists i :: 0 <= i < |t| && t[i] in seps
  {
    if |t| > 0 && t[0] !in seps {
      SplitHasSeparator(t[1..], seps);
      if |SplitBy(t, seps)| > 1 {
        var i :| 0 <= i < |t[1..]| && t[1..][i] in seps;
        assert t[i + 1] in seps;
      }
    }
  }

  /** Decimal digits of a natural number, as Python's `str(n)` and JavaScript's `String(n)` write them. */
  function NatToString(n: nat): (r: string)
    ensures |r| >= 1
    ensures forall i :: 0 <= i < |r| ==> '0' <= r[i] <= '9'
    decreases n
  {
    var d := [(('0' as int) + n % 10) as char];
    if n < 10 then d else NatToString(n / 10) + d
  }

  /** Decimal rendering of an integer with a leading minus sign when negative. */
  function IntToString(i: int): string {
    if i < 0 then "-" + NatToString(-i) else NatToString(i)
  }

  /** JavaScript's `toLowerCase` on one character, for ASCII letters. */
  function LowerChar(c: char): (r: char)
    ensures ('A' <= c <= 'Z') ==> r as int == c as int + 32
    ensures !('A' <= c <= 'Z') ==> r == c
  {
    if 'A' <= c <= 'Z' then ((c as int) + 32) as char else c
  }

  function UpperChar(c: char): (r: char)
    ensures ('a' <= c <= 'z') ==> r as int == c as int - 32
    ensures !('a' <= c <= 'z') ==> r == c
  {
    if 'a' <= c <= 'z' then ((c as int) - 32) as char else c
  }

  /** Lower-case every character; the length and every non-letter stay as they are. */
  function Lower(s: string): (r: string)
    ensures |r| == |s|
    ensures forall i :: 0 <= i < |s| ==> r[i] == LowerChar(s[i])
  {
    if |s| == 0 then "" else [LowerChar(s[0])] + Lower(s[1..])
  }

  /** Python's `str.capitalize`: the first character upper case, the rest lower case. */
  function Capitalize(s: string): (r: string)
    ensures |r| == |s|
    ensures |s| > 0 ==> r[0] == UpperChar(s[0]) && r[1..] == Lower(s[1..])
  {
    if |s| == 0 then ""
    else
      var r := [UpperChar(s[0])] + Lower(s[1..]);
      assert r[1..] == Lower(s[1..]);
      r
  }

  /**
   * JavaScript's `s.replace(/pat/g, rep)` for a literal, non-empty pattern:
   * occurrences are replaced left to right and never overlap.
   */
  function ReplaceAll(s: string, pat: string, rep: string): string
    requires |pat| > 0
    decreases |s|
  {
    if |s| < |pat| then s
    else if s[..|pat|] == pat then rep + ReplaceAll(s[|pat|..], pat, rep)
    else [s[0]] + ReplaceAll(s[1..], pat, rep)
  }
}
