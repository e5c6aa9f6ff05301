/** Python string operations used by the core: `str.split(sep)`, `sep.join(parts)`,
    `str.count(sep)` and the blank test `s.strip() == ""`. */
module Text {
  import opened Wrappers

  /** `sep.join(parts)`. */
  function Join(sep: string, parts: seq<string>): string
  {
    if |parts| == 0 then ""
    else if |parts| == 1 then parts[0]
    else parts[0] + sep + Join(sep, parts[1..])
  }

  /** `sep` occurs in `s` starting at position `i`. */
  predicate OccursAt(s: string, sep: string, i: nat)
  {
    i + |sep| <= |s| && s[i..i + |sep|] == sep
  }

  /** `sep in s`. */
  predicate Occurs(s: string, sep: string)
  {
    exists i: nat | i <= |s| :: OccursAt(s, sep, i)
  }

  /** `s.find(sep, i)`: the leftmost occurrence at or after `i`, or None for -1. */
  function FindFrom(s: string, sep: string, i: nat): (r: Option<nat>)
    requires sep != "" && i <= |s|
    ensures r.Some? ==> i <= r.value && OccursAt(s, sep, r.value)
    ensures r.Some? ==> forall j: nat :: i <= j < r.value ==> !OccursAt(s, sep, j)
    ensures r.None? ==> forall j: nat :: i <= j ==> !OccursAt(s, sep, j)
    decreases |s| - i
  {
    if i + |sep| > |s| then None
    else if OccursAt(s, sep, i) then Some(i)
    else FindFrom(s, sep, i + 1)
  }

  /** The pieces of `s[i..].split(sep)`. */
  function SplitFrom(s: string, sep: string, i: nat): (pieces: seq<string>)
    requires sep != "" && i <= |s|
    ensures |pieces| >= 1
    decreases |s| - i
  {
    match FindFrom(s, sep, i)
    case None => [s[i..]]
    case Some(j) => [s[i..j]] + SplitFrom(s, sep, j + |sep|)
  }

  /** `s.split(sep)` for a non-empty separator: cut at every leftmost,
      non-overlapping occurrence, keeping empty pieces. */
  function Split(s: string, sep: string): seq<string>
    requires sep != ""
  {
    SplitFrom(s, sep, 0)
  }

  /** Occurrences counted from position `i` the way `str.count` counts them:
      scanning left to right, resuming after each match. */
  function CountFrom(s: string, sep: string, i: nat): nat
    requires sep != "" && i <= |s|
    decreases |s| - i
  {
    if i + |sep| > |s| then 0
    else if OccursAt(s, sep, i) then 1 + CountFrom(s, sep, i + |sep|)
    else CountFrom(s, sep, i + 1)
  }

  /** `s.count(sep)`. */
  function Count(s: string, sep: string): nat
    requires sep != ""
  {
    CountFrom(s, sep, 0)
  }

  /** Joining the pieces of a split with the same separator gives back the text. */
  lemma {:induction false} JoinSplitFrom(s: string, sep: string, i: nat)
    requires sep != "" && i <= |s|
    ensures Join(sep, SplitFrom(s, sep, i)) == s[i..]
    decreases |s| - i
  {
    match FindFrom(s, sep, i)
    case None =>
    case Some(j) =>
      var k := j + |sep|;
      var tail := SplitFrom(s, sep, k);
      var pieces := [s[i..j]] + tail;
      assert SplitFrom(s, sep, i) == pieces;
      assert pieces[0] == s[i..j] && pieces[1..] == tail && |pieces| >= 2;
      JoinSplitFrom(s, sep, k);
      assert s[j..k] == sep;
      calc {
        Join(sep, pieces);
        s[i..j] + sep + Join(sep, tail);
        s[i..j] + s[j..k] + s[k..];
        { assert s[i..] == s[i..j] + s[j..k] + s[k..]; }
        s[i..];
      }
  }

  lemma JoinSplit(s: string, sep: string)
    requires sep != ""
    ensures Join(sep, Split(s, sep)) == s
  {
    JoinSplitFrom(s, sep, 0);
  }

  /** No piece of a split contains the separator. */
  lemma {:induction false} SplitFromPiecesAreSeparatorFree(s: string, sep: string, i: nat)
    requires sep != "" && i <= |s|
    ensures forall k :: 0 <= k < |SplitFrom(s, sep, i)| ==> !Occurs(SplitFrom(s, sep, i)[k], sep)
    decreases |s| - i
  {
    match FindFrom(s, sep, i)
    case None =>
      NoOccurrenceInSlice(s, sep, i, |s|);
      assert s[i..|s|] == s[i..];
    case Some(j) =>
      SplitFromPiecesAreSeparatorFree(s, sep, j + |sep|);
      NoOccurrenceInSlice(s, sep, i, j);
  }

  /** A slice that starts no occurrence of `sep` in `s` contains none. */
  lemma NoOccurrenceInSlice(s: string, sep: string, i: nat, j: nat)
    requires sep != "" && i <= j <= |s|
    requires forall k: nat :: i <= k < j ==> !OccursAt(s, sep, k)
    ensures !Occurs(s[i..j], sep)
  {
    forall k: nat | k <= |s[i..j]| ensures !OccursAt(s[i..j], sep, k) {
      SliceOccurrence(s, sep, i, j, k);
    }
  }

  /** An occurrence inside the slice `s[i..j]` is an occurrence in `s` that starts before `j`. */
  lemma SliceOccurrence(s: string, sep: string, i: nat, j: nat, k: nat)
    requires sep != "" && i <= j <= |s| && k <= j - i
    ensures OccursAt(s[i..j], sep, k) ==> i + k < j && OccursAt(s, sep, i + k)
  {
    if OccursAt(s[i..j], sep, k) {
      forall m | 0 <= m < |sep| ensures s[i + k + m] == sep[m] {
        assert s[i..j][k..k + |sep|][m] == sep[m];
      }
      assert s[i + k..i + k + |sep|] == sep;
    }
  }

  lemma SplitPiecesAreSeparatorFree(s: string, sep: string)
    requires sep != ""
    ensures forall k :: 0 <= k < |Split(s, sep)| ==> !Occurs(Split(s, sep)[k], sep)
  {
    SplitFromPiecesAreSeparatorFree(s, sep, 0);
  }

  /** Skipping positions that start no occurrence leaves the count unchanged. */
  lemma {:induction false} CountSkip(s: string, sep: string, i: nat, j: nat)
    requires sep != "" && i <= j <= |s|
    requires forall k: nat :: i <= k < j ==> !OccursAt(s, sep, k)
    ensures CountFrom(s, sep, i) == CountFrom(s, sep, j)
    decreases j - i
  {
    if i < j {
      if i + |sep| > |s| {
        assert CountFrom(s, sep, j) == 0;
      } else {
        assert !OccursAt(s, sep, i);
        CountSkip(s, sep, i + 1, j);
      }
    }
  }

  /** Text with n occurrences of the separator (as `str.count` counts them) splits
      into n + 1 pieces, empty pieces included. */
  lemma {:induction false} SplitFromCount(s: string, sep: string, i: nat)
    requires sep != "" && i <= |s|
    ensures |SplitFrom(s, sep, i)| == CountFrom(s, sep, i) + 1
    decreases |s| - i
  {
    CountFind(s, sep, i);
    if FindFrom(s, sep, i).Some? {
      var k := SplitCountStep(s, sep, i);
      SplitFromCount(s, sep, k);
    }
  }

  /** At an occurrence both the split and the count advance by one, to the same place. */
  lemma SplitCountStep(s: string, sep: string, i: nat) returns (k: nat)
    requires sep != "" && i <= |s| && FindFrom(s, sep, i).Some?
    ensures i < k <= |s|
    ensures |SplitFrom(s, sep, i)| == 1 + |SplitFrom(s, sep, k)|
    ensures CountFrom(s, sep, i) == 1 + CountFrom(s, sep, k)
  {
    var j := FindFrom(s, sep, i).value;
    k := j + |sep|;
    assert SplitFrom(s, sep, i) == [s[i..j]] + SplitFrom(s, sep, k);
    CountFind(s, sep, i);
  }

  /** Counting agrees with finding: no occurrence counts zero, and the leftmost
      occurrence counts one before counting resumes after it. */
  lemma CountFind(s: string, sep: string, i: nat)
    requires sep != "" && i <= |s|
    ensures FindFrom(s, sep, i).None? ==> CountFrom(s, sep, i) == 0
    ensures FindFrom(s, sep, i).Some? ==>
              CountFrom(s, sep, i) == 1 + CountFrom(s, sep, FindFrom(s, sep, i).value + |sep|)
  {
    match FindFrom(s, sep, i)
    case None =>
      CountSkip(s, sep, i, |s|);
      assert CountFrom(s, sep, |s|) == 0;
    case Some(j) =>
      CountSkip(s, sep, i, j);
      assert CountFrom(s, sep, j) == 1 + CountFrom(s, sep, j + |sep|);
  }

  lemma SplitCount(s: string, sep: string)
    requires sep != ""
    ensures |Split(s, sep)| == Count(s, sep) + 1
  {
    SplitFromCount(s, sep, 0);
  }

  /** A text without the separator is one piece, the whole text; with it, at least two. */
  lemma SplitSingle(s: string, sep: string)
    requires sep != ""
    ensures !Occurs(s, sep) <==> Split(s, sep) == [s]
    ensures Occurs(s, sep) ==> |Split(s, sep)| >= 2
  {
    match FindFrom(s, sep, 0)
    case None =>
    case Some(j) =>
      assert Occurs(s, sep) by { assert OccursAt(s, sep, j); }
  }

  /** Characters Python's `str.strip()` removes: those `str.isspace()` accepts, that is the
      ASCII whitespace, the separators U+001C to U+001F, and the Unicode spaces and line
      and paragraph separators. */
  predicate IsSpace(c: char)
  {
    || ('\t' <= c <= '\r') || ('\U{001C}' <= c <= ' ')
    || c == '\U{0085}' || c == '\U{00A0}' || c == '\U{1680}'
    || ('\U{2000}' <= c <= '\U{200A}') || c == '\U{2028}' || c == '\U{2029}'
    || c == '\U{202F}' || c == '\U{205F}' || c == '\U{3000}'
  }

  function Strip(s: string): string
  {
    StripRight(StripLeft(s))
  }

  function StripLeft(s: string): string
  {
    if |s| > 0 && IsSpace(s[0]) then StripLeft(s[1..]) else s
  }

  function StripRight(s: string): string
  {
    if |s| > 0 && IsSpace(s[|s| - 1]) then StripRight(s[..|s| - 1]) else s
  }

  /** A text is blank when it holds only whitespace. */
  predicate IsBlank(s: string)
  {
    forall k :: 0 <= k < |s| ==> IsSpace(s[k])
  }

  lemma {:induction false} StripLeftBlank(s: string)
    ensures StripLeft(s) == "" <==> IsBlank(s)
    ensures StripLeft(s) != "" ==> !IsSpace(StripLeft(s)[0])
    decreases |s|
  {
    if |s| > 0 && IsSpace(s[0]) {
      StripLeftBlank(s[1..]);
      assert IsBlank(s) <==> IsBlank(s[1..]) by {
        if IsBlank(s[1..]) {
          forall k | 0 <= k < |s| ensures IsSpace(s[k]) {
            if k > 0 { assert s[k] == s[1..][k - 1]; }
          }
        }
      }
    }
  }

  lemma {:induction false} StripRightKeepsHead(s: string)
    requires s != "" && !IsSpace(s[0])
    ensures StripRight(s) != ""
    decreases |s|
  {
    if IsSpace(s[|s| - 1]) {
      assert |s| > 1;
      StripRightKeepsHead(s[..|s| - 1]);
    }
  }

  /** `s.strip()` is empty exactly when `s` is blank. */
  lemma StripEmptyIffBlank(s: string)
    ensures Strip(s) == "" <==> IsBlank(s)
  {
    StripLeftBlank(s);
    if StripLeft(s) != "" {
      StripRightKeepsHead(StripLeft(s));
    }
  }
}
