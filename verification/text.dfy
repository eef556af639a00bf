/** The string operations of Python 2 that the plugin relies on: `needle in s`,
    `s.strip()` and `s.split(sep)`, stated over `seq<char>`. */
module Text {
  import opened Wrappers

  predicate IsPrefix(p: string, s: string) {
    |p| <= |s| && s[..|p|] == p
  }

  /** `needle` occurs in `s` starting at index `i`. */
  predicate OccursAt(s: string, needle: string, i: int) {
    0 <= i && i + |needle| <= |s| && s[i..i + |needle|] == needle
  }

  /** Python's `needle in s` on strings (the empty string occurs in every string). */
  predicate Contains(s: string, needle: string)
    decreases |s|
  {
    IsPrefix(needle, s) || (|s| > 0 && Contains(s[1..], needle))
  }

  lemma {:induction false} ContainsIffOccurs(s: string, needle: string)
    ensures Contains(s, needle) <==> exists i :: OccursAt(s, needle, i)
    decreases |s|
  {
    if IsPrefix(needle, s) {
      assert OccursAt(s, needle, 0);
    } else if |s| > 0 {
      ContainsIffOccurs(s[1..], needle);
      if Contains(s[1..], needle) {
        var i :| OccursAt(s[1..], needle, i);
        assert s[1..][i..i + |needle|] == s[i + 1..i + 1 + |needle|];
        assert OccursAt(s, needle, i + 1);
      }
      if i :| OccursAt(s, needle, i) {
        assert i != 0;
        assert s[1..][i - 1..i - 1 + |needle|] == s[i..i + |needle|];
        assert OccursAt(s[1..], needle, i - 1);
      }
    }
  }

  lemma ContainsAt(s: string, needle: string, i: int)
    requires OccursAt(s, needle, i)
    ensures Contains(s, needle)
  {
    ContainsIffOccurs(s, needle);
  }

  /** Whatever occurs in `a` occurs in every string that has `a` as a piece. */
  lemma ContainsInConcat(a: string, b: string, c: string, needle: string)
    requires Contains(b, needle)
    ensures Contains(a + b + c, needle)
  {
    ContainsIffOccurs(b, needle);
    var i :| OccursAt(b, needle, i);
    assert (a + b + c)[|a| + i..|a| + i + |needle|] == b[i..i + |needle|];
    ContainsAt(a + b + c, needle, |a| + i);
  }

  lemma ContainsSuffix(a: string, b: string)
    ensures Contains(a + b, b)
  {
    assert (a + b)[|a|..|a| + |b|] == b;
    ContainsAt(a + b, b, |a|);
  }

  // ---------------------------------------------------------------------------
  // str.strip()

  /** The characters Python 2's `str.strip()` removes. */
  predicate IsSpace(c: char) {
    c == ' ' || c == '\t' || c == '\n' || c == '\r' || c as int == 11 || c as int == 12
  }

  function StripLeft(s: string): (r: string)
    decreases |s|
    ensures |r| <= |s| && r == s[|s| - |r|..]
    ensures r == [] || !IsSpace(r[0])
    ensures forall k :: 0 <= k < |s| - |r| ==> IsSpace(s[k])
  {
    if |s| > 0 && IsSpace(s[0]) then StripLeft(s[1..]) else s
  }

  function StripRight(s: string): (r: string)
    decreases |s|
    ensures |r| <= |s| && r == s[..|r|]
    ensures r == [] || !IsSpace(r[|r| - 1])
    ensures forall k :: |r| <= k < |s| ==> IsSpace(s[k])
  {
    if |s| > 0 && IsSpace(s[|s| - 1]) then StripRight(s[..|s| - 1]) else s
  }

  /** `r` is `s` with whitespace only before index `i` and after the occurrence of `r` there. */
  predicate TrimmedAt(s: string, r: string, i: int) {
    OccursAt(s, r, i)
    && (forall k :: 0 <= k < i ==> IsSpace(s[k]))
    && (forall k :: i + |r| <= k < |s| ==> IsSpace(s[k]))
  }

  /** `s.strip()`: `s` without its leading and trailing whitespace. */
  function Strip(s: string): (r: string)
    ensures exists i :: TrimmedAt(s, r, i)
    ensures r == [] || (!IsSpace(r[0]) && !IsSpace(r[|r| - 1]))
  {
    var l := StripLeft(s);
    StripRightTrims(s, l, |s| - |l|);
    StripRight(l)
  }

  /** Stripping the right end of a left-stripped suffix `l` of `s` trims `s` around index `i`. */
  lemma StripRightTrims(s: string, l: string, i: nat)
    requires i + |l| == |s| && l == s[i..]
    requires forall k :: 0 <= k < i ==> IsSpace(s[k])
    ensures TrimmedAt(s, StripRight(l), i)
  {
    var r := StripRight(l);
    assert s[i..i + |r|] == r;
    forall k | i + |r| <= k < |s|
      ensures IsSpace(s[k])
    {
      assert s[k] == l[k - i];
    }
  }

  // ---------------------------------------------------------------------------
  // str.split(sep)

  /** The leftmost occurrence of `sep` in `s`, as `s.find(sep)` gives it. */
  function IndexOf(s: string, sep: string): (r: Option<nat>)
    decreases |s|
    ensures r.Some? ==> r.value + |sep| <= |s|
  {
    if IsPrefix(sep, s) then Some(0)
    else if |s| == 0 then None
    else match IndexOf(s[1..], sep)
      case None => None
      case Some(i) => Some(i + 1)
  }

  /** `s.find(sep)` gives the leftmost occurrence, and finds nothing exactly when `sep` does not occur. */
  lemma {:induction false} IndexOfIsLeftmost(s: string, sep: string)
    ensures IndexOf(s, sep).Some? ==> OccursAt(s, sep, IndexOf(s, sep).value)
    ensures IndexOf(s, sep).Some? ==> forall j :: 0 <= j < IndexOf(s, sep).value ==> !OccursAt(s, sep, j)
    ensures IndexOf(s, sep).None? <==> !Contains(s, sep)
    decreases |s|
  {
    if IsPrefix(sep, s) {
      assert OccursAt(s, sep, 0);
    } else if |s| > 0 {
      var t := s[1..];
      IndexOfIsLeftmost(t, sep);
      var r := IndexOf(t, sep);
      if r.Some? {
        var i := r.value;
        assert i + |sep| <= |t|;
        assert IndexOf(s, sep).value == i + 1;
        assert t[i..i + |sep|] == s[i + 1..i + 1 + |sep|];
        forall j | 0 <= j < i + 1
          ensures !OccursAt(s, sep, j)
        {
          if j == 0 {
            assert s[0..|sep|] == s[..|sep|] by { assert s[0..] == s; }
          } else if j + |sep| <= |s| {
            assert !OccursAt(t, sep, j - 1);
            assert t[j - 1..j - 1 + |sep|] == s[j..j + |sep|];
          }
        }
      }
    }
  }

  /** What `s.find(sep)` finds is an occurrence. */
  lemma IndexOfOccurs(s: string, sep: string)
    requires IndexOf(s, sep).Some?
    ensures OccursAt(s, sep, IndexOf(s, sep).value)
  {
    IndexOfIsLeftmost(s, sep);
  }

  /** `s.split(sep)`: the pieces between non-overlapping occurrences of `sep`, found left to right. */
  function Split(s: string, sep: string): (parts: seq<string>)
    requires |sep| > 0
    decreases |s|
    ensures |parts| >= 1
  {
    match IndexOf(s, sep)
    case None => [s]
    case Some(i) => [s[..i]] + Split(s[i + |sep|..], sep)
  }

  /** `sep.join(parts)`. */
  function JoinWith(parts: seq<string>, sep: string): string
    decreases |parts|
  {
    if |parts| == 0 then ""
    else if |parts| == 1 then parts[0]
    else parts[0] + sep + JoinWith(parts[1..], sep)
  }

  /** One step of `Split`: the piece before the leftmost separator, then the split of the rest. */
  lemma SplitAt(s: string, sep: string)
    requires |sep| > 0 && IndexOf(s, sep).Some?
    ensures Split(s, sep) == [s[..IndexOf(s, sep).value]] + Split(s[IndexOf(s, sep).value + |sep|..], sep)
  {
  }

  lemma JoinWithCons(head: string, tail: seq<string>, sep: string)
    requires |tail| >= 1
    ensures JoinWith([head] + tail, sep) == head + sep + JoinWith(tail, sep)
  {
    assert ([head] + tail)[1..] == tail;
  }

  /** A string is the text before an occurrence, the occurrence, and the text after it. */
  lemma AroundOccurrence(s: string, sep: string, i: int)
    requires OccursAt(s, sep, i)
    ensures s == s[..i] + sep + s[i + |sep|..]
  {
    assert s == s[..i] + s[i..i + |sep|] + s[i + |sep|..];
  }

  /** Splitting and joining with the same separator gives the string back. */
  lemma {:induction false} JoinSplit(s: string, sep: string)
    requires |sep| > 0
    ensures |Split(s, sep)| >= 1
    ensures JoinWith(Split(s, sep), sep) == s
    decreases |s|
  {
    var idx := IndexOf(s, sep);
    if idx.Some? {
      var i := idx.value;
      IndexOfOccurs(s, sep);
      SplitAt(s, sep);
      var rest := s[i + |sep|..];
      JoinSplit(rest, sep);
      JoinWithCons(s[..i], Split(rest, sep), sep);
      AroundOccurrence(s, sep, i);
    }
  }

  /** More than one piece exactly when the separator occurs. */
  lemma SplitCount(s: string, sep: string)
    requires |sep| > 0
    ensures |Split(s, sep)| > 1 <==> Contains(s, sep)
  {
    IndexOfIsLeftmost(s, sep);
    if IndexOf(s, sep).Some? {
      SplitAt(s, sep);
    }
  }

  /** No piece of a split contains the separator. */
  lemma {:induction false} SplitPiecesAvoidSep(s: string, sep: string)
    requires |sep| > 0
    ensures forall k :: 0 <= k < |Split(s, sep)| ==> !Contains(Split(s, sep)[k], sep)
    decreases |s|
  {
    IndexOfIsLeftmost(s, sep);
    if IndexOf(s, sep).Some? {
      var i := IndexOf(s, sep).value;
      SplitAt(s, sep);
      SplitPiecesAvoidSep(s[i + |sep|..], sep);
      var head := s[..i];
      ContainsIffOccurs(head, sep);
      forall j | OccursAt(head, sep, j) ensures false {
        assert head[j..j + |sep|] == s[j..j + |sep|];
        assert OccursAt(s, sep, j);
      }
    }
  }

  /** Joining at least two pieces puts the separator between the join of all but the last
      piece and the last piece. */
  lemma {:induction false} JoinWithLast(parts: seq<string>, sep: string)
    requires |parts| >= 2
    ensures JoinWith(parts, sep) == JoinWith(parts[..|parts| - 1], sep) + sep + parts[|parts| - 1]
    decreases |parts|
  {
    var init := parts[..|parts| - 1];
    if |parts| > 2 {
      var t := parts[1..];
      JoinWithLast(t, sep);
      assert t[..|t| - 1] == init[1..];
      assert init[0] == parts[0];
    }
  }
}
