/**
 * The Python string operations the node functions parse tool output with:
 * `str.find`, `str.split(sep)`, `sep.join(parts)` and `str.strip()`.
 */
module PyStr {
  import opened Wrappers

  /** `sub` occurs in `s` starting at index `i`. */
  predicate OccursAt(s: string, sub: string, i: nat)
  {
    i + |sub| <= |s| && s[i..i + |sub|] == sub
  }

  /** The first occurrence of `sub` in `s` at or after index `k`. */
  function FindFrom(s: string, sub: string, k: nat): (r: Option<nat>)
    requires |sub| > 0
    ensures r.Some? ==> k <= r.value && OccursAt(s, sub, r.value)
    ensures r.Some? ==> forall i: nat :: k <= i < r.value ==> !OccursAt(s, sub, i)
    ensures r.None? ==> forall i: nat :: k <= i ==> !OccursAt(s, sub, i)
    decreases |s| - k
  {
    if k + |sub| > |s| then None
    else if s[k..k + |sub|] == sub then Some(k)
    else FindFrom(s, sub, k + 1)
  }

  /** `s.find(sub)`, with None for Python's -1. */
  function Find(s: string, sub: string): (r: Option<nat>)
    requires |sub| > 0
    ensures r.Some? ==> OccursAt(s, sub, r.value) && forall i: nat :: i < r.value ==> !OccursAt(s, sub, i)
    ensures r.None? ==> forall i: nat :: !OccursAt(s, sub, i)
  {
    FindFrom(s, sub, 0)
  }

  /** `sub in s`. */
  predicate Contains(s: string, sub: string)
    requires |sub| > 0
  {
    Find(s, sub).Some?
  }

  /** A one-character separator occurs exactly when the character does. */
  lemma ContainsChar(s: string, c: char)
    ensures Contains(s, [c]) <==> c in s
  {
    if c in s {
      var i :| 0 <= i < |s| && s[i] == c;
      assert OccursAt(s, [c], i);
    }
    if Contains(s, [c]) {
      var i := Find(s, [c]).value;
      assert s[i..i + 1] == [c];
      assert s[i] == c;
    }
  }

  /** For a one-character separator, `find` is the index of the first such character. */
  lemma FindChar(s: string, c: char)
    ensures Find(s, [c]).Some? ==>
              Find(s, [c]).value < |s| && s[Find(s, [c]).value] == c && c !in s[..Find(s, [c]).value]
    ensures Find(s, [c]).None? ==> c !in s
  {
    forall j: nat | j < |s|
      ensures OccursAt(s, [c], j) <==> s[j] == c
    {
      assert s[j..j + 1] == [s[j]];
    }
  }

  /**
   * The first piece of a split at a one-character separator: the text up to
   * the first occurrence of the character, or all of it when there is none.
   */
  lemma SplitFirstPiece(s: string, c: char)
    ensures var j := if Find(s, [c]).Some? then Find(s, [c]).value else |s|;
            && j <= |s| && Split(s, [c])[0] == s[..j] && c !in s[..j] && (j == |s| || s[j] == c)
  {
    FindChar(s, c);
  }

  /**
   * `s[i + 1..j]` is the text between the first `c` of `s`, at `i`, and
   * the next `c` at `j`, or the end of `s` when there is no other.
   */
  predicate SecondField(s: string, c: char, i: nat, j: nat)
  {
    && i < j <= |s| && s[i] == c && c !in s[..i]
    && c !in s[i + 1..j] && (j == |s| || s[j] == c)
  }

  /** The second piece of a split at a one-character separator, when there is one. */
  lemma SecondPiece(s: string, c: char)
    requires |Split(s, [c])| >= 2
    ensures exists i: nat, j: nat :: SecondField(s, c, i, j) && Split(s, [c])[1] == s[i + 1..j]
  {
    FindChar(s, c);
    var i := Find(s, [c]).value;
    var rest := s[i + 1..];
    SplitFirstPiece(rest, c);
    var j := i + 1 + (if Find(rest, [c]).Some? then Find(rest, [c]).value else |rest|);
    assert Split(s, [c]) == [s[..i]] + Split(rest, [c]);
    assert rest[..j - i - 1] == s[i + 1..j];
    assert SecondField(s, c, i, j);
  }

  /** `sep.join(parts)`. */
  function Join(parts: seq<string>, sep: string): string
  {
    if |parts| == 0 then ""
    else if |parts| == 1 then parts[0]
    else parts[0] + sep + Join(parts[1..], sep)
  }

  /** No occurrence before index `i` means none inside the prefix `s[..i]`. */
  lemma PrefixFree(s: string, sep: string, i: nat)
    requires |sep| > 0 && i <= |s|
    requires forall j: nat :: j < i ==> !OccursAt(s, sep, j)
    ensures !Contains(s[..i], sep)
  {
    if Contains(s[..i], sep) {
      var j := Find(s[..i], sep).value;
      assert s[..i][j..j + |sep|] == s[j..j + |sep|];
      assert OccursAt(s, sep, j);
      assert false;
    }
  }

  /**
   * `s.split(sep)`: the pieces between the non-overlapping occurrences of
   * `sep`, scanning left to right; there is always at least one.
   */
  function Split(s: string, sep: string): (r: seq<string>)
    requires |sep| > 0
    ensures |r| >= 1
    decreases |s|
  {
    match Find(s, sep)
    case None => [s]
    case Some(i) => [s[..i]] + Split(s[i + |sep|..], sep)
  }

  /**
   * What a split means: joining the pieces back with `sep` gives `s`, no piece
   * contains `sep`, there is a second piece exactly when `s` contains `sep`,
   * and the cuts are made at the leftmost non-overlapping occurrences: from
   * the start of every piece but the last, the first occurrence of `sep`
   * begins right where that piece ends.
   */
  lemma SplitSpec(s: string, sep: string)
    requires |sep| > 0
    ensures |Split(s, sep)| == 1 <==> !Contains(s, sep)
    ensures Join(Split(s, sep), sep) == s
    ensures forall k :: 0 <= k < |Split(s, sep)| ==> !Contains(Split(s, sep)[k], sep)
    ensures forall k :: 0 <= k < |Split(s, sep)| - 1 ==>
              Find(Join(Split(s, sep)[k..], sep), sep) == Some(|Split(s, sep)[k]|)
  {
    SplitJoinBack(s, sep);
    SplitLeftmost(s, sep);
  }

  /** The pieces join back to `s`, none contains `sep`, and there is one piece exactly when `sep` is absent. */
  lemma {:induction false} SplitJoinBack(s: string, sep: string)
    requires |sep| > 0
    ensures |Split(s, sep)| == 1 <==> !Contains(s, sep)
    ensures Join(Split(s, sep), sep) == s
    ensures forall k :: 0 <= k < |Split(s, sep)| ==> !Contains(Split(s, sep)[k], sep)
    decreases |s|
  {
    match Find(s, sep)
    case None =>
    case Some(i) =>
      var rest := Split(s[i + |sep|..], sep);
      SplitJoinBack(s[i + |sep|..], sep);
      PrefixFree(s, sep, i);
      SplitAtOccurrence(s, sep, i);
      JoinCons(s[..i], rest, sep);
  }

  /** From the start of every piece but the last, the first occurrence of `sep` begins where that piece ends. */
  lemma {:induction false} SplitLeftmost(s: string, sep: string)
    requires |sep| > 0
    ensures forall k :: 0 <= k < |Split(s, sep)| - 1 ==>
              Find(Join(Split(s, sep)[k..], sep), sep) == Some(|Split(s, sep)[k]|)
    decreases |s|
  {
    match Find(s, sep)
    case None =>
    case Some(i) =>
      var rest := Split(s[i + |sep|..], sep);
      SplitLeftmost(s[i + |sep|..], sep);
      SplitJoinBack(s, sep);
      var r := Split(s, sep);
      assert r == [s[..i]] + rest;
      assert Join(r[0..], sep) == s by {
        assert r[0..] == r;
      }
      forall k | 1 <= k < |r| - 1
        ensures r[k..] == rest[k - 1..] && r[k] == rest[k - 1]
      {
      }
  }

  /** Cutting `s` around an occurrence of `sep` and gluing it back gives `s`. */
  lemma SplitAtOccurrence(s: string, sep: string, i: nat)
    requires OccursAt(s, sep, i)
    ensures s[..i] + sep + s[i + |sep|..] == s
  {
    assert s == s[..i] + s[i..i + |sep|] + s[i + |sep|..];
  }

  /** Joining a non-empty tail after a first piece. */
  lemma JoinCons(a: string, rest: seq<string>, sep: string)
    requires |rest| >= 1
    ensures Join([a] + rest, sep) == a + sep + Join(rest, sep)
  {
    assert ([a] + rest)[1..] == rest;
  }

  /**
   * Round trip for a one-character separator: splitting the joined pieces
   * gives the pieces back, provided none of them contains the separator.
   */
  lemma {:induction false} SplitJoin(parts: seq<string>, c: char)
    requires |parts| >= 1
    requires forall k :: 0 <= k < |parts| ==> c !in parts[k]
    ensures Split(Join(parts, [c]), [c]) == parts
    decreases |parts|
  {
    var a := parts[0];
    if |parts| == 1 {
      ContainsChar(a, c);
    } else {
      var rest := Join(parts[1..], [c]);
      var s := a + [c] + rest;
      assert Join(parts, [c]) == s;
      assert OccursAt(s, [c], |a|) by {
        assert s[|a|..|a| + 1] == [c];
      }
      forall j: nat | j < |a|
        ensures !OccursAt(s, [c], j)
      {
        assert s[j] == a[j];
        assert a[j] != c;
      }
      assert Find(s, [c]) == Some(|a|);
      assert s[..|a|] == a;
      assert s[|a| + 1..] == rest;
      SplitJoin(parts[1..], c);
    }
  }

  /**
   * The first piece of a split: when the separator's first character does not
   * occur in `a`, splitting `a + sep + b` yields `a` first, whatever `b` holds.
   */
  lemma SplitHead(a: string, sep: string, b: string)
    requires |sep| > 0
    requires sep[0] !in a
    ensures Split(a + sep + b, sep)[0] == a
  {
    var s := a + sep + b;
    assert OccursAt(s, sep, |a|) by {
      assert s[|a|..|a| + |sep|] == sep;
    }
    forall j: nat | j < |a|
      ensures !OccursAt(s, sep, j)
    {
      assert s[j] == a[j];
    }
    assert Find(s, sep) == Some(|a|);
    assert s[..|a|] == a;
  }

  /** The characters `str.isspace` accepts. */
  predicate IsSpace(c: char)
  {
    || ('\t' <= c <= '\r')
    || ('\U{1C}' <= c <= ' ')
    || c == '\U{85}' || c == '\U{A0}' || c == '\U{1680}'
    || ('\U{2000}' <= c <= '\U{200A}')
    || c == '\U{2028}' || c == '\U{2029}' || c == '\U{202F}' || c == '\U{205F}' || c == '\U{3000}'
  }

  /** Neither end of `s` is whitespace. */
  predicate IsStripped(s: string)
  {
    s == [] || (!IsSpace(s[0]) && !IsSpace(s[|s| - 1]))
  }

  /** `s.lstrip()`: drops the leading whitespace and nothing else. */
  function StripStart(s: string): (r: string)
    ensures |r| <= |s| && r == s[|s| - |r|..]
    ensures forall i :: 0 <= i < |s| - |r| ==> IsSpace(s[i])
    ensures r == [] || !IsSpace(r[0])
  {
    if s != [] && IsSpace(s[0]) then StripStart(s[1..]) else s
  }

  /** `s.rstrip()`: drops the trailing whitespace and nothing else. */
  function StripEnd(s: string): (r: string)
    ensures |r| <= |s| && r == s[..|r|]
    ensures forall i :: |r| <= i < |s| ==> IsSpace(s[i])
    ensures r == [] || !IsSpace(r[|r| - 1])
  {
    if s != [] && IsSpace(s[|s| - 1]) then StripEnd(s[..|s| - 1]) else s
  }

  /**
   * `s.strip()`: a slice of `s` with whitespace at neither end, obtained by
   * removing whitespace only; a string already stripped is left as it is.
   */
  function Strip(s: string): (r: string)
    ensures IsStripped(r)
    ensures IsStripped(s) ==> r == s
    ensures exists i: nat :: StrippedAt(s, r, i)
  {
    StripSlice(s, StripStart(s), StripEnd(StripStart(s)));
    StripEnd(StripStart(s))
  }

  /**
   * Stripping both ends: when `t` is `s` without its leading whitespace and `r`
   * is `t` without its trailing whitespace, `r` is the slice of `s` after the
   * leading whitespace.
   */
  lemma StripSlice(s: string, t: string, r: string)
    requires |t| <= |s| && t == s[|s| - |t|..] && forall j :: 0 <= j < |s| - |t| ==> IsSpace(s[j])
    requires |r| <= |t| && r == t[..|r|] && forall j :: |r| <= j < |t| ==> IsSpace(t[j])
    ensures StrippedAt(s, r, |s| - |t|)
  {
    var i := |s| - |t|;
    SliceOfSuffix(s, i, |r|);
    forall j | i + |r| <= j < |s|
      ensures IsSpace(s[j])
    {
      assert s[j] == t[j - i];
    }
  }

  /** `r` is the slice of `s` at `i`, and everything around it is whitespace. */
  predicate StrippedAt(s: string, r: string, i: nat)
  {
    && i + |r| <= |s|
    && r == s[i..i + |r|]
    && (forall j :: 0 <= j < i ==> IsSpace(s[j]))
    && (forall j :: i + |r| <= j < |s| ==> IsSpace(s[j]))
  }

  /** A prefix of a suffix is a middle slice. */
  lemma SliceOfSuffix(s: string, i: nat, k: nat)
    requires i + k <= |s|
    ensures s[i..][..k] == s[i..i + k]
  {
  }

  /** `strip` gives the empty string exactly for all-whitespace input. */
  lemma StripEmpty(s: string)
    ensures Strip(s) == [] <==> forall j :: 0 <= j < |s| ==> IsSpace(s[j])
  {
    var i: nat :| StrippedAt(s, Strip(s), i);
    if forall j :: 0 <= j < |s| ==> IsSpace(s[j]) {
      if Strip(s) != [] {
        assert IsSpace(s[i]);
      }
    }
  }

  /** Strip undoes whitespace padding: it recovers any stripped `x` from `a + x + b`. */
  lemma StripPadding(a: string, x: string, b: string)
    requires forall i :: 0 <= i < |a| ==> IsSpace(a[i])
    requires forall i :: 0 <= i < |b| ==> IsSpace(b[i])
    requires x != [] && IsStripped(x)
    ensures Strip(a + x + b) == x
  {
    assert (x + b)[0] == x[0];
    assert a + x + b == a + (x + b);
    StripStartPadding(a, x + b);
    StripEndPadding(x, b);
    assert Strip(a + x + b) == StripEnd(StripStart(a + x + b));
  }

  /** `lstrip` removes exactly a whitespace prefix before a non-space. */
  lemma StripStartPadding(a: string, y: string)
    requires forall i :: 0 <= i < |a| ==> IsSpace(a[i])
    requires y != [] && !IsSpace(y[0])
    ensures StripStart(a + y) == y
  {
    var s := a + y;
    var t := StripStart(s);
    assert s[|a|] == y[0];
    assert |s| - |t| == |a|;
  }

  /** `rstrip` removes exactly a whitespace suffix after a non-space. */
  lemma StripEndPadding(y: string, b: string)
    requires forall i :: 0 <= i < |b| ==> IsSpace(b[i])
    requires y != [] && !IsSpace(y[|y| - 1])
    ensures StripEnd(y + b) == y
  {
    var t := y + b;
    var r := StripEnd(t);
    assert t[|y| - 1] == y[|y| - 1];
    assert |r| == |y|;
  }
}
