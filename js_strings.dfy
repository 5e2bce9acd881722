/** The JavaScript string operations the action relies on: `String.prototype.split`
    with a one-character separator, the last element of its result, and
    `toLowerCase` (restricted to ASCII letters). Each is given together with an
    independent description of its result (segments delimited by the separator,
    the final segment, a case-insensitive match) and the lemmas that connect the two. */
module JsStrings {

  /** Index of the first occurrence of `c` in `s`, or `|s|` when there is none. */
  function FirstIndex(s: string, c: char): (i: nat)
    ensures i <= |s|
    ensures i < |s| ==> s[i] == c
    ensures forall k :: 0 <= k < i ==> s[k] != c
  {
    if s == [] then 0
    else if s[0] == c then 0
    else 1 + FirstIndex(s[1..], c)
  }

  /** `s.split(sep)`: the pieces between occurrences of `sep`, in order.
      `"".split(sep)` is `[""]`, so the result is never empty. */
  function Split(s: string, sep: char): (parts: seq<string>)
    ensures |parts| >= 1
    decreases |s|
  {
    var i := FirstIndex(s, sep);
    if i == |s| then [s] else [s[..i]] + Split(s[i + 1..], sep)
  }

  /** `parts.join(sep)`, the inverse of Split. */
  function Join(parts: seq<string>, sep: char): string
    requires |parts| >= 1
  {
    if |parts| == 1 then parts[0] else parts[0] + [sep] + Join(parts[1..], sep)
  }

  function Last<T>(s: seq<T>): T
    requires |s| >= 1
  {
    s[|s| - 1]
  }

  /** `w` occurs in `s` at position `i`, delimited on both sides by `sep` or by an end of `s`. */
  ghost predicate SegmentAt(s: string, w: string, sep: char, i: nat)
  {
    && i + |w| <= |s|
    && s[i..i + |w|] == w
    && (i == 0 || s[i - 1] == sep)
    && (i + |w| == |s| || s[i + |w|] == sep)
  }

  /** `w` is one of the `sep`-delimited segments of `s`. */
  ghost predicate HasSegment(s: string, w: string, sep: char)
  {
    exists i: nat :: SegmentAt(s, w, sep, i)
  }

  /** `r` is what follows the last `sep` of `s` (all of `s` when it has no `sep`). */
  ghost predicate FinalSegment(s: string, sep: char, r: string)
  {
    && |r| <= |s|
    && s[|s| - |r|..] == r
    && sep !in r
    && (|r| < |s| ==> s[|s| - |r| - 1] == sep)
  }

  /** Split peels off the text before the first separator. */
  lemma SplitAtFirst(s: string, sep: char)
    requires FirstIndex(s, sep) < |s|
    ensures Split(s, sep) == [s[..FirstIndex(s, sep)]] + Split(s[FirstIndex(s, sep) + 1..], sep)
  {
  }

  /** The first part is the text before the first separator, and a second
      part exists exactly when there is a separator; it is the first part of
      the text after that separator. */
  lemma SplitFirstParts(s: string, sep: char)
    ensures Split(s, sep)[0] == s[..FirstIndex(s, sep)]
    ensures |Split(s, sep)| > 1 <==> sep in s
    ensures |Split(s, sep)| > 1 ==> Split(s, sep)[1] == Split(s[FirstIndex(s, sep) + 1..], sep)[0]
  {
    var i := FirstIndex(s, sep);
    if i < |s| {
      SplitAtFirst(s, sep);
    } else {
      assert s[..i] == s;
    }
  }

  /** When `s` contains `sep`, the first two parts with a separator between
      them are a prefix of `s` that ends at a separator or at the end. */
  lemma SecondPart(s: string, sep: char)
    requires sep in s
    ensures var parts := Split(s, sep);
            var w := parts[0] + [sep] + parts[1];
            && |parts| > 1 && sep !in parts[1] && w <= s && (|w| == |s| || s[|w|] == sep)
  {
    var parts := Split(s, sep);
    SplitFirstParts(s, sep);
    var i := FirstIndex(s, sep);
    var rest := s[i + 1..];
    SplitFirstParts(rest, sep);
    SplitPartsHaveNoSeparator(s, sep);
    var j := FirstIndex(rest, sep);
    SliceAroundIndex(s, i, j);
    assert j < |rest| ==> s[i + 1 + j] == rest[j];
  }

  lemma SliceAroundIndex(s: string, i: nat, j: nat)
    requires i < |s| && i + 1 + j <= |s|
    ensures s[..i] + [s[i]] + s[i + 1..][..j] == s[..i + 1 + j]
  {
  }

  lemma JoinCons(p: string, rest: seq<string>, sep: char)
    requires |rest| >= 1
    ensures Join([p] + rest, sep) == p + [sep] + Join(rest, sep)
  {
    assert ([p] + rest)[1..] == rest;
  }

  lemma {:induction false} SplitJoin(s: string, sep: char)
    ensures Join(Split(s, sep), sep) == s
    decreases |s|
  {
    var i := FirstIndex(s, sep);
    if i < |s| {
      var t := s[i + 1..];
      SplitAtFirst(s, sep);
      SplitJoin(t, sep);
      JoinCons(s[..i], Split(t, sep), sep);
      assert s == s[..i] + [sep] + t;
    }
  }

  lemma {:induction false} SplitPartsHaveNoSeparator(s: string, sep: char)
    ensures forall p :: p in Split(s, sep) ==> sep !in p
    decreases |s|
  {
    var i := FirstIndex(s, sep);
    if i < |s| {
      SplitPartsHaveNoSeparator(s[i + 1..], sep);
      SplitAtFirst(s, sep);
    }
  }

  /** A segment of the text after a separator is a segment of the whole text. */
  lemma SegmentShift(s: string, i: nat, sep: char, w: string, j: nat)
    requires i < |s| && s[i] == sep
    ensures SegmentAt(s[i + 1..], w, sep, j) <==> SegmentAt(s, w, sep, i + 1 + j)
  {
    var t := s[i + 1..];
    if j + |w| <= |t| {
      assert s[i + 1 + j..i + 1 + j + |w|] == t[j..j + |w|];
      assert j > 0 ==> t[j - 1] == s[i + j];
      assert j + |w| < |t| ==> t[j + |w|] == s[i + 1 + j + |w|];
    }
  }

  lemma {:induction false} SplitPartIsSegment(s: string, sep: char, w: string)
    requires w in Split(s, sep)
    ensures HasSegment(s, w, sep)
    decreases |s|
  {
    var i := FirstIndex(s, sep);
    if i == |s| || w == s[..i] {
      assert SegmentAt(s, w, sep, 0);
    } else {
      var t := s[i + 1..];
      SplitAtFirst(s, sep);
      SplitPartIsSegment(t, sep, w);
      var j: nat :| SegmentAt(t, w, sep, j);
      SegmentShift(s, i, sep, w, j);
    }
  }

  /** A delimited segment that starts no later than the first separator is the first part. */
  lemma SegmentBeforeFirstSeparator(s: string, sep: char, w: string, j: nat)
    requires sep !in w && SegmentAt(s, w, sep, j) && j <= FirstIndex(s, sep)
    ensures j == 0 && w == s[..FirstIndex(s, sep)]
  {
  }

  lemma {:induction false} SegmentIsSplitPart(s: string, sep: char, w: string, j: nat)
    requires sep !in w && SegmentAt(s, w, sep, j)
    ensures w in Split(s, sep)
    decreases |s|
  {
    var i := FirstIndex(s, sep);
    if i == |s| {
      SegmentBeforeFirstSeparator(s, sep, w, j);
      assert s[..i] == s;
    } else if j <= i {
      SegmentBeforeFirstSeparator(s, sep, w, j);
      SplitAtFirst(s, sep);
    } else {
      var t := s[i + 1..];
      var j' := j - (i + 1);
      SegmentShift(s, i, sep, w, j');
      SegmentIsSplitPart(t, sep, w, j');
      SplitAtFirst(s, sep);
    }
  }

  /** Membership in the result of Split is exactly being a delimited segment. */
  lemma SplitSegments(s: string, sep: char, w: string)
    requires sep !in w
    ensures w in Split(s, sep) <==> HasSegment(s, w, sep)
  {
    if w in Split(s, sep) {
      SplitPartIsSegment(s, sep, w);
    }
    if HasSegment(s, w, sep) {
      var j: nat :| SegmentAt(s, w, sep, j);
      SegmentIsSplitPart(s, sep, w, j);
    }
  }

  /** The final segment of the text after a separator is the final segment of the whole. */
  lemma FinalSegmentOfSuffix(s: string, i: nat, sep: char, r: string)
    requires i < |s| && s[i] == sep && FinalSegment(s[i + 1..], sep, r)
    ensures FinalSegment(s, sep, r)
  {
    var t := s[i + 1..];
    assert s[|s| - |r|..] == t[|t| - |r|..];
    assert |r| < |t| ==> s[|s| - |r| - 1] == t[|t| - |r| - 1];
  }

  /** The last element of Split is the final segment. */
  lemma {:induction false} LastPartIsFinalSegment(s: string, sep: char)
    ensures FinalSegment(s, sep, Last(Split(s, sep)))
    decreases |s|
  {
    var i := FirstIndex(s, sep);
    if i < |s| {
      var t := s[i + 1..];
      SplitAtFirst(s, sep);
      LastPartIsFinalSegment(t, sep);
      assert Last(Split(s, sep)) == Last(Split(t, sep));
      FinalSegmentOfSuffix(s, i, sep, Last(Split(t, sep)));
    }
  }

  /** There is only one final segment. */
  lemma FinalSegmentUnique(s: string, sep: char, r1: string, r2: string)
    requires FinalSegment(s, sep, r1) && FinalSegment(s, sep, r2)
    ensures r1 == r2
  {
  }

  /** The final segment of `prefix + sep + w`, for `w` free of `sep`, is `w`. */
  lemma FinalSegmentAfter(prefix: string, sep: char, w: string)
    requires sep !in w
    ensures FinalSegment(prefix + [sep] + w, sep, w)
  {
    var s := prefix + [sep] + w;
    assert s[|s| - |w|..] == w;
    assert s[|s| - |w| - 1] == sep;
  }

  /** `c.toLowerCase()` for ASCII letters; every other character is left as it is. */
  function LowerChar(c: char): char
  {
    if 'A' <= c <= 'Z' then (c as int + 32) as char else c
  }

  function ToLowerCase(s: string): (r: string)
    ensures |r| == |s|
    ensures forall k :: 0 <= k < |s| ==> r[k] == LowerChar(s[k])
  {
    if s == [] then [] else [LowerChar(s[0])] + ToLowerCase(s[1..])
  }

  /** `s` spells `lower` up to ASCII case, where `lower` is written in lower case. */
  ghost predicate EqualsIgnoringCase(s: string, lower: string)
  {
    && |s| == |lower|
    && forall k :: 0 <= k < |s| ==>
         s[k] == lower[k] || ('a' <= lower[k] <= 'z' && s[k] as int == lower[k] as int - 32)
  }

  lemma LowerCaseMatches(s: string, lower: string)
    requires forall k :: 0 <= k < |lower| ==> !('A' <= lower[k] <= 'Z')
    ensures ToLowerCase(s) == lower <==> EqualsIgnoringCase(s, lower)
  {
    var r := ToLowerCase(s);
    if EqualsIgnoringCase(s, lower) {
      forall k | 0 <= k < |s| ensures r[k] == lower[k] {
        if s[k] != lower[k] {
          assert 'A' <= s[k] <= 'Z';
        }
      }
    }
    if r == lower {
      forall k | 0 <= k < |s|
        ensures s[k] == lower[k] || ('a' <= lower[k] <= 'z' && s[k] as int == lower[k] as int - 32)
      {
        assert r[k] == LowerChar(s[k]);
      }
    }
  }
}
