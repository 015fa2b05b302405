/** The few operations of Go's `strings` package that the pipeline relies on, over `seq<char>`. */
module Strings {

  /** White space as Go's `unicode.IsSpace` defines it (used by `strings.TrimSpace`): space,
      the ASCII controls tab to carriage return, and a few wider code points. */
  predicate IsSpace(c: char) {
    c == ' ' || ('\t' <= c <= '\r') || ('\U{0085}' <= c && IsWideSpace(c))
  }

  /** The white space code points of `unicode.IsSpace` above U+0084. */
  predicate IsWideSpace(c: char) {
    || c == '\U{0085}' || c == '\U{00A0}' || c == '\U{1680}' || ('\U{2000}' <= c <= '\U{200A}')
    || c == '\U{2028}' || c == '\U{2029}' || c == '\U{202F}' || c == '\U{205F}' || c == '\U{3000}'
  }

  /** `strings.HasPrefix`. */
  predicate HasPrefix(s: string, prefix: string) {
    |prefix| <= |s| && s[..|prefix|] == prefix
  }

  /** `strings.TrimPrefix`: drops `prefix` once when `s` starts with it. */
  function TrimPrefix(s: string, prefix: string): (r: string)
    ensures HasPrefix(s, prefix) ==> s == prefix + r
    ensures !HasPrefix(s, prefix) ==> r == s
  {
    if HasPrefix(s, prefix) then s[|prefix|..] else s
  }

  /** `strings.Contains`: `sub` occurs somewhere in `s`. */
  predicate Contains(s: string, sub: string)
    decreases |s|
  {
    HasPrefix(s, sub) || (|s| > 0 && Contains(s[1..], sub))
  }

  /** Whatever surrounds an occurrence, the occurrence is found. */
  lemma {:induction false} ContainsInfix(a: string, sub: string, c: string)
    ensures Contains(a + sub + c, sub)
    decreases |a|
  {
    if |a| == 0 {
      assert a + sub + c == sub + c;
      assert (sub + c)[..|sub|] == sub;
    } else {
      assert (a + sub + c)[1..] == a[1..] + sub + c;
      ContainsInfix(a[1..], sub, c);
    }
  }

  /** `sub` occurs in `s` starting at index `i`. */
  predicate OccursAt(s: string, i: nat, sub: string) {
    i + |sub| <= |s| && s[i..i + |sub|] == sub
  }

  /** `Contains` holds exactly when there is a position where `sub` occurs. */
  lemma {:induction false} ContainsIffOccurs(s: string, sub: string)
    ensures Contains(s, sub) <==> exists i :: 0 <= i <= |s| && OccursAt(s, i, sub)
    decreases |s|
  {
    if HasPrefix(s, sub) {
      assert OccursAt(s, 0, sub);
    }
    if |s| > 0 {
      var t := s[1..];
      ContainsIffOccurs(t, sub);
      if Contains(t, sub) {
        var i :| 0 <= i <= |t| && OccursAt(t, i, sub);
        OccursFromTail(s, i, sub);
      }
      if exists i :: 0 <= i <= |s| && OccursAt(s, i, sub) {
        var i :| 0 <= i <= |s| && OccursAt(s, i, sub);
        if i > 0 {
          OccursInTail(s, i, sub);
        } else {
          assert s[..|sub|] == s[i..i + |sub|];
        }
      }
    } else if exists i :: 0 <= i <= |s| && OccursAt(s, i, sub) {
      var i :| 0 <= i <= |s| && OccursAt(s, i, sub);
      assert s[..|sub|] == s[i..i + |sub|];
    }
  }

  lemma OccursInTail(s: string, i: nat, sub: string)
    requires 0 < i && OccursAt(s, i, sub)
    ensures OccursAt(s[1..], i - 1, sub)
  {
    assert s[1..][i - 1..i - 1 + |sub|] == s[i..i + |sub|];
  }

  lemma OccursFromTail(s: string, i: nat, sub: string)
    requires |s| > 0 && OccursAt(s[1..], i, sub)
    ensures OccursAt(s, i + 1, sub)
  {
    assert s[1..][i..i + |sub|] == s[i + 1..i + 1 + |sub|];
  }

  /** A sub-string with a character the text lacks never occurs in it. */
  lemma {:induction false} MissingCharNotContained(s: string, sub: string, c: char)
    requires c in sub && c !in s
    ensures !Contains(s, sub)
    decreases |s|
  {
    if |s| > 0 {
      assert forall x :: x in s[1..] ==> x in s;
      MissingCharNotContained(s[1..], sub, c);
    }
  }

  /** A sub-string longer than the text never occurs in it. */
  lemma {:induction false} TooLongNotContained(s: string, sub: string)
    requires |sub| > |s|
    ensures !Contains(s, sub)
    decreases |s|
  {
    if |s| > 0 {
      TooLongNotContained(s[1..], sub);
    }
  }

  /** Leading white space removed. */
  function TrimLeftSpace(s: string): (r: string)
    ensures |r| <= |s| && r == s[|s| - |r|..]
    ensures r == [] || !IsSpace(r[0])
    ensures forall i :: 0 <= i < |s| - |r| ==> IsSpace(s[i])
    decreases |s|
  {
    if |s| > 0 && IsSpace(s[0]) then TrimLeftSpace(s[1..]) else s
  }

  /** Trailing white space removed. */
  function TrimRightSpace(s: string): (r: string)
    ensures |r| <= |s| && r == s[..|r|]
    ensures r == [] || !IsSpace(r[|r| - 1])
    ensures forall i :: |r| <= i < |s| ==> IsSpace(s[i])
    decreases |s|
  {
    if |s| > 0 && IsSpace(s[|s| - 1]) then TrimRightSpace(s[..|s| - 1]) else s
  }

  /** Text that neither starts nor ends with white space. */
  predicate Trimmed(s: string) {
    s == [] || (!IsSpace(s[0]) && !IsSpace(s[|s| - 1]))
  }

  /** Text made of white space only. */
  predicate AllSpace(t: string) {
    forall i :: 0 <= i < |t| ==> IsSpace(t[i])
  }

  /** `strings.TrimSpace`: the result neither starts nor ends with white space, and text that
      already has that shape comes back unchanged. `TrimSpaceRemovesEdgeSpace` shows that only
      the white space at the two ends is removed. */
  function TrimSpace(s: string): (r: string)
    ensures Trimmed(r)
    ensures Trimmed(s) ==> r == s
  {
    TrimRightSpace(TrimLeftSpace(s))
  }

  /** `s` is the trimmed text with white space before and after it, and nothing else. */
  lemma TrimSpaceRemovesEdgeSpace(s: string)
    ensures exists pre, post :: s == pre + TrimSpace(s) + post && AllSpace(pre) && AllSpace(post)
  {
    var l := TrimLeftSpace(s);
    var pre := LeadingSpace(s);
    var post := TrailingSpace(l);
    SpaceAround(s, pre, l, TrimRightSpace(l), post);
  }

  lemma SpaceAround(s: string, pre: string, l: string, r: string, post: string)
    requires s == pre + l && l == r + post && AllSpace(pre) && AllSpace(post)
    ensures exists pre, post :: s == pre + r + post && AllSpace(pre) && AllSpace(post)
  {
    assert s == pre + r + post;
  }

  /** The white space `TrimLeftSpace` drops, in front of what it keeps. */
  lemma LeadingSpace(s: string) returns (pre: string)
    ensures s == pre + TrimLeftSpace(s) && AllSpace(pre)
  {
    pre := s[..|s| - |TrimLeftSpace(s)|];
  }

  /** The white space `TrimRightSpace` drops, after what it keeps. */
  lemma TrailingSpace(s: string) returns (post: string)
    ensures s == TrimRightSpace(s) + post && AllSpace(post)
  {
    var r := TrimRightSpace(s);
    post := s[|r|..];
    forall i | 0 <= i < |post| ensures IsSpace(post[i]) {
      assert post[i] == s[|r| + i];
    }
  }

  /** Go's `unicode.ToLower` on the code points whose lower case is an ASCII letter: the
      letters A-Z, the Kelvin sign and the capital I with dot above; every other code point
      is kept as it is. */
  function LowerChar(c: char): (r: char)
    ensures 'A' <= c <= 'Z' ==> r as int == c as int + 32
    ensures !('A' <= c <= 'Z') && c != '\U{212A}' && c != '\U{0130}' ==> r == c
  {
    if 'A' <= c <= 'Z' then (c as int + 32) as char
    else if c == '\U{212A}' then 'k'
    else if c == '\U{0130}' then 'i'
    else c
  }

  /** `strings.ToLower`, one code point at a time. */
  function ToLower(s: string): (r: string)
    ensures |r| == |s|
    ensures forall i :: 0 <= i < |s| ==> r[i] == LowerChar(s[i])
  {
    seq(|s|, i requires 0 <= i < |s| => LowerChar(s[i]))
  }

  /** Concatenation of `parts` with `sep` between neighbours (`strings.Join` for a one-character
      separator). */
  function Join(parts: seq<string>, sep: char): string
    requires |parts| >= 1
    decreases |parts|
  {
    if |parts| == 1 then parts[0] else parts[0] + [sep] + Join(parts[1..], sep)
  }

  /** `strings.Split` with a one-character separator: the pieces between separators, never
      empty as a list, none containing the separator, and joining back to `s`. */
  function Split(s: string, sep: char): (parts: seq<string>)
    ensures |parts| >= 1
    ensures forall i :: 0 <= i < |parts| ==> sep !in parts[i]
    ensures Join(parts, sep) == s
    ensures |parts| >= 2 <==> sep in s
    decreases |s|
  {
    if |s| == 0 then [""]
    else
      var rest := Split(s[1..], sep);
      assert s == [s[0]] + s[1..];
      if s[0] == sep then
        JoinAfterEmptyPart(rest, sep);
        [""] + rest
      else
        JoinExtendingFirstPart(s[0], rest, sep);
        [[s[0]] + rest[0]] + rest[1..]
  }

  /** An empty first part contributes only its separator. */
  lemma JoinAfterEmptyPart(rest: seq<string>, sep: char)
    requires |rest| >= 1
    ensures Join([""] + rest, sep) == [sep] + Join(rest, sep)
  {
    assert ([""] + rest)[1..] == rest;
  }

  /** Putting a character in front of the first part puts it in front of the join. */
  lemma JoinExtendingFirstPart(c: char, rest: seq<string>, sep: char)
    requires |rest| >= 1
    ensures Join([[c] + rest[0]] + rest[1..], sep) == [c] + Join(rest, sep)
  {
    var parts := [[c] + rest[0]] + rest[1..];
    if |rest| >= 2 {
      assert parts[1..] == rest[1..];
    }
  }

  /** A piece without the separator followed by the separator is split off as the first part. */
  lemma {:induction false} SplitAtFirst(a: string, sep: char, rest: string)
    requires sep !in a
    ensures Split(a + [sep] + rest, sep) == [a] + Split(rest, sep)
    decreases |a|
  {
    var s := a + [sep] + rest;
    if |a| == 0 {
      assert s[1..] == rest;
    } else {
      assert s[1..] == a[1..] + [sep] + rest;
      SplitAtFirst(a[1..], sep, rest);
      assert [a[0]] + a[1..] == a;
    }
  }

  /** Text without the separator is a single part. */
  lemma {:induction false} SplitWithoutSeparator(a: string, sep: char)
    requires sep !in a
    ensures Split(a, sep) == [a]
  {
  }
}
