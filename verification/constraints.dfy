/** `parseVersionConstraint`: the normaliser that turns a dependency constraint such as
    `>=18.0.0` or `^8.1` into the `major.minor` text the base images are tagged with. */
module Constraints {
  import opened Strings
  import opened Patterns


  /** The range operators, in the order they are stripped. */
  const RangeOperators: seq<string> := [">=", "^", "~", "<", ">", "="]

  /** The characters a range operator can start with. */
  predicate IsOperatorStart(c: char) {
    c == '>' || c == '^' || c == '~' || c == '<' || c == '='
  }

  /** Each operator of `ops` is removed at most once, in order, when the text starts with it
      at that point; what remains is then trimmed of white space. */
  function StripThenTrim(s: string, ops: seq<string>): string
    decreases |ops|
  {
    if ops == [] then TrimSpace(s) else StripThenTrim(TrimPrefix(s, ops[0]), ops[1..])
  }

  /** The text the normaliser splits at dots: trimmed, operators stripped, trimmed again. */
  function ConstraintCore(constraint: string): string {
    StripThenTrim(TrimSpace(constraint), RangeOperators)
  }

  /** `parseVersionConstraint`: the `major.minor` prefix of the operator-free text, or "" when
      that text has no dot. A non-empty result is the longest prefix of the text holding exactly
      one dot. */
  function ParseVersionConstraint(constraint: string): (r: string)
    ensures r == "" <==> '.' !in ConstraintCore(constraint)
    ensures r != "" ==> HasPrefix(ConstraintCore(constraint), r)
    ensures r != "" ==> multiset(r)['.'] == 1
    ensures r != "" ==>
      |r| == |ConstraintCore(constraint)| || ConstraintCore(constraint)[|r|] == '.'
  {
    var core := ConstraintCore(constraint);
    var parts := Split(core, '.');
    if |parts| >= 2 then
      FirstTwoParts(parts, '.');
      parts[0] + "." + parts[1]
    else ""
  }

  /** What joining at least two separator-free parts looks like from the front. */
  lemma FirstTwoParts(parts: seq<string>, sep: char)
    requires |parts| >= 2
    requires forall i :: 0 <= i < |parts| ==> sep !in parts[i]
    ensures var head := parts[0] + [sep] + parts[1];
      && HasPrefix(Join(parts, sep), head)
      && multiset(head)[sep] == 1
      && (|head| == |Join(parts, sep)| || Join(parts, sep)[|head|] == sep)
  {
    SeparatorCountOfPair(parts[0], parts[1], sep);
    JoinFromTheFront(parts, sep);
  }

  /** Two separator-free texts joined by one separator hold exactly that separator. */
  lemma SeparatorCountOfPair(a: string, b: string, sep: char)
    requires sep !in a && sep !in b
    ensures multiset(a + [sep] + b)[sep] == 1
  {
    assert multiset(a + [sep] + b) == multiset(a) + multiset([sep]) + multiset(b);
    assert sep !in multiset(a) && sep !in multiset(b);
  }

  /** The join of at least two parts is the first two joined, then either nothing or a
      separator and the rest. */
  lemma JoinFromTheFront(parts: seq<string>, sep: char)
    requires |parts| >= 2
    ensures |parts| == 2 ==> Join(parts, sep) == parts[0] + [sep] + parts[1]
    ensures |parts| > 2 ==>
      Join(parts, sep) == parts[0] + [sep] + parts[1] + [sep] + Join(parts[2..], sep)
  {
    assert parts[1..][1..] == parts[2..];
  }

  /** Text that starts with neither white space nor an operator character and does not end
      in white space goes through trimming and operator stripping unchanged. */
  predicate IsBareVersionText(s: string) {
    s != [] && !IsSpace(s[0]) && !IsOperatorStart(s[0]) && !IsSpace(s[|s| - 1])
  }

  lemma {:induction false} StripKeepsBare(s: string, ops: seq<string>)
    requires s != [] && !IsOperatorStart(s[0])
    requires forall i :: 0 <= i < |ops| ==> ops[i] != [] && IsOperatorStart(ops[i][0])
    ensures StripThenTrim(s, ops) == TrimSpace(s)
    decreases |ops|
  {
    if ops != [] {
      assert !HasPrefix(s, ops[0]);
      StripKeepsBare(s, ops[1..]);
    }
  }

  lemma CoreOfBareText(s: string)
    requires IsBareVersionText(s)
    ensures ConstraintCore(s) == s
  {
    assert TrimSpace(s) == s;
    StripKeepsBare(s, RangeOperators);
  }

  /** Operators the text does not start with are skipped. */
  lemma {:induction false} StripSkips(s: string, ops: seq<string>, n: nat)
    requires n <= |ops|
    requires forall i :: 0 <= i < n ==> !HasPrefix(s, ops[i])
    ensures StripThenTrim(s, ops) == StripThenTrim(s, ops[n..])
    decreases n
  {
    if n > 0 {
      StripSkips(s, ops[1..], n - 1);
      assert ops[1..][n - 1..] == ops[n..];
    }
  }

  /** A `major.minor` token is two dot-free halves around one dot, with nothing to trim or
      strip. */
  lemma MajorMinorHalves(v: string) returns (a: string, b: string)
    requires IsMajorMinor(v)
    ensures v == a + "." + b && '.' !in a && '.' !in b
    ensures IsBareVersionText(v) && IsDigit(v[0])
  {
    var k :| 0 < k < |v| - 1 && v[k] == '.' && AllDigits(v[..k]) && AllDigits(v[k + 1..]);
    a, b := v[..k], v[k + 1..];
    assert v == a + "." + b;
    DigitsHaveNoDot(a);
    DigitsHaveNoDot(b);
    assert IsDigit(a[0]) && v[0] == a[0];
    assert IsDigit(b[|b| - 1]) && v[|v| - 1] == b[|b| - 1];
  }

  lemma DigitsHaveNoDot(s: string)
    requires AllDigits(s)
    ensures '.' !in s
  {
    forall i | 0 <= i < |s| ensures s[i] != '.' {
      assert IsDigit(s[i]);
    }
  }

  /** Whatever the constraint, a core of two dot-free halves around one dot is the result. */
  lemma ParseOfCore(constraint: string, a: string, b: string)
    requires '.' !in a && '.' !in b
    requires ConstraintCore(constraint) == a + "." + b
    ensures ParseVersionConstraint(constraint) == a + "." + b
  {
    SplitPair(a, b);
  }

  lemma SplitPair(a: string, b: string)
    requires '.' !in a && '.' !in b
    ensures Split(a + "." + b, '.') == [a, b]
  {
    SplitAtFirst(a, '.', b);
    SplitWithoutSeparator(b, '.');
  }

  /** Two dot-free halves around one dot, with nothing to trim or strip, are returned as they
      are. */
  lemma ParseOfBarePair(a: string, b: string)
    requires '.' !in a && '.' !in b
    requires IsBareVersionText(a + "." + b)
    ensures ParseVersionConstraint(a + "." + b) == a + "." + b
  {
    assert ConstraintCore(a + "." + b) == a + "." + b by { CoreOfBareText(a + "." + b); }
    ParseOfCore(a + "." + b, a, b);
  }

  /** An input of the form digits, dot, digits comes back unchanged. */
  lemma ParseKeepsMajorMinor(v: string)
    requires IsMajorMinor(v)
    ensures ParseVersionConstraint(v) == v
  {
    var a, b := MajorMinorHalves(v);
    ParseOfBarePair(a, b);
  }

  /** Normalising a normalised version again changes nothing, provided the first result neither
      starts with an operator character nor ends in white space. */
  lemma ParseIdempotentOnBareResult(constraint: string)
    requires ParseVersionConstraint(constraint) != ""
    requires IsBareVersionText(ParseVersionConstraint(constraint))
    ensures ParseVersionConstraint(ParseVersionConstraint(constraint))
      == ParseVersionConstraint(constraint)
  {
    var parts := Split(ConstraintCore(constraint), '.');
    ParseOfBarePair(parts[0], parts[1]);
  }

  /** The operators are stripped once each in a fixed order, so a reversed operator `=>`
      leaves a residue `>` that a second pass strips: normalisation is not idempotent in
      general. */
  lemma ReversedOperatorResidue(v: string)
    requires IsMajorMinor(v)
    ensures ParseVersionConstraint("=>" + v) == ">" + v
    ensures ParseVersionConstraint(">" + v) == v
  {
    ParseAfterReversedOperator(v);
    ParseAfterGreater(v);
  }

  lemma ParseAfterReversedOperator(v: string)
    requires IsMajorMinor(v)
    ensures ParseVersionConstraint("=>" + v) == ">" + v
  {
    var a, b := MajorMinorHalves(v);
    assert ">" + v == (">" + a) + "." + b;
    assert '.' !in ">" + a;
    CoreAfterReversedOperator(v);
    ParseOfCore("=>" + v, ">" + a, b);
  }

  lemma ParseAfterGreater(v: string)
    requires IsMajorMinor(v)
    ensures ParseVersionConstraint(">" + v) == v
  {
    var a, b := MajorMinorHalves(v);
    CoreAfterGreater(v);
    ParseOfCore(">" + v, a, b);
  }

  /** Text with nothing to trim enters the operator stripping as it is. */
  lemma CoreOfTrimmed(constraint: string)
    requires Trimmed(constraint)
    ensures ConstraintCore(constraint) == StripThenTrim(constraint, RangeOperators)
  {
  }

  lemma CoreAfterReversedOperator(v: string)
    requires IsBareVersionText(v)
    ensures ConstraintCore("=>" + v) == ">" + v
  {
    var s := "=>" + v;
    assert Trimmed(s) by { assert s[|s| - 1] == v[|v| - 1]; }
    CoreOfTrimmed(s);
    StripReversedOperator(v);
  }

  lemma StripReversedOperator(v: string)
    requires IsBareVersionText(v)
    ensures StripThenTrim("=>" + v, RangeOperators) == ">" + v
  {
    var s, t := "=>" + v, ">" + v;
    assert Trimmed(t) by { assert t[|t| - 1] == v[|v| - 1]; }
    assert s == "=" + t;
    StripOnlyEquals(t);
    EqualsSkipsFive(s);
  }

  /** Text starting with `=` passes the first five operators untouched. */
  lemma EqualsSkipsFive(s: string)
    requires s != [] && s[0] == '='
    ensures StripThenTrim(s, RangeOperators) == StripThenTrim(s, ["="])
  {
    forall i | 0 <= i < 5 ensures !HasPrefix(s, RangeOperators[i]) {
      assert s[0] != RangeOperators[i][0];
    }
    StripSkips(s, RangeOperators, 5);
    assert RangeOperators[5..] == ["="];
  }

  /** The last operator `=` taken off text with nothing to trim. */
  lemma StripOnlyEquals(t: string)
    requires Trimmed(t)
    ensures StripThenTrim("=" + t, ["="]) == t
  {
    var s := "=" + t;
    assert TrimPrefix(s, "=") == t by { assert s[..1] == "=" && s[1..] == t; }
  }

  lemma CoreAfterGreater(v: string)
    requires IsMajorMinor(v)
    ensures ConstraintCore(">" + v) == v
  {
    var a, b := MajorMinorHalves(v);
    var t := ">" + v;
    assert Trimmed(t) by { assert t[|t| - 1] == v[|v| - 1]; }
    StripGreater(v);
    CoreOfTrimmed(t);
  }

  lemma StripGreater(v: string)
    requires v != [] && IsDigit(v[0]) && !IsSpace(v[|v| - 1])
    ensures StripThenTrim(">" + v, RangeOperators) == v
  {
    GreaterSkipsFour(">" + v);
    StripGreaterEquals(v);
  }

  /** Text starting with `>` but not `>=` passes the first four operators untouched. */
  lemma GreaterSkipsFour(t: string)
    requires |t| >= 2 && t[0] == '>' && t[1] != '='
    ensures StripThenTrim(t, RangeOperators) == StripThenTrim(t, [">", "="])
  {
    GreaterIsNotFirstFour(t);
    StripSkips(t, RangeOperators, 4);
    assert RangeOperators[4..] == [">", "="];
  }

  lemma GreaterIsNotFirstFour(t: string)
    requires |t| >= 2 && t[0] == '>' && t[1] != '='
    ensures forall i :: 0 <= i < 4 ==> !HasPrefix(t, RangeOperators[i])
  {
    assert !HasPrefix(t, ">=") by {
      assert t[..2][1] == t[1];
    }
    assert !HasPrefix(t, "^") by {
      assert t[..1][0] == t[0];
    }
    assert !HasPrefix(t, "~") by {
      assert t[..1][0] == t[0];
    }
    assert !HasPrefix(t, "<") by {
      assert t[..1][0] == t[0];
    }
  }

  /** The last two operators `>` and `=` applied to `>` and a version. */
  lemma StripGreaterEquals(v: string)
    requires v != [] && IsDigit(v[0]) && !IsSpace(v[|v| - 1])
    ensures StripThenTrim(">" + v, [">", "="]) == v
  {
    var t := ">" + v;
    assert TrimPrefix(t, ">") == v by { assert t[..1] == ">" && t[1..] == v; }
    StripEquals(v);
  }

  /** The last operator `=` applied to a version. */
  lemma StripEquals(v: string)
    requires v != [] && IsDigit(v[0]) && !IsSpace(v[|v| - 1])
    ensures StripThenTrim(v, ["="]) == v
  {
    assert TrimPrefix(v, "=") == v by { assert !HasPrefix(v, "="); }
  }

  /** The pessimistic operator `~>` of Ruby gems: `~` then `>` are both stripped. */
  lemma PessimisticOperatorStripped(v: string)
    requires IsMajorMinor(v)
    ensures ParseVersionConstraint("~>" + v) == v
  {
    var a, b := MajorMinorHalves(v);
    CoreAfterPessimisticOperator(v);
    ParseOfCore("~>" + v, a, b);
  }

  lemma CoreAfterPessimisticOperator(v: string)
    requires IsMajorMinor(v)
    ensures ConstraintCore("~>" + v) == v
  {
    var a, b := MajorMinorHalves(v);
    var s := "~>" + v;
    assert TrimSpace(s) == s by { assert s[|s| - 1] == v[|v| - 1]; }
    assert IsDigit(v[0]) by { assert v[0] == a[0]; }
    StripPessimistic(v);
  }

  /** Text starting with `~` passes the first two operators untouched. */
  lemma TildeSkipsTwo(s: string)
    requires s != [] && s[0] == '~'
    ensures StripThenTrim(s, RangeOperators) == StripThenTrim(s, ["~", "<", ">", "="])
  {
    forall i | 0 <= i < 2 ensures !HasPrefix(s, RangeOperators[i]) {
      assert s[0] != RangeOperators[i][0];
    }
    StripSkips(s, RangeOperators, 2);
    assert RangeOperators[2..] == ["~", "<", ">", "="];
  }

  lemma StripPessimistic(v: string)
    requires v != [] && IsDigit(v[0]) && !IsSpace(v[|v| - 1])
    ensures StripThenTrim("~>" + v, RangeOperators) == v
  {
    var s := "~>" + v;
    TildeSkipsTwo(s);
    StripTildeThenLess(v);
    StripGreaterEquals(v);
  }

  lemma StripTildeThenLess(v: string)
    requires v != [] && IsDigit(v[0])
    ensures StripThenTrim("~>" + v, ["~", "<", ">", "="]) == StripThenTrim(">" + v, [">", "="])
  {
    var s, t := "~>" + v, ">" + v;
    assert TrimPrefix(s, "~") == t by { assert s[..1] == "~" && s[1..] == t; }
    assert !HasPrefix(t, "<") by { assert t[0] != '<'; }
    assert ["~", "<", ">", "="][1..] == ["<", ">", "="];
    assert ["<", ">", "="][1..] == [">", "="];
  }
}
