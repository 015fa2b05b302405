/** The regular expressions the version detectors search manifests with, written as scanners.

    Go's `regexp.FindStringSubmatch` returns the leftmost match. In every pattern here each
    greedy run (`\s*`, `\s+`, `\d+`) is followed by a token outside its own class, or ends the
    pattern, so a match starting at a given position is unique and is found by taking every
    run at its longest; `FindFirst` then tries the positions from left to right. */
module Patterns {
  import opened Results
  import opened Strings

  /** The `\d` class: ASCII digits. */
  predicate IsDigit(c: char) {
    '0' <= c <= '9'
  }

  /** The `\s` class of Go's regexp syntax: tab, newline, form feed, carriage return, space. */
  predicate IsRegexSpace(c: char) {
    c == ' ' || c == '\t' || c == '\n' || c == '\U{000C}' || c == '\r'
  }

  /** The `["']` class. */
  predicate IsQuote(c: char) {
    c == '"' || c == '\''
  }

  predicate AllDigits(s: string) {
    forall i :: 0 <= i < |s| ==> IsDigit(s[i])
  }

  /** A `major.minor` token: digits, one dot, digits. */
  predicate IsMajorMinor(v: string) {
    exists k :: 0 < k < |v| - 1 && v[k] == '.' && AllDigits(v[..k]) && AllDigits(v[k + 1..])
  }

  /** A `major` token: one or more digits. */
  predicate IsMajor(v: string) {
    |v| > 0 && AllDigits(v)
  }

  /** End of the longest run of `IsDigit` characters that starts at `i`. */
  function DigitsEnd(s: string, i: nat): (j: nat)
    requires i <= |s|
    ensures i <= j <= |s|
    ensures forall k :: i <= k < j ==> IsDigit(s[k])
    ensures j == |s| || !IsDigit(s[j])
    decreases |s| - i
  {
    if i < |s| && IsDigit(s[i]) then DigitsEnd(s, i + 1) else i
  }

  /** `\s*` spanning `s[a..b]`: every character in between is `\s`. */
  predicate SpaceRun(s: string, a: nat, b: nat)
    decreases b - a
  {
    a <= b <= |s| && (a == b || (IsRegexSpace(s[a]) && SpaceRun(s, a + 1, b)))
  }

  /** End of the longest run of `\s` characters that starts at `i`. */
  function SpacesEnd(s: string, i: nat): (j: nat)
    requires i <= |s|
    ensures i <= j <= |s|
    ensures SpaceRun(s, i, j)
    ensures j == |s| || !IsRegexSpace(s[j])
    decreases |s| - i
  {
    if i < |s| && IsRegexSpace(s[i]) then SpacesEnd(s, i + 1) else i
  }

  /** The literal `lit` occurs at position `i`. */
  predicate LiteralAt(s: string, i: nat, lit: string) {
    i + |lit| <= |s| && s[i..i + |lit|] == lit
  }

  /** `(\d+\.\d+)` at position `i`: the captured text. */
  function MajorMinorAt(s: string, i: nat): (r: Option<string>)
    ensures r.Some? ==> IsMajorMinor(r.value)
    ensures r.Some? ==> i + |r.value| <= |s| && s[i..i + |r.value|] == r.value
    ensures r.Some? ==> i + |r.value| == |s| || !IsDigit(s[i + |r.value|])
  {
    if i > |s| then None
    else
      var k := DigitsEnd(s, i);
      if k > i && k < |s| && s[k] == '.' then
        var l := DigitsEnd(s, k + 1);
        if l > k + 1 then
          var v := s[i..l];
          assert v[..k - i] == s[i..k] && v[k - i + 1..] == s[k + 1..l];
          Some(v)
        else None
      else None
  }

  /** `(\d+)` at position `i`, with the position just after it. */
  function MajorAt(s: string, i: nat): (r: Option<(string, nat)>)
    ensures r.Some? ==> IsMajor(r.value.0) && r.value.1 == i + |r.value.0| <= |s|
    ensures r.Some? ==> s[i..r.value.1] == r.value.0
  {
    if i > |s| then None
    else
      var k := DigitsEnd(s, i);
      if k > i then Some((s[i..k], k)) else None
  }

  /** `go\s+(\d+\.\d+)` at position `i` (the go directive of a module file). */
  function GoDirectiveAt(s: string, i: nat): (r: Option<string>)
    ensures r.Some? ==> IsMajorMinor(r.value)
  {
    if LiteralAt(s, i, "go") then
      var j := SpacesEnd(s, i + 2);
      if j > i + 2 then MajorMinorAt(s, j) else None
    else None
  }

  /** `\s*["'](\d+\.\d+)` from position `a`. */
  function QuotedMajorMinorAt(s: string, a: nat): (r: Option<string>)
    requires a <= |s|
    ensures r.Some? ==> IsMajorMinor(r.value)
  {
    var k := SpacesEnd(s, a);
    if k < |s| && IsQuote(s[k]) then MajorMinorAt(s, k + 1) else None
  }

  /** `\s*=\s*["'](\d+\.\d+)` from position `a`. */
  function AssignedMajorMinorAt(s: string, a: nat): (r: Option<string>)
    requires a <= |s|
    ensures r.Some? ==> IsMajorMinor(r.value)
  {
    var j := SpacesEnd(s, a);
    if j < |s| && s[j] == '=' then QuotedMajorMinorAt(s, j + 1) else None
  }

  /** `<key>\s*=\s*["'](\d+\.\d+)` at position `i`. */
  function AssignedVersionAt(s: string, i: nat, key: string): (r: Option<string>)
    ensures r.Some? ==> IsMajorMinor(r.value)
  {
    if LiteralAt(s, i, key) then AssignedMajorMinorAt(s, i + |key|) else None
  }

  /** `python\s*=\s*["'](\d+\.\d+)`, the pattern searched in `pyproject.toml`. */
  function PyprojectPythonAt(s: string, i: nat): (r: Option<string>)
    ensures r.Some? ==> IsMajorMinor(r.value)
  {
    AssignedVersionAt(s, i, "python")
  }

  /** `python_version\s*=\s*["'](\d+\.\d+)`, the pattern searched in `Pipfile`. */
  function PipfilePythonAt(s: string, i: nat): (r: Option<string>)
    ensures r.Some? ==> IsMajorMinor(r.value)
  {
    AssignedVersionAt(s, i, "python_version")
  }

  /** `python-(\d+\.\d+)`, the pattern searched in `runtime.txt`. */
  function RuntimePythonAt(s: string, i: nat): (r: Option<string>)
    ensures r.Some? ==> IsMajorMinor(r.value)
  {
    if LiteralAt(s, i, "python-") then MajorMinorAt(s, i + 7) else None
  }

  /** The regexp `<java.version>`, whose unescaped `.` matches any character but a newline. */
  predicate JavaVersionTagAt(s: string, i: nat, open: string) {
    && LiteralAt(s, i, open + "java")
    && i + |open| + 4 < |s| && s[i + |open| + 4] != '\n'
    && LiteralAt(s, i + |open| + 5, "version>")
  }

  /** `<java.version>(\d+)</java.version>`, the pattern searched in `pom.xml`. */
  function PomJavaAt(s: string, i: nat): (r: Option<string>)
    ensures r.Some? ==> IsMajor(r.value)
  {
    if JavaVersionTagAt(s, i, "<") then
      match MajorAt(s, i + 14)
      case Some((v, k)) => if JavaVersionTagAt(s, k, "</") then Some(v) else None
      case None => None
    else None
  }

  /** `(\d+)['"]` at position `i`: the captured digits. */
  function MajorThenQuoteAt(s: string, i: nat): (r: Option<string>)
    ensures r.Some? ==> IsMajor(r.value)
  {
    match MajorAt(s, i)
    case Some((v, l)) => if l < |s| && IsQuote(s[l]) then Some(v) else None
    case None => None
  }

  /** `\s*['"](\d+)['"]` from position `a`. */
  function QuotedMajorAt(s: string, a: nat): (r: Option<string>)
    requires a <= |s|
    ensures r.Some? ==> IsMajor(r.value)
  {
    var k := SpacesEnd(s, a);
    if k < |s| && IsQuote(s[k]) then MajorThenQuoteAt(s, k + 1) else None
  }

  /** `\s*=\s*['"](\d+)['"]` from position `a`. */
  function AssignedMajorAt(s: string, a: nat): (r: Option<string>)
    requires a <= |s|
    ensures r.Some? ==> IsMajor(r.value)
  {
    var j := SpacesEnd(s, a);
    if j < |s| && s[j] == '=' then QuotedMajorAt(s, j + 1) else None
  }

  /** `sourceCompatibility\s*=\s*['"](\d+)['"]`, the pattern searched in `build.gradle`. */
  function GradleJavaAt(s: string, i: nat): (r: Option<string>)
    ensures r.Some? ==> IsMajor(r.value)
  {
    if LiteralAt(s, i, "sourceCompatibility") then AssignedMajorAt(s, i + 19) else None
  }

  // ---------------------------------------------------------------------------------------
  // What each pattern matches, stated declaratively


  /** The capture of a trailing `(\d+\.\d+)` at `j`: a `major.minor` token written at `j`. Go's
      leftmost-first matching takes the final `\d+` as long as it goes, so the token is not
      followed by another digit. */
  predicate MajorMinorMatch(s: string, j: nat, v: string) {
    IsMajorMinor(v) && LiteralAt(s, j, v) && (j + |v| == |s| || !IsDigit(s[j + |v|]))
  }

  /** The capture of `(\d+)` at `j` when the pattern goes on with `next`: digits written at `j`,
      followed by a character that `next` accepts. */
  predicate MajorMatchBefore(s: string, j: nat, v: string, next: char -> bool) {
    IsMajor(v) && LiteralAt(s, j, v) && j + |v| < |s| && next(s[j + |v|])
  }

  /** `go\s+(\d+\.\d+)` matches at `i`, capturing `v`. */
  ghost predicate GoDirectiveMatch(s: string, i: nat, v: string) {
    LiteralAt(s, i, "go") && exists j: nat :: i + 2 < j && SpaceRun(s, i + 2, j) && MajorMinorMatch(s, j, v)
  }

  /** `\s*["'](\d+\.\d+)` matches from `a`, capturing `v`. */
  ghost predicate QuotedMajorMinorFrom(s: string, a: nat, v: string) {
    exists k: nat :: SpaceRun(s, a, k) && k < |s| && IsQuote(s[k]) && MajorMinorMatch(s, k + 1, v)
  }

  /** `\s*=\s*["'](\d+\.\d+)` matches from `a`, capturing `v`. */
  ghost predicate AssignmentFrom(s: string, a: nat, v: string) {
    exists j: nat :: SpaceRun(s, a, j) && j < |s| && s[j] == '=' && QuotedMajorMinorFrom(s, j + 1, v)
  }

  /** `<key>\s*=\s*["'](\d+\.\d+)` matches at `i`, capturing `v`. */
  ghost predicate AssignedMatch(s: string, i: nat, key: string, v: string) {
    LiteralAt(s, i, key) && AssignmentFrom(s, i + |key|, v)
  }

  /** `python-(\d+\.\d+)` matches at `i`, capturing `v`. */
  predicate RuntimeMatch(s: string, i: nat, v: string) {
    LiteralAt(s, i, "python-") && MajorMinorMatch(s, i + 7, v)
  }

  /** `<java.version>(\d+)</java.version>` matches at `i`, capturing `v`. */
  predicate PomMatch(s: string, i: nat, v: string) {
    && JavaVersionTagAt(s, i, "<")
    && MajorMatchBefore(s, i + 14, v, c => c == '<')
    && JavaVersionTagAt(s, i + 14 + |v|, "</")
  }

  /** `(\d+)['"]` matches at `j`, capturing `v`. */
  predicate MajorThenQuoteMatch(s: string, j: nat, v: string) {
    MajorMatchBefore(s, j, v, IsQuote)
  }

  /** `\s*['"](\d+)['"]` matches from `a`, capturing `v`. */
  ghost predicate QuotedMajorFrom(s: string, a: nat, v: string) {
    exists k: nat :: SpaceRun(s, a, k) && k < |s| && IsQuote(s[k]) && MajorThenQuoteMatch(s, k + 1, v)
  }

  /** `\s*=\s*['"](\d+)['"]` matches from `a`, capturing `v`. */
  ghost predicate MajorAssignmentFrom(s: string, a: nat, v: string) {
    exists j: nat :: SpaceRun(s, a, j) && j < |s| && s[j] == '=' && QuotedMajorFrom(s, j + 1, v)
  }

  /** `sourceCompatibility\s*=\s*['"](\d+)['"]` matches at `i`, capturing `v`. */
  ghost predicate GradleMatch(s: string, i: nat, v: string) {
    LiteralAt(s, i, "sourceCompatibility") && MajorAssignmentFrom(s, i + 19, v)
  }

  /** The `\s` run from `a` ends at `b` when everything in between is `\s` and `s[b]` is not. */
  lemma {:induction false} SpacesRun(s: string, a: nat, b: nat)
    requires SpaceRun(s, a, b)
    requires b == |s| || !IsRegexSpace(s[b])
    ensures SpacesEnd(s, a) == b
    decreases b - a
  {
    if a < b {
      SpacesRun(s, a + 1, b);
    }
  }

  /** A `major.minor` capture starts with a digit, which is never white space or a quote. */
  lemma MajorMinorStartsWithDigit(s: string, j: nat, v: string)
    requires MajorMinorMatch(s, j, v)
    ensures j < |s| && IsDigit(s[j])
  {
    var k :| 0 < k < |v| - 1 && v[k] == '.' && AllDigits(v[..k]) && AllDigits(v[k + 1..]);
    assert v[..k][0] == v[0] == s[j];
  }

  /** The `(\d+\.\d+)` scanner returns exactly the capture leftmost-first matching makes. */
  lemma MajorMinorAtIff(s: string, j: nat, v: string)
    ensures MajorMinorAt(s, j) == Some(v) <==> MajorMinorMatch(s, j, v)
  {
    if MajorMinorMatch(s, j, v) {
      MajorMinorAtFinds(s, j, v);
    }
  }

  /** A `major.minor` token at `j` that no digit follows is what the scanner returns there. */
  lemma MajorMinorAtFinds(s: string, j: nat, v: string)
    requires MajorMinorMatch(s, j, v)
    ensures MajorMinorAt(s, j) == Some(v)
  {
    var k: nat :| 0 < k < |v| - 1 && v[k] == '.' && AllDigits(v[..k]) && AllDigits(v[k + 1..]);
    var e := j + |v|;
    assert s[j..e] == v;
    forall t | j <= t < j + k ensures IsDigit(s[t]) {
      assert s[t] == v[..k][t - j];
    }
    forall t | j + k + 1 <= t < e ensures IsDigit(s[t]) {
      assert s[t] == v[k + 1..][t - j - k - 1];
    }
    assert s[j + k] == v[k];
    DigitsRun(s, j, j + k);
    DigitsRun(s, j + k + 1, e);
  }

  /** The `(\d+)` scanner finds `v` at `j` whenever a character outside `\d` follows it. */
  lemma MajorAtFinds(s: string, j: nat, v: string, next: char -> bool)
    requires MajorMatchBefore(s, j, v, next) && !IsDigit(s[j + |v|])
    ensures MajorAt(s, j) == Some((v, j + |v|))
  {
    assert forall t :: j <= t < j + |v| ==> s[t] == v[t - j];
    DigitsRun(s, j, j + |v|);
  }

  /** The go directive scanner returns `Some(v)` at `i` exactly when the pattern matches there
      capturing `v`. */
  lemma GoDirectiveAtIff(s: string, i: nat, v: string)
    ensures GoDirectiveAt(s, i) == Some(v) <==> GoDirectiveMatch(s, i, v)
  {
    if LiteralAt(s, i, "go") {
      var j := SpacesEnd(s, i + 2);
      MajorMinorAtIff(s, j, v);
      if GoDirectiveMatch(s, i, v) {
        var j': nat :| i + 2 < j' && SpaceRun(s, i + 2, j') && MajorMinorMatch(s, j', v);
        MajorMinorStartsWithDigit(s, j', v);
        SpacesRun(s, i + 2, j');
      }
    }
  }

  /** From `a`, `\s*["']` then a `major.minor` capture is found exactly when it is there. */
  lemma QuotedMajorMinorAtIff(s: string, a: nat, v: string)
    requires a <= |s|
    ensures QuotedMajorMinorAt(s, a) == Some(v) <==> QuotedMajorMinorFrom(s, a, v)
  {
    if QuotedMajorMinorAt(s, a) == Some(v) {
      QuotedMajorMinorAtSound(s, a, v);
    }
    if QuotedMajorMinorFrom(s, a, v) {
      QuotedMajorMinorAtComplete(s, a, v);
    }
  }

  lemma QuotedMajorMinorAtSound(s: string, a: nat, v: string)
    requires a <= |s| && QuotedMajorMinorAt(s, a) == Some(v)
    ensures QuotedMajorMinorFrom(s, a, v)
  {
    var k := QuotedMajorMinorAtUnfold(s, a, v);
    MajorMinorAtIff(s, k + 1, v);
    QuotedMajorMinorAtWitness(s, a, v, k);
  }

  lemma QuotedMajorMinorAtComplete(s: string, a: nat, v: string)
    requires a <= |s| && QuotedMajorMinorFrom(s, a, v)
    ensures QuotedMajorMinorAt(s, a) == Some(v)
  {
    var k := QuotedMajorMinorAtSplit(s, a, v);
    SpacesRun(s, a, k);
    MajorMinorAtFinds(s, k + 1, v);
    QuotedMajorMinorAtFold(s, a, v, k);
  }

  lemma QuotedMajorMinorAtUnfold(s: string, a: nat, v: string) returns (k: nat)
    requires a <= |s| && QuotedMajorMinorAt(s, a) == Some(v)
    ensures k == SpacesEnd(s, a) && k < |s| && IsQuote(s[k]) && MajorMinorAt(s, k + 1) == Some(v)
  {
    k := SpacesEnd(s, a);
  }

  lemma QuotedMajorMinorAtFold(s: string, a: nat, v: string, k: nat)
    requires a <= |s| && k == SpacesEnd(s, a) && k < |s| && IsQuote(s[k]) && MajorMinorAt(s, k + 1) == Some(v)
    ensures QuotedMajorMinorAt(s, a) == Some(v)
  {
  }

  lemma QuotedMajorMinorAtSplit(s: string, a: nat, v: string) returns (k: nat)
    requires QuotedMajorMinorFrom(s, a, v)
    ensures SpaceRun(s, a, k) && k < |s| && IsQuote(s[k]) && MajorMinorMatch(s, k + 1, v)
  {
    k :| SpaceRun(s, a, k) && k < |s| && IsQuote(s[k]) && MajorMinorMatch(s, k + 1, v);
  }

  lemma QuotedMajorMinorAtWitness(s: string, a: nat, v: string, k: nat)
    requires SpaceRun(s, a, k) && k < |s| && IsQuote(s[k]) && MajorMinorMatch(s, k + 1, v)
    ensures QuotedMajorMinorFrom(s, a, v)
  {
  }

  /** From `a`, `\s*=` then a quoted `major.minor` capture is found exactly when it is there. */
  lemma AssignedMajorMinorAtIff(s: string, a: nat, v: string)
    requires a <= |s|
    ensures AssignedMajorMinorAt(s, a) == Some(v) <==> AssignmentFrom(s, a, v)
  {
    if AssignedMajorMinorAt(s, a) == Some(v) {
      AssignedMajorMinorAtSound(s, a, v);
    }
    if AssignmentFrom(s, a, v) {
      AssignedMajorMinorAtComplete(s, a, v);
    }
  }

  lemma AssignedMajorMinorAtSound(s: string, a: nat, v: string)
    requires a <= |s| && AssignedMajorMinorAt(s, a) == Some(v)
    ensures AssignmentFrom(s, a, v)
  {
    var k := AssignedMajorMinorAtUnfold(s, a, v);
    QuotedMajorMinorAtSound(s, k + 1, v);
    AssignedMajorMinorAtWitness(s, a, v, k);
  }

  lemma AssignedMajorMinorAtComplete(s: string, a: nat, v: string)
    requires a <= |s| && AssignmentFrom(s, a, v)
    ensures AssignedMajorMinorAt(s, a) == Some(v)
  {
    var k := AssignedMajorMinorAtSplit(s, a, v);
    SpacesRun(s, a, k);
    QuotedMajorMinorAtComplete(s, k + 1, v);
    AssignedMajorMinorAtFold(s, a, v, k);
  }

  lemma AssignedMajorMinorAtUnfold(s: string, a: nat, v: string) returns (k: nat)
    requires a <= |s| && AssignedMajorMinorAt(s, a) == Some(v)
    ensures k == SpacesEnd(s, a) && k < |s| && s[k] == '=' && QuotedMajorMinorAt(s, k + 1) == Some(v)
  {
    k := SpacesEnd(s, a);
  }

  lemma AssignedMajorMinorAtFold(s: string, a: nat, v: string, k: nat)
    requires a <= |s| && k == SpacesEnd(s, a) && k < |s| && s[k] == '=' && QuotedMajorMinorAt(s, k + 1) == Some(v)
    ensures AssignedMajorMinorAt(s, a) == Some(v)
  {
  }

  lemma AssignedMajorMinorAtSplit(s: string, a: nat, v: string) returns (k: nat)
    requires AssignmentFrom(s, a, v)
    ensures SpaceRun(s, a, k) && k < |s| && s[k] == '=' && QuotedMajorMinorFrom(s, k + 1, v)
  {
    k :| SpaceRun(s, a, k) && k < |s| && s[k] == '=' && QuotedMajorMinorFrom(s, k + 1, v);
  }

  lemma AssignedMajorMinorAtWitness(s: string, a: nat, v: string, k: nat)
    requires SpaceRun(s, a, k) && k < |s| && s[k] == '=' && QuotedMajorMinorFrom(s, k + 1, v)
    ensures AssignmentFrom(s, a, v)
  {
  }

  /** The assignment scanner shared by `pyproject.toml` and `Pipfile` returns `Some(v)` at `i`
      exactly when `<key>\s*=\s*["'](\d+\.\d+)` matches there capturing `v`. */
  lemma AssignedVersionAtIff(s: string, i: nat, key: string, v: string)
    ensures AssignedVersionAt(s, i, key) == Some(v) <==> AssignedMatch(s, i, key, v)
  {
    if AssignedVersionAt(s, i, key) == Some(v) {
      AssignedMajorMinorAtSound(s, i + |key|, v);
    }
    if AssignedMatch(s, i, key, v) {
      AssignedMajorMinorAtComplete(s, i + |key|, v);
    }
  }

  /** The `runtime.txt` scanner returns `Some(v)` at `i` exactly when `python-(\d+\.\d+)`
      matches there capturing `v`. */
  lemma RuntimePythonAtIff(s: string, i: nat, v: string)
    ensures RuntimePythonAt(s, i) == Some(v) <==> RuntimeMatch(s, i, v)
  {
    MajorMinorAtIff(s, i + 7, v);
  }

  /** The `pom.xml` scanner returns `Some(v)` at `i` exactly when
      `<java.version>(\d+)</java.version>` matches there capturing `v`. */
  lemma PomJavaAtIff(s: string, i: nat, v: string)
    ensures PomJavaAt(s, i) == Some(v) <==> PomMatch(s, i, v)
  {
    if PomMatch(s, i, v) {
      MajorAtFinds(s, i + 14, v, c => c == '<');
    }
  }

  /** `(\d+)['"]` at `j` is found exactly when digits followed by a quote are written there. */
  lemma MajorThenQuoteAtIff(s: string, j: nat, v: string)
    ensures MajorThenQuoteAt(s, j) == Some(v) <==> MajorThenQuoteMatch(s, j, v)
  {
    if MajorThenQuoteMatch(s, j, v) {
      MajorAtFinds(s, j, v, IsQuote);
    }
  }

  /** From `a`, `\s*['"]` then digits then a quote is found exactly when it is there. */
  lemma QuotedMajorAtIff(s: string, a: nat, v: string)
    requires a <= |s|
    ensures QuotedMajorAt(s, a) == Some(v) <==> QuotedMajorFrom(s, a, v)
  {
    if QuotedMajorAt(s, a) == Some(v) {
      QuotedMajorAtSound(s, a, v);
    }
    if QuotedMajorFrom(s, a, v) {
      QuotedMajorAtComplete(s, a, v);
    }
  }

  lemma QuotedMajorAtSound(s: string, a: nat, v: string)
    requires a <= |s| && QuotedMajorAt(s, a) == Some(v)
    ensures QuotedMajorFrom(s, a, v)
  {
    var k := QuotedMajorAtUnfold(s, a, v);
    MajorThenQuoteAtIff(s, k + 1, v);
    QuotedMajorAtWitness(s, a, v, k);
  }

  lemma QuotedMajorAtComplete(s: string, a: nat, v: string)
    requires a <= |s| && QuotedMajorFrom(s, a, v)
    ensures QuotedMajorAt(s, a) == Some(v)
  {
    var k := QuotedMajorAtSplit(s, a, v);
    SpacesRun(s, a, k);
    MajorThenQuoteAtIff(s, k + 1, v);
    QuotedMajorAtFold(s, a, v, k);
  }

  lemma QuotedMajorAtUnfold(s: string, a: nat, v: string) returns (k: nat)
    requires a <= |s| && QuotedMajorAt(s, a) == Some(v)
    ensures k == SpacesEnd(s, a) && k < |s| && IsQuote(s[k]) && MajorThenQuoteAt(s, k + 1) == Some(v)
  {
    k := SpacesEnd(s, a);
  }

  lemma QuotedMajorAtFold(s: string, a: nat, v: string, k: nat)
    requires a <= |s| && k == SpacesEnd(s, a) && k < |s| && IsQuote(s[k]) && MajorThenQuoteAt(s, k + 1) == Some(v)
    ensures QuotedMajorAt(s, a) == Some(v)
  {
  }

  lemma QuotedMajorAtSplit(s: string, a: nat, v: string) returns (k: nat)
    requires QuotedMajorFrom(s, a, v)
    ensures SpaceRun(s, a, k) && k < |s| && IsQuote(s[k]) && MajorThenQuoteMatch(s, k + 1, v)
  {
    k :| SpaceRun(s, a, k) && k < |s| && IsQuote(s[k]) && MajorThenQuoteMatch(s, k + 1, v);
  }

  lemma QuotedMajorAtWitness(s: string, a: nat, v: string, k: nat)
    requires SpaceRun(s, a, k) && k < |s| && IsQuote(s[k]) && MajorThenQuoteMatch(s, k + 1, v)
    ensures QuotedMajorFrom(s, a, v)
  {
  }

  /** From `a`, `\s*=` then a quoted run of digits is found exactly when it is there. */
  lemma AssignedMajorAtIff(s: string, a: nat, v: string)
    requires a <= |s|
    ensures AssignedMajorAt(s, a) == Some(v) <==> MajorAssignmentFrom(s, a, v)
  {
    if AssignedMajorAt(s, a) == Some(v) {
      AssignedMajorAtSound(s, a, v);
    }
    if MajorAssignmentFrom(s, a, v) {
      AssignedMajorAtComplete(s, a, v);
    }
  }

  lemma AssignedMajorAtSound(s: string, a: nat, v: string)
    requires a <= |s| && AssignedMajorAt(s, a) == Some(v)
    ensures MajorAssignmentFrom(s, a, v)
  {
    var k := AssignedMajorAtUnfold(s, a, v);
    QuotedMajorAtSound(s, k + 1, v);
    AssignedMajorAtWitness(s, a, v, k);
  }

  lemma AssignedMajorAtComplete(s: string, a: nat, v: string)
    requires a <= |s| && MajorAssignmentFrom(s, a, v)
    ensures AssignedMajorAt(s, a) == Some(v)
  {
    var k := AssignedMajorAtSplit(s, a, v);
    SpacesRun(s, a, k);
    QuotedMajorAtComplete(s, k + 1, v);
    AssignedMajorAtFold(s, a, v, k);
  }

  lemma AssignedMajorAtUnfold(s: string, a: nat, v: string) returns (k: nat)
    requires a <= |s| && AssignedMajorAt(s, a) == Some(v)
    ensures k == SpacesEnd(s, a) && k < |s| && s[k] == '=' && QuotedMajorAt(s, k + 1) == Some(v)
  {
    k := SpacesEnd(s, a);
  }

  lemma AssignedMajorAtFold(s: string, a: nat, v: string, k: nat)
    requires a <= |s| && k == SpacesEnd(s, a) && k < |s| && s[k] == '=' && QuotedMajorAt(s, k + 1) == Some(v)
    ensures AssignedMajorAt(s, a) == Some(v)
  {
  }

  lemma AssignedMajorAtSplit(s: string, a: nat, v: string) returns (k: nat)
    requires MajorAssignmentFrom(s, a, v)
    ensures SpaceRun(s, a, k) && k < |s| && s[k] == '=' && QuotedMajorFrom(s, k + 1, v)
  {
    k :| SpaceRun(s, a, k) && k < |s| && s[k] == '=' && QuotedMajorFrom(s, k + 1, v);
  }

  lemma AssignedMajorAtWitness(s: string, a: nat, v: string, k: nat)
    requires SpaceRun(s, a, k) && k < |s| && s[k] == '=' && QuotedMajorFrom(s, k + 1, v)
    ensures MajorAssignmentFrom(s, a, v)
  {
  }

  /** The `build.gradle` scanner returns `Some(v)` at `i` exactly when
      `sourceCompatibility\s*=\s*['"](\d+)['"]` matches there capturing `v`. */
  lemma GradleJavaAtIff(s: string, i: nat, v: string)
    ensures GradleJavaAt(s, i) == Some(v) <==> GradleMatch(s, i, v)
  {
    if LiteralAt(s, i, "sourceCompatibility") {
      AssignedMajorAtIff(s, i + 19, v);
    }
  }

  /** Leftmost match: the capture of the first position, from `i` on, where `at` matches. */
  function FindFrom(s: string, i: nat, at: (string, nat) -> Option<string>): (r: Option<string>)
    ensures r.Some? ==> exists k :: i <= k <= |s| && at(s, k) == r && forall m :: i <= m < k ==> at(s, m).None?
    ensures r.None? ==> forall k :: i <= k <= |s| ==> at(s, k).None?
    decreases |s| + 1 - i
  {
    if i > |s| then None
    else if at(s, i).Some? then at(s, i)
    else FindFrom(s, i + 1, at)
  }

  /** `FindStringSubmatch(s)[1]` when the match exists. */
  function FindFirst(s: string, at: (string, nat) -> Option<string>): (r: Option<string>)
    ensures r.Some? ==> exists k :: 0 <= k <= |s| && at(s, k) == r && forall m :: 0 <= m < k ==> at(s, m).None?
    ensures r.None? ==> forall k :: 0 <= k <= |s| ==> at(s, k).None?
  {
    FindFrom(s, 0, at)
  }

  /** Every version a `major.minor` pattern extracts has the `major.minor` shape. */
  lemma FoundMajorMinor(s: string, at: (string, nat) -> Option<string>)
    requires forall t, k :: at(t, k).Some? ==> IsMajorMinor(at(t, k).value)
    ensures FindFirst(s, at).Some? ==> IsMajorMinor(FindFirst(s, at).value)
  {
  }

  /** A `major.minor` token in a module file after `go` and white space is what the go
      directive scanner extracts, whatever follows it. */
  lemma {:induction false} GoDirectiveFound(major: string, minor: string, rest: string)
    requires IsMajor(major) && IsMajor(minor)
    requires rest == [] || !IsDigit(rest[0])
    ensures FindFirst("go " + major + "." + minor + rest, GoDirectiveAt) == Some(major + "." + minor)
  {
    var s := "go " + major + "." + minor + rest;
    var k := |major| + 3;
    var e := k + 1 + |minor|;
    assert LiteralAt(s, 0, "go") by { assert s[0..2] == "go"; }
    assert SpacesEnd(s, 2) == 3 by {
      assert s[2] == ' ';
      assert s[3] == major[0];
    }
    assert DigitsEnd(s, 3) == k by {
      forall j | 3 <= j < k ensures IsDigit(s[j]) {
        assert s[j] == major[j - 3];
      }
      assert s[k] == '.';
      DigitsRun(s, 3, k);
    }
    assert DigitsEnd(s, k + 1) == e by {
      forall j | k + 1 <= j < e ensures IsDigit(s[j]) {
        assert s[j] == minor[j - k - 1];
      }
      assert e == |s| || s[e] == rest[0];
      DigitsRun(s, k + 1, e);
    }
    assert s[3..e] == major + "." + minor;
    assert GoDirectiveAt(s, 0) == Some(major + "." + minor);
  }

  /** The digit run from `i` ends at `j` when every character in between is a digit and the
      one at `j` is not. */
  lemma {:induction false} DigitsRun(s: string, i: nat, j: nat)
    requires i <= j <= |s|
    requires forall k :: i <= k < j ==> IsDigit(s[k])
    requires j == |s| || !IsDigit(s[j])
    ensures DigitsEnd(s, i) == j
    decreases j - i
  {
    if i < j {
      DigitsRun(s, i + 1, j);
    }
  }
}
