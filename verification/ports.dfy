/** The custom-port check of the interactive flow: `strconv.Atoi` followed by the 1..65535
    range test, and the replacement of the descriptor's first port by the accepted text. */
module Ports {
  import opened Results
  import opened Patterns
  import opened Project

  /** The value of a run of decimal digits. */
  function DigitsValue(s: string): nat
    requires AllDigits(s)
    decreases |s|
  {
    if s == [] then 0 else DigitsValue(s[..|s| - 1]) * 10 + (s[|s| - 1] as int - '0' as int)
  }

  /** The shortest decimal text of `n`. */
  function DecimalText(n: nat): (r: string)
    ensures AllDigits(r) && r != []
    decreases n
  {
    if n < 10 then [('0' as int + n) as char] else DecimalText(n / 10) + [('0' as int + n % 10) as char]
  }

  /** Reading back the decimal text of a number gives the number. */
  lemma {:induction false} DecimalRoundTrip(n: nat)
    ensures DigitsValue(DecimalText(n)) == n
    decreases n
  {
    var t := DecimalText(n);
    if n >= 10 {
      DecimalRoundTrip(n / 10);
      assert t[..|t| - 1] == DecimalText(n / 10);
    }
  }

  const MinInt64: int := -0x8000_0000_0000_0000
  const MaxInt64: int := 0x7FFF_FFFF_FFFF_FFFF

  /** The text after an optional leading sign, and whether that sign was a minus. */
  function Unsigned(s: string): (string, bool) {
    if |s| > 0 && (s[0] == '+' || s[0] == '-') then (s[1..], s[0] == '-') else (s, false)
  }

  /** At least one decimal digit and nothing else. */
  predicate IsDecimal(t: string) {
    t != [] && AllDigits(t)
  }

  /** `strconv.Atoi` on a 64-bit platform: an optional sign and at least one decimal digit,
      whose value must fit a 64-bit signed integer. */
  function Atoi(s: string): (r: Result<int>)
    ensures r.Success? ==> MinInt64 <= r.value <= MaxInt64
    ensures |s| > 0 && s[0] == '-' ==>
      && (r.Success? <==> IsDecimal(s[1..]) && DigitsValue(s[1..]) <= -MinInt64)
      && (r.Success? ==> r.value == -(DigitsValue(s[1..]) as int))
    ensures |s| > 0 && s[0] == '+' ==>
      && (r.Success? <==> IsDecimal(s[1..]) && DigitsValue(s[1..]) <= MaxInt64)
      && (r.Success? ==> r.value == DigitsValue(s[1..]))
    ensures (|s| == 0 || (s[0] != '-' && s[0] != '+')) ==>
      && (r.Success? <==> IsDecimal(s) && DigitsValue(s) <= MaxInt64)
      && (r.Success? ==> r.value == DigitsValue(s))
  {
    var (body, negative) := Unsigned(s);
    if body == [] || !AllDigits(body) then Failure("invalid syntax")
    else
      var v: int := if negative then -(DigitsValue(body) as int) else DigitsValue(body);
      if v < MinInt64 || v > MaxInt64 then Failure("value out of range") else Success(v)
  }

  const NotANumber := "please enter a valid port number"
  const OutOfRange := "port must be between 1 and 65535"

  /** The prompt's validator: the port it accepts, or the message it shows. */
  function ValidatePort(input: string): (r: Result<int>)
    ensures r.Success? ==> 1 <= r.value <= 65535 && Atoi(input) == Success(r.value)
    ensures r.Failure? ==> (r.error == NotANumber <==> Atoi(input).Failure?)
    ensures r.Failure? ==> r.error in {NotANumber, OutOfRange}
  {
    match Atoi(input)
    case Failure(_) => Failure(NotANumber)
    case Success(port) => if port < 1 || port > 65535 then Failure(OutOfRange) else Success(port)
  }

  /** Port text as the validator understands it: an optional plus sign, then digits worth
      1 to 65535, leading zeros allowed. */
  predicate PortText(input: string) {
    var body := if |input| > 0 && input[0] == '+' then input[1..] else input;
    body != [] && AllDigits(body) && 1 <= DigitsValue(body) <= 65535
  }

  /** The validator accepts exactly the port texts, and then returns their value. */
  lemma ValidatePortIff(input: string)
    ensures ValidatePort(input).Success? <==> PortText(input)
    ensures ValidatePort(input).Success? ==>
      ValidatePort(input).value == DigitsValue(if input[0] == '+' then input[1..] else input)
  {
    var (body, negative) := Unsigned(input);
    if body != [] && AllDigits(body) && negative {
      assert -(DigitsValue(body) as int) < 1;
    }
  }

  /** A minus sign is never accepted, a number too large for 64 bits is reported as not a
      number rather than out of range, and a number that fits but exceeds 65535 as out of
      range. */
  lemma ValidatorMessages(digits: string)
    requires digits != [] && AllDigits(digits)
    ensures ValidatePort("-" + digits).Failure?
    ensures DigitsValue(digits) > MaxInt64 ==> ValidatePort(digits) == Failure(NotANumber)
    ensures 65535 < DigitsValue(digits) <= MaxInt64 ==> ValidatePort(digits) == Failure(OutOfRange)
  {
    assert Unsigned("-" + digits) == (digits, true);
    assert Unsigned(digits).0 == digits by {
      assert IsDigit(digits[0]);
    }
  }

  /** Every port number in range is accepted in its plain decimal form. */
  lemma EveryPortAccepted(n: nat)
    requires 1 <= n <= 65535
    ensures ValidatePort(DecimalText(n)) == Success(n)
  {
    DecimalRoundTrip(n);
    var t := DecimalText(n);
    assert IsDigit(t[0]);
  }

  /** The interactive override of the first port: the accepted text replaces `Ports[0]`
      verbatim and nothing else of the descriptor changes. */
  function OverridePrimaryPort(p: ProjectType, input: string): (r: Result<ProjectType>)
    requires |p.ports| > 0
    ensures r.Success? <==> PortText(input)
    ensures r.Success? ==> r.value.(ports := p.ports) == p
    ensures r.Success? ==> |r.value.ports| == |p.ports| && r.value.ports[0] == input
    ensures r.Success? ==> r.value.ports[1..] == p.ports[1..]
  {
    ValidatePortIff(input);
    match ValidatePort(input)
    case Failure(e) => Failure(e)
    case Success(_) => Success(p.(ports := p.ports[0 := input]))
  }

  /** The text is not normalised: `+80` and `080` pass the check and are kept as typed. */
  lemma OverrideKeepsTyping(p: ProjectType)
    requires |p.ports| > 0
    ensures OverridePrimaryPort(p, "+80").Success? && OverridePrimaryPort(p, "+80").value.ports[0] == "+80"
    ensures OverridePrimaryPort(p, "080").Success? && OverridePrimaryPort(p, "080").value.ports[0] == "080"
  {
    assert DigitsValue("80") == 80 by {
      assert "80"[..1] == "8";
      assert "8"[..0] == "";
    }
    assert DigitsValue("080") == 80 by {
      assert "080"[..2] == "08";
      assert "08"[..1] == "0";
      assert "0"[..0] == "";
    }
    assert "+80"[1..] == "80";
  }
}
