/**
 * Extraction of the question index from the selector's free-form reply
 * (the first run of decimal digits), and the decimal rendering of an index
 * that the prompts print in front of each question.
 */
module Parse {
  import opened Wrappers

  /** An ASCII decimal digit. */
  predicate IsDigit(c: char)
  {
    '0' <= c <= '9'
  }

  predicate AllDigits(s: string)
  {
    forall k :: 0 <= k < |s| ==> IsDigit(s[k])
  }

  predicate NoDigits(s: string)
  {
    forall k :: 0 <= k < |s| ==> !IsDigit(s[k])
  }

  function DigitValue(c: char): (d: nat)
    requires IsDigit(c)
    ensures d < 10
  {
    (c as int) - ('0' as int)
  }

  function DigitChar(d: nat): (c: char)
    requires d < 10
    ensures IsDigit(c) && DigitValue(c) == d
  {
    ('0' as int + d) as char
  }

  /** The value of a decimal numeral; leading zeros are allowed, as for int("007"). */
  function NumeralValue(s: string): nat
    requires AllDigits(s)
  {
    if s == [] then 0 else 10 * NumeralValue(s[..|s| - 1]) + DigitValue(s[|s| - 1])
  }

  /** The length of the maximal run of digits at the front of `s`. */
  function DigitRun(s: string): (n: nat)
    ensures n <= |s|
    ensures AllDigits(s[..n])
    ensures n == |s| || !IsDigit(s[n])
  {
    if s != [] && IsDigit(s[0]) then 1 + DigitRun(s[1..]) else 0
  }

  /**
   * The index named in a selector reply: the value of the first maximal run
   * of digits, or None when the reply holds no digit at all.
   */
  function ParseLlmResponse(response: string): (r: Option<nat>)
    ensures r.None? <==> NoDigits(response)
  {
    if response == [] then None
    else if IsDigit(response[0]) then Some(NumeralValue(response[..DigitRun(response)]))
    else ParseLlmResponse(response[1..])
  }

  /**
   * Whatever precedes the first numeral is skipped and whatever follows it is
   * ignored, later numerals included.
   */
  lemma {:induction false} ParseFindsFirstNumeral(prefix: string, numeral: string, rest: string)
    requires NoDigits(prefix)
    requires numeral != [] && AllDigits(numeral)
    requires rest == [] || !IsDigit(rest[0])
    ensures ParseLlmResponse(prefix + numeral + rest) == Some(NumeralValue(numeral))
  {
    var s := prefix + numeral + rest;
    if prefix == [] {
      assert s == numeral + rest;
      ParseNumeralFirst(numeral, rest);
    } else {
      assert s[1..] == prefix[1..] + numeral + rest;
      ParseFindsFirstNumeral(prefix[1..], numeral, rest);
    }
  }

  /** A reply that starts with a numeral names that numeral's value. */
  lemma ParseNumeralFirst(numeral: string, rest: string)
    requires numeral != [] && AllDigits(numeral)
    requires rest == [] || !IsDigit(rest[0])
    ensures ParseLlmResponse(numeral + rest) == Some(NumeralValue(numeral))
  {
    FrontRun(numeral, rest);
    assert (numeral + rest)[..|numeral|] == numeral;
  }

  /** The digit run at the front of `numeral + rest` is exactly `numeral`. */
  lemma {:induction false} FrontRun(numeral: string, rest: string)
    requires AllDigits(numeral)
    requires rest == [] || !IsDigit(rest[0])
    ensures DigitRun(numeral + rest) == |numeral|
  {
    if numeral != [] {
      assert (numeral + rest)[1..] == numeral[1..] + rest;
      FrontRun(numeral[1..], rest);
    } else {
      assert numeral + rest == rest;
    }
  }

  /** The decimal rendering of a natural number, without leading zeros (str(n) in the source). */
  function Decimal(n: nat): (s: string)
    ensures s != [] && AllDigits(s)
    ensures NumeralValue(s) == n
    ensures |s| == 1 || s[0] != '0'
  {
    if n < 10 then [DigitChar(n)]
    else
      var front := Decimal(n / 10);
      assert (front + [DigitChar(n % 10)])[..|front|] == front;
      front + [DigitChar(n % 10)]
  }

  /** Parsing a printed index, followed by anything that is not a digit, gives the index back. */
  lemma DecimalRoundTrip(n: nat, rest: string)
    requires rest == [] || !IsDigit(rest[0])
    ensures ParseLlmResponse(Decimal(n) + rest) == Some(n)
  {
    ParseNumeralFirst(Decimal(n), rest);
  }

  /** A reply that explains itself: the first integer is the answer. */
  lemma ParseExampleExplained()
    ensures ParseLlmResponse("I choose option " + "2" + " because...") == Some(2)
  {
    ParseFindsFirstNumeral("I choose option ", "2", " because...");
  }

  /** Later numerals are ignored, and leading zeros are read as int() reads them. */
  lemma ParseExampleLaterIgnored()
    ensures ParseLlmResponse("Pick 07, not 3") == Some(7)
  {
    assert "Pick 07, not 3" == "Pick " + "07" + ", not 3";
    assert NumeralValue("07") == 7 by {
      assert "07"[..1] == "0";
    }
    ParseFindsFirstNumeral("Pick ", "07", ", not 3");
  }

  /** A reply without digits names no index. */
  lemma ParseExampleNoDigits()
    ensures ParseLlmResponse("yes") == None
  {
  }
}
