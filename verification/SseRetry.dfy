/** The retry field of an event stream (sse.go:212-216) against the rule of section
    9.2.6 of the WHATWG HTML Standard: ASCII digits only. */
module SseRetry {
  import opened Options
  import opened Strings
  import opened Sse
  import opened SseRoundTrip

  predicate AllDigits(s: string) { s != "" && forall c :: c in s ==> IsDigit(c) }

  /** What the standard makes of a value: digits only, of any size. */
  function DigitsOnly(value: string): Option<nat> {
    if AllDigits(value) then Some(Value(value)) else None
  }

  /** What the parser makes of it: None leaves the retry time as it was. */
  function RetryOf(value: string): (r: Option<nat>)
    ensures r.Some? ==> r.value <= MAX_INT
  {
    var n := Atoi(value);
    if n.Some? && n.value >= 0 then Some(n.value) else None
  }

  predicate Signed(value: string) { value != "" && (value[0] == '+' || value[0] == '-') }

  function Unsigned(value: string): string { if Signed(value) then value[1..] else value }

  /** Digits that fit, and nothing but zero behind a minus. */
  predicate Fits(value: string) {
    AllDigits(Unsigned(value)) && Value(Unsigned(value)) <= MAX_INT &&
    (Signed(value) && value[0] == '-' ==> Value(Unsigned(value)) == 0)
  }

  /** The retry time is set if and only if the value is, after at most one sign,
      digits that fit, and then to what the digits say. */
  lemma RetryIsSetIff(value: string)
    ensures RetryOf(value) == if Fits(value) then Some(Value(Unsigned(value))) else None
  {
    hide Value;
  }

  /** The parser follows the standard if and only if the value carries no sign that the
      parser accepts and, if it is digits only, fits. */
  lemma RetryFollowsStandardIff(value: string)
    ensures RetryOf(value) == DigitsOnly(value) <==>
      !(Signed(value) && Fits(value)) && (AllDigits(value) ==> Value(value) <= MAX_INT)
  {
    RetryIsSetIff(value);
    hide Value, Atoi;
    if Signed(value) { assert value[0] in value; }
  }

  // ----- in a stream -----

  /** The retry time after a retry line. */
  function RetryAfter(before: Int64, value: string): Int64 {
    var r := RetryOf(value);
    if r.Some? then r.value else before
  }

  lemma FeedRetry(st: ParseState, value: string)
    requires !EndsInCR(value)
    ensures Feed(st, DropCR(Line("retry", value))) == (st.(retry := RetryAfter(st.retry, value)), [])
  {
    hide Atoi, Field, Line;
    FeedField(st, "retry", value);
    assert DropCR(value) == value;
  }

  /** One event with two retry lines, the second of them the value's. */
  function TwoRetries(before: nat, value: string): seq<string> {
    [Line("retry", Decimal(before)), Line("retry", value), Line("data", "x"), ""]
  }

  lemma ParseTwoRetries(before: nat, value: string)
    requires before <= MAX_INT && !EndsInCR(value)
    requires |Line("retry", Decimal(before))| < MAX_LINE && |Line("retry", value)| < MAX_LINE
    ensures ParseLines(FRESH, TwoRetries(before, value)) ==
      ParseResult([Event("", "x", "", RetryAfter(before, value))], true)
  {
    var l1, l2, l3 := Line("retry", Decimal(before)), Line("retry", value), Line("data", "x");
    assert TwoRetries(before, value) == [l1] + ([l2] + ([l3] + ([""] + [])));
    AtoiOfDecimal(before);
    assert RetryAfter(0, Decimal(before)) == before;
    assert !EndsInCR(Decimal(before)) by {
      var d := Decimal(before);
      assert d[|d| - 1] in d;
    }
    assert |l3| < MAX_LINE && DropCR("x") == "x";
    assert Join(["x"], LF) == "x";
    hide Atoi, Decimal, Line, ParseLines, EndsInCR, Feed, RetryAfter;
    var s1 := FRESH.(retry := before);
    var s2 := s1.(retry := RetryAfter(before, value));
    var s3 := s2.(data := ["x"], hasData := true);
    FeedRetry(FRESH, Decimal(before));
    FeedRetry(s1, value);
    FeedField(s2, "data", "x");
    assert s2.data + ["x"] == ["x"];
    ParseLinesStep(FRESH, l1, [l2] + ([l3] + ([""] + [])));
    ParseLinesStep(s1, l2, [l3] + ([""] + []));
    ParseLinesStep(s2, l3, [""] + []);
    ParseBlankLine(s3, []);
    NothingMore();
  }

  lemma NothingMore()
    ensures ParseLines(FRESH, []) == ParseResult([], true)
  {
  }

  /** On the wire: a retry line with this value, behind one with another, sets the
      event's retry time to what the value is taken for, or leaves the other. */
  lemma RetryOnTheWire(before: nat, value: string)
    requires before <= MAX_INT && LF !in value && !EndsInCR(value)
    requires |Line("retry", Decimal(before))| < MAX_LINE && |Line("retry", value)| < MAX_LINE
    ensures Parse(Unlines(TwoRetries(before, value))) ==
      ParseResult([Event("", "x", "", RetryAfter(before, value))], true)
  {
    hide *;
    ParseTwoRetries(before, value);
    NoLFInRetries(before, value);
    RawLinesOfUnlines(TwoRetries(before, value));
    ParseIs(Unlines(TwoRetries(before, value)));
  }

  lemma ParseIs(input: string)
    ensures Parse(input) == ParseLines(FRESH, RawLines(input))
  {
  }

  lemma NoLFInRetries(before: nat, value: string)
    requires LF !in value
    ensures forall l :: l in TwoRetries(before, value) ==> LF !in l
  {
    DecimalHasNoLF(before);
    hide Decimal;
  }
}

/** The ways in which the parser departs from the standard, on streams. */
module RetryWitnesses {
  import opened Options
  import opened Strings
  import opened Sse
  import opened SseRoundTrip
  import opened SseRetry

  /** The three ways to depart from the standard, on streams: a plus sign, minus zero,
      and digits that do not fit. By the standard the first two streams keep the 7, and
      the third does not. */
  lemma RetryDepartures()
    ensures Parse(Unlines(TwoRetries(7, "+5"))).events == [Event("", "x", "", 5)] && DigitsOnly("+5") == None
    ensures Parse(Unlines(TwoRetries(7, "-0"))).events == [Event("", "x", "", 0)] && DigitsOnly("-0") == None
    ensures Parse(Unlines(TwoRetries(7, Decimal(MAX_INT + 1)))).events == [Event("", "x", "", 7)]
    ensures DigitsOnly(Decimal(MAX_INT + 1)) == Some(MAX_INT + 1)
  {
    hide *;
    SmallValues();
    BigValue();
    AfterSeven("+5");
    AfterSeven("-0");
    AfterSeven(Decimal(MAX_INT + 1));
  }

  lemma AfterSeven(value: string)
    requires LF !in value && !EndsInCR(value) && |value| <= 19
    ensures Parse(Unlines(TwoRetries(7, value))).events ==
      [Event("", "x", "", if RetryOf(value).Some? then RetryOf(value).value else 7)]
  {
    assert |Decimal(7)| == 1;
    hide Decimal, Parse, TwoRetries, RetryOf, Unlines, EndsInCR;
    RetryOnTheWire(7, value);
  }

  lemma SmallValues()
    ensures RetryOf("+5") == Some(5) && LF !in "+5" && !EndsInCR("+5") && DigitsOnly("+5") == None
    ensures RetryOf("-0") == Some(0) && LF !in "-0" && !EndsInCR("-0") && DigitsOnly("-0") == None
  {
    assert "+5"[0] in "+5" && "-0"[0] in "-0";
    RetryIsSetIff("+5");
    RetryIsSetIff("-0");
    assert "+5"[1..] == "5" && "-0"[1..] == "0";
    assert "5"[..0] == "" && "0"[..0] == "";
    assert Value("5") == 5 && Value("0") == 0;
  }

  /** The first number that does not fit. */
  lemma BigValue()
    ensures var d := Decimal(MAX_INT + 1);
      RetryOf(d) == None && DigitsOnly(d) == Some(MAX_INT + 1) && |d| <= 19 && LF !in d && !EndsInCR(d)
  {
    var d := Decimal(MAX_INT + 1);
    ValueOfDecimal(MAX_INT + 1);
    NineteenDigits();
    DecimalLength(MAX_INT + 1, 19);
    DecimalHasNoLF(MAX_INT + 1);
    RetryIsSetIff(d);
    hide Decimal, Atoi;
    assert d[0] in d && d[|d| - 1] in d;
  }

  function Ten(k: nat): nat { if k == 0 then 1 else 10 * Ten(k - 1) }

  lemma NineteenDigits()
    ensures MAX_INT + 1 < Ten(19)
  {
    assert Ten(1) == 10 && Ten(2) == 100 && Ten(3) == 1000 && Ten(4) == 10000 && Ten(5) == 100000;
    assert Ten(6) == 1000000 && Ten(7) == 10000000 && Ten(8) == 100000000 && Ten(9) == 1000000000;
    assert Ten(10) == 10 * Ten(9) && Ten(11) == 10 * Ten(10) && Ten(12) == 10 * Ten(11) && Ten(13) == 10 * Ten(12);
    assert Ten(14) == 10 * Ten(13) && Ten(15) == 10 * Ten(14) && Ten(16) == 10 * Ten(15) && Ten(17) == 10 * Ten(16);
    assert Ten(18) == 10 * Ten(17) && Ten(19) == 10 * Ten(18);
  }

  lemma {:induction false} DecimalLength(n: nat, k: nat)
    requires n < Ten(k) && k > 0
    ensures |Decimal(n)| <= k
    decreases k
  {
    if n >= 10 {
      assert k > 1;
      DecimalLength(n / 10, k - 1);
    }
  }
}
