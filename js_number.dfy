/** The three ways the forms turn text into numbers: `parseInt` and
    `parseFloat`, which read the longest numeric prefix, and `Number`,
    which needs the whole (trimmed) text to be numeric and reads "" as 0.
    Decimal notation only; `None` is NaN. */
module JsNumber {
  import opened Common

  /** The longest prefix of decimal digits. */
  function LeadingDigits(s: string): (r: string)
    ensures |r| <= |s| && r == s[..|r|] && AllDigits(r)
    ensures |r| == |s| || !IsDigit(s[|r|])
  {
    if s != [] && IsDigit(s[0]) then [s[0]] + LeadingDigits(s[1..]) else []
  }

  /** Digits followed by something that is not a digit are read in full. */
  lemma {:induction false} LeadingDigitsOf(d: string, tail: string)
    requires AllDigits(d) && (tail == [] || !IsDigit(tail[0]))
    ensures LeadingDigits(d + tail) == d
  {
    if d != [] {
      assert (d + tail)[1..] == d[1..] + tail;
      LeadingDigitsOf(d[1..], tail);
    } else {
      assert d + tail == tail;
    }
  }

  /** An optional sign in front: whether it is a minus, and the text after
      it. */
  function SignOf(s: string): (bool, string) {
    if s != [] && s[0] == '-' then (true, s[1..])
    else if s != [] && s[0] == '+' then (false, s[1..])
    else (false, s)
  }

  function Pow10(n: nat): (r: nat)
    ensures r >= 1
  {
    if n == 0 then 1 else 10 * Pow10(n - 1)
  }

  /** The value of the digits after a decimal point. */
  ghost function Fraction(fp: string): real
    requires AllDigits(fp)
  {
    DecimalValue(fp) as real / Pow10(|fp|) as real
  }

  /** Digits after the point that are all zeros add nothing. */
  lemma FractionZero(fp: string)
    requires AllDigits(fp) && DecimalValue(fp) == 0
    ensures Fraction(fp) == 0.0
  {
  }

  /** A number read from decimal text, kept as the text gave it: its sign,
      its whole part and the digits after the point. */
  datatype Decimal = Decimal(negative: bool, whole: nat, fraction: string)

  /** The number a `Decimal` stands for. */
  ghost function Value(d: Decimal): real
    requires AllDigits(d.fraction)
  {
    var x := d.whole as real + Fraction(d.fraction);
    if d.negative then -x else x
  }

  /** `parseInt(s)`: leading white space, a sign, then as many digits as
      there are; NaN without any. */
  function ParseIntPrefix(s: string): Option<int> {
    var signed := SignOf(TrimStart(s));
    var d := LeadingDigits(signed.1);
    if d == [] then None
    else if signed.0 then Some(-(DecimalValue(d) as int))
    else Some(DecimalValue(d))
  }

  /** The whole and fractional digit runs of a decimal number at the start
      of `s`, and the text after them. */
  function DecimalParts(s: string): (r: (string, string, string))
    ensures AllDigits(r.0) && AllDigits(r.1)
  {
    var ip := LeadingDigits(s);
    var after := s[|ip|..];
    if after != [] && after[0] == '.' then
      var fp := LeadingDigits(after[1..]);
      (ip, fp, after[1..][|fp|..])
    else (ip, [], after)
  }

  /** `parseFloat(s)`: like `parseInt`, with a fractional part. */
  function ParseFloatPrefix(s: string): (r: Option<Decimal>)
    ensures r.Some? ==> AllDigits(r.value.fraction)
  {
    var signed := SignOf(TrimStart(s));
    var parts := DecimalParts(signed.1);
    if parts.0 == [] && parts.1 == [] then None
    else Some(Reading(signed.0, parts.0, parts.1))
  }

  /** `Number(s)`: blank text is 0; otherwise the trimmed text must be a
      decimal number with nothing after it. */
  function NumberOf(s: string): (r: Option<Decimal>)
    ensures r.Some? ==> AllDigits(r.value.fraction)
  {
    var t := Trim(s);
    if t == [] then Some(Decimal(false, 0, []))
    else
      var signed := SignOf(t);
      var parts := DecimalParts(signed.1);
      if (parts.0 == [] && parts.1 == []) || parts.2 != [] then None
      else Some(Reading(signed.0, parts.0, parts.1))
  }

  /** Text that does not start with white space is its own `TrimStart`. */
  lemma TrimStartNoSpace(s: string)
    requires s == [] || !IsSpace(s[0])
    ensures TrimStart(s) == s
  {
  }

  /** The number read from a sign and two digit runs. */
  function Reading(negative: bool, ip: string, fp: string): (r: Decimal)
    requires AllDigits(ip) && AllDigits(fp)
    ensures AllDigits(r.fraction)
  {
    Decimal(negative, DecimalValue(ip), fp)
  }

  /** A number without fractional digits stands for its whole part. */
  lemma ValueWhole(n: nat)
    ensures Value(Decimal(false, n, [])) == n as real
  {
    assert Fraction([]) == 0.0 / 1.0;
  }

  /** `parseInt` read through its three steps. */
  lemma ParseIntPrefixSteps(s: string, negative: bool, rest: string, d: string)
    requires TrimStart(s) == s && SignOf(s) == (negative, rest)
    requires LeadingDigits(rest) == d && d != []
    ensures ParseIntPrefix(s) == Some(if negative then -(DecimalValue(d) as int) else DecimalValue(d))
  {
  }

  /** Digits in front of something that is not a digit, with or without
      a minus sign, are read by `parseInt` as their value. */
  lemma ParseIntPrefixOfDigits(d: string, tail: string)
    requires AllDigits(d) && d != [] && (tail == [] || !IsDigit(tail[0]))
    ensures ParseIntPrefix(d + tail) == Some(DecimalValue(d) as int)
    ensures ParseIntPrefix(['-'] + (d + tail)) == Some(-(DecimalValue(d) as int))
  {
    var rest := d + tail;
    LeadingDigitsOf(d, tail);
    assert IsDigit(rest[0]) by { assert rest[0] == d[0]; }
    TrimStartNoSpace(rest);
    ParseIntPrefixSteps(rest, false, rest, d);
    var neg := ['-'] + rest;
    TrimStartNoSpace(neg);
    assert neg[1..] == rest;
    ParseIntPrefixSteps(neg, true, rest, d);
  }

  /** A number's decimal text, whatever follows it (short of more digits),
      reads back as that number. */
  lemma ParseIntPrefixOfText(n: int, tail: string)
    requires tail == [] || !IsDigit(tail[0])
    ensures ParseIntPrefix(IntText(n) + tail) == Some(n)
  {
    var m := if n < 0 then -n else n;
    var d := DecimalText(m);
    DecimalRoundTrip(m);
    if n < 0 {
      assert IntText(n) == ['-'] + d;
      AppendAssoc(['-'], d, tail);
    }
    ParseIntPrefixOfNumeral(n, d, tail);
  }

  /** `ParseIntPrefixOfDigits` for a signed number written with the digits
      `d`. */
  lemma ParseIntPrefixOfNumeral(n: int, d: string, tail: string)
    requires AllDigits(d) && d != [] && (tail == [] || !IsDigit(tail[0]))
    requires DecimalValue(d) == if n < 0 then -n else n
    ensures ParseIntPrefix(if n < 0 then ['-'] + (d + tail) else d + tail) == Some(n)
  {
    ParseIntPrefixOfDigits(d, tail);
  }

  lemma AppendAssoc(a: string, b: string, c: string)
    ensures (a + b) + c == a + (b + c)
  {
  }

  /** Blank text is NaN for `parseInt` and `parseFloat`, and 0 for `Number`. */
  lemma BlankText()
    ensures ParseIntPrefix("") == None && ParseFloatPrefix("") == None
    ensures NumberOf("") == Some(Decimal(false, 0, []))
  {
  }

  /** The parts of a run of digits alone. */
  lemma DecimalPartsOfDigits(d: string)
    requires AllDigits(d)
    ensures DecimalParts(d) == (d, [], [])
  {
    LeadingDigitsOf(d, []);
    assert d + [] == d;
  }

  /** A run of digits alone is read as its value by `parseFloat` and by
      `Number`. */
  lemma DigitsRead(d: string)
    requires AllDigits(d) && d != []
    ensures ParseFloatPrefix(d) == Some(Decimal(false, DecimalValue(d), []))
    ensures NumberOf(d) == Some(Decimal(false, DecimalValue(d), []))
  {
    DecimalPartsOfDigits(d);
    assert IsDigit(d[0]) && IsDigit(d[|d| - 1]);
    TrimStartNoSpace(d);
    TrimNoSpace(d);
    assert SignOf(d) == (false, d);
  }

  /** A minus sign and a run of digits are read by `Number` as the
      negated value. */
  lemma NegativeDigitsRead(d: string)
    requires AllDigits(d) && d != []
    ensures NumberOf(['-'] + d) == Some(Decimal(true, DecimalValue(d), []))
  {
    var t := ['-'] + d;
    assert t[1..] == d;
    assert IsDigit(t[|t| - 1]) by { assert t[|t| - 1] == d[|d| - 1]; }
    TrimNoSpace(t);
    assert SignOf(t) == (true, d);
    DecimalPartsOfDigits(d);
  }

  /** A whole number's text is read the same by `parseFloat` and `Number`,
      as that number. */
  lemma WholeNumberText(n: nat)
    ensures ParseFloatPrefix(DecimalText(n)) == Some(Decimal(false, n, []))
    ensures NumberOf(DecimalText(n)) == Some(Decimal(false, n, []))
    ensures Value(Decimal(false, n, [])) == n as real
  {
    DecimalRoundTrip(n);
    DigitsRead(DecimalText(n));
    ValueWhole(n);
  }
}
