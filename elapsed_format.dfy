/**
 * `formatElapsedTime`: seconds rendered as `H:MM:SS` from one hour on and as
 * `MM:SS` below, with Kotlin's truncating `/` and `%` on `Long`.
 */
module ElapsedFormat {
  import opened Options
  import opened Text

  /** Kotlin's integer division, truncating toward zero. */
  function Quot(a: int, b: int): int
    requires b > 0
  {
    if a >= 0 then a / b else -((-a) / b)
  }

  /** Kotlin's remainder, carrying the sign of the dividend. */
  function Rem(a: int, b: int): int
    requires b > 0
  {
    a - b * Quot(a, b)
  }

  datatype Clock = Clock(hrs: int, mins: int, secs: int)

  /**
   * The hours, minutes and seconds the formatter prints. They always add
   * back up to the input, minutes and seconds stay below 60 in magnitude,
   * and all three carry the input's sign.
   */
  function Decompose(seconds: int): (c: Clock)
    ensures c.hrs * 3600 + c.mins * 60 + c.secs == seconds
    ensures -59 <= c.mins <= 59 && -59 <= c.secs <= 59
    ensures seconds >= 0 ==> c.hrs >= 0 && c.mins >= 0 && c.secs >= 0
    ensures seconds <= 0 ==> c.hrs <= 0 && c.mins <= 0 && c.secs <= 0
  {
    Clock(Quot(seconds, 3600), Quot(Rem(seconds, 3600), 60), Rem(seconds, 60))
  }

  /** `%d`. */
  function Decimal(n: int): string {
    if n < 0 then "-" + NatDigits(-n) else NatDigits(n)
  }

  /** `%02d`: at least two characters, zero-padded. */
  function Pad2(n: int): string {
    if 0 <= n < 10 then "0" + NatDigits(n) else Decimal(n)
  }

  /** `%d:%02d:%02d` when there are hours to show, `%02d:%02d` otherwise. */
  function Render(c: Clock): string {
    if c.hrs > 0 then Decimal(c.hrs) + ":" + Pad2(c.mins) + ":" + Pad2(c.secs)
    else Pad2(c.mins) + ":" + Pad2(c.secs)
  }

  /** The formatted text: for a non-negative input, reading it back gives the input. */
  function FormatElapsedTime(seconds: int): (r: string)
    ensures seconds >= 0 ==> ParseElapsed(r) == Some(seconds)
  {
    var c := Decompose(seconds);
    if seconds >= 0 then RenderRoundTrip(c); Render(c) else Render(c)
  }

  /** The ':'-separated fields of a string, as `split(":")` gives them. */
  function Fields(s: string): (f: seq<string>)
    ensures |f| >= 1
  {
    if s == [] then [[]]
    else if s[0] == ':' then [[]] + Fields(s[1..])
    else var r := Fields(s[1..]); [[s[0]] + r[0]] + r[1..]
  }

  /**
   * Reads an elapsed time back: `M:S` or `H:M:S` with all fields non-empty
   * strings of digits; anything else is None.
   */
  function ParseElapsed(s: string): Option<int> {
    var f := Fields(s);
    if exists i :: 0 <= i < |f| && (f[i] == [] || !AllDigits(f[i])) then None
    else if |f| == 2 then Some(DigitsValue(f[0]) * 60 + DigitsValue(f[1]))
    else if |f| == 3 then Some(DigitsValue(f[0]) * 3600 + DigitsValue(f[1]) * 60 + DigitsValue(f[2]))
    else None
  }

  /** A string with no ':' is one field; a ':' after such a string starts the next. */
  lemma {:induction false} FieldsAfter(a: string, b: string)
    requires ':' !in a
    ensures Fields(a) == [a]
    ensures Fields(a + ":" + b) == [a] + Fields(b)
  {
    if a != [] {
      assert (a + ":" + b)[1..] == a[1..] + ":" + b;
      FieldsAfter(a[1..], b);
      assert [a[0]] + a[1..] == a;
    }
  }

  lemma DigitsHaveNoColon(s: string)
    requires AllDigits(s)
    ensures ':' !in s
  {
  }

  /** A minute or second value is printed as exactly two digits that read back as it. */
  lemma Pad2Digits(n: int)
    requires 0 <= n < 60
    ensures |Pad2(n)| == 2 && AllDigits(Pad2(n)) && DigitsValue(Pad2(n)) == n
  {
    NatDigitsRoundTrip(n);
    if n < 10 {
      assert Pad2(n)[..1] == "0";
    } else {
      assert NatDigits(n / 10) == [DigitChar(n / 10)];
    }
  }

  /** The fields of a rendered clock are its printed hours (when shown), minutes and seconds. */
  lemma RenderFields(c: Clock)
    requires 0 <= c.mins < 60 && 0 <= c.secs < 60
    ensures Fields(Render(c)) ==
      if c.hrs > 0 then [NatDigits(c.hrs), Pad2(c.mins), Pad2(c.secs)] else [Pad2(c.mins), Pad2(c.secs)]
  {
    var ms := Pad2(c.mins) + ":" + Pad2(c.secs);
    Pad2Digits(c.mins);
    Pad2Digits(c.secs);
    DigitsHaveNoColon(Pad2(c.mins));
    DigitsHaveNoColon(Pad2(c.secs));
    FieldsAfter(Pad2(c.secs), "");
    FieldsAfter(Pad2(c.mins), Pad2(c.secs));
    if c.hrs > 0 {
      DigitsHaveNoColon(NatDigits(c.hrs));
      assert Render(c) == NatDigits(c.hrs) + ":" + ms;
      FieldsAfter(NatDigits(c.hrs), ms);
    }
  }

  /**
   * Below one hour the output is `MM:SS`, five characters; from one hour on
   * it is three fields, the hours without leading zero and the minutes and
   * seconds two digits each.
   */
  lemma FormatShape(seconds: nat)
    ensures seconds < 3600 ==>
      var f := Fields(FormatElapsedTime(seconds));
      && |FormatElapsedTime(seconds)| == 5 && |f| == 2
      && |f[0]| == 2 && |f[1]| == 2 && AllDigits(f[0]) && AllDigits(f[1])
    ensures seconds >= 3600 ==>
      var f := Fields(FormatElapsedTime(seconds));
      && |f| == 3 && f[0] == NatDigits(seconds / 3600) && (f[0][0] != '0')
      && |f[1]| == 2 && |f[2]| == 2 && AllDigits(f[1]) && AllDigits(f[2])
  {
    var c := Decompose(seconds);
    assert c.hrs == seconds / 3600;
    assert c.hrs > 0 <==> seconds >= 3600;
    RenderFields(c);
    Pad2Digits(c.mins);
    Pad2Digits(c.secs);
  }

  /** Reading a rendered clock back gives the seconds it stands for. */
  lemma RenderRoundTrip(c: Clock)
    requires c.hrs >= 0 && 0 <= c.mins < 60 && 0 <= c.secs < 60
    ensures ParseElapsed(Render(c)) == Some(c.hrs * 3600 + c.mins * 60 + c.secs)
  {
    RenderFields(c);
    Pad2Digits(c.mins);
    Pad2Digits(c.secs);
    if c.hrs > 0 {
      NatDigitsRoundTrip(c.hrs);
    }
  }
}
