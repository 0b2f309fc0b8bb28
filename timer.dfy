/**
 * The session timer's text, `mm:ss`, written the same way by both scripts:
 * whole minutes and the remaining seconds, each left-padded with '0' to two
 * characters (minutes may grow to more digits).
 */
module Timer {
  import opened Numerals

  /**
   * updateTimerDisplay's text for a count of elapsed seconds: a minutes
   * field of at least two characters, then a colon and two more characters.
   */
  function TimerDisplay(seconds: nat): (r: string)
    ensures |r| >= 5 && r[|r| - 3] == ':'
  {
    DecimalBelowHundred(seconds % 60);
    PadStart(Decimal(seconds / 60), 2, '0') + ":" + PadStart(Decimal(seconds % 60), 2, '0')
  }

  /** A number has at most two decimal digits exactly when it is below 100. */
  lemma DecimalBelowHundred(n: nat)
    ensures n < 100 <==> |Decimal(n)| <= 2
  {
    if n >= 10 {
      var q := n / 10;
      assert Decimal(n) == ToBase(q, 10) + [DigitChar(n % 10)];
      assert q < 10 <==> |ToBase(q, 10)| == 1;
    }
  }

  /** Every character of a zero-padded decimal is a decimal digit. */
  lemma PaddedDecimalDigits(n: nat, width: nat)
    ensures forall i :: 0 <= i < |PadStart(Decimal(n), width, '0')| ==>
                          IsDecimalDigit(PadStart(Decimal(n), width, '0')[i])
  {
    var d := Decimal(n);
    var p := PadStart(d, width, '0');
    forall i | 0 <= i < |p|
      ensures IsDecimalDigit(p[i])
    {
      if i >= |p| - |d| {
        assert p[i] == p[|p| - |d|..][i - (|p| - |d|)];
      }
    }
  }

  /** The minutes field (everything before the colon). */
  function MinutesField(r: string): string
    requires |r| >= 3
  {
    r[..|r| - 3]
  }

  /** The seconds field (the two characters after the colon). */
  function SecondsField(r: string): string
    requires |r| >= 2
  {
    r[|r| - 2..]
  }

  /** A minutes text, a colon and a two-character seconds text split back into the two texts. */
  lemma ColonFields(mm: string, ss: string)
    requires |ss| == 2
    ensures MinutesField(mm + ":" + ss) == mm && SecondsField(mm + ":" + ss) == ss
  {
    var t := mm + ":" + ss;
    assert t[..|t| - 3] == mm;
    assert t[|t| - 2..] == ss;
  }

  /** `mm:ss` built from two numbers, the second below 100, splits back into the two numbers. */
  lemma PaddedFieldsReadBack(m: nat, s: nat)
    requires s < 100
    ensures var t := PadStart(Decimal(m), 2, '0') + ":" + PadStart(Decimal(s), 2, '0');
            |t| >= 5 && |MinutesField(t)| >= 2 && FromBase(MinutesField(t), 10) == m && FromBase(SecondsField(t), 10) == s
  {
    var mm := PadStart(Decimal(m), 2, '0');
    var ss := PadStart(Decimal(s), 2, '0');
    DecimalBelowHundred(s);
    assert |mm| >= 2 && |ss| == 2;
    PaddedRoundTrip(m, 10, 2);
    PaddedRoundTrip(s, 10, 2);
    assert FromBase(mm, 10) == m && FromBase(ss, 10) == s;
    ColonFields(mm, ss);
  }

  /**
   * The fields read back as `seconds / 60` and `seconds % 60`, so together
   * they recompose the count.
   */
  lemma TimerDisplayFields(seconds: nat)
    ensures |MinutesField(TimerDisplay(seconds))| >= 2
    ensures FromBase(MinutesField(TimerDisplay(seconds)), 10) == seconds / 60
    ensures FromBase(SecondsField(TimerDisplay(seconds)), 10) == seconds % 60
    ensures FromBase(MinutesField(TimerDisplay(seconds)), 10) * 60
            + FromBase(SecondsField(TimerDisplay(seconds)), 10) == seconds
  {
    PaddedFieldsReadBack(seconds / 60, seconds % 60);
  }

  /** Different counts never show the same text. */
  lemma TimerDisplayInjective(a: nat, b: nat)
    requires TimerDisplay(a) == TimerDisplay(b)
    ensures a == b
  {
    TimerDisplayFields(a);
    TimerDisplayFields(b);
  }

  /** Two digit strings joined by a colon: every character but the colon is a digit. */
  lemma DigitsAroundColon(mm: string, ss: string)
    requires forall i :: 0 <= i < |mm| ==> IsDecimalDigit(mm[i])
    requires forall i :: 0 <= i < |ss| ==> IsDecimalDigit(ss[i])
    ensures forall i :: 0 <= i < |mm + ":" + ss| && i != |mm| ==> IsDecimalDigit((mm + ":" + ss)[i])
  {
    var r := mm + ":" + ss;
    assert r[..|mm|] == mm;
    assert r[|mm| + 1..] == ss;
    forall i | 0 <= i < |r| && i != |mm|
      ensures IsDecimalDigit(r[i])
    {
      if i < |mm| {
        assert r[i] == r[..|mm|][i];
      } else {
        assert r[i] == r[|mm| + 1..][i - |mm| - 1];
      }
    }
  }

  /** Both fields consist of decimal digits only. */
  lemma TimerDisplayDigits(seconds: nat)
    ensures var r := TimerDisplay(seconds);
            forall i :: 0 <= i < |r| && i != |r| - 3 ==> IsDecimalDigit(r[i])
  {
    var mm := PadStart(Decimal(seconds / 60), 2, '0');
    var ss := PadStart(Decimal(seconds % 60), 2, '0');
    DecimalBelowHundred(seconds % 60);
    assert |ss| == 2;
    PaddedDecimalDigits(seconds / 60, 2);
    PaddedDecimalDigits(seconds % 60, 2);
    DigitsAroundColon(mm, ss);
    assert TimerDisplay(seconds) == mm + ":" + ss;
  }

  /** The display is exactly five characters until the hundredth minute. */
  lemma TimerDisplayLength(seconds: nat)
    ensures seconds < 6000 <==> |TimerDisplay(seconds)| == 5
  {
    var m := seconds / 60;
    var mm := PadStart(Decimal(m), 2, '0');
    var ss := PadStart(Decimal(seconds % 60), 2, '0');
    assert TimerDisplay(seconds) == mm + ":" + ss;
    DecimalBelowHundred(seconds % 60);
    DecimalBelowHundred(m);
    assert |ss| == 2;
    assert seconds < 6000 <==> m < 100;
    assert m < 100 <==> |mm| == 2;
  }
}
