/**
 * rgbToHex of the DOM script: turns a computed CSS colour such as
 * "rgb(255, 0, 0)" into the "#rrggbb" form a colour input accepts. A value
 * that already starts with '#' is returned as it is; otherwise every maximal
 * run of decimal digits (`/\d+/g`) is read as a decimal number and written
 * as lower-case hexadecimal padded to two characters, after a '#'; with no
 * digit run at all the result is "#000000".
 */
module Colors {
  import opened Numerals

  predicate AllDigits(s: string) {
    forall i :: 0 <= i < |s| ==> IsDecimalDigit(s[i])
  }

  predicate NoDigits(s: string) {
    forall i :: 0 <= i < |s| ==> !IsDecimalDigit(s[i])
  }

  /** The length of the run of digits that `s` starts with. */
  function RunLength(s: string): (k: nat)
    requires s != [] && IsDecimalDigit(s[0])
    ensures 1 <= k <= |s|
    ensures AllDigits(s[..k])
    ensures k == |s| || !IsDecimalDigit(s[k])
    decreases |s|
  {
    if |s| == 1 || !IsDecimalDigit(s[1]) then 1 else 1 + RunLength(s[1..])
  }

  /** `s.match(/\d+/g)`, with the no-match `null` as the empty list: the maximal digit runs, left to right. */
  function DigitRuns(s: string): (runs: seq<string>)
    ensures forall i :: 0 <= i < |runs| ==> runs[i] != [] && AllDigits(runs[i])
    decreases |s|
  {
    if s == [] then []
    else if !IsDecimalDigit(s[0]) then DigitRuns(s[1..])
    else
      var k := RunLength(s);
      [s[..k]] + DigitRuns(s[k..])
  }

  /**
   * One colour component: `parseInt(run).toString(16).padStart(2, '0')`:
   * lower-case hex of at least two places, exactly two when the run's value
   * is below 256.
   */
  function Component(run: string): (r: string)
    ensures |r| >= 2
    ensures forall i :: 0 <= i < |r| ==> IsDigitOf(r[i], 16)
    ensures FromBase(run, 10) < 256 ==> |r| == 2
  {
    HexOfByte(FromBase(run, 10));
    PadStart(Hex(FromBase(run, 10)), 2, '0')
  }

  /** A component reads back, in base 16, as the run's decimal value. */
  lemma ComponentReadsBack(run: string)
    ensures FromBase(Component(run), 16) == FromBase(run, 10)
  {
    PaddedRoundTrip(FromBase(run, 10), 16, 2);
  }

  /** `runs.map(Component)`. */
  function Components(runs: seq<string>): (parts: seq<string>)
    ensures |parts| == |runs|
    ensures forall k :: 0 <= k < |runs| ==> parts[k] == Component(runs[k])
  {
    seq(|runs|, k requires 0 <= k < |runs| => Component(runs[k]))
  }

  /** `parts.join('')`. */
  function Join(parts: seq<string>): string
    decreases |parts|
  {
    if parts == [] then "" else parts[0] + Join(parts[1..])
  }

  lemma HexOfByte(x: nat)
    ensures x < 256 ==> |Hex(x)| <= 2
  {
    if 16 <= x < 256 {
      var q := x / 16;
      assert q < 16;
      assert |ToBase(q, 16)| == 1;
      assert Hex(x) == ToBase(q, 16) + [DigitChar(x % 16)];
    }
  }

  /** rgbToHex. */
  function RgbToHex(rgb: string): (r: string)
    ensures |r| >= 1 && r[0] == '#'
    ensures |rgb| > 0 && rgb[0] == '#' ==> r == rgb
    ensures (|rgb| == 0 || rgb[0] != '#') && DigitRuns(rgb) == [] ==> r == "#000000"
  {
    if |rgb| > 0 && rgb[0] == '#' then rgb
    else
      var runs := DigitRuns(rgb);
      if runs == [] then "#000000" else "#" + Join(Components(runs))
  }

  /** Text without digits contributes no run. */
  lemma {:induction false} DigitRunsSkip(p: string, t: string)
    requires NoDigits(p)
    ensures DigitRuns(p + t) == DigitRuns(t)
    decreases |p|
  {
    if p == [] {
      assert p + t == t;
    } else {
      assert (p + t)[0] == p[0];
      assert (p + t)[1..] == p[1..] + t;
      DigitRunsSkip(p[1..], t);
    }
  }

  lemma {:induction false} RunLengthOf(d: string, t: string)
    requires d != [] && AllDigits(d)
    requires t == [] || !IsDecimalDigit(t[0])
    ensures RunLength(d + t) == |d|
    decreases |d|
  {
    if |d| > 1 {
      assert (d + t)[1..] == d[1..] + t;
      RunLengthOf(d[1..], t);
    }
  }

  /** A maximal run of digits is one match. */
  lemma DigitRunsRun(d: string, t: string)
    requires d != [] && AllDigits(d)
    requires t == [] || !IsDecimalDigit(t[0])
    ensures DigitRuns(d + t) == [d] + DigitRuns(t)
  {
    RunLengthOf(d, t);
    assert (d + t)[..|d|] == d;
    assert (d + t)[|d|..] == t;
  }

  /** A value without any digit converts to black. */
  lemma NoDigitsIsBlack(rgb: string)
    requires NoDigits(rgb) && (|rgb| == 0 || rgb[0] != '#')
    ensures RgbToHex(rgb) == "#000000"
  {
    DigitRunsSkip(rgb, "");
    assert rgb + "" == rgb;
  }

  /** The text of a computed colour, "rgb(r, g, b)". */
  function RgbText(red: nat, green: nat, blue: nat): string
  {
    "rgb(" + Decimal(red) + ", " + Decimal(green) + ", " + Decimal(blue) + ")"
  }

  lemma DecimalIsRun(n: nat)
    ensures Decimal(n) != [] && AllDigits(Decimal(n))
  {
    var d := Decimal(n);
    forall i | 0 <= i < |d|
      ensures IsDecimalDigit(d[i])
    {
      assert IsDigitOf(d[i], 10);
    }
  }

  /** A digit-free separator followed by a maximal run contributes exactly that run. */
  lemma DigitRunsAfterSeparator(sep: string, d: string, rest: string)
    requires NoDigits(sep) && d != [] && AllDigits(d)
    requires rest == [] || !IsDecimalDigit(rest[0])
    ensures DigitRuns(sep + (d + rest)) == [d] + DigitRuns(rest)
  {
    DigitRunsSkip(sep, d + rest);
    DigitRunsRun(d, rest);
  }

  /** The runs of "rgb(r, g, b)" are the three decimals. */
  lemma RgbRuns(red: nat, green: nat, blue: nat)
    ensures DigitRuns(RgbText(red, green, blue)) == [Decimal(red), Decimal(green), Decimal(blue)]
  {
    var r, g, b := Decimal(red), Decimal(green), Decimal(blue);
    DecimalIsRun(red);
    DecimalIsRun(green);
    DecimalIsRun(blue);
    var open, comma, close := "rgb(", ", ", ")";
    assert NoDigits(open) && NoDigits(comma) && NoDigits(close);
    var t2 := comma + (b + close);
    var t1 := comma + (g + t2);
    assert RgbText(red, green, blue) == open + (r + t1);
    DigitRunsAfterSeparator(comma, b, close);
    DigitRunsSkip(close, "");
    assert close + "" == close;
    assert DigitRuns(t2) == [b];
    DigitRunsAfterSeparator(comma, g, t2);
    assert DigitRuns(t1) == [g, b];
    DigitRunsAfterSeparator(open, r, t1);
  }

  /** The two-character field `k` of `c + rest`, past a two-character `c`, is field `k - 1` of `rest`. */
  lemma FieldAfterPair(c: string, rest: string, k: nat)
    requires |c| == 2 && 1 <= k && 2 * k + 2 <= |c + rest|
    ensures (c + rest)[2 * k..2 * k + 2] == rest[2 * (k - 1)..2 * (k - 1) + 2]
  {
  }

  /** Every run's value is below 256, as for the components of an opaque colour. */
  predicate AllBytes(runs: seq<string>) {
    forall k :: 0 <= k < |runs| ==> FromBase(runs[k], 10) < 256
  }

  /** Every part has two characters. */
  predicate AllPairs(parts: seq<string>) {
    forall k :: 0 <= k < |parts| ==> |parts[k]| == 2
  }

  lemma AllPairsTail(parts: seq<string>)
    requires AllPairs(parts) && parts != []
    ensures |parts[0]| == 2 && AllPairs(parts[1..])
  {
    forall k | 0 <= k < |parts| - 1
      ensures |parts[1..][k]| == 2
    {
      assert parts[1..][k] == parts[k + 1];
    }
  }

  /** Joining two-character parts gives two characters per part. */
  lemma {:induction false} JoinPairsLength(parts: seq<string>)
    requires AllPairs(parts)
    ensures |Join(parts)| == 2 * |parts|
    decreases |parts|
  {
    if parts != [] {
      AllPairsTail(parts);
      JoinPairsLength(parts[1..]);
    }
  }

  /** Joining two-character parts puts part `k` at places `2 * k` and `2 * k + 1`. */
  lemma {:induction false} JoinPairsField(parts: seq<string>, k: nat)
    requires AllPairs(parts) && k < |parts|
    ensures |Join(parts)| == 2 * |parts|
    ensures Join(parts)[2 * k..2 * k + 2] == parts[k]
    decreases k
  {
    JoinPairsLength(parts);
    AllPairsTail(parts);
    var c, rest := parts[0], Join(parts[1..]);
    assert Join(parts) == c + rest;
    if k == 0 {
      assert (c + rest)[0..2] == c;
    } else {
      JoinPairsField(parts[1..], k - 1);
      assert parts[1..][k - 1] == parts[k];
      FieldAfterPair(c, rest, k);
    }
  }

  /** After a '#', joined two-character parts: part `k` sits at `1 + 2 * k`, and character `i` comes from part `(i - 1) / 2`. */
  lemma HashJoinFields(parts: seq<string>)
    requires AllPairs(parts)
    ensures |"#" + Join(parts)| == 1 + 2 * |parts|
    ensures forall k :: 0 <= k < |parts| ==> ("#" + Join(parts))[1 + 2 * k..3 + 2 * k] == parts[k]
    ensures forall i :: 1 <= i < |"#" + Join(parts)| ==>
              (i - 1) / 2 < |parts| && ("#" + Join(parts))[i] == parts[(i - 1) / 2][(i - 1) % 2]
  {
    var j := Join(parts);
    var r := "#" + j;
    JoinPairsLength(parts);
    forall k | 0 <= k < |parts|
      ensures r[1 + 2 * k..3 + 2 * k] == parts[k]
    {
      JoinPairsField(parts, k);
      assert r[1 + 2 * k..3 + 2 * k] == j[2 * k..2 * k + 2];
    }
    forall i | 1 <= i < |r|
      ensures (i - 1) / 2 < |parts| && r[i] == parts[(i - 1) / 2][(i - 1) % 2]
    {
      var k := (i - 1) / 2;
      assert 2 * k <= i - 1 < 2 * k + 2;
      JoinPairsField(parts, k);
      assert r[i] == j[2 * k..2 * k + 2][i - 1 - 2 * k];
    }
  }

  /** Runs below 256 convert to two-character parts of hex digits, each reading back as its run. */
  lemma ComponentsOfBytes(runs: seq<string>)
    requires AllBytes(runs)
    ensures AllPairs(Components(runs))
    ensures forall k, i :: 0 <= k < |runs| && 0 <= i < 2 ==> IsDigitOf(Components(runs)[k][i], 16)
    ensures forall k :: 0 <= k < |runs| ==> FromBase(Components(runs)[k], 16) == FromBase(runs[k], 10)
  {
    var parts := Components(runs);
    forall k | 0 <= k < |runs|
      ensures |parts[k]| == 2 && FromBase(parts[k], 16) == FromBase(runs[k], 10)
    {
      ComponentReadsBack(runs[k]);
    }
  }

  /**
   * A value that does not start with '#' and has digit runs whose values are
   * below 256 becomes '#' and then, per run in order, two lower-case hex
   * digits that read back as the run.
   */
  lemma RgbToHexFields(rgb: string)
    requires |rgb| == 0 || rgb[0] != '#'
    requires DigitRuns(rgb) != []
    requires AllBytes(DigitRuns(rgb))
    ensures |RgbToHex(rgb)| == 1 + 2 * |DigitRuns(rgb)|
    ensures forall i :: 1 <= i < |RgbToHex(rgb)| ==> IsDigitOf(RgbToHex(rgb)[i], 16)
    ensures forall k :: 0 <= k < |DigitRuns(rgb)| ==>
              FromBase(RgbToHex(rgb)[1 + 2 * k..3 + 2 * k], 16) == FromBase(DigitRuns(rgb)[k], 10)
  {
    var runs := DigitRuns(rgb);
    var parts := Components(runs);
    assert RgbToHex(rgb) == "#" + Join(parts);
    ComponentsOfBytes(runs);
    HashJoinFields(parts);
  }

  /** Three digit runs below 256 become '#' and three two-digit fields reading back as the runs. */
  lemma ThreeRunFields(rgb: string)
    requires |rgb| == 0 || rgb[0] != '#'
    requires |DigitRuns(rgb)| == 3 && AllBytes(DigitRuns(rgb))
    ensures |RgbToHex(rgb)| == 7
    ensures FromBase(RgbToHex(rgb)[1..3], 16) == FromBase(DigitRuns(rgb)[0], 10)
    ensures FromBase(RgbToHex(rgb)[3..5], 16) == FromBase(DigitRuns(rgb)[1], 10)
    ensures FromBase(RgbToHex(rgb)[5..7], 16) == FromBase(DigitRuns(rgb)[2], 10)
  {
    RgbToHexFields(rgb);
    assert 1 + 2 * 1 == 3 && 1 + 2 * 2 == 5 && 3 + 2 * 2 == 7;
  }

  /**
   * For an opaque colour "rgb(r, g, b)" with components up to 255 the result
   * is '#' and three two-digit hex fields that read back as r, g and b.
   */
  lemma RgbToHexOfRgb(red: nat, green: nat, blue: nat)
    requires red < 256 && green < 256 && blue < 256
    ensures |RgbToHex(RgbText(red, green, blue))| == 7
    ensures FromBase(RgbToHex(RgbText(red, green, blue))[1..3], 16) == red
    ensures FromBase(RgbToHex(RgbText(red, green, blue))[3..5], 16) == green
    ensures FromBase(RgbToHex(RgbText(red, green, blue))[5..7], 16) == blue
  {
    var t := RgbText(red, green, blue);
    RgbRuns(red, green, blue);
    FromToBase(red, 10);
    FromToBase(green, 10);
    FromToBase(blue, 10);
    assert t[0] == 'r';
    assert AllBytes(DigitRuns(t));
    ThreeRunFields(t);
  }
}
