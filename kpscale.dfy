/** Kp-index utilities of the forecasting services: the Kp to geomagnetic
    latitude clamp, the official Kp "thirds" notation (a digit followed by
    o, + or -), the aurora activity classifier and the forecast confidence. */
module KpScale {
  import opened Arith

  /** A value handed to the Kp string encoder: a finite number, NaN (or None),
      or something that is not a number at all. */
  datatype KpValue = Number(v: real) | NaN | NonNumeric

  /** Geomagnetic latitude of the aurora oval's edge for a Kp value:
      67.5 - 2.5 * clip(kp, 0, 9), never below 50. */
  function GeomagneticLatitude(kp: real): (lat: real)
    ensures 50.0 <= lat <= 67.5
    ensures kp <= 0.0 ==> lat == 67.5
    ensures kp >= 7.0 ==> lat == 50.0
    ensures 0.0 <= kp <= 7.0 ==> lat == 67.5 - 2.5 * kp
  {
    Max(50.0, 67.5 - 2.5 * Clip(kp, 0.0, 9.0))
  }

  /** A stronger storm pushes the oval's edge south, never north. */
  lemma LatitudeNonIncreasing(a: real, b: real)
    requires a <= b
    ensures GeomagneticLatitude(b) <= GeomagneticLatitude(a)
  {
    ClipMonotone(a, b, 0.0, 9.0);
  }

  /** The 50 degree floor is reached exactly from Kp 7 on. */
  lemma LatitudeFloorExactlyFromSeven(kp: real)
    ensures GeomagneticLatitude(kp) == 50.0 <==> kp >= 7.0
  {
  }

  /** round(3 * clip(kp, 0, 9)): the Kp value in thirds, to the nearest third. */
  function Thirds(kp: real): (t: int)
    ensures 0 <= t <= 27
  {
    PyRound(Clip(kp, 0.0, 9.0) * 3.0)
  }

  function DigitChar(d: int): (c: char)
    requires 0 <= d <= 9
    ensures '0' <= c <= '9'
  {
    ('0' as int + d) as char
  }

  /** The backend's encoder: the digit is capped with min(main_digit, 9). */
  function BackendKpString(kp: KpValue): (s: string)
    requires !kp.NonNumeric?
  {
    if kp.NaN? then "N/A"
    else
      var rounded := Thirds(kp.v);
      var main := rounded / 3;
      var sub := rounded % 3;
      if sub == 0 then [DigitChar(Min(main, 9)), 'o']
      else if sub == 1 then [DigitChar(Min(main, 9)), '+']
      else [DigitChar(Min(main + 1, 9)), '-']
  }

  /** The ML service's encoder: anything but a number gives "N/A", and a
      digit of 10 or more would be replaced by "9o". */
  function MlKpString(kp: KpValue): (s: string)
  {
    if !kp.Number? then "N/A"
    else
      var rounded := Thirds(kp.v);
      var main := rounded / 3;
      var sub := rounded % 3;
      var digit := if sub == 2 then main + 1 else main;
      var suffix := if sub == 0 then 'o' else if sub == 1 then '+' else '-';
      if digit >= 10 then "9o" else [DigitChar(digit), suffix]
  }

  /** A two-character Kp string: digit 0..9 then o, + or -. */
  predicate WellFormedKpString(s: string)
  {
    |s| == 2 && '0' <= s[0] <= '9' && (s[1] == 'o' || s[1] == '+' || s[1] == '-')
  }

  /** The value a Kp string stands for: "ko" is k, "k+" is k + 1/3 and "k-"
      is k - 1/3. */
  function KpStringValue(s: string): real
    requires WellFormedKpString(s)
  {
    var k := (s[0] as int - '0' as int) as real;
    if s[1] == '+' then k + 1.0 / 3.0
    else if s[1] == '-' then k - 1.0 / 3.0
    else k
  }

  /** What the backend's string means: a digit and a suffix that together
      spell round(3 * clip(kp, 0, 9)) / 3, the clipped Kp to the nearest
      third; "0-" is never produced. */
  lemma {:induction false} BackendKpStringMeaning(x: real)
    ensures WellFormedKpString(BackendKpString(Number(x)))
    ensures KpStringValue(BackendKpString(Number(x))) == Thirds(x) as real / 3.0
    ensures BackendKpString(Number(x)) != "0-"
  {
    var rounded := Thirds(x);
    var main := rounded / 3;
    assert rounded == 3 * main + rounded % 3;
    var s := BackendKpString(Number(x));
    if rounded % 2 == 0 || rounded % 3 != 2 {
    }
    if rounded % 3 == 2 {
      assert main + 1 <= 9;
      assert (s[0] as int - '0' as int) == main + 1;
    } else {
      assert (s[0] as int - '0' as int) == main;
    }
  }

  /** The string is off the clipped Kp by at most half a third. */
  lemma KpStringIsNearestThird(x: real)
    ensures WellFormedKpString(BackendKpString(Number(x)))
    ensures Clip(x, 0.0, 9.0) - 1.0 / 6.0 <= KpStringValue(BackendKpString(Number(x)))
    ensures KpStringValue(BackendKpString(Number(x))) <= Clip(x, 0.0, 9.0) + 1.0 / 6.0
  {
    BackendKpStringMeaning(x);
  }

  /** The two encoders agree on every number: the backend's min(..., 9) never
      changes the digit and the ML service's ">= 10" fix-up never fires. */
  lemma {:induction false} EncodersAgree(x: real)
    ensures MlKpString(Number(x)) == BackendKpString(Number(x))
    ensures (Thirds(x) / 3 + (if Thirds(x) % 3 == 2 then 1 else 0)) <= 9
  {
    var rounded := Thirds(x);
    assert rounded == 3 * (rounded / 3) + rounded % 3;
  }

  /** Missing values: the backend maps NaN to "N/A"; the ML service maps NaN
      and non-numbers to "N/A". */
  lemma MissingValues()
    ensures BackendKpString(NaN) == "N/A"
    ensures MlKpString(NaN) == "N/A" && MlKpString(NonNumeric) == "N/A"
  {
  }

  /** Kp 9 and above is "9o"; Kp 0 and below is "0o". */
  lemma {:induction false} KpStringEnds(x: real)
    ensures x >= 9.0 ==> BackendKpString(Number(x)) == "9o"
    ensures x <= 0.0 ==> BackendKpString(Number(x)) == "0o"
  {
    if x >= 9.0 {
      assert Thirds(x) == 27;
    }
    if x <= 0.0 {
      assert Thirds(x) == 0;
    }
  }

  datatype AuroraLevel = High | Moderate | Low | Minimal

  datatype AuroraDetails = AuroraDetails(level: AuroraLevel, color: string, radiusFactor: int, description: string)

  /** get_aurora_details: thresholds 7, 5 and 4 on the clipped Kp. */
  function GetAuroraDetails(kp: real): (d: AuroraDetails)
  {
    var k := Clip(kp, 0.0, 9.0);
    if k >= 7.0 then AuroraDetails(High, "#d946ef", 40, "Aurora visible as far south as Chicago, Detroit")
    else if k >= 5.0 then AuroraDetails(Moderate, "#f43f5e", 35, "Aurora visible in northern US states")
    else if k >= 4.0 then AuroraDetails(Low, "#22c55e", 30, "Aurora visible in Canada and northern Europe")
    else AuroraDetails(Minimal, "#0ea5e9", 25, "Aurora visible only in polar regions")
  }

  /** The level and its radius as an independent table over Kp bands. */
  lemma AuroraBands(kp: real)
    ensures GetAuroraDetails(kp).level == High <==> kp >= 7.0
    ensures GetAuroraDetails(kp).level == Moderate <==> 5.0 <= kp < 7.0
    ensures GetAuroraDetails(kp).level == Low <==> 4.0 <= kp < 5.0
    ensures GetAuroraDetails(kp).level == Minimal <==> kp < 4.0
    ensures GetAuroraDetails(kp).radiusFactor == 25 + 5 * (match GetAuroraDetails(kp).level
      case Minimal => 0 case Low => 1 case Moderate => 2 case High => 3)
  {
  }

  /** A stronger storm never shrinks the drawn aurora radius. */
  lemma RadiusFactorNonDecreasing(a: real, b: real)
    requires a <= b
    ensures GetAuroraDetails(a).radiusFactor <= GetAuroraDetails(b).radiusFactor
  {
    ClipMonotone(a, b, 0.0, 9.0);
  }

  /** The High level is exactly the case where the oval sits on the 50 degree
      floor of the latitude clamp. */
  lemma HighLevelIsLatitudeFloor(kp: real)
    ensures GetAuroraDetails(kp).level == High <==> GeomagneticLatitude(kp) == 50.0
  {
  }

  /** Forecast confidence for hour i: max(0.3, 0.9 - 0.01 i). */
  function Confidence(i: int): (c: real)
    requires i >= 0
    ensures 0.3 <= c <= 0.9
    ensures i >= 60 ==> c == 0.3
    ensures i < 60 ==> c > 0.3
  {
    Max(0.3, 0.9 - i as real * 0.01)
  }

  lemma ConfidenceNonIncreasing(i: int, j: int)
    requires 0 <= i <= j
    ensures Confidence(j) <= Confidence(i)
  {
  }
}
