/** The map page's night-side test: a point is on the night side when its
    longitude is more than 90 degrees from the sub-solar longitude, after the
    point's longitude and the difference have been brought back into range. */
module NightSide {
  import opened Regions

  /** A whole number of turns, in degrees. */
  function Turns(k: int): real
  {
    360.0 * k as real
  }

  /** a and b name the same meridian: they differ by whole turns. */
  ghost predicate SameMeridian(a: real, b: real)
  {
    exists k: int :: a - b == Turns(k)
  }

  lemma SameMeridianReflexive(a: real)
    ensures SameMeridian(a, a)
  {
    assert a - a == Turns(0);
  }

  lemma SameMeridianSymmetric(a: real, b: real)
    requires SameMeridian(a, b)
    ensures SameMeridian(b, a)
  {
    var k :| a - b == Turns(k);
    assert b - a == Turns(-k);
  }

  lemma SameMeridianTransitive(a: real, b: real, c: real)
    requires SameMeridian(a, b) && SameMeridian(b, c)
    ensures SameMeridian(a, c)
  {
    var k :| a - b == Turns(k);
    var m :| b - c == Turns(m);
    assert a - c == Turns(k + m);
  }

  lemma SameMeridianShift(a: real, b: real, d: real)
    requires SameMeridian(a, b)
    ensures SameMeridian(a + d, b + d)
  {
    var k :| a - b == Turns(k);
    assert (a + d) - (b + d) == Turns(k);
  }

  lemma OneTurn(a: real, b: real)
    requires SameMeridian(a, b)
    ensures SameMeridian(a + 360.0, b) && SameMeridian(a - 360.0, b)
  {
    var k :| a - b == Turns(k);
    assert a + 360.0 - b == Turns(k + 1);
    assert a - 360.0 - b == Turns(k - 1);
  }

  /** Two longitudes in [-180, 180] on the same meridian are equal, or are
      180 and -180: either way they lie equally far from 0. */
  lemma {:induction false} SameMeridianInRange(a: real, b: real)
    requires -180.0 <= a <= 180.0 && -180.0 <= b <= 180.0
    requires SameMeridian(a, b)
    ensures a == b || (a == 180.0 && b == -180.0) || (a == -180.0 && b == 180.0)
  {
    var k :| a - b == Turns(k);
    assert -1 <= k <= 1;
  }

  /** The sub-solar longitude for a UTC hour and minute. */
  function SunLongitude(hour: int, minute: int): (r: real)
    requires 0 <= hour < 24 && 0 <= minute < 60
    ensures -180.0 <= r < 180.0
  {
    (hour as real + minute as real / 60.0 - 12.0) * 15.0
  }

  /** The first normalisation loop: subtract 360 while above 180. */
  function LowerBelow180(x: real): (r: real)
    ensures r <= 180.0
    ensures x <= 180.0 ==> r == x
    ensures x > 180.0 ==> r > -180.0
    ensures SameMeridian(x, r)
    decreases if x > 180.0 then x.Floor else 0
  {
    if x > 180.0 then
      var r := LowerBelow180(x - 360.0);
      OneTurn(x - 360.0, r);
      r
    else
      SameMeridianReflexive(x);
      x
  }

  /** The second normalisation loop: add 360 while below -180. */
  function RaiseAboveMinus180(x: real): (r: real)
    ensures r >= -180.0
    ensures x >= -180.0 ==> r == x
    ensures x < -180.0 ==> r < 180.0
    ensures SameMeridian(x, r)
    decreases if x < -180.0 then (-x).Floor else 0
  {
    if x < -180.0 then
      var r := RaiseAboveMinus180(x + 360.0);
      OneTurn(x + 360.0, r);
      r
    else
      SameMeridianReflexive(x);
      x
  }

  /** The point's longitude after both loops: in [-180, 180] and on the same
      meridian as the input; a longitude already in range is unchanged. */
  function NormalizeLongitude(x: real): (r: real)
    ensures -180.0 <= r <= 180.0
    ensures SameMeridian(x, r)
    ensures -180.0 <= x <= 180.0 ==> r == x
  {
    var lowered := LowerBelow180(x);
    var r := RaiseAboveMinus180(lowered);
    SameMeridianTransitive(x, lowered, r);
    r
  }

  /** The two conditional corrections of the difference: for a difference
      between two longitudes in range the result is in [-180, 180]. */
  function WrapDifference(d: real): (r: real)
    ensures SameMeridian(d, r)
    ensures -360.0 <= d <= 360.0 ==> -180.0 <= r <= 180.0
  {
    var once := if d > 180.0 then d - 360.0 else d;
    var r := if once < -180.0 then once + 360.0 else once;
    SameMeridianDetour(d, once, r);
    r
  }

  lemma SameMeridianDetour(d: real, once: real, r: real)
    requires once == d || once == d - 360.0
    requires r == once || r == once + 360.0
    ensures SameMeridian(d, r)
  {
    if once == d && r == once {
      assert d - r == Turns(0);
    } else if once == d {
      assert d - r == Turns(-1);
    } else if r == once {
      assert d - r == Turns(1);
    } else {
      assert d - r == Turns(0);
    }
  }

  function Abs(x: real): real
  {
    if x < 0.0 then -x else x
  }

  /** The verdict: more than 90 degrees from the sub-solar longitude. */
  predicate OnNightSide(lng: real, sunLon: real)
  {
    Abs(WrapDifference(NormalizeLongitude(lng) - sunLon)) > 90.0
  }

  /** isOnNightSide as the page runs it, with its two while loops. */
  method IsOnNightSide(point: LatLng, hour: int, minute: int) returns (night: bool)
    requires 0 <= hour < 24 && 0 <= minute < 60
    ensures night == OnNightSide(point.lng, SunLongitude(hour, minute))
  {
    var sunLon := (hour as real + minute as real / 60.0 - 12.0) * 15.0;
    var pointLon := point.lng;
    while pointLon > 180.0
      invariant LowerBelow180(pointLon) == LowerBelow180(point.lng)
      decreases pointLon.Floor
    {
      pointLon := pointLon - 360.0;
    }
    while pointLon < -180.0
      invariant RaiseAboveMinus180(pointLon) == NormalizeLongitude(point.lng)
      decreases (-pointLon).Floor
    {
      pointLon := pointLon + 360.0;
    }
    var diff := pointLon - sunLon;
    if diff > 180.0 {
      diff := diff - 360.0;
    }
    if diff < -180.0 {
      diff := diff + 360.0;
    }
    night := Abs(diff) > 90.0;
  }

  /** The final difference lies in [-180, 180] for a sub-solar longitude in
      range, and is the point's offset from the sun up to whole turns. */
  lemma DifferenceInRange(lng: real, sunLon: real)
    requires -180.0 <= sunLon <= 180.0
    ensures -180.0 <= WrapDifference(NormalizeLongitude(lng) - sunLon) <= 180.0
    ensures SameMeridian(lng - sunLon, WrapDifference(NormalizeLongitude(lng) - sunLon))
  {
    var n := NormalizeLongitude(lng);
    SameMeridianShift(lng, n, -sunLon);
    SameMeridianTransitive(lng - sunLon, n - sunLon, WrapDifference(n - sunLon));
  }

  /** The verdict depends only on the meridian: lng and lng + 360 m agree. */
  lemma {:induction false} NightSideIsPeriodic(lng: real, other: real, sunLon: real)
    requires -180.0 <= sunLon <= 180.0
    requires SameMeridian(lng, other)
    ensures OnNightSide(lng, sunLon) == OnNightSide(other, sunLon)
  {
    var d1 := WrapDifference(NormalizeLongitude(lng) - sunLon);
    var d2 := WrapDifference(NormalizeLongitude(other) - sunLon);
    DifferenceInRange(lng, sunLon);
    DifferenceInRange(other, sunLon);
    SameMeridianShift(lng, other, -sunLon);
    SameMeridianSymmetric(lng - sunLon, d1);
    SameMeridianTransitive(d1, lng - sunLon, other - sunLon);
    SameMeridianTransitive(d1, other - sunLon, d2);
    SameMeridianInRange(d1, d2);
  }

  lemma NightSideWholeTurns(lng: real, sunLon: real, m: int)
    requires -180.0 <= sunLon <= 180.0
    ensures OnNightSide(lng + Turns(m), sunLon) == OnNightSide(lng, sunLon)
  {
    assert (lng + Turns(m)) - lng == Turns(m);
    NightSideIsPeriodic(lng + Turns(m), lng, sunLon);
  }

  /** The meridian under the sun is never on the night side; the opposite
      meridian always is. */
  lemma {:induction false} SunAndAntipode(sunLon: real)
    requires -180.0 <= sunLon < 180.0
    ensures !OnNightSide(sunLon, sunLon)
    ensures OnNightSide(sunLon + 180.0, sunLon)
    ensures OnNightSide(sunLon - 180.0, sunLon)
  {
    assert NormalizeLongitude(sunLon) == sunLon;
    assert WrapDifference(0.0) == 0.0;
    if sunLon + 180.0 > 180.0 {
      assert LowerBelow180(sunLon + 180.0) == LowerBelow180(sunLon - 180.0) == sunLon - 180.0;
    }
    assert Abs(WrapDifference(NormalizeLongitude(sunLon + 180.0) - sunLon)) == 180.0;
    assert NormalizeLongitude(sunLon - 180.0) == RaiseAboveMinus180(sunLon - 180.0);
    if sunLon - 180.0 < -180.0 {
      assert RaiseAboveMinus180(sunLon - 180.0) == RaiseAboveMinus180(sunLon + 180.0) == sunLon + 180.0;
    }
    assert Abs(WrapDifference(NormalizeLongitude(sunLon - 180.0) - sunLon)) == 180.0;
  }
}
