/** The aurora map page: the 73-point oval loop, the night-side filter, the
    oval colour, the affected-region list and the time scrubber. The
    geomagnetic to geographic rotation (asin/atan2) is a parameter. */
module AuroraMap {
  import opened Regions
  import opened NightSide
  import opened Text
  import opened Seqs
  import KpScale

  /** The geomagnetic longitude of the k-th oval point: -180 + 5 k. */
  function GeomagLongitude(k: int): real
  {
    -180.0 + 5.0 * k as real
  }

  /** The oval as a value: point k is the rotation of (geomagLat, -180 + 5 k). */
  function Oval(geomagLat: real, rotate: (real, real) -> LatLng): seq<LatLng>
  {
    seq(73, k requires 0 <= k < 73 => rotate(geomagLat, GeomagLongitude(k)))
  }

  /** The sampled geomagnetic longitudes run from -180 to 180 in steps of 5,
      strictly ascending. */
  lemma OvalLongitudes()
    ensures GeomagLongitude(0) == -180.0 && GeomagLongitude(72) == 180.0
    ensures forall k :: 0 <= k < 72 ==> GeomagLongitude(k + 1) == GeomagLongitude(k) + 5.0
    ensures forall k :: 0 <= k <= 72 ==> -180.0 <= GeomagLongitude(k) <= 180.0
  {
  }

  /** The oval loop: for i = -180, -175, ..., 180 push the rotated point. */
  method OvalPoints(geomagLat: real, rotate: (real, real) -> LatLng) returns (points: seq<LatLng>)
    ensures |points| == 73
    ensures forall k :: 0 <= k < 73 ==> points[k] == rotate(geomagLat, -180.0 + 5.0 * k as real)
    ensures points == Oval(geomagLat, rotate)
  {
    points := [];
    var i := -180;
    while i <= 180
      invariant -180 <= i <= 185 && (i + 180) % 5 == 0
      invariant |points| == (i + 180) / 5
      invariant forall k :: 0 <= k < |points| ==> points[k] == rotate(geomagLat, GeomagLongitude(k))
    {
      points := points + [rotate(geomagLat, i as real)];
      i := i + 5;
    }
  }

  /** The filter of the oval points by the night-side verdict, in order. */
  function NightFilter(points: seq<LatLng>, sunLon: real): (r: seq<LatLng>)
    ensures |r| <= |points|
  {
    if points == [] then []
    else
      var last := points[|points| - 1];
      NightFilter(points[..|points| - 1], sunLon) + (if OnNightSide(last.lng, sunLon) then [last] else [])
  }

  lemma NightFilterAppend(a: seq<LatLng>, x: LatLng, sunLon: real)
    ensures NightFilter(a + [x], sunLon) ==
      NightFilter(a, sunLon) + (if OnNightSide(x.lng, sunLon) then [x] else [])
  {
    assert (a + [x])[..|a + [x]| - 1] == a;
  }

  /** A point is kept exactly when it is an oval point on the night side. */
  lemma {:induction false} NightFilterMembership(points: seq<LatLng>, sunLon: real)
    ensures forall p :: p in NightFilter(points, sunLon) <==> p in points && OnNightSide(p.lng, sunLon)
    decreases |points|
  {
    if points != [] {
      var init := points[..|points| - 1];
      NightFilterMembership(init, sunLon);
      assert points == init + [points[|points| - 1]];
    }
  }

  lemma {:induction false} NightFilterIsSubsequence(points: seq<LatLng>, sunLon: real)
    ensures IsSubsequence(NightFilter(points, sunLon), points)
    decreases |points|
  {
    if points != [] {
      var init := points[..|points| - 1];
      var last := points[|points| - 1];
      NightFilterIsSubsequence(init, sunLon);
      var r := NightFilter(points, sunLon);
      if OnNightSide(last.lng, sunLon) {
        assert r[..|r| - 1] == NightFilter(init, sunLon);
      } else {
        assert r == NightFilter(init, sunLon);
        NightFilterMembership(init, sunLon);
        assert r == [] || r[|r| - 1] != last;
      }
    }
  }

  /** Filtering the night-side points again changes nothing. */
  lemma {:induction false} NightFilterIdempotent(points: seq<LatLng>, sunLon: real)
    ensures NightFilter(NightFilter(points, sunLon), sunLon) == NightFilter(points, sunLon)
    decreases |points|
  {
    if points != [] {
      var init := points[..|points| - 1];
      var last := points[|points| - 1];
      var once := NightFilter(init, sunLon);
      NightFilterIdempotent(init, sunLon);
      assert points == init + [last];
      NightFilterAppend(init, last, sunLon);
      if OnNightSide(last.lng, sunLon) {
        assert NightFilter(points, sunLon) == once + [last];
        NightFilterAppend(once, last, sunLon);
      } else {
        assert NightFilter(points, sunLon) == once;
      }
    }
  }

  /** The page's filter, calling the night-side test point by point. */
  method FilterNightSide(points: seq<LatLng>, hour: int, minute: int) returns (night: seq<LatLng>)
    requires 0 <= hour < 24 && 0 <= minute < 60
    ensures night == NightFilter(points, SunLongitude(hour, minute))
  {
    night := [];
    var i := 0;
    while i < |points|
      invariant 0 <= i <= |points|
      invariant night == NightFilter(points[..i], SunLongitude(hour, minute))
    {
      var isNight := IsOnNightSide(points[i], hour, minute);
      NightFilterAppend(points[..i], points[i], SunLongitude(hour, minute));
      assert points[..i + 1] == points[..i] + [points[i]];
      if isNight {
        night := night + [points[i]];
      }
      i := i + 1;
    }
    assert points[..|points|] == points;
  }

  datatype AuroraColour = Purple | Amber | Red

  /** The oval's colour: red from Kp 7, amber from Kp 5, purple below. */
  function OvalColour(kp: real): (c: AuroraColour)
  {
    if kp >= 7.0 then Red else if kp >= 5.0 then Amber else Purple
  }

  /** The map's colour bands are the High and Moderate aurora levels of the
      forecasting service; Low and Minimal both show purple. */
  lemma OvalColourMatchesAuroraLevel(kp: real)
    ensures OvalColour(kp) == Red <==> KpScale.GetAuroraDetails(kp).level == KpScale.High
    ensures OvalColour(kp) == Amber <==> KpScale.GetAuroraDetails(kp).level == KpScale.Moderate
    ensures OvalColour(kp) == Purple <==>
      KpScale.GetAuroraDetails(kp).level in {KpScale.Low, KpScale.Minimal}
  {
    KpScale.AuroraBands(kp);
  }

  /** Some point of the list lies in a region of the table called name. */
  predicate Affects(points: seq<LatLng>, table: seq<Country>, name: string)
  {
    exists a, b :: 0 <= a < |points| && 0 <= b < |table| &&
      InCountry(points[a].lat, points[a].lng, table[b]) && table[b].name == name
  }

  /** Some hit among the points before a, or among point a and the regions
      before b, is called name. */
  predicate FoundBefore(points: seq<LatLng>, table: seq<Country>, a: int, b: int, name: string)
  {
    exists i, j :: 0 <= i < |points| && 0 <= j < |table| &&
      (i < a || (i == a && j < b)) &&
      InCountry(points[i].lat, points[i].lng, table[j]) && table[j].name == name
  }

  /** updateAffectedCountries: every (point, region) hit adds the region's
      name to a set, which is then sorted. */
  method AffectedCountries(points: seq<LatLng>, table: seq<Country>) returns (names: seq<string>)
    ensures StrictlySorted(names)
    ensures forall n :: n in names <==> Affects(points, table, n)
    ensures points == [] ==> names == []
  {
    var found: set<string> := {};
    var a := 0;
    while a < |points|
      invariant 0 <= a <= |points|
      invariant forall n :: n in found <==> FoundBefore(points, table, a, 0, n)
    {
      var b := 0;
      while b < |table|
        invariant 0 <= b <= |table|
        invariant forall n :: n in found <==> FoundBefore(points, table, a, b, n)
      {
        if InCountry(points[a].lat, points[a].lng, table[b]) {
          found := found + {table[b].name};
        }
        b := b + 1;
      }
      a := a + 1;
    }
    names := SortedNames(found);
  }

  /** What one map refresh draws. */
  datatype Overlay = Overlay(path: seq<LatLng>, drawPolygon: bool, colour: AuroraColour, affected: seq<string>)

  /** updateMap without the drawing calls: the oval, its night-side part, the
      colour, whether a polygon is drawn (at least two points), and the
      affected regions of the night-side points. */
  method UpdateMap(geomagLat: real, kp: real, hour: int, minute: int, rotate: (real, real) -> LatLng)
    returns (overlay: Overlay)
    requires 0 <= hour < 24 && 0 <= minute < 60
    ensures overlay.path == NightFilter(Oval(geomagLat, rotate), SunLongitude(hour, minute))
    ensures overlay.drawPolygon <==> |overlay.path| >= 2
    ensures overlay.colour == OvalColour(kp)
    ensures StrictlySorted(overlay.affected)
    ensures forall n :: n in overlay.affected <==> Affects(overlay.path, MapCountries, n)
  {
    var oval := OvalPoints(geomagLat, rotate);
    var night := FilterNightSide(oval, hour, minute);
    var colour := Purple;
    if kp >= 7.0 {
      colour := Red;
    } else if kp >= 5.0 {
      colour := Amber;
    }
    var affected := AffectedCountries(night, MapCountries);
    overlay := Overlay(night, |night| > 1, colour, affected);
  }

  /** The playback step: 71 wraps to 0, anything else moves one frame on. */
  function NextFrame(v: int): (r: int)
    ensures 0 <= v <= 71 ==> 0 <= r <= 71 && r == (v + 1) % 72
  {
    if v >= 71 then 0 else v + 1
  }

  /** The slider after k playback steps. */
  function Frames(v: int, k: nat): int
  {
    if k == 0 then v else NextFrame(Frames(v, k - 1))
  }

  /** Playback is a rotation of 0..71: after k steps the slider is at
      (v + k) mod 72, so it returns to its start every 72 steps. */
  lemma {:induction false} FramesRotate(v: int, k: nat)
    requires 0 <= v <= 71
    ensures Frames(v, k) == (v + k) % 72
  {
    if k > 0 {
      FramesRotate(v, k - 1);
    }
  }

  lemma PlaybackPeriod(v: int)
    requires 0 <= v <= 71
    ensures Frames(v, 72) == v
    ensures forall k: nat :: 0 < k < 72 ==> Frames(v, k) != v
  {
    FramesRotate(v, 72);
    forall k: nat | 0 < k < 72 ensures Frames(v, k) != v {
      FramesRotate(v, k);
    }
  }

  /** The speed toggle: 150 ms becomes 500 ms, anything else 150 ms. */
  function NextSpeed(ms: int): (r: int)
    ensures r == 150 || r == 500
    ensures (ms == 150 || ms == 500) ==> r != ms
  {
    if ms == 150 then 500 else 150
  }

  /** Toggling the speed twice restores it. */
  lemma NextSpeedInvolution(ms: int)
    requires ms == 150 || ms == 500
    ensures NextSpeed(NextSpeed(ms)) == ms
  {
  }

  /** The time-control state of the map page. */
  class Scrubber {
    var sliderValue: int
    var isPlaying: bool
    var intervalMs: int

    predicate Valid()
      reads this
    {
      0 <= sliderValue <= 71 && (intervalMs == 150 || intervalMs == 500)
    }

    constructor ()
      ensures Valid()
      ensures sliderValue == 0 && !isPlaying && intervalMs == 150
    {
      sliderValue := 0;
      isPlaying := false;
      intervalMs := 150;
    }

    /** One timer tick while playing. */
    method Tick()
      requires Valid() && isPlaying
      modifies this
      ensures Valid()
      ensures sliderValue == NextFrame(old(sliderValue))
      ensures isPlaying && intervalMs == old(intervalMs)
    {
      sliderValue := if sliderValue >= 71 then 0 else sliderValue + 1;
    }

    /** Moving the range input, whose bounds are 0 and 71. */
    method SlideTo(v: int)
      requires Valid() && 0 <= v <= 71
      modifies this
      ensures Valid()
      ensures sliderValue == v && isPlaying == old(isPlaying) && intervalMs == old(intervalMs)
    {
      sliderValue := v;
    }

    method ToggleAnimation()
      requires Valid()
      modifies this
      ensures Valid()
      ensures isPlaying == !old(isPlaying)
      ensures sliderValue == old(sliderValue) && intervalMs == old(intervalMs)
    {
      isPlaying := !isPlaying;
    }

    method ToggleSpeed()
      requires Valid()
      modifies this
      ensures Valid()
      ensures intervalMs == NextSpeed(old(intervalMs)) && intervalMs != old(intervalMs)
      ensures sliderValue == old(sliderValue) && isPlaying == old(isPlaying)
    {
      intervalMs := if intervalMs == 150 then 500 else 150;
    }

    /** Back to the first frame, with playback stopped. */
    method ResetToNow()
      requires Valid()
      modifies this
      ensures Valid()
      ensures sliderValue == 0 && !isPlaying && intervalMs == old(intervalMs)
    {
      if isPlaying {
        isPlaying := false;
      }
      sliderValue := 0;
    }
  }
}
