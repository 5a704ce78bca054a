/** The backend's aviation briefing: the NOAA Kp forecast table is cleaned,
    its first eight three-hour rows are scanned, and each row with Kp 4 or
    more whose aurora circle crosses a night-side region of the aviation
    table becomes a block. The solar-elevation night test and the language
    model that turns the blocks into prose are outside the model. */
module Aviation {
  import opened Regions
  import opened Text
  import KpScale
  import opened Wrappers
  import opened Seqs

  /** A data row of the NOAA table after to_numeric / to_datetime with
      errors='coerce': a field that did not parse is None. */
  datatype RawRow = RawRow(kp: Option<real>, time: Option<int>)

  datatype ForecastRow = ForecastRow(kp: real, time: int)

  /** One analysed block: its time, its Kp and the sorted region names. */
  datatype Block = Block(time: int, kp: real, regions: seq<string>)

  datatype Report =
    | Failed(status: int)
    | CalmReport
    | ImpactReport(blocks: seq<Block>)

  /** Rows analysed per request: 24 hours of 3-hour blocks. */
  const BlocksAnalysed: nat := 8

  /** dropna(subset=['kp', 'time_tag']), keeping the order. */
  function DropMissing(raw: seq<RawRow>): (rows: seq<ForecastRow>)
    ensures |rows| <= |raw|
  {
    if raw == [] then []
    else
      var rest := DropMissing(raw[1..]);
      if raw[0].kp.Some? && raw[0].time.Some? then [ForecastRow(raw[0].kp.value, raw[0].time.value)] + rest
      else rest
  }

  /** A row survives exactly when both of its fields parsed. */
  lemma {:induction false} DropMissingKeepsParsedRows(raw: seq<RawRow>, kp: real, time: int)
    ensures ForecastRow(kp, time) in DropMissing(raw) <==>
      RawRow(Some(kp), Some(time)) in raw
  {
    if raw != [] {
      DropMissingKeepsParsedRows(raw[1..], kp, time);
      assert raw == [raw[0]] + raw[1..];
    }
  }

  /** The circle of 37 points at one latitude, longitudes -180..180 by 10. */
  function Grid(geomagLat: real): seq<LatLng>
  {
    seq(37, k requires 0 <= k < 37 => LatLng(geomagLat, -180.0 + 10.0 * k as real))
  }

  /** calculate_aurora_oval_points: the for-loop over range(-180, 181, 10). */
  method AuroraOvalPoints(geomagLat: real) returns (points: seq<LatLng>)
    ensures |points| == 37
    ensures forall k :: 0 <= k < 37 ==> points[k] == LatLng(geomagLat, -180.0 + 10.0 * k as real)
    ensures points == Grid(geomagLat)
  {
    points := [];
    var lng := -180;
    while lng < 181
      invariant -180 <= lng <= 190 && (lng + 180) % 10 == 0
      invariant |points| == (lng + 180) / 10
      invariant forall k :: 0 <= k < |points| ==> points[k] == LatLng(geomagLat, -180.0 + 10.0 * k as real)
    {
      points := points + [LatLng(geomagLat, lng as real)];
      lng := lng + 10;
    }
  }

  /** The circle runs from -180 to 180, strictly east, every point at the
      given latitude. */
  lemma GridShape(geomagLat: real)
    ensures |Grid(geomagLat)| == 37
    ensures Grid(geomagLat)[0].lng == -180.0 && Grid(geomagLat)[36].lng == 180.0
    ensures forall k :: 0 <= k < 36 ==> Grid(geomagLat)[k].lng < Grid(geomagLat)[k + 1].lng
    ensures forall p :: p in Grid(geomagLat) ==> p.lat == geomagLat && -180.0 <= p.lng <= 180.0
  {
  }

  /** The set comprehension of the aviation endpoint: names of the aviation
      regions that contain, by the no-wrap test, a circle point on the night
      side at the row's time. */
  function AffectedRegions(row: ForecastRow, isNight: (real, real, int) -> bool): set<string>
  {
    set c, p | c in AviationCountries && p in Grid(KpScale.GeomagneticLatitude(row.kp)) &&
      isNight(p.lat, p.lng, row.time) && InBoxNoWrap(p.lat, p.lng, c) :: c.name
  }

  /** The rows that produce a block: Kp at least 4 and some affected region. */
  function Significant(rows: seq<ForecastRow>, isNight: (real, real, int) -> bool): (sel: seq<ForecastRow>)
    ensures |sel| <= |rows|
  {
    if rows == [] then []
    else
      var last := rows[|rows| - 1];
      Significant(rows[..|rows| - 1], isNight) +
        (if last.kp >= 4.0 && AffectedRegions(last, isNight) != {} then [last] else [])
  }

  lemma SignificantAppend(rows: seq<ForecastRow>, r: ForecastRow, isNight: (real, real, int) -> bool)
    ensures Significant(rows + [r], isNight) ==
      Significant(rows, isNight) + (if r.kp >= 4.0 && AffectedRegions(r, isNight) != {} then [r] else [])
  {
    assert (rows + [r])[..|rows + [r]| - 1] == rows;
  }

  /** The rows that produce a block are exactly the scanned rows with Kp 4
      or more and a non-empty region set: every block row qualifies, and no
      qualifying row is skipped. */
  lemma {:induction false} SignificantRows(rows: seq<ForecastRow>, isNight: (real, real, int) -> bool)
    ensures forall r :: r in Significant(rows, isNight) ==>
      r in rows && r.kp >= 4.0 && AffectedRegions(r, isNight) != {}
    ensures forall r :: r in rows && r.kp >= 4.0 && AffectedRegions(r, isNight) != {} ==>
      r in Significant(rows, isNight)
    decreases |rows|
  {
    if rows != [] {
      var init := rows[..|rows| - 1];
      SignificantRows(init, isNight);
      assert rows == init + [rows[|rows| - 1]];
    }
  }

  /** The blocks come in the order of the scanned rows: the selection is an
      order-preserving subsequence of them. */
  lemma {:induction false} SignificantIsSubsequence(rows: seq<ForecastRow>, isNight: (real, real, int) -> bool)
    ensures IsSubsequence(Significant(rows, isNight), rows)
    decreases |rows|
  {
    if rows != [] {
      var init := rows[..|rows| - 1];
      var last := rows[|rows| - 1];
      SignificantIsSubsequence(init, isNight);
      var sel := Significant(rows, isNight);
      if last.kp >= 4.0 && AffectedRegions(last, isNight) != {} {
        assert sel[..|sel| - 1] == Significant(init, isNight);
      } else {
        assert sel == Significant(init, isNight);
        SignificantRows(init, isNight);
        assert sel == [] || sel[|sel| - 1] != last;
      }
    }
  }

  /** Below Kp 4 everywhere, no row is significant. */
  lemma {:induction false} QuietRowsGiveNothing(rows: seq<ForecastRow>, isNight: (real, real, int) -> bool)
    requires forall r :: r in rows ==> r.kp < 4.0
    ensures Significant(rows, isNight) == []
    decreases |rows|
  {
    if rows != [] {
      var init := rows[..|rows| - 1];
      assert forall r :: r in init ==> r in rows;
      QuietRowsGiveNothing(init, isNight);
      assert rows[|rows| - 1] in rows;
    }
  }

  /** The aviation table stores its Russia row with west > east, and the
      no-wrap test finds no point in it: that name never appears. */
  lemma RussiaNeverAffected(row: ForecastRow, isNight: (real, real, int) -> bool)
    ensures "Russia (Siberia & Arctic)" !in AffectedRegions(row, isNight)
  {
    forall c, p: LatLng | c in AviationCountries && c.name == "Russia (Siberia & Arctic)"
      ensures !InBoxNoWrap(p.lat, p.lng, c)
    {
      assert c == AviationCountries[7];
      AviationRussiaRowIsEmpty(p.lat, p.lng);
    }
  }

  /** The block of a significant row. */
  ghost predicate BlockFor(b: Block, row: ForecastRow, isNight: (real, real, int) -> bool)
  {
    b.time == row.time && b.kp == row.kp && StrictlySorted(b.regions) &&
    forall n :: n in b.regions <==> n in AffectedRegions(row, isNight)
  }

  /** The loop body for one row: a row below Kp 4 is skipped; otherwise the
      circle at the row's latitude is checked against the aviation regions and
      a block is made when some region is hit. */
  method AnalyseRow(row: ForecastRow, isNight: (real, real, int) -> bool) returns (block: Option<Block>)
    ensures block.Some? <==> row.kp >= 4.0 && AffectedRegions(row, isNight) != {}
    ensures block.Some? ==> BlockFor(block.value, row, isNight)
  {
    block := None;
    if row.kp >= 4.0 {
      var geomagLat := KpScale.GeomagneticLatitude(row.kp);
      var auroraPoints := AuroraOvalPoints(geomagLat);
      var affected := set c, p | c in AviationCountries && p in auroraPoints &&
        isNight(p.lat, p.lng, row.time) && InBoxNoWrap(p.lat, p.lng, c) :: c.name;
      assert affected == AffectedRegions(row, isNight);
      if affected != {} {
        var names := SortedNames(affected);
        block := Some(Block(row.time, row.kp, names));
      }
    }
  }

  /** blocks[k] is the block of rows[k], for every k. */
  ghost predicate BlocksFor(blocks: seq<Block>, rows: seq<ForecastRow>, isNight: (real, real, int) -> bool)
  {
    |blocks| == |rows| && forall k :: 0 <= k < |blocks| ==> BlockFor(blocks[k], rows[k], isNight)
  }

  lemma BlocksForAppend(blocks: seq<Block>, rows: seq<ForecastRow>, b: Block, r: ForecastRow,
                        isNight: (real, real, int) -> bool)
    requires BlocksFor(blocks, rows, isNight) && BlockFor(b, r, isNight)
    ensures BlocksFor(blocks + [b], rows + [r], isNight)
  {
  }

  /** The rows the endpoint scans: the first eight of the cleaned table. */
  function Scanned(data: seq<RawRow>): (rows: seq<ForecastRow>)
    requires |data| >= 1
    ensures |rows| <= BlocksAnalysed
  {
    var cleaned := DropMissing(data[1..]);
    if |cleaned| <= BlocksAnalysed then cleaned else cleaned[..BlocksAnalysed]
  }

  /** The loop over the scanned rows: one block per significant row, in
      order. */
  method AnalyseRows(head: seq<ForecastRow>, isNight: (real, real, int) -> bool) returns (blocks: seq<Block>)
    ensures BlocksFor(blocks, Significant(head, isNight), isNight)
  {
    blocks := [];
    var i := 0;
    while i < |head|
      invariant 0 <= i <= |head|
      invariant BlocksFor(blocks, Significant(head[..i], isNight), isNight)
    {
      var row := head[i];
      SignificantAppend(head[..i], row, isNight);
      assert head[..i + 1] == head[..i] + [row];
      var block := AnalyseRow(row, isNight);
      if block.Some? {
        BlocksForAppend(blocks, Significant(head[..i], isNight), block.value, row, isNight);
        blocks := blocks + [block.value];
      }
      i := i + 1;
    }
    assert head[..|head|] == head;
  }

  /** get_aviation_forecast up to the language-model call. data[0] is the
      header row. Too little data raises 503 inside the try block, which the
      handler re-raises as 500. */
  method AviationForecast(data: seq<RawRow>, isNight: (real, real, int) -> bool) returns (report: Report)
    ensures |data| < 2 ==> report == Failed(500)
    ensures |data| >= 2 && Significant(Scanned(data), isNight) == [] ==> report == CalmReport
    ensures |data| >= 2 && Significant(Scanned(data), isNight) != [] ==>
      report.ImpactReport? && BlocksFor(report.blocks, Significant(Scanned(data), isNight), isNight)
  {
    if |data| < 2 {
      return Failed(500);
    }
    var forecastRows := DropMissing(data[1..]);
    var head := if |forecastRows| <= BlocksAnalysed then forecastRows else forecastRows[..BlocksAnalysed];
    assert head == Scanned(data);
    var blocks := AnalyseRows(head, isNight);
    if blocks == [] {
      report := CalmReport;
    } else {
      report := ImpactReport(blocks);
    }
  }
}
