/** Named regions as latitude/longitude boxes, and the two containment tests
    the system uses: the map page's test, which reads a box whose west edge
    lies east of its east edge as one crossing the antimeridian, and the
    aviation service's test, which does not. */
module Regions {

  datatype LatLng = LatLng(lat: real, lng: real)

  datatype Bounds = Bounds(north: real, south: real, west: real, east: real)

  datatype Country = Country(name: string, bounds: Bounds)

  /** The map page's region table. */
  const MapCountries: seq<Country> := [
    Country("Canada", Bounds(83.11, 41.68, -141.00, -52.64)),
    Country("United States", Bounds(71.41, 18.91, -179.78, -66.95)),
    Country("Greenland", Bounds(83.63, 59.78, -73.04, -12.21)),
    Country("Iceland", Bounds(66.54, 63.40, -24.54, -13.50)),
    Country("Norway", Bounds(71.18, 57.98, 4.65, 31.29)),
    Country("Sweden", Bounds(69.06, 55.34, 11.11, 24.17)),
    Country("Finland", Bounds(70.09, 59.81, 20.55, 31.59)),
    Country("Russia", Bounds(81.86, 41.19, 19.64, -169.05)),
    Country("Alaska (USA)", Bounds(71.41, 54.78, -179.78, -129.99)),
    Country("Northern Scotland", Bounds(60.86, 54.63, -8.65, -0.73)),
    Country("Northern Ireland", Bounds(58.50, 54.00, -8.50, -5.40)),
    Country("Denmark", Bounds(57.75, 54.56, 8.08, 15.16)),
    Country("Estonia", Bounds(59.68, 57.52, 21.84, 28.21)),
    Country("Latvia", Bounds(58.09, 55.67, 21.01, 28.24)),
    Country("Lithuania", Bounds(56.45, 53.90, 21.06, 26.84)),
    Country("Mongolia", Bounds(52.15, 41.58, 87.75, 119.92)),
    Country("Kazakhstan", Bounds(55.45, 40.93, 46.49, 87.31)),
    Country("Siberia (Russia)", Bounds(77.00, 50.00, 60.00, 180.00))
  ]

  /** The aviation service's region table. */
  const AviationCountries: seq<Country> := [
    Country("Canada", Bounds(83.11, 41.68, -141.00, -52.64)),
    Country("United States (Alaska)", Bounds(71.41, 54.78, -179.78, -129.99)),
    Country("Greenland", Bounds(83.63, 59.78, -73.04, -12.21)),
    Country("Iceland", Bounds(66.54, 63.40, -24.54, -13.50)),
    Country("Norway", Bounds(71.18, 57.98, 4.65, 31.29)),
    Country("Sweden", Bounds(69.06, 55.34, 11.11, 24.17)),
    Country("Finland", Bounds(70.09, 59.81, 20.55, 31.59)),
    Country("Russia (Siberia & Arctic)", Bounds(81.86, 49.00, 60.00, -169.05))
  ]

  /** The map page's test: edges inclusive; west > east means the box runs
      from west eastwards across the antimeridian to east. */
  predicate InCountry(lat: real, lng: real, c: Country)
  {
    var b := c.bounds;
    if b.west > b.east then
      lat >= b.south && lat <= b.north && (lng >= b.west || lng <= b.east)
    else
      lat >= b.south && lat <= b.north && lng >= b.west && lng <= b.east
  }

  /** The aviation service's test: an inclusive rectangle, no wrap rule. */
  predicate InBoxNoWrap(lat: real, lng: real, c: Country)
  {
    c.bounds.south <= lat <= c.bounds.north && c.bounds.west <= lng <= c.bounds.east
  }

  /** A longitude box in the usual [-180, 180] range. */
  predicate LongitudesInRange(b: Bounds)
  {
    -180.0 <= b.west <= 180.0 && -180.0 <= b.east <= 180.0
  }

  /** For an ordinary box (west <= east) the two tests agree: the map test is
      the closed rectangle [south, north] x [west, east]. */
  lemma OrdinaryBoxesAgree(lat: real, lng: real, c: Country)
    requires c.bounds.west <= c.bounds.east
    ensures InCountry(lat, lng, c) <==> InBoxNoWrap(lat, lng, c)
    ensures InCountry(lat, lng, c) <==>
      c.bounds.south <= lat <= c.bounds.north && c.bounds.west <= lng <= c.bounds.east
  {
  }

  /** The wrap rule means what it is meant to: for a longitude in
      [-180, 180], a box with west > east contains the point exactly when
      the point, or the point moved once round the globe, lies in the
      ordinary box that runs from west to east + 360. */
  lemma WrapRuleIsShiftedBox(lat: real, lng: real, c: Country)
    requires LongitudesInRange(c.bounds) && c.bounds.west > c.bounds.east
    requires -180.0 <= lng <= 180.0
    ensures InCountry(lat, lng, c) <==>
      c.bounds.south <= lat <= c.bounds.north &&
      (c.bounds.west <= lng <= c.bounds.east + 360.0 ||
       c.bounds.west <= lng + 360.0 <= c.bounds.east + 360.0)
  {
  }

  /** Without the wrap rule a box with west > east contains nothing. */
  lemma WrappedBoxEmptyWithoutWrapRule(lat: real, lng: real, c: Country)
    requires c.bounds.west > c.bounds.east
    ensures !InBoxNoWrap(lat, lng, c)
  {
  }

  /** The map page's Russia row crosses the antimeridian: (60, 179) is in it
      and (60, 0) is not. */
  lemma MapRussiaWraps()
    ensures MapCountries[7].name == "Russia"
    ensures InCountry(60.0, 179.0, MapCountries[7])
    ensures !InCountry(60.0, 0.0, MapCountries[7])
    ensures InCountry(60.0, -175.0, MapCountries[7])
  {
  }

  /** The aviation table's Russia row is stored with west > east as well, but
      its containment test has no wrap rule, so no point at all lies in it,
      not even one deep inside Siberia. */
  lemma AviationRussiaRowIsEmpty(lat: real, lng: real)
    ensures AviationCountries[7].name == "Russia (Siberia & Arctic)"
    ensures !InBoxNoWrap(lat, lng, AviationCountries[7])
    ensures InCountry(60.0, 100.0, AviationCountries[7])
  {
    WrappedBoxEmptyWithoutWrapRule(lat, lng, AviationCountries[7]);
  }
}
