/**
 * `Location` of `reviutils/gis/main.py`: a point tagged with its coordinate
 * reference system, converted by building a new value through the module-level
 * converter (whose registry is `GisConvertor.DefaultGraph()`).
 */
module GisMain {
  import opened PyCore
  import opened GisConvertor

  datatype Location = Location(lng: real, lat: real, crs: CRS)

  /**
   * `loc.convert_to(c)`: the converted point tagged with `c`, or the error the
   * converter raises. The receiver is a value and is never changed.
   */
  function ConvertTo(m: MathLib, loc: Location, c: CRS): (r: Result<Location>)
    ensures r.Ok? ==> r.value.crs == c
    ensures r.Ok? <==> Converted(DefaultGraph(), m, Coord(loc.lng, loc.lat), loc.crs, c).Ok?
    ensures r.Ok? ==>
      Converted(DefaultGraph(), m, Coord(loc.lng, loc.lat), loc.crs, c) == Ok(Coord(r.value.lng, r.value.lat))
    ensures r.Err? ==> r.error == ValueError
  {
    var p :- Converted(DefaultGraph(), m, Coord(loc.lng, loc.lat), loc.crs, c);
    Ok(Location(p.lng, p.lat, c))
  }

  /** Converting a location to its own system gives back the same location. */
  lemma ConvertToSelf(m: MathLib, loc: Location)
    ensures ConvertTo(m, loc, loc.crs) == Ok(loc)
  {
    ConvertedIdentity(DefaultGraph(), m, Coord(loc.lng, loc.lat), loc.crs);
  }

  /** A conversion fails exactly when it targets MapBar from another system. */
  lemma ConvertToFailsIff(m: MathLib, loc: Location, c: CRS)
    ensures ConvertTo(m, loc, c).Err? <==> loc.crs != c && c == MapBar
  {
    ConvertedFailsIffUnregistered(DefaultGraph(), m, Coord(loc.lng, loc.lat), loc.crs, c);
    if loc.crs != c {
      DefaultUnregistered(loc.crs, c);
    }
  }

  /** Converting twice through a composed entry equals converting once, e.g. MapBar to GCJ02 to BD09. */
  lemma ConvertToChains(m: MathLib, loc: Location)
    requires loc.crs == MapBar
    ensures var viaGcj := ConvertTo(m, loc, GCJ02);
      viaGcj.Ok? && ConvertTo(m, viaGcj.value, BD09) == ConvertTo(m, loc, BD09)
  {
    DefaultComposedIsChained(m, Coord(loc.lng, loc.lat));
  }
}
