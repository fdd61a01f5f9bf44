/**
 * The coordinate conversion router of `reviutils/gis/convertor.py`: four
 * coordinate reference systems, five elementary transforms, a registry that
 * maps an ordered pair of systems to a path of elementary transforms, and the
 * scalar and batch conversions that fold a registered path over a point.
 *
 * Floats are modelled as reals. The math-library functions the formulas call
 * (`sin`, `cos`, `sqrt`, `atan2`) are parameters, and so is the WGS84/GCJ02
 * ellipsoid offset (`transform_lat`, `transform_lng` and their scaling), so
 * that nothing here depends on properties of trigonometry.
 */
module GisConvertor {
  import opened PyCore

  datatype CRS = WGS84 | GCJ02 | BD09 | MapBar

  /** The value of each `CRS` enum member. */
  function EpsgCode(c: CRS): string {
    match c
    case WGS84 => "EPSG:4326"
    case GCJ02 => "EPSG:3395"
    case BD09 => "EPSG:3857"
    case MapBar => "EPSG:54030"
  }

  /** Distinct members carry distinct values, so the enum has no aliases. */
  lemma EpsgCodesDistinct(a: CRS, b: CRS)
    ensures EpsgCode(a) == EpsgCode(b) ==> a == b
  {
  }

  /** A `(lng, lat)` pair. */
  datatype Coord = Coord(lng: real, lat: real)

  /**
   * The functions the formulas take from `math`, and the offset `(dlng, dlat)`
   * that `_wgs84_to_gcj02` and `_gcj02_to_wgs84` compute from a point.
   */
  datatype MathLib = MathLib(
    sin: real -> real,
    cos: real -> real,
    sqrt: real -> real,
    atan2: (real, real) -> real,
    gcjOffset: Coord -> Coord)

  const PI: real := 3.141592653589793
  const PIX: real := PI * 3000.0 / 180.0

  /** No offset is applied outside this box around China. */
  predicate OutOfChina(p: Coord)
    ensures OutOfChina(p) <==> !(72.004 <= p.lng <= 137.8437 && 0.8293 <= p.lat <= 55.8271)
  {
    if p.lng < 72.004 || p.lng > 137.8437 then true
    else if p.lat < 0.8293 || p.lat > 55.8271 then true
    else false
  }

  // ---------------------------------------------------------------------
  // The five elementary transforms

  const MapBarScale: real := 100000.0
  const MapBarModulus: real := 36000000.0

  /** Both coordinates scaled by 100000 and reduced modulo 36000000. */
  function MapBarReduce(p: Coord): (r: Coord)
    ensures 0.0 <= r.lng < MapBarModulus && 0.0 <= r.lat < MapBarModulus
  {
    Coord(FloatMod(p.lng * MapBarScale, MapBarModulus), FloatMod(p.lat * MapBarScale, MapBarModulus))
  }

  /** The `(1 if v > 0 else -1)` term of the second correction pass. */
  function SignTerm(v: real): real {
    if v > 0.0 then 1.0 else -1.0
  }

  /** MapBar to WGS84: reduce, then correct. */
  function MapBarToWgs84(m: MathLib, p: Coord): Coord {
    var q := MapBarPasses(m, MapBarReduce(p));
    Coord(q.0 as real / 100000.0, q.1 as real / 100000.0)
  }

  /** The two truncated correction passes on the reduced values, in units of 1e-5 degree. */
  function MapBarPasses(m: MathLib, r: Coord): (int, int) {
    var lng, lat := r.lng, r.lat;
    var lng1 := Trunc(lng - m.cos(lat / 100000.0) * lng / 18000.0 - m.sin(lng / 100000.0) * lat / 9000.0);
    var lat1 := Trunc(lat - m.sin(lat / 100000.0) * lng / 18000.0 - m.cos(lng / 100000.0) * lat / 9000.0);
    var l1, t1 := lng1 as real, lat1 as real;
    var lng2 := Trunc(lng - m.cos(t1 / 100000.0) * l1 / 18000.0 - m.sin(l1 / 100000.0) * t1 / 9000.0 + SignTerm(lng));
    var lat2 := Trunc(lat - m.sin(t1 / 100000.0) * l1 / 18000.0 - m.cos(l1 / 100000.0) * t1 / 9000.0 + SignTerm(lat));
    (lng2, lat2)
  }

  function Wgs84ToGcj02(m: MathLib, p: Coord): Coord {
    if OutOfChina(p) then p
    else
      var d := m.gcjOffset(p);
      Coord(p.lng + d.lng, p.lat + d.lat)
  }

  function Gcj02ToWgs84(m: MathLib, p: Coord): Coord {
    if OutOfChina(p) then p
    else
      var d := m.gcjOffset(p);
      Coord(p.lng - d.lng, p.lat - d.lat)
  }

  /** GCJ02 to BD09: the perturbation forwards, then the offset (0.0065, 0.006). */
  function Gcj02ToBd09(m: MathLib, p: Coord): Coord {
    var f := Perturbed(m, p, 1.0);
    Coord(f.lng + 0.0065, f.lat + 0.006)
  }

  /** BD09 to GCJ02: the offset removed, then the perturbation backwards. */
  function Bd09ToGcj02(m: MathLib, p: Coord): Coord {
    Perturbed(m, Coord(p.lng - 0.0065, p.lat - 0.006), -1.0)
  }

  /**
   * The polar perturbation shared by the BD09 transforms: with `s = 1` the
   * radius gains `0.00002 * sin(y * PIX)` and the angle `0.000003 * cos(x * PIX)`;
   * with `s = -1` both are subtracted.
   */
  function Perturbed(m: MathLib, p: Coord, s: real): Coord {
    var z := m.sqrt(p.lng * p.lng + p.lat * p.lat) + s * 0.00002 * m.sin(p.lat * PIX);
    var theta := m.atan2(p.lat, p.lng) + s * 0.000003 * m.cos(p.lng * PIX);
    Coord(z * m.cos(theta), z * m.sin(theta))
  }

  // ---------------------------------------------------------------------
  // Properties of the elementary transforms

  /** After the reduction the sign term is +1 unless the reduced value is exactly 0. */
  lemma MapBarSignTerm(p: Coord)
    ensures SignTerm(MapBarReduce(p).lng) == if MapBarReduce(p).lng == 0.0 then -1.0 else 1.0
    ensures SignTerm(MapBarReduce(p).lat) == if MapBarReduce(p).lat == 0.0 then -1.0 else 1.0
  {
  }

  /** Python's float `%` ignores a whole number of moduli. */
  lemma FloatModShift(x: real, mod: real)
    requires mod > 0.0
    ensures FloatMod(x + mod, mod) == FloatMod(x, mod)
  {
    var k := (x / mod).Floor;
    FloorBounds(x, mod, k);
    var k' := ((x + mod) / mod).Floor;
    FloorBounds(x + mod, mod, k');
    FloorUnique(x + mod, mod, k + 1, k');
  }

  /** At most one integer `k` puts `x` in `[mod*k, mod*k + mod)`. */
  lemma FloorUnique(x: real, mod: real, i: int, j: int)
    requires mod > 0.0
    requires mod * (i as real) <= x < mod * (i as real) + mod
    requires mod * (j as real) <= x < mod * (j as real) + mod
    ensures i == j
  {
    if i < j {
      NonNegProduct(mod, (j - i - 1) as real);
    } else if j < i {
      NonNegProduct(mod, (i - j - 1) as real);
    }
  }

  /** A MapBar point and the same point 360 degrees further east convert alike. */
  lemma MapBarPeriodicInLng(m: MathLib, p: Coord)
    ensures MapBarToWgs84(m, Coord(p.lng + 360.0, p.lat)) == MapBarToWgs84(m, p)
  {
    assert (p.lng + 360.0) * MapBarScale == p.lng * MapBarScale + MapBarModulus;
    FloatModShift(p.lng * MapBarScale, MapBarModulus);
    assert MapBarReduce(Coord(p.lng + 360.0, p.lat)) == MapBarReduce(p);
  }

  /** The MapBar result lies on the 1e-5 degree grid that the truncations produce. */
  lemma MapBarOnGrid(m: MathLib, p: Coord)
    ensures var q := MapBarToWgs84(m, p);
      (q.lng * 100000.0).Floor as real == q.lng * 100000.0 &&
      (q.lat * 100000.0).Floor as real == q.lat * 100000.0
  {
    var k := MapBarPasses(m, MapBarReduce(p));
    assert k.0 as real / 100000.0 * 100000.0 == k.0 as real;
    assert k.1 as real / 100000.0 * 100000.0 == k.1 as real;
  }

  /** Outside China neither GCJ02 transform moves the point. */
  lemma GcjIdentityOutsideChina(m: MathLib, p: Coord)
    requires OutOfChina(p)
    ensures Wgs84ToGcj02(m, p) == p && Gcj02ToWgs84(m, p) == p
  {
  }

  /**
   * Inside China the two GCJ02 transforms move a point by the same offset in
   * opposite directions, so GCJ02 to WGS84 is only an approximate inverse.
   */
  lemma GcjOppositeOffsets(m: MathLib, p: Coord)
    requires !OutOfChina(p)
    ensures var f, b := Wgs84ToGcj02(m, p), Gcj02ToWgs84(m, p);
      f.lng - p.lng == p.lng - b.lng && f.lat - p.lat == p.lat - b.lat &&
      f.lng - p.lng == m.gcjOffset(p).lng && f.lat - p.lat == m.gcjOffset(p).lat
  {
  }

  /**
   * BD09 to GCJ02 removes exactly the offset GCJ02 to BD09 adds, so the round
   * trip is the perturbation followed by the opposite one: an inverse only
   * approximately, as far as the two perturbations cancel.
   */
  lemma BdOppositePerturbations(m: MathLib, p: Coord)
    ensures Bd09ToGcj02(m, Gcj02ToBd09(m, p)) == Perturbed(m, Perturbed(m, p, 1.0), -1.0)
  {
    var f := Perturbed(m, p, 1.0);
    assert Coord(f.lng + 0.0065 - 0.0065, f.lat + 0.006 - 0.006) == f;
  }

  // ---------------------------------------------------------------------
  // Paths of elementary transforms

  /** The five registered functions, as tags. */
  datatype Step = MapBarWGS84 | WGS84GCJ02 | GCJ02WGS84 | GCJ02BD09 | BD09GCJ02

  function Source(s: Step): CRS {
    match s
    case MapBarWGS84 => MapBar
    case WGS84GCJ02 => WGS84
    case GCJ02WGS84 => GCJ02
    case GCJ02BD09 => GCJ02
    case BD09GCJ02 => BD09
  }

  function Target(s: Step): CRS {
    match s
    case MapBarWGS84 => WGS84
    case WGS84GCJ02 => GCJ02
    case GCJ02WGS84 => WGS84
    case GCJ02BD09 => BD09
    case BD09GCJ02 => GCJ02
  }

  function Apply(m: MathLib, s: Step, p: Coord): Coord {
    match s
    case MapBarWGS84 => MapBarToWgs84(m, p)
    case WGS84GCJ02 => Wgs84ToGcj02(m, p)
    case GCJ02WGS84 => Gcj02ToWgs84(m, p)
    case GCJ02BD09 => Gcj02ToBd09(m, p)
    case BD09GCJ02 => Bd09ToGcj02(m, p)
  }

  /** Applies the steps of a path in order, threading the running point. */
  function Run(m: MathLib, path: seq<Step>, p: Coord): Coord
    decreases |path|
  {
    if path == [] then p else Run(m, path[1..], Apply(m, path[0], p))
  }

  /** Running a concatenation runs the second path on the result of the first. */
  lemma {:induction false} RunAppend(m: MathLib, a: seq<Step>, b: seq<Step>, p: Coord)
    ensures Run(m, a + b, p) == Run(m, b, Run(m, a, p))
    decreases |a|
  {
    if a == [] {
      assert a + b == b;
    } else {
      assert (a + b)[1..] == a[1..] + b;
      RunAppend(m, a[1..], b, Apply(m, a[0], p));
    }
  }

  /** A path whose steps link up from `from` to `to`. */
  predicate Chain(path: seq<Step>, from: CRS, to: CRS) {
    && |path| > 0
    && Source(path[0]) == from
    && Target(path[|path| - 1]) == to
    && forall i :: 0 <= i < |path| - 1 ==> Target(path[i]) == Source(path[i + 1])
  }

  // ---------------------------------------------------------------------
  // The registry

  /** `graph[from][to]`: a dictionary of dictionaries. */
  type Graph = map<CRS, map<CRS, seq<Step>>>

  function Lookup(g: Graph, from: CRS, to: CRS): Option<seq<Step>> {
    if from in g && to in g[from] then Some(g[from][to]) else None
  }

  /** What `add_transform` accepts: one function, or a list of them. */
  datatype TransformArg = One(step: Step) | Many(steps: seq<Step>)

  function AsPath(arg: TransformArg): seq<Step> {
    match arg
    case One(s) => [s]
    case Many(ss) => ss
  }

  /** The registry after `add_transform(from, to, arg)`. */
  function Register(g: Graph, from: CRS, to: CRS, arg: TransformArg): (g': Graph)
    ensures Lookup(g', from, to) == Some(AsPath(arg))
    ensures forall a, b :: (a != from || b != to) ==> Lookup(g', a, b) == Lookup(g, a, b)
  {
    var inner := if from in g then g[from] else map[];
    g[from := inner[to := AsPath(arg)]]
  }

  /** The registry after the nine registrations made at import time, in their order. */
  function Registrations(): Graph {
    var g0: Graph := map[];
    var g1 := Register(g0, MapBar, WGS84, One(MapBarWGS84));
    var g2 := Register(g1, WGS84, GCJ02, One(WGS84GCJ02));
    var g3 := Register(g2, GCJ02, WGS84, One(GCJ02WGS84));
    var g4 := Register(g3, GCJ02, BD09, One(GCJ02BD09));
    var g5 := Register(g4, BD09, GCJ02, One(BD09GCJ02));
    var g6 := Register(g5, MapBar, GCJ02, Many([MapBarWGS84, WGS84GCJ02]));
    var g7 := Register(g6, MapBar, BD09, Many([MapBarWGS84, WGS84GCJ02, GCJ02BD09]));
    var g8 := Register(g7, WGS84, BD09, Many([WGS84GCJ02, GCJ02BD09]));
    Register(g8, BD09, WGS84, Many([BD09GCJ02, GCJ02WGS84]))
  }

  /** The default paths written out as a table, pair by pair. */
  function DefaultPath(from: CRS, to: CRS): Option<seq<Step>> {
    match (from, to)
    case (MapBar, WGS84) => Some([MapBarWGS84])
    case (WGS84, GCJ02) => Some([WGS84GCJ02])
    case (GCJ02, WGS84) => Some([GCJ02WGS84])
    case (GCJ02, BD09) => Some([GCJ02BD09])
    case (BD09, GCJ02) => Some([BD09GCJ02])
    case (MapBar, GCJ02) => Some([MapBarWGS84, WGS84GCJ02])
    case (MapBar, BD09) => Some([MapBarWGS84, WGS84GCJ02, GCJ02BD09])
    case (WGS84, BD09) => Some([WGS84GCJ02, GCJ02BD09])
    case (BD09, WGS84) => Some([BD09GCJ02, GCJ02WGS84])
    case _ => None
  }

  /** Every member of `CRS`, in definition order. */
  const Systems: seq<CRS> := [WGS84, GCJ02, BD09, MapBar]

  /** The default registry as a dictionary of dictionaries built from the table. */
  function DefaultGraph(): Graph {
    map a | a in Systems :: map b | b in Systems && DefaultPath(a, b).Some? :: DefaultPath(a, b).value
  }

  /** The dictionary holds exactly the table. */
  lemma DefaultGraphIsTable(from: CRS, to: CRS)
    ensures Lookup(DefaultGraph(), from, to) == DefaultPath(from, to)
  {
  }

  /** The nine registrations register exactly the table. */
  lemma RegistrationsAreTable(a: CRS, b: CRS)
    ensures Lookup(Registrations(), a, b) == DefaultPath(a, b)
  {
    var g0: Graph := map[];
    var g1 := Register(g0, MapBar, WGS84, One(MapBarWGS84));
    var g2 := Register(g1, WGS84, GCJ02, One(WGS84GCJ02));
    var g3 := Register(g2, GCJ02, WGS84, One(GCJ02WGS84));
    var g4 := Register(g3, GCJ02, BD09, One(GCJ02BD09));
    var g5 := Register(g4, BD09, GCJ02, One(BD09GCJ02));
    var g6 := Register(g5, MapBar, GCJ02, Many([MapBarWGS84, WGS84GCJ02]));
    var g7 := Register(g6, MapBar, BD09, Many([MapBarWGS84, WGS84GCJ02, GCJ02BD09]));
    var g8 := Register(g7, WGS84, BD09, Many([WGS84GCJ02, GCJ02BD09]));
    assert Registrations() == Register(g8, BD09, WGS84, Many([BD09GCJ02, GCJ02WGS84]));
    assert Lookup(g0, a, b) == None;
  }

  /** Two registries with the same source systems, none of them empty, and the same lookups are the same dictionary. */
  lemma LookupsDetermineGraph(r: Graph, d: Graph)
    requires forall a :: a in r <==> a in d
    requires forall a :: a in r ==> |r[a]| > 0
    requires forall a, b :: Lookup(r, a, b) == Lookup(d, a, b)
    ensures r == d
  {
    forall a | a in r
      ensures r[a] == d[a]
    {
      assert forall b :: b in r[a] <==> Lookup(r, a, b).Some?;
      assert forall b :: b in d[a] <==> Lookup(d, a, b).Some?;
      assert r[a].Keys == d[a].Keys;
    }
  }

  /** A registry whose lookups are exactly the table is the default registry. */
  lemma TableDeterminesGraph(r: Graph)
    requires forall a, b :: Lookup(r, a, b) == DefaultPath(a, b)
    ensures r == DefaultGraph()
  {
    var d := DefaultGraph();
    forall a, b
      ensures Lookup(r, a, b) == Lookup(d, a, b)
    {
      DefaultGraphIsTable(a, b);
    }
    forall a
      ensures a in r && a in d && |r[a]| > 0
    {
      var b := if a == WGS84 || a == BD09 then GCJ02 else WGS84;
      assert Lookup(r, a, b).Some?;
      assert b in r[a];
    }
    LookupsDetermineGraph(r, d);
  }

  /** The nine registrations build exactly the default registry. */
  lemma RegistrationsBuildDefault()
    ensures Registrations() == DefaultGraph()
  {
    forall a, b
      ensures Lookup(Registrations(), a, b) == DefaultPath(a, b)
    {
      RegistrationsAreTable(a, b);
    }
    TableDeterminesGraph(Registrations());
  }

  /** Besides the identity pairs, only the three pairs into MapBar are missing. */
  lemma DefaultUnregistered(from: CRS, to: CRS)
    requires from != to
    ensures Lookup(DefaultGraph(), from, to) == None <==> to == MapBar
  {
    DefaultGraphIsTable(from, to);
  }

  /** Every default path links up from its source system to its target system. */
  lemma DefaultPathsChain(from: CRS, to: CRS)
    requires Lookup(DefaultGraph(), from, to).Some?
    ensures Chain(Lookup(DefaultGraph(), from, to).value, from, to)
  {
    DefaultGraphIsTable(from, to);
  }

  // ---------------------------------------------------------------------
  // Conversion

  /** What `transform(lng, lat, from, to)` returns or raises. */
  function Converted(g: Graph, m: MathLib, p: Coord, from: CRS, to: CRS): Result<Coord> {
    if from == to then Ok(p)
    else match Lookup(g, from, to)
      case None => Err(ValueError)
      case Some(path) => Ok(Run(m, path, p))
  }

  /** Converting within one system returns the point, whatever the registry holds. */
  lemma ConvertedIdentity(g: Graph, m: MathLib, p: Coord, c: CRS)
    ensures Converted(g, m, p, c, c) == Ok(p)
  {
  }

  /** The conversion fails exactly for an unregistered pair of distinct systems. */
  lemma ConvertedFailsIffUnregistered(g: Graph, m: MathLib, p: Coord, from: CRS, to: CRS)
    ensures Converted(g, m, p, from, to).Err? <==> from != to && Lookup(g, from, to) == None
    ensures Converted(g, m, p, from, to).Err? ==> Converted(g, m, p, from, to).error == ValueError
  {
  }

  /** Registering a path and converting along it runs that path. */
  lemma ConvertedAfterRegister(g: Graph, m: MathLib, p: Coord, from: CRS, to: CRS, arg: TransformArg)
    requires from != to
    ensures Converted(Register(g, from, to, arg), m, p, from, to) == Ok(Run(m, AsPath(arg), p))
  {
  }

  /** A conversion on the default registry runs the tabled path. */
  lemma DefaultConverted(m: MathLib, p: Coord, from: CRS, to: CRS)
    requires from != to && DefaultPath(from, to).Some?
    ensures Converted(DefaultGraph(), m, p, from, to) == Ok(Run(m, DefaultPath(from, to).value, p))
  {
    DefaultGraphIsTable(from, to);
  }

  /** MapBar to WGS84 is its elementary transform. */
  lemma DefaultMapBarToWgs84(m: MathLib, p: Coord)
    ensures Converted(DefaultGraph(), m, p, MapBar, WGS84) == Ok(MapBarToWgs84(m, p))
  {
    DirectEdge(m, p, MapBar, WGS84, MapBarWGS84);
  }

  /** WGS84 to GCJ02 is its elementary transform. */
  lemma DefaultWgs84ToGcj02(m: MathLib, p: Coord)
    ensures Converted(DefaultGraph(), m, p, WGS84, GCJ02) == Ok(Wgs84ToGcj02(m, p))
  {
    DirectEdge(m, p, WGS84, GCJ02, WGS84GCJ02);
  }

  /** GCJ02 to WGS84 is its elementary transform. */
  lemma DefaultGcj02ToWgs84(m: MathLib, p: Coord)
    ensures Converted(DefaultGraph(), m, p, GCJ02, WGS84) == Ok(Gcj02ToWgs84(m, p))
  {
    DirectEdge(m, p, GCJ02, WGS84, GCJ02WGS84);
  }

  /** GCJ02 to BD09 is its elementary transform. */
  lemma DefaultGcj02ToBd09(m: MathLib, p: Coord)
    ensures Converted(DefaultGraph(), m, p, GCJ02, BD09) == Ok(Gcj02ToBd09(m, p))
  {
    DirectEdge(m, p, GCJ02, BD09, GCJ02BD09);
  }

  /** BD09 to GCJ02 is its elementary transform. */
  lemma DefaultBd09ToGcj02(m: MathLib, p: Coord)
    ensures Converted(DefaultGraph(), m, p, BD09, GCJ02) == Ok(Bd09ToGcj02(m, p))
  {
    DirectEdge(m, p, BD09, GCJ02, BD09GCJ02);
  }

  lemma DirectEdge(m: MathLib, p: Coord, from: CRS, to: CRS, s: Step)
    requires from != to && DefaultPath(from, to) == Some([s])
    ensures Converted(DefaultGraph(), m, p, from, to) == Ok(Apply(m, s, p))
  {
    ComposedVia(m, p, from, to, [s]);
    RunOne(m, s, p);
  }

  /** MapBar to GCJ02 runs MapBar to WGS84, then WGS84 to GCJ02. */
  lemma DefaultMapBarToGcj02(m: MathLib, p: Coord)
    ensures Converted(DefaultGraph(), m, p, MapBar, GCJ02) == Ok(Wgs84ToGcj02(m, MapBarToWgs84(m, p)))
  {
    ComposedVia(m, p, MapBar, GCJ02, [MapBarWGS84, WGS84GCJ02]);
    RunTwo(m, MapBarWGS84, WGS84GCJ02, p);
  }

  /** MapBar to BD09 runs MapBar to WGS84, WGS84 to GCJ02, then GCJ02 to BD09. */
  lemma DefaultMapBarToBd09(m: MathLib, p: Coord)
    ensures Converted(DefaultGraph(), m, p, MapBar, BD09) == Ok(Gcj02ToBd09(m, Wgs84ToGcj02(m, MapBarToWgs84(m, p))))
  {
    ComposedVia(m, p, MapBar, BD09, [MapBarWGS84, WGS84GCJ02, GCJ02BD09]);
    RunThree(m, MapBarWGS84, WGS84GCJ02, GCJ02BD09, p);
  }

  /** WGS84 to BD09 runs WGS84 to GCJ02, then GCJ02 to BD09. */
  lemma DefaultWgs84ToBd09(m: MathLib, p: Coord)
    ensures Converted(DefaultGraph(), m, p, WGS84, BD09) == Ok(Gcj02ToBd09(m, Wgs84ToGcj02(m, p)))
  {
    ComposedVia(m, p, WGS84, BD09, [WGS84GCJ02, GCJ02BD09]);
    RunTwo(m, WGS84GCJ02, GCJ02BD09, p);
  }

  /** BD09 to WGS84 runs BD09 to GCJ02, then GCJ02 to WGS84. */
  lemma DefaultBd09ToWgs84(m: MathLib, p: Coord)
    ensures Converted(DefaultGraph(), m, p, BD09, WGS84) == Ok(Gcj02ToWgs84(m, Bd09ToGcj02(m, p)))
  {
    ComposedVia(m, p, BD09, WGS84, [BD09GCJ02, GCJ02WGS84]);
    RunTwo(m, BD09GCJ02, GCJ02WGS84, p);
  }

  lemma ComposedVia(m: MathLib, p: Coord, from: CRS, to: CRS, path: seq<Step>)
    requires from != to && DefaultPath(from, to) == Some(path)
    ensures Converted(DefaultGraph(), m, p, from, to) == Ok(Run(m, path, p))
  {
    DefaultConverted(m, p, from, to);
  }

  lemma RunOne(m: MathLib, a: Step, p: Coord)
    ensures Run(m, [a], p) == Apply(m, a, p)
  {
    assert [a][1..] == [];
  }

  lemma RunTwo(m: MathLib, a: Step, b: Step, p: Coord)
    ensures Run(m, [a, b], p) == Apply(m, b, Apply(m, a, p))
  {
    assert [a, b][1..] == [b];
    RunOne(m, b, Apply(m, a, p));
  }

  lemma RunThree(m: MathLib, a: Step, b: Step, c: Step, p: Coord)
    ensures Run(m, [a, b, c], p) == Apply(m, c, Apply(m, b, Apply(m, a, p)))
  {
    assert [a, b, c][1..] == [b, c];
    RunTwo(m, b, c, Apply(m, a, p));
  }

  /**
   * Converting along a composed entry equals converting hop by hop through the
   * intermediate systems, e.g. MapBar to BD09 via GCJ02.
   */
  lemma DefaultComposedIsChained(m: MathLib, p: Coord)
    ensures Converted(DefaultGraph(), m, p, MapBar, GCJ02)
      == Converted(DefaultGraph(), m, Converted(DefaultGraph(), m, p, MapBar, WGS84).value, WGS84, GCJ02)
    ensures Converted(DefaultGraph(), m, p, MapBar, BD09)
      == Converted(DefaultGraph(), m, Converted(DefaultGraph(), m, p, MapBar, GCJ02).value, GCJ02, BD09)
    ensures Converted(DefaultGraph(), m, p, WGS84, BD09)
      == Converted(DefaultGraph(), m, Converted(DefaultGraph(), m, p, WGS84, GCJ02).value, GCJ02, BD09)
    ensures Converted(DefaultGraph(), m, p, BD09, WGS84)
      == Converted(DefaultGraph(), m, Converted(DefaultGraph(), m, p, BD09, GCJ02).value, GCJ02, WGS84)
  {
    DefaultMapBarToGcj02(m, p);
    DefaultMapBarToBd09(m, p);
    DefaultWgs84ToBd09(m, p);
    DefaultBd09ToWgs84(m, p);
    DefaultMapBarToWgs84(m, p);
    DefaultWgs84ToGcj02(m, MapBarToWgs84(m, p));
    DefaultGcj02ToBd09(m, Wgs84ToGcj02(m, MapBarToWgs84(m, p)));
    DefaultWgs84ToGcj02(m, p);
    DefaultGcj02ToBd09(m, Wgs84ToGcj02(m, p));
    DefaultBd09ToGcj02(m, p);
    DefaultGcj02ToWgs84(m, Bd09ToGcj02(m, p));
  }

  /** Outside China, WGS84 to GCJ02 on the default registry returns the input. */
  lemma DefaultWgs84ToGcj02OutsideChina(m: MathLib, p: Coord)
    requires OutOfChina(p)
    ensures Converted(DefaultGraph(), m, p, WGS84, GCJ02) == Ok(p)
    ensures Converted(DefaultGraph(), m, p, GCJ02, WGS84) == Ok(p)
  {
    DefaultGraphIsTable(WGS84, GCJ02);
    DefaultGraphIsTable(GCJ02, WGS84);
  }

  // ---------------------------------------------------------------------
  // Batch conversion

  /** `zip(lngs, lats)`: pairs up to the shorter length. */
  function Zip(lngs: seq<real>, lats: seq<real>): (r: seq<Coord>)
    ensures |r| == if |lngs| < |lats| then |lngs| else |lats|
    ensures forall i :: 0 <= i < |r| ==> r[i] == Coord(lngs[i], lats[i])
  {
    var n := if |lngs| < |lats| then |lngs| else |lats|;
    seq(n, i requires 0 <= i < n => Coord(lngs[i], lats[i]))
  }

  /**
   * One stage of `transform_batch`: transform every zipped pair and unzip the
   * results. With no pairs, `zip(*[])` is empty and unpacking it into `lngs,
   * lats` raises.
   */
  function ApplyStage(m: MathLib, s: Step, lngs: seq<real>, lats: seq<real>): Result<(seq<real>, seq<real>)> {
    var pts := Zip(lngs, lats);
    if |pts| == 0 then Err(ValueError)
    else Ok((seq(|pts|, i requires 0 <= i < |pts| => Apply(m, s, pts[i]).lng),
             seq(|pts|, i requires 0 <= i < |pts| => Apply(m, s, pts[i]).lat)))
  }

  /** The stages of a path in order, then the final zip. */
  function RunBatch(m: MathLib, path: seq<Step>, lngs: seq<real>, lats: seq<real>): Result<seq<Coord>>
    decreases |path|
  {
    if path == [] then Ok(Zip(lngs, lats))
    else
      var next :- ApplyStage(m, path[0], lngs, lats);
      RunBatch(m, path[1..], next.0, next.1)
  }

  /** What `transform_batch(lngs, lats, from, to)` returns or raises. */
  function BatchConverted(g: Graph, m: MathLib, lngs: seq<real>, lats: seq<real>, from: CRS, to: CRS): Result<seq<Coord>> {
    if from == to then Ok(Zip(lngs, lats))
    else match Lookup(g, from, to)
      case None => Err(ValueError)
      case Some(path) => RunBatch(m, path, lngs, lats)
  }

  /** A batch run succeeds unless a path stage meets no pairs, and then agrees pointwise with `Run`. */
  lemma {:induction false} RunBatchPointwise(m: MathLib, path: seq<Step>, lngs: seq<real>, lats: seq<real>)
    ensures RunBatch(m, path, lngs, lats).Err? <==> path != [] && |Zip(lngs, lats)| == 0
    ensures RunBatch(m, path, lngs, lats).Ok? ==>
      var r, z := RunBatch(m, path, lngs, lats).value, Zip(lngs, lats);
      |r| == |z| && forall i :: 0 <= i < |r| ==> r[i] == Run(m, path, z[i])
    decreases |path|
  {
    if path != [] {
      var pts := Zip(lngs, lats);
      if |pts| > 0 {
        var next := ApplyStage(m, path[0], lngs, lats).value;
        RunBatchPointwise(m, path[1..], next.0, next.1);
        var z' := Zip(next.0, next.1);
        assert |z'| == |pts|;
        forall i | 0 <= i < |z'|
          ensures z'[i] == Apply(m, path[0], pts[i])
        {
        }
      }
    }
  }

  /** Batch conversion is the scalar conversion applied to each zipped pair. */
  lemma BatchMatchesScalar(g: Graph, m: MathLib, lngs: seq<real>, lats: seq<real>, from: CRS, to: CRS)
    requires BatchConverted(g, m, lngs, lats, from, to).Ok?
    ensures var r := BatchConverted(g, m, lngs, lats, from, to).value;
      |r| == (if |lngs| < |lats| then |lngs| else |lats|) &&
      forall i :: 0 <= i < |r| ==> Ok(r[i]) == Converted(g, m, Coord(lngs[i], lats[i]), from, to)
  {
    if from != to {
      RunBatchPointwise(m, Lookup(g, from, to).value, lngs, lats);
    }
  }

  /** The batch fails for an unregistered pair, or for an empty batch along a non-empty path. */
  lemma BatchFailsIff(g: Graph, m: MathLib, lngs: seq<real>, lats: seq<real>, from: CRS, to: CRS)
    ensures BatchConverted(g, m, lngs, lats, from, to).Err? <==>
      from != to &&
      (Lookup(g, from, to) == None || (Lookup(g, from, to).value != [] && (|lngs| == 0 || |lats| == 0)))
  {
    if from != to && Lookup(g, from, to).Some? {
      RunBatchPointwise(m, Lookup(g, from, to).value, lngs, lats);
    }
  }

  // ---------------------------------------------------------------------
  // The converter object

  /** `_Convertor`: the registry and the operations over it. */
  class Convertor {
    var graph: Graph

    constructor ()
      ensures graph == map[]
    {
      graph := map[];
    }

    method AddTransform(from: CRS, to: CRS, func: TransformArg)
      modifies this
      ensures graph == Register(old(graph), from, to, func)
    {
      var inner := if from in graph then graph[from] else map[];
      graph := graph[from := inner[to := AsPath(func)]];
    }

    method Transform(m: MathLib, lng: real, lat: real, from: CRS, to: CRS) returns (r: Result<Coord>)
      ensures r == Converted(graph, m, Coord(lng, lat), from, to)
    {
      if from == to {
        return Ok(Coord(lng, lat));
      }
      if !(from in graph && to in graph[from]) {
        return Err(ValueError);
      }
      var path := graph[from][to];
      var p := Coord(lng, lat);
      for i := 0 to |path|
        invariant p == Run(m, path[..i], Coord(lng, lat))
      {
        RunAppend(m, path[..i], [path[i]], Coord(lng, lat));
        assert path[..i + 1] == path[..i] + [path[i]];
        p := Apply(m, path[i], p);
      }
      assert path[..|path|] == path;
      return Ok(p);
    }

    method TransformBatch(m: MathLib, lngs: seq<real>, lats: seq<real>, from: CRS, to: CRS)
      returns (r: Result<seq<Coord>>)
      ensures r == BatchConverted(graph, m, lngs, lats, from, to)
    {
      if from == to {
        return Ok(Zip(lngs, lats));
      }
      if !(from in graph && to in graph[from]) {
        return Err(ValueError);
      }
      var path := graph[from][to];
      var xs, ys := lngs, lats;
      for i := 0 to |path|
        invariant RunBatch(m, path, lngs, lats) == RunBatch(m, path[i..], xs, ys)
      {
        assert path[i..][1..] == path[i + 1..];
        var stage := ApplyStage(m, path[i], xs, ys);
        if stage.Err? {
          return Err(stage.error);
        }
        xs, ys := stage.value.0, stage.value.1;
      }
      return Ok(Zip(xs, ys));
    }
  }

  /** The module-level `Convertor` after its nine registrations. */
  method NewDefaultConvertor() returns (c: Convertor)
    ensures fresh(c) && c.graph == DefaultGraph()
  {
    c := new Convertor();
    c.AddTransform(MapBar, WGS84, One(MapBarWGS84));
    c.AddTransform(WGS84, GCJ02, One(WGS84GCJ02));
    c.AddTransform(GCJ02, WGS84, One(GCJ02WGS84));
    c.AddTransform(GCJ02, BD09, One(GCJ02BD09));
    c.AddTransform(BD09, GCJ02, One(BD09GCJ02));
    c.AddTransform(MapBar, GCJ02, Many([MapBarWGS84, WGS84GCJ02]));
    c.AddTransform(MapBar, BD09, Many([MapBarWGS84, WGS84GCJ02, GCJ02BD09]));
    c.AddTransform(WGS84, BD09, Many([WGS84GCJ02, GCJ02BD09]));
    c.AddTransform(BD09, WGS84, Many([BD09GCJ02, GCJ02WGS84]));
    assert c.graph == Registrations();
    RegistrationsBuildDefault();
  }
}
