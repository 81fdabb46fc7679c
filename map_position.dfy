/** The point type the map uses: a validated point in the unit cube with
    midpoint, north/east flags, a quadrant string and a centrality tag. */
module MapPosition {
  import opened Common
  import opened Vectors

  /** `Position.valid?(x, y, z)`: every coordinate lies in [0, 1]. */
  predicate ValidCoords(x: real, y: real, z: real) {
    0.0 <= x <= 1.0 && 0.0 <= y <= 1.0 && 0.0 <= z <= 1.0
  }

  /** A constructed position: its vector always satisfies `valid?`. */
  type Position = v: Vec3 | ValidCoords(v.x, v.y, v.z) witness Vec3(0.0, 0.0, 0.0)

  /** `Position.new(x, y, z)`: raises OutOfBounds unless the coordinates are valid. */
  function New(x: real, y: real, z: real): (r: Result<Position>)
    ensures r.Ok? <==> ValidCoords(x, y, z)
    ensures r.Err? ==> r.error == OutOfBounds
    ensures r.Ok? ==> r.value.x == x && r.value.y == y && r.value.z == z
  {
    if ValidCoords(x, y, z) then Ok(Vec3(x, y, z)) else Err(OutOfBounds)
  }

  /** `Position.midpoint`: a new position at the per-axis average. */
  function Midpoint(p: Position, q: Position): (r: Result<Position>)
    ensures r.Ok?
    ensures 2.0 * r.value.x == p.x + q.x && 2.0 * r.value.y == p.y + q.y
    ensures 2.0 * r.value.z == p.z + q.z
  {
    New((p.x + q.x) / 2.0, (p.y + q.y) / 2.0, (p.z + q.z) / 2.0)
  }

  /** The midpoint is as far from each end as half the ends' distance. */
  lemma MidpointEquidistant(mag: Vec3 -> real, p: Position, q: Position)
    requires IsMagnitude(mag)
    ensures Distance(mag, Midpoint(p, q).value, p) == Distance(mag, p, q) / 2.0
    ensures Distance(mag, Midpoint(p, q).value, q) == Distance(mag, p, q) / 2.0
  {
    assert Midpoint(p, q).value == Average(p, q);
    AverageEquidistant(mag, p, q);
  }

  /** `Position#flatten`: the same point at altitude zero. */
  function Flatten(p: Position): (r: Position)
    ensures r.x == p.x && r.y == p.y && r.z == 0.0
  {
    New(p.x, p.y, 0.0).value
  }

  predicate North(p: Position) { p.y > 0.5 }

  predicate East(p: Position) { p.x > 0.5 }

  /** `Position#quadrant`: 'N' or 'S' followed by 'E' or 'W'. */
  function Quadrant(p: Position): (q: string)
    ensures |q| == 2
    ensures q[0] == 'N' <==> p.y > 0.5
    ensures q[0] == 'S' <==> p.y <= 0.5
    ensures q[1] == 'E' <==> p.x > 0.5
    ensures q[1] == 'W' <==> p.x <= 0.5
  {
    (if North(p) then "N" else "S") + (if East(p) then "E" else "W")
  }

  datatype Centrality = Inner | Core | Outer

  /** The map's centre at sea level, (0.5, 0.5, 0). */
  const Centre: Position := Vec3(0.5, 0.5, 0.0)

  /** `Position#radius`: distance from the centre to the flattened point. */
  function Radius(mag: Vec3 -> real, p: Position): real {
    Distance(mag, Centre, Flatten(p))
  }

  /** `Position#central`: inner below radius 0.2, core below 0.4, else outer. */
  function Central(mag: Vec3 -> real, p: Position): (c: Centrality)
    ensures c == Inner <==> Radius(mag, p) < 0.2
    ensures c == Core <==> 0.2 <= Radius(mag, p) < 0.4
    ensures c == Outer <==> Radius(mag, p) >= 0.4
  {
    var r := Radius(mag, p);
    if r < 0.2 then Inner else if r < 0.4 then Core else Outer
  }

  /** The centrality ignores altitude: two points with the same x and y
      have the same radius and so the same tag. */
  lemma CentralIgnoresAltitude(mag: Vec3 -> real, p: Position, q: Position)
    requires p.x == q.x && p.y == q.y
    ensures Central(mag, p) == Central(mag, q)
  {
    assert Flatten(p) == Flatten(q);
  }
}
