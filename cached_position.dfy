/** The richer point type: a validated point in the unit cube that caches
    its radial vectors, its north/south and west/east flags and its
    quadrant tag when it is constructed. */
module CachedPosition {
  import opened Common
  import opened Vectors
  import MapPosition

  datatype NorthSouth = North | South

  datatype WestEast = West | East

  /** `Position.valid?(x, y, z)`: every coordinate lies in [0, 1]. */
  predicate ValidCoords(v: Vec3) {
    0.0 <= v.x <= 1.0 && 0.0 <= v.y <= 1.0 && 0.0 <= v.z <= 1.0
  }

  /** `Position.quadrant(vec)`: builds [ns, we, label] slot by slot, the
      tag starting as 'N' or 'S' and then getting 'E' or 'W' appended. */
  method QuadrantOf(vec: Vec3) returns (ns: NorthSouth, we: WestEast, tag: string)
    ensures ns == North <==> vec.y > 0.5
    ensures we == East <==> vec.x > 0.5
    ensures tag == [if ns == North then 'N' else 'S', if we == East then 'E' else 'W']
    ensures tag in {"NE", "NW", "SE", "SW"}
  {
    if vec.y > 0.5 {
      ns, tag := North, "N";
    } else {
      ns, tag := South, "S";
    }
    if vec.x > 0.5 {
      we, tag := East, tag + "E";
    } else {
      we, tag := West, tag + "W";
    }
  }

  /** The centre of the cube, (0.5, 0.5, 0.5). */
  const Centre: Vec3 := Vec3(0.5, 0.5, 0.5)

  /** `Position#radial(dim)`: the vector from the point to the centre, in
      3-D (dim 3) or in the horizontal plane (dim 2); any other dim raises. */
  function Radial(vec: Vec3, dim: int): (r: Result<Vec3>)
    ensures r.Ok? <==> dim == 2 || dim == 3
    ensures r.Err? ==> r.error == UnexpectedDim
    ensures r.Ok? ==> r.value.x + vec.x == 0.5 && r.value.y + vec.y == 0.5
    ensures dim == 3 ==> r.value.z + vec.z == 0.5
    ensures dim == 2 ==> r.value.z == 0.0
  {
    if dim == 2 then Ok(Minus(Centre, Vec3(vec.x, vec.y, 0.5)))
    else if dim == 3 then Ok(Minus(Centre, vec))
    else Err(UnexpectedDim)
  }

  /** The 2-D radial vector is the 3-D one with its altitude part dropped. */
  lemma RadialPlanarIsFlattened(vec: Vec3)
    ensures Radial(vec, 2).value == Vec3(Radial(vec, 3).value.x, Radial(vec, 3).value.y, 0.0)
  {
  }

  datatype Centrality = Inner | Core | Outer

  class Position {
    const vec: Vec3
    const r3: Vec3
    const r2: Vec3
    const ns: NorthSouth
    const we: WestEast
    const quadrant: string

    /** The cached fields agree with the vector they were computed from. */
    ghost predicate Valid() {
      && ValidCoords(vec)
      && Radial(vec, 3) == Ok(r3)
      && Radial(vec, 2) == Ok(r2)
      && (ns == North <==> vec.y > 0.5)
      && (we == East <==> vec.x > 0.5)
      && quadrant == [if ns == North then 'N' else 'S', if we == East then 'E' else 'W']
    }

    /** The part of `initialize` after validation: store the vector and
        cache r3, r2, ns, we and the quadrant tag. */
    constructor Init(v: Vec3)
      requires ValidCoords(v)
      ensures Valid() && vec == v
    {
      vec := v;
      r3 := Radial(v, 3).value;
      r2 := Radial(v, 2).value;
      var n, w, tag := QuadrantOf(v);
      ns, we, quadrant := n, w, tag;
    }

    /** `Position.new(x, y, z)`: raises OutOfBounds unless all three
        coordinates lie in [0, 1]; boundary values are accepted. */
    static method New(x: real, y: real, z: real) returns (r: Result<Position>)
      ensures r.Err? <==> !ValidCoords(Vec3(x, y, z))
      ensures r.Err? ==> r.error == OutOfBounds
      ensures r.Ok? ==> fresh(r.value) && r.value.Valid() && r.value.vec == Vec3(x, y, z)
    {
      if !ValidCoords(Vec3(x, y, z)) {
        return Err(OutOfBounds);
      }
      var p := new Position.Init(Vec3(x, y, z));
      r := Ok(p);
    }

    /** `Position#distance`. */
    function Distance(mag: Vec3 -> real, other: Position): real {
      Vectors.Distance(mag, vec, other.vec)
    }

    /** `Position#midpoint`: a new, valid position at the per-axis average,
        equidistant from both ends. */
    method Midpoint(other: Position) returns (r: Result<Position>)
      requires Valid() && other.Valid()
      ensures r.Ok? && fresh(r.value) && r.value.Valid()
      ensures r.value.vec == Average(vec, other.vec)
      ensures forall mag :: IsMagnitude(mag) ==>
        r.value.Distance(mag, this) == Distance(mag, other) / 2.0 &&
        r.value.Distance(mag, other) == Distance(mag, other) / 2.0
    {
      r := New((vec.x + other.vec.x) / 2.0, (vec.y + other.vec.y) / 2.0, (vec.z + other.vec.z) / 2.0);
      assert r.value.vec == Average(vec, other.vec);
      forall mag | IsMagnitude(mag)
        ensures r.value.Distance(mag, this) == Distance(mag, other) / 2.0
        ensures r.value.Distance(mag, other) == Distance(mag, other) / 2.0
      {
        AverageEquidistant(mag, vec, other.vec);
      }
    }

    /** `Position#central`: by the magnitude of the cached 2-D radial vector,
        inner below 0.2, core from 0.2 below 0.4, outer otherwise. */
    function Central(mag: Vec3 -> real): (c: Centrality)
      ensures c == Inner <==> mag(r2) < 0.2
      ensures c == Core <==> 0.2 <= mag(r2) < 0.4
      ensures c == Outer <==> 0.4 <= mag(r2)
    {
      if mag(r2) < 0.2 then Inner else if mag(r2) < 0.4 then Core else Outer
    }
  }

  /** The two position types classify alike: the cached quadrant tag and
      centrality equal those the map's position computes for the same point. */
  lemma AgreesWithMapPosition(mag: Vec3 -> real, p: Position, q: MapPosition.Position)
    requires p.Valid() && p.vec == q
    ensures p.quadrant == MapPosition.Quadrant(q)
    ensures p.Central(mag) == Inner <==> MapPosition.Central(mag, q) == MapPosition.Inner
    ensures p.Central(mag) == Core <==> MapPosition.Central(mag, q) == MapPosition.Core
    ensures p.Central(mag) == Outer <==> MapPosition.Central(mag, q) == MapPosition.Outer
  {
    assert Minus(MapPosition.Centre, MapPosition.Flatten(q)) == p.r2;
  }

  /** A point straight above the centre has a zero 2-D radius and is inner. */
  lemma AboveCentreIsInner(mag: Vec3 -> real, p: Position)
    requires IsMagnitude(mag)
    requires p.Valid() && p.vec.x == 0.5 && p.vec.y == 0.5
    ensures mag(p.r2) == 0.0 && p.Central(mag) == Inner
  {
    assert p.r2 == Scale(0.0, p.r2);
    assert mag(Scale(0.0, p.r2)) == Abs(0.0) * mag(p.r2);
  }
}
