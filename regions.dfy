/** The map's longitudinal bands and how `Map#generate` settles a random
    point into one of them. Every classification depends on x alone. */
module Regions {
  import opened Vectors
  import opened MapPosition

  const WestIslesEdge: real := 0.05
  const WestCoastEdge: real := 0.15
  const EastCoastEdge: real := 0.85
  const EastIslesEdge: real := 0.95

  /** The search tolerance divisor of the river's midpoint search. */
  const RiverMidpointDivisor: real := 1.5

  predicate WestCoast(p: Position) { p.x <= WestCoastEdge }

  predicate EastCoast(p: Position) { p.x >= EastCoastEdge }

  /** `Map.west_isles?`; every west isle lies on the west coast. */
  predicate WestIsles(p: Position): (b: bool)
    ensures b ==> WestCoast(p) && !EastCoast(p)
  {
    p.x <= WestIslesEdge
  }

  /** `Map.east_isles?`; every east isle lies on the east coast. */
  predicate EastIsles(p: Position): (b: bool)
    ensures b ==> EastCoast(p) && !WestCoast(p)
  {
    p.x >= EastIslesEdge
  }

  /** The two coasts never overlap. */
  lemma CoastsDisjoint(p: Position)
    ensures !(WestCoast(p) && EastCoast(p))
  {
  }

  /** What `generate` makes of a point: an island in the isles bands, a
      coastal or delta city on the mainland coast (decided by a coin), an
      inland city otherwise. */
  datatype Settlement = IslandCity | CoastalCity | DeltaCity | InlandCity

  /** The random inputs of one round of `generate`: `Position.random`'s
      three coordinates and whether `rand(2)` came up 0. */
  datatype Draw = Draw(x: real, y: real, z: real, coinZero: bool)

  /** `rand(0)` gives a value in [0, 1). */
  predicate RandomRange(d: Draw) {
    0.0 <= d.x < 1.0 && 0.0 <= d.y < 1.0 && 0.0 <= d.z < 1.0
  }

  function SettlementOf(p: Position, coinZero: bool): (s: Settlement)
    ensures s == InlandCity <==> !WestCoast(p) && !EastCoast(p)
    ensures s == IslandCity <==> WestIsles(p) || EastIsles(p)
    ensures s == CoastalCity <==> (WestCoast(p) || EastCoast(p)) && !WestIsles(p) && !EastIsles(p) && coinZero
  {
    if EastCoast(p) || WestCoast(p) then
      if EastIsles(p) || WestIsles(p) then IslandCity
      else if coinZero then CoastalCity
      else DeltaCity
    else InlandCity
  }

  /** The point after `generate` has scaled its altitude in place: halved
      on an island, divided by 10 on the mainland coast and then by 2 more
      for a coastal city, unchanged inland. */
  function Settle(p: Position, coinZero: bool): (q: Position)
    ensures q.x == p.x && q.y == p.y && 0.0 <= q.z <= p.z
    ensures SettlementOf(p, coinZero) == IslandCity ==> 2.0 * q.z == p.z
    ensures SettlementOf(p, coinZero) == CoastalCity ==> 20.0 * q.z == p.z
    ensures SettlementOf(p, coinZero) == DeltaCity ==> 10.0 * q.z == p.z
    ensures SettlementOf(p, coinZero) == InlandCity ==> q.z == p.z
  {
    match SettlementOf(p, coinZero)
    case IslandCity => Vec3(p.x, p.y, p.z / 2.0)
    case CoastalCity => Vec3(p.x, p.y, p.z / 10.0 / 2.0)
    case DeltaCity => Vec3(p.x, p.y, p.z / 10.0)
    case InlandCity => p
  }

  /** Settling keeps the band: the scaled point is classified as the drawn one. */
  lemma SettleKeepsSettlement(p: Position, coinZero: bool)
    ensures SettlementOf(Settle(p, coinZero), coinZero) == SettlementOf(p, coinZero)
  {
  }

  /** Mainland coastal altitude is at most a tenth of the drawn one. */
  lemma MainlandAltitudeCrushed(p: Position, coinZero: bool)
    requires SettlementOf(p, coinZero) in {CoastalCity, DeltaCity}
    ensures 10.0 * Settle(p, coinZero).z <= p.z
  {
  }
}
