/** The map: named cities at positions in the unit cube, the coast, isles
    and river sets that connect them by water, the synthesis of the river,
    and the land, river and sea costs of moving goods between cities. */
module HansaMap {
  import opened Common
  import opened Vectors
  import opened MapPosition
  import opened Regions
  import opened Paths
  import opened Goods
  import CityNames

  const UpstreamDivisor: real := 8.5
  const DownstreamDivisor: real := 12.0
  const SeaDivisor: real := 10.0

  /** `d + d * alt * 0.5`: the land cost over distance `d` climbing `alt`. */
  function Climb(d: real, alt: real): real {
    d + d * alt * 0.5
  }

  /** Climbing and descending the same slope costs twice the distance. */
  lemma ClimbThereAndBack(d: real, alt: real)
    ensures Climb(d, alt) + Climb(d, -alt) == 2.0 * d
  {
    assert d * (-alt) == -(d * alt);
  }

  /** Over an altitude change within the unit cube the land cost stays
      between half and one and a half times the distance, and is at least
      the distance exactly when climbing. */
  lemma ClimbBounds(d: real, alt: real)
    requires d >= 0.0 && -1.0 <= alt <= 1.0
    ensures 0.5 * d <= Climb(d, alt) <= 1.5 * d
    ensures alt >= 0.0 ==> Climb(d, alt) >= d
    ensures alt <= 0.0 ==> Climb(d, alt) <= d
  {
    var c := d * alt;
    ProductBounds(d, alt);
    assert Climb(d, alt) == d + c * 0.5;
  }

  lemma ProductBounds(d: real, alt: real)
    requires d >= 0.0 && -1.0 <= alt <= 1.0
    ensures -d <= d * alt <= d
    ensures alt >= 0.0 ==> d * alt >= 0.0
    ensures alt <= 0.0 ==> d * alt <= 0.0
  {
    if alt >= 0.0 {
      assert d * alt <= d * 1.0;
    } else {
      assert d * alt >= d * -1.0;
    }
  }

  /** The three ways goods travel. */
  datatype Mode = Sea | Land | Riverway

  function Member(o: Option<Name>, s: set<Name>): bool {
    o.Some? && o.value in s
  }

  /** The types `generate` samples for an inland city: the keys of
      `City::TYPES` other than coastal (island and delta are no keys). */
  predicate InlandType(t: CityType) {
    t in {Untyped, Farming, HighTech, Industrial, Culture, Undeveloped}
  }

  /** `Position.random` from a draw. */
  function Point(d: Draw): Position
    requires RandomRange(d)
  {
    Vec3(d.x, d.y, d.z)
  }

  /** The settlement `generate` makes of a draw. */
  function Kind(d: Draw): Settlement
    requires RandomRange(d)
  {
    SettlementOf(Point(d), d.coinZero)
  }

  /** Where `generate` puts the city of a draw, its altitude scaled. */
  function Placement(d: Draw): Position
    requires RandomRange(d)
  {
    Settle(Point(d), d.coinZero)
  }

  /** The type `generate` gives the city of a draw; `inland` is the type
      sampled for an inland city. */
  function TypeOf(d: Draw, inland: CityType): (t: CityType)
    requires RandomRange(d) && InlandType(inland)
    ensures t == Island <==> Kind(d) == IslandCity
    ensures t == Delta <==> Kind(d) == DeltaCity
    ensures Kind(d) == CoastalCity ==> t == Coastal
    ensures Kind(d) == InlandCity ==> t == inland
  {
    match Kind(d)
    case IslandCity => Island
    case CoastalCity => Coastal
    case DeltaCity => Delta
    case InlandCity => inland
  }

  /** The name table `generate` samples for the city of a draw: the
      coastal names for islands and the mainland coast, the delta names
      for deltas, the plain names inland. */
  function NameTable(t: CityNames.Tables, d: Draw): CityNames.Table
    requires RandomRange(d)
  {
    match Kind(d)
    case IslandCity => t.coastal
    case CoastalCity => t.coastal
    case DeltaCity => t.delta
    case InlandCity => t.names
  }

  /** The tables `generate` samples from name the i-th city with the i-th
      letter, and no entry it samples is empty. */
  predicate NamesAvailable(t: CityNames.Tables, draws: seq<Draw>)
    requires forall i :: 0 <= i < |draws| ==> RandomRange(draws[i])
  {
    |draws| <= 26
    && CityNames.InitialsMatch(t.names) && CityNames.InitialsMatch(t.coastal) && CityNames.InitialsMatch(t.delta)
    && forall i :: 0 <= i < |draws| ==>
         CityNames.Letter(i) in NameTable(t, draws[i]) && NameTable(t, draws[i])[CityNames.Letter(i)] != {}
  }

  /** The cities of `rs` in the insertion order `names`, sorted from the
      highest down. */
  function PathIn(names: seq<Name>, pos: Table, rs: set<Name>): (p: seq<Name>)
    requires Distinct(names) && (forall n :: n in names <==> n in pos) && rs <= pos.Keys
    ensures Within(p, pos) && Descending(p, pos) && Distinct(p)
    ensures forall n :: n in p <==> n in rs
    ensures |p| == |rs|
  {
    var members := Filter(names, rs);
    var p := SortByAltitude(members, pos);
    PermutationKeepsMembers(members, p);
    assert forall n :: n in members <==> n in rs;
    DistinctCardinality(p, rs);
    p
  }

  /** The tests `find_river_midpoint` applies to a candidate `n` between
      `a` and `b`, over the placement `pos` and the coasts `east` and
      `west`: not an endpoint, altitude between theirs, not on a coast,
      and within the distance between them over 1.5 of their midpoint. */
  predicate QualifiesIn(mag: Vec3 -> real, pos: Table, east: set<Name>, west: set<Name>, a: Name, b: Name, n: Name)
    requires a in pos && b in pos
  {
    n in pos && n != a && n != b
    && !(pos[n].z > pos[a].z && pos[n].z > pos[b].z)
    && !(pos[n].z < pos[a].z && pos[n].z < pos[b].z)
    && n !in east && n !in west
    && Distance(mag, Midpoint(pos[a], pos[b]).value, pos[n]) <= Distance(mag, pos[a], pos[b]) / RiverMidpointDivisor
  }

  /** No city qualifies as a midpoint between `a` and `b`. */
  ghost predicate NoMidpointIn(mag: Vec3 -> real, pos: Table, east: set<Name>, west: set<Name>, a: Name, b: Name)
    requires a in pos && b in pos
  {
    forall n :: !QualifiesIn(mag, pos, east, west, a, b, n)
  }

  /** A city `add_river` may seed from: the first city, or one off both
      coasts. */
  predicate SeedIn(names: seq<Name>, pos: Table, east: set<Name>, west: set<Name>, n: Name)
    requires |names| > 0
  {
    n in pos && (n == names[0] || (n !in east && n !in west))
  }

  /** `apex` and `gulch` are seeds no lower and no higher than any seed. */
  ghost predicate SeedsBoundIn(names: seq<Name>, pos: Table, east: set<Name>, west: set<Name>, apex: Name, gulch: Name)
    requires |names| > 0
  {
    SeedIn(names, pos, east, west, apex) && SeedIn(names, pos, east, west, gulch)
    && forall n :: SeedIn(names, pos, east, west, n) ==> pos[gulch].z <= pos[n].z <= pos[apex].z
  }

  /** A coastal city other than the gulch and no higher than it. */
  predicate AttachableIn(pos: Table, east: set<Name>, west: set<Name>, gulch: Name, n: Name)
    requires gulch in pos && east <= pos.Keys && west <= pos.Keys
  {
    n in east + west && n != gulch && pos[n].z <= pos[gulch].z
  }

  /** `link` is an attachable city nearest the gulch, or none when no
      city is attachable. */
  ghost predicate LinkChoiceIn(mag: Vec3 -> real, pos: Table, east: set<Name>, west: set<Name>, gulch: Name, link: Option<Name>)
    requires gulch in pos && east <= pos.Keys && west <= pos.Keys
  {
    (link.None? <==> forall n :: !AttachableIn(pos, east, west, gulch, n))
    && (link.Some? ==>
          AttachableIn(pos, east, west, gulch, link.value)
          && forall n :: AttachableIn(pos, east, west, gulch, n) ==>
               Distance(mag, pos[link.value], pos[gulch]) <= Distance(mag, pos[n], pos[gulch]))
  }

  /** The outcome of `add_river` on the river `r0`, apart from the final
      river itself: `apex` and `gulch` are the extreme seeds; `grown` is
      what the growth loop reaches from `r0` and both seeds by the passes
      that add `steps`, where a further pass adds nothing (so it is
      saturated, by `NoGrowthSaturated`), and every city it added lies off
      the coast; and `link` is the nearest attachable city. */
  ghost predicate SynthesisIn(mag: Vec3 -> real, names: seq<Name>, pos: Table, east: set<Name>, west: set<Name>,
                              r0: set<Name>, apex: Name, gulch: Name, steps: seq<Name>, grown: set<Name>, link: Option<Name>)
    requires Distinct(names) && (forall n :: n in names <==> n in pos) && |names| > 0
    requires east <= pos.Keys && west <= pos.Keys
  {
    SeedsBoundIn(names, pos, east, west, apex, gulch)
    && r0 + {apex, gulch} <= grown <= pos.Keys
    && Iterated(GrowthOf(mag, names, pos, east, west), r0 + {apex, gulch}, steps, grown)
    && NextGrowthIn(mag, names, pos, east, west, grown).None?
    && (forall n :: n in grown - (r0 + {apex, gulch}) ==> n !in east && n !in west)
    && LinkChoiceIn(mag, pos, east, west, gulch, link)
  }

  /** Gathers the parts of `SynthesisIn`, each established on its own. */
  lemma SynthesisGathered(mag: Vec3 -> real, names: seq<Name>, pos: Table, east: set<Name>, west: set<Name>,
                          r0: set<Name>, apex: Name, gulch: Name, steps: seq<Name>, grown: set<Name>, link: Option<Name>)
    requires Distinct(names) && (forall n :: n in names <==> n in pos) && |names| > 0
    requires east <= pos.Keys && west <= pos.Keys
    requires SeedsBoundIn(names, pos, east, west, apex, gulch) && r0 + {apex, gulch} <= grown <= pos.Keys
    requires Iterated(GrowthOf(mag, names, pos, east, west), r0 + {apex, gulch}, steps, grown)
    requires NextGrowthIn(mag, names, pos, east, west, grown).None?
    requires forall n :: n in grown - (r0 + {apex, gulch}) ==> n !in east && n !in west
    requires LinkChoiceIn(mag, pos, east, west, gulch, link)
    ensures SynthesisIn(mag, names, pos, east, west, r0, apex, gulch, steps, grown, link)
  {
  }

  /** No two consecutive cities of the path through `rs` have a midpoint
      candidate. */
  ghost predicate SaturatedIn(mag: Vec3 -> real, names: seq<Name>, pos: Table, east: set<Name>, west: set<Name>, rs: set<Name>)
    requires Distinct(names) && (forall n :: n in names <==> n in pos) && rs <= pos.Keys
  {
    var p := PathIn(names, pos, rs);
    forall i :: 0 <= i < |p| - 1 ==> NoMidpointIn(mag, pos, east, west, p[i], p[i + 1])
  }
  /** Of a synthesis, the grown river is saturated, and the seeds alone
      decide it and the cities the loop added, in order. */
  lemma SynthesisGrowthDetermined(mag: Vec3 -> real, names: seq<Name>, pos: Table, east: set<Name>, west: set<Name>,
                                  r0: set<Name>, apex: Name, gulch: Name,
                                  s1: seq<Name>, g1: set<Name>, l1: Option<Name>, s2: seq<Name>, g2: set<Name>, l2: Option<Name>)
    requires Distinct(names) && (forall n :: n in names <==> n in pos) && |names| > 0
    requires east <= pos.Keys && west <= pos.Keys
    requires SynthesisIn(mag, names, pos, east, west, r0, apex, gulch, s1, g1, l1)
    requires SynthesisIn(mag, names, pos, east, west, r0, apex, gulch, s2, g2, l2)
    ensures SaturatedIn(mag, names, pos, east, west, g1)
    ensures s1 == s2 && g1 == g2
  {
    NoGrowthSaturated(mag, names, pos, east, west, g1);
    IteratedDeterministic(GrowthOf(mag, names, pos, east, west), r0 + {apex, gulch}, s1, g1, s2, g2);
  }


  /** `mp.distance(pos)`: how far `n` lies from the midpoint of `a` and `b`. */
  function MidDistanceIn(mag: Vec3 -> real, pos: Table, a: Name, b: Name, n: Name): real
    requires a in pos && b in pos && n in pos
  {
    Distance(mag, Midpoint(pos[a], pos[b]).value, pos[n])
  }

  /** The selection loop of `find_river_midpoint` in general, over
      `names[i..]` from the best so far: a city passing `ok` replaces the
      best only when `dist` puts it strictly nearer. */
  function ArgMinScan(names: seq<Name>, ok: Name -> bool, dist: Name -> real, i: nat, best: Option<Name>): Option<Name>
    requires i <= |names|
    decreases |names| - i
  {
    if i == |names| then best
    else if ok(names[i]) && (best.None? || dist(names[i]) < dist(best.value))
    then ArgMinScan(names, ok, dist, i + 1, Some(names[i]))
    else ArgMinScan(names, ok, dist, i + 1, best)
  }

  /** `r` is nil when no city of `names` passes `ok`, and otherwise a
      passing city that `dist` puts no farther than any passing city and
      strictly nearer than every passing city before it. */
  ghost predicate IsArgMin(names: seq<Name>, ok: Name -> bool, dist: Name -> real, r: Option<Name>) {
    (r.None? ==> forall j :: 0 <= j < |names| ==> !ok(names[j]))
    && (r.Some? ==>
          r.value in names && ok(r.value)
          && (forall j :: 0 <= j < |names| && ok(names[j]) ==> dist(r.value) <= dist(names[j]))
          && (forall j :: 0 <= j < IndexOf(names, r.value) && ok(names[j]) ==> dist(r.value) < dist(names[j])))
  }

  /** The scan from index `i` ends with the nearest, earliest passing
      city, given that the best so far is that of `names[..i]`. */
  lemma {:induction false} ArgMinScanSound(names: seq<Name>, ok: Name -> bool, dist: Name -> real, i: nat, best: Option<Name>)
    requires Distinct(names) && i <= |names|
    requires best.None? ==> forall j :: 0 <= j < i ==> !ok(names[j])
    requires best.Some? ==> best.value in names && IndexOf(names, best.value) < i && ok(best.value)
    requires best.Some? ==> forall j :: 0 <= j < i && ok(names[j]) ==> dist(best.value) <= dist(names[j])
    requires best.Some? ==> forall j :: 0 <= j < IndexOf(names, best.value) && ok(names[j]) ==> dist(best.value) < dist(names[j])
    ensures IsArgMin(names, ok, dist, ArgMinScan(names, ok, dist, i, best))
    decreases |names| - i
  {
    if i < |names| {
      if ok(names[i]) && (best.None? || dist(names[i]) < dist(best.value)) {
        DistinctIndex(names, i);
        ArgMinScanSound(names, ok, dist, i + 1, Some(names[i]));
      } else {
        ArgMinScanSound(names, ok, dist, i + 1, best);
      }
    }
  }

  /** Over distinct cities only one answer has the properties of `IsArgMin`. */
  lemma ArgMinUnique(names: seq<Name>, ok: Name -> bool, dist: Name -> real, r1: Option<Name>, r2: Option<Name>)
    requires Distinct(names) && IsArgMin(names, ok, dist, r1) && IsArgMin(names, ok, dist, r2)
    ensures r1 == r2
  {
    if r1.Some? && r2.Some? {
      var i1, i2 := IndexOf(names, r1.value), IndexOf(names, r2.value);
      if i1 < i2 {
        assert false;
      } else if i2 < i1 {
        assert false;
      }
    }
  }

  /** The tests of `find_river_midpoint` between `a` and `b`, as a test on a city. */
  function MidpointTest(mag: Vec3 -> real, pos: Table, east: set<Name>, west: set<Name>, a: Name, b: Name): Name -> bool
    requires a in pos && b in pos
  {
    n => QualifiesIn(mag, pos, east, west, a, b, n)
  }

  /** The distance `find_river_midpoint` minimises, as a function of the
      city; it is never consulted for an unknown one. */
  function MidpointDistance(mag: Vec3 -> real, pos: Table, a: Name, b: Name): Name -> real
    requires a in pos && b in pos
  {
    n => if n in pos then MidDistanceIn(mag, pos, a, b, n) else 0.0
  }

  /** What `find_river_midpoint` answers between two known cities. */
  function NearestMidpoint(mag: Vec3 -> real, names: seq<Name>, pos: Table, east: set<Name>, west: set<Name>,
                           a: Name, b: Name): Option<Name>
    requires a in pos && b in pos
  {
    ArgMinScan(names, MidpointTest(mag, pos, east, west, a, b), MidpointDistance(mag, pos, a, b), 0, None)
  }

  /** `c` is a city `find_river_midpoint` may answer between `a` and `b`:
      it qualifies, no qualifying city lies nearer the midpoint, and every
      qualifying city before it in `names` lies strictly farther. */
  ghost predicate NearestMidpointIn(mag: Vec3 -> real, names: seq<Name>, pos: Table, east: set<Name>, west: set<Name>,
                                    a: Name, b: Name, c: Name)
    requires (forall n :: n in names <==> n in pos) && a in pos && b in pos
  {
    QualifiesIn(mag, pos, east, west, a, b, c)
    && (forall n :: QualifiesIn(mag, pos, east, west, a, b, n) ==> MidDistanceIn(mag, pos, a, b, c) <= MidDistanceIn(mag, pos, a, b, n))
    && (forall j :: 0 <= j < IndexOf(names, c) && QualifiesIn(mag, pos, east, west, a, b, names[j]) ==>
          MidDistanceIn(mag, pos, a, b, c) < MidDistanceIn(mag, pos, a, b, names[j]))
  }

  /** `find_river_midpoint` answers nil exactly when no city qualifies,
      and otherwise the nearest qualifying city, the earliest among
      equals; no other city has these properties. */
  lemma NearestMidpointCharacterized(mag: Vec3 -> real, names: seq<Name>, pos: Table, east: set<Name>, west: set<Name>,
                                     a: Name, b: Name)
    requires Distinct(names) && (forall n :: n in names <==> n in pos) && a in pos && b in pos
    ensures NearestMidpoint(mag, names, pos, east, west, a, b).None? <==> NoMidpointIn(mag, pos, east, west, a, b)
    ensures NearestMidpoint(mag, names, pos, east, west, a, b).Some? ==>
      NearestMidpointIn(mag, names, pos, east, west, a, b, NearestMidpoint(mag, names, pos, east, west, a, b).value)
    ensures forall c :: NearestMidpointIn(mag, names, pos, east, west, a, b, c) ==>
      NearestMidpoint(mag, names, pos, east, west, a, b) == Some(c)
  {
    var ok, dist := MidpointTest(mag, pos, east, west, a, b), MidpointDistance(mag, pos, a, b);
    var r := NearestMidpoint(mag, names, pos, east, west, a, b);
    ArgMinScanSound(names, ok, dist, 0, None);
    if r.None? {
      forall n ensures !QualifiesIn(mag, pos, east, west, a, b, n) {
        if n in pos {
          assert !ok(names[IndexOf(names, n)]);
        }
      }
    }
    if r.Some? {
      forall n | QualifiesIn(mag, pos, east, west, a, b, n)
        ensures MidDistanceIn(mag, pos, a, b, r.value) <= MidDistanceIn(mag, pos, a, b, n)
      {
        assert ok(names[IndexOf(names, n)]);
      }
    }
    forall c | NearestMidpointIn(mag, names, pos, east, west, a, b, c) ensures r == Some(c) {
      ArgMinUnique(names, ok, dist, r, Some(c));
    }
  }

  /** The `river_path.each_cons(2)` pass in general, over the path `p` from
      index `at`: the first answer `find` gives for a consecutive pair. */
  function FirstFound(p: seq<Name>, at: nat, find: (Name, Name) -> Option<Name>): Option<Name>
    decreases |p| - at
  {
    if at + 1 >= |p| then None
    else if find(p[at], p[at + 1]).Some? then find(p[at], p[at + 1])
    else FirstFound(p, at + 1, find)
  }

  /** The `k`-th and the next city of `p` are the first pair from index
      `at` on for which `find` answers. */
  predicate FirstHit(p: seq<Name>, at: nat, find: (Name, Name) -> Option<Name>, k: int) {
    at <= k < |p| - 1 && find(p[k], p[k + 1]).Some?
    && forall j :: at <= j < k ==> find(p[j], p[j + 1]).None?
  }

  /** The scan answers nothing exactly when `find` answers for no pair,
      and otherwise what it answers for the first pair. */
  lemma {:induction false} FirstFoundCharacterized(p: seq<Name>, at: nat, find: (Name, Name) -> Option<Name>)
    ensures FirstFound(p, at, find).None? <==> forall j :: at <= j < |p| - 1 ==> find(p[j], p[j + 1]).None?
    ensures forall k :: FirstHit(p, at, find, k) ==> FirstFound(p, at, find) == find(p[k], p[k + 1])
    decreases |p| - at
  {
    if at + 1 < |p| {
      FirstFoundCharacterized(p, at + 1, find);
      forall k | FirstHit(p, at, find, k) ensures FirstFound(p, at, find) == find(p[k], p[k + 1]) {
        if k > at {
          assert FirstHit(p, at + 1, find, k);
        }
      }
    }
  }

  /** `find_river_midpoint` on a pair of cities, nil for an unknown one. */
  function PairMidpoint(mag: Vec3 -> real, names: seq<Name>, pos: Table, east: set<Name>, west: set<Name>): (Name, Name) -> Option<Name> {
    (a, b) => if a in pos && b in pos then NearestMidpoint(mag, names, pos, east, west, a, b) else None
  }

  /** What one pass of the growth loop adds to the river `rs`. */
  function NextGrowthIn(mag: Vec3 -> real, names: seq<Name>, pos: Table, east: set<Name>, west: set<Name>,
                        rs: set<Name>): Option<Name>
    requires Distinct(names) && (forall n :: n in names <==> n in pos) && rs <= pos.Keys
  {
    FirstFound(PathIn(names, pos, rs), 0, PairMidpoint(mag, names, pos, east, west))
  }

  /** A pass adds nothing exactly when the river is saturated. */
  lemma NoGrowthSaturated(mag: Vec3 -> real, names: seq<Name>, pos: Table, east: set<Name>, west: set<Name>, rs: set<Name>)
    requires Distinct(names) && (forall n :: n in names <==> n in pos) && rs <= pos.Keys
    ensures NextGrowthIn(mag, names, pos, east, west, rs).None? <==> SaturatedIn(mag, names, pos, east, west, rs)
  {
    var p, find := PathIn(names, pos, rs), PairMidpoint(mag, names, pos, east, west);
    FirstFoundCharacterized(p, 0, find);
    forall j | 0 <= j < |p| - 1
      ensures find(p[j], p[j + 1]).None? <==> NoMidpointIn(mag, pos, east, west, p[j], p[j + 1])
    {
      NearestMidpointCharacterized(mag, names, pos, east, west, p[j], p[j + 1]);
    }
  }

  /** The growth loop over a placement, as the function from a river to
      the city one pass adds to it. */
  function GrowthOf(mag: Vec3 -> real, names: seq<Name>, pos: Table, east: set<Name>, west: set<Name>): set<Name> -> Option<Name>
    requires Distinct(names) && (forall n :: n in names <==> n in pos)
  {
    rs => if rs <= pos.Keys then NextGrowthIn(mag, names, pos, east, west, rs) else None
  }

  /** The loop took `r0` to `r` by the passes of `next` that added the
      cities `steps` in turn. */
  ghost predicate Iterated(next: set<Name> -> Option<Name>, r0: set<Name>, steps: seq<Name>, r: set<Name>)
    decreases |steps|
  {
    if steps == [] then r == r0
    else next(r0) == Some(steps[0]) && Iterated(next, r0 + {steps[0]}, steps[1..], r)
  }

  /** A further pass extends the record of the loop. */
  lemma {:induction false} IteratedAppend(next: set<Name> -> Option<Name>, r0: set<Name>, steps: seq<Name>, r: set<Name>)
    requires Iterated(next, r0, steps, r) && next(r).Some?
    ensures Iterated(next, r0, steps + [next(r).value], r + {next(r).value})
    decreases |steps|
  {
    var steps' := steps + [next(r).value];
    if steps == [] {
      assert steps' == [next(r).value];
    } else {
      IteratedAppend(next, r0 + {steps[0]}, steps[1..], r);
      assert steps'[0] == steps[0] && steps'[1..] == steps[1..] + [next(r).value];
    }
  }

  /** The loop is deterministic: two runs from the same start that both
      stop when a pass adds nothing made the same passes and reached the
      same end. */
  lemma {:induction false} IteratedDeterministic(next: set<Name> -> Option<Name>, r0: set<Name>,
                                                 s1: seq<Name>, r1: set<Name>, s2: seq<Name>, r2: set<Name>)
    requires Iterated(next, r0, s1, r1) && next(r1).None?
    requires Iterated(next, r0, s2, r2) && next(r2).None?
    ensures s1 == s2 && r1 == r2
    decreases |s1|
  {
    if s1 != [] && s2 != [] {
      IteratedDeterministic(next, r0 + {s1[0]}, s1[1..], r1, s2[1..], r2);
      assert s1 == [s1[0]] + s1[1..] && s2 == [s2[0]] + s2[1..];
    }
  }

  /** The four water sets `generate` fills. */
  datatype Band = EastCoastBand | WestCoastBand | EastIslesBand | WestIslesBand

  /** Whether `generate` adds the city of a draw to the set of band `b`:
      every coastal city to the coast it lies on, every island also to
      the isles on its side. */
  predicate Joins(b: Band, d: Draw)
    requires RandomRange(d)
  {
    match b
    case EastCoastBand => Kind(d) != InlandCity && EastCoast(Placement(d))
    case WestCoastBand => Kind(d) != InlandCity && !EastCoast(Placement(d))
    case EastIslesBand => Kind(d) == IslandCity && EastIsles(Placement(d))
    case WestIslesBand => Kind(d) == IslandCity && !EastIsles(Placement(d))
  }

  /** The names of the draws that join the set of band `b`. */
  function Adds(b: Band, chosen: seq<Name>, draws: seq<Draw>): set<Name>
    requires |chosen| <= |draws| && forall i :: 0 <= i < |draws| ==> RandomRange(draws[i])
  {
    set i | 0 <= i < |chosen| && Joins(b, draws[i]) :: chosen[i]
  }

  lemma AddsAppend(b: Band, chosen: seq<Name>, draws: seq<Draw>, n: Name)
    requires |chosen| < |draws| && forall i :: 0 <= i < |draws| ==> RandomRange(draws[i])
    ensures Adds(b, chosen + [n], draws) == Adds(b, chosen, draws) + (if Joins(b, draws[|chosen|]) then {n} else {})
  {
    var c := chosen + [n];
    assert forall i :: 0 <= i < |chosen| ==> c[i] == chosen[i];
    assert c[|chosen|] == n;
  }

  /** Every table `generate` may sample keeps the initials. */
  lemma NameTableInitials(t: CityNames.Tables, d: Draw)
    requires RandomRange(d)
    requires CityNames.InitialsMatch(t.names) && CityNames.InitialsMatch(t.coastal) && CityNames.InitialsMatch(t.delta)
    ensures CityNames.InitialsMatch(NameTable(t, d))
  {
  }

  /** The per-city random inputs of `generate`: a draw and an inland type each. */
  predicate Drawn(draws: seq<Draw>, inland: seq<CityType>) {
    |inland| == |draws| && forall i :: 0 <= i < |draws| ==> RandomRange(draws[i]) && InlandType(inland[i])
  }

  /** The points `generate` settles the draws at. */
  function Placements(draws: seq<Draw>): (ps: seq<Position>)
    requires forall i :: 0 <= i < |draws| ==> RandomRange(draws[i])
    ensures |ps| == |draws| && forall i :: 0 <= i < |draws| ==> ps[i] == Placement(draws[i])
  {
    seq(|draws|, i requires 0 <= i < |draws| => Placement(draws[i]))
  }

  /** The types `generate` gives the cities of the draws. */
  function Types(draws: seq<Draw>, inland: seq<CityType>): (ts: seq<CityType>)
    requires |inland| == |draws| && forall i :: 0 <= i < |draws| ==> RandomRange(draws[i]) && InlandType(inland[i])
    ensures |ts| == |draws| && forall i :: 0 <= i < |draws| ==> ts[i] == TypeOf(draws[i], inland[i])
  {
    seq(|draws|, i requires 0 <= i < |draws| => TypeOf(draws[i], inland[i]))
  }

  /** `m` is `m0` with the j-th name of `chosen` set to `vals[j]`, every
      other name as it was. */
  predicate Overlaid<V(==)>(m0: map<Name, V>, m: map<Name, V>, chosen: seq<Name>, vals: seq<V>)
    requires |chosen| <= |vals|
  {
    m.Keys == m0.Keys + (set n | n in chosen)
    && (forall j :: 0 <= j < |chosen| ==> m[chosen[j]] == vals[j])
    && (forall n :: n in m0 && n !in chosen ==> m[n] == m0[n])
  }

  lemma OverlaidStep<V>(m0: map<Name, V>, m: map<Name, V>, chosen: seq<Name>, vals: seq<V>, name: Name)
    requires |chosen| < |vals| && Overlaid(m0, m, chosen, vals) && name !in chosen
    ensures Overlaid(m0, m[name := vals[|chosen|]], chosen + [name], vals)
  {
    var k := chosen + [name];
    assert forall j :: 0 <= j < |chosen| ==> k[j] == chosen[j];
    assert (set n | n in k) == (set n | n in chosen) + {name};
  }

  /** The set of band `b` after one more draw. */
  function Joined(b: Band, s: set<Name>, d: Draw, name: Name): set<Name>
    requires RandomRange(d)
  {
    s + (if Joins(b, d) then {name} else {})
  }

  /** The set `s` of band `b` is `s0` joined by the draws of `chosen`. */
  predicate Grown(b: Band, s0: set<Name>, s: set<Name>, chosen: seq<Name>, draws: seq<Draw>)
    requires |chosen| <= |draws| && forall i :: 0 <= i < |draws| ==> RandomRange(draws[i])
  {
    s == s0 + Adds(b, chosen, draws)
  }

  lemma GrownStep(b: Band, s0: set<Name>, s: set<Name>, chosen: seq<Name>, draws: seq<Draw>, name: Name)
    requires |chosen| < |draws| && forall i :: 0 <= i < |draws| ==> RandomRange(draws[i])
    requires Grown(b, s0, s, chosen, draws)
    ensures Grown(b, s0, Joined(b, s, draws[|chosen|], name), chosen + [name], draws)
  {
    AddsAppend(b, chosen, draws, name);
  }

  /** The four water sets after the draws of `chosen` joined them. */
  predicate JoinedBy(e0: set<Name>, w0: set<Name>, ei0: set<Name>, wi0: set<Name>,
                     e: set<Name>, w: set<Name>, ei: set<Name>, wi: set<Name>,
                     chosen: seq<Name>, draws: seq<Draw>)
    requires |chosen| <= |draws| && forall i :: 0 <= i < |draws| ==> RandomRange(draws[i])
  {
    Grown(EastCoastBand, e0, e, chosen, draws) && Grown(WestCoastBand, w0, w, chosen, draws)
    && Grown(EastIslesBand, ei0, ei, chosen, draws) && Grown(WestIslesBand, wi0, wi, chosen, draws)
  }

  /** The names of one run of `generate`, the j-th starting with the j-th
      upper-case letter. */
  predicate Initialled(chosen: seq<Name>) {
    forall j :: 0 <= j < |chosen| ==> |chosen[j]| > 0 && chosen[j][0] as int == 65 + j
  }

  lemma InitialledStep(chosen: seq<Name>, name: Name)
    requires Initialled(chosen) && |name| > 0 && name[0] as int == 65 + |chosen|
    ensures Initialled(chosen + [name])
  {
    var k := chosen + [name];
    assert forall j :: 0 <= j < |chosen| ==> k[j] == chosen[j];
  }

  lemma InitialledDistinct(chosen: seq<Name>)
    requires Initialled(chosen)
    ensures Distinct(chosen)
  {
  }

  /** The j-th name of `chosen` comes from the j-th letter's entry of the
      table its draw calls for. */
  predicate NamedFrom(t: CityNames.Tables, chosen: seq<Name>, draws: seq<Draw>)
    requires |chosen| <= |draws| && forall i :: 0 <= i < |draws| ==> RandomRange(draws[i])
    requires NamesAvailable(t, draws)
  {
    forall j :: 0 <= j < |chosen| ==> chosen[j] in NameTable(t, draws[j])[CityNames.Letter(j)]
  }

  lemma NamedFromStep(t: CityNames.Tables, chosen: seq<Name>, draws: seq<Draw>, name: Name)
    requires |chosen| < |draws| && forall i :: 0 <= i < |draws| ==> RandomRange(draws[i])
    requires NamesAvailable(t, draws) && NamedFrom(t, chosen, draws)
    requires name in NameTable(t, draws[|chosen|])[CityNames.Letter(|chosen|)]
    ensures NamedFrom(t, chosen + [name], draws)
  {
    var k := chosen + [name];
    assert forall j :: 0 <= j < |chosen| ==> k[j] == chosen[j];
  }

  /** Adding a missing member of `k` to `r` leaves fewer of `k` outside. */
  lemma AddingShrinks(k: set<Name>, r: set<Name>, c: Name)
    requires c in k && c !in r
    ensures |k - (r + {c})| < |k - r|
  {
    assert k - (r + {c}) == (k - r) - {c};
  }

  /** Placing cities at pairwise distinct new altitudes keeps the
      altitudes of a table distinct. */
  lemma OverlaidAltitudes(p0: Table, p: Table, chosen: seq<Name>, ps: seq<Position>)
    requires |chosen| == |ps| && Overlaid(p0, p, chosen, ps) && Distinct(chosen)
    requires forall a, b :: a in p0 && b in p0 && a != b ==> p0[a].z != p0[b].z
    requires forall i, j :: 0 <= i < j < |ps| ==> ps[i].z != ps[j].z
    requires forall n, i :: n in p0 && 0 <= i < |ps| ==> p0[n].z != ps[i].z
    ensures forall a, b :: a in p && b in p && a != b ==> p[a].z != p[b].z
  {
    forall a, b | a in p && b in p && a != b ensures p[a].z != p[b].z {
      if a in chosen && b in chosen {
        var i :| 0 <= i < |chosen| && chosen[i] == a;
        var j :| 0 <= j < |chosen| && chosen[j] == b;
        if i < j {
          assert ps[i].z != ps[j].z;
        } else {
          assert ps[j].z != ps[i].z;
        }
      } else if a in chosen {
        var i :| 0 <= i < |chosen| && chosen[i] == a;
        assert p0[b].z != ps[i].z;
      } else if b in chosen {
        var j :| 0 <= j < |chosen| && chosen[j] == b;
        assert p0[a].z != ps[j].z;
      }
    }
  }

  /** The names, positions, types and water sets `n`, `p`, `c`, `e`, `w`,
      `ei`, `wi` are those `n0`, ..., `wi0` after the first |chosen| rounds
      of `generate`'s loop: each chosen name is sampled from its letter's
      table, is placed at its settled point with its settlement's type and
      has joined the water sets its band calls for; every other name is as
      it was, and the insertion order only grew. */
  predicate GeneratedFrom(n0: seq<Name>, p0: Table, c0: map<Name, CityType>,
                          e0: set<Name>, w0: set<Name>, ei0: set<Name>, wi0: set<Name>,
                          n: seq<Name>, p: Table, c: map<Name, CityType>,
                          e: set<Name>, w: set<Name>, ei: set<Name>, wi: set<Name>,
                          chosen: seq<Name>, draws: seq<Draw>, inland: seq<CityType>, tables: CityNames.Tables)
    requires |chosen| <= |draws| && Drawn(draws, inland) && NamesAvailable(tables, draws)
  {
    Initialled(chosen) && NamedFrom(tables, chosen, draws)
    && Overlaid(p0, p, chosen, Placements(draws))
    && Overlaid(c0, c, chosen, Types(draws, inland))
    && JoinedBy(e0, w0, ei0, wi0, e, w, ei, wi, chosen, draws)
    && |n0| <= |n| && n[..|n0|] == n0
  }

  class Map {
    /** Vector magnitude, the metric behind every distance. */
    const mag: Vec3 -> real
    /** `@positions.keys` in insertion order. */
    var names: seq<Name>
    var cities: map<Name, CityType>
    var positions: map<Name, Position>
    var eastCoast: set<Name>
    var westCoast: set<Name>
    var eastIsles: set<Name>
    var westIsles: set<Name>
    var river: set<Name>

    /** Both hashes hold the same names, every water set holds named
        cities, and isles are coast. */
    ghost predicate Valid()
      reads this
    {
      Placed() && river <= positions.Keys
    }

    /** Everything `Valid` asks except of the river. */
    ghost predicate Placed()
      reads this`names, this`positions, this`cities, this`eastCoast, this`westCoast, this`eastIsles, this`westIsles
    {
      IsMagnitude(mag)
      && Distinct(names)
      && (forall n :: n in names <==> n in positions)
      && cities.Keys == positions.Keys
      && eastIsles <= eastCoast && westIsles <= westCoast
      && eastCoast <= positions.Keys && westCoast <= positions.Keys
    }

    /** No two cities share an altitude. */
    predicate AltitudesDistinct()
      reads this`positions
    {
      forall a, b :: a in positions && b in positions && a != b ==> positions[a].z != positions[b].z
    }

    constructor Init(mag: Vec3 -> real)
      requires IsMagnitude(mag)
      ensures Valid() && this.mag == mag
      ensures names == [] && cities == map[] && positions == map[]
      ensures eastCoast == {} && westCoast == {} && eastIsles == {} && westIsles == {} && river == {}
    {
      this.mag := mag;
      names := [];
      cities := map[];
      positions := map[];
      eastCoast := {};
      westCoast := {};
      eastIsles := {};
      westIsles := {};
      river := {};
    }

    /** `distance`: KeyError for an unknown name. */
    function Dist(n1: Name, n2: Name): (r: Result<real>)
      reads this
      requires Valid()
      ensures r.Ok? <==> n1 in positions && n2 in positions
      ensures r.Err? ==> r.error == KeyError
      ensures r.Ok? ==> r.value >= 0.0 && r.value == Distance(mag, positions[n2], positions[n1])
    {
      if n1 in positions && n2 in positions then
        DistanceNonNegative(mag, positions[n1], positions[n2]);
        DistanceSymmetric(mag, positions[n1], positions[n2]);
        Ok(Distance(mag, positions[n1], positions[n2]))
      else Err(KeyError)
    }

    /** The cities of `rs` ordered from the highest down. */
    function PathOf(rs: set<Name>): (p: seq<Name>)
      reads this`names, this`positions, this`cities, this`eastCoast, this`westCoast, this`eastIsles, this`westIsles
      requires Placed() && rs <= positions.Keys
      ensures Within(p, positions) && Descending(p, positions) && Distinct(p)
      ensures forall n :: n in p <==> n in rs
      ensures |p| == |rs|
    {
      PathIn(names, positions, rs)
    }

    /** `river_path`: the river's cities from the highest down. */
    function RiverPath(): (p: seq<Name>)
      reads this
      requires Valid()
      ensures Within(p, positions) && Descending(p, positions) && Distinct(p)
      ensures forall n :: n in p <==> n in river
      ensures |p| == |river|
    {
      PathOf(river)
    }

    /** `river?`: the river when it joins both cities. */
    function OnRiver(n1: Name, n2: Name): (r: Option<set<Name>>)
      reads this
      ensures r.Some? <==> n1 in river && n2 in river
      ensures r.Some? ==> r.value == river
    {
      if n1 in river && n2 in river then Some(river) else None
    }

    /** `water_route?`: a coast or the river that joins both cities, or
        failing that the river together with the coast it drains into. */
    function WaterRoute(n1: Name, n2: Name): (r: Option<set<Name>>)
      reads this
      requires Valid()
      ensures r.Some? ==> n1 in r.value && n2 in r.value
      ensures r.Some? ==> r.value <= eastCoast + westCoast + river
      ensures (n1 in eastCoast && n2 in eastCoast) || (n1 in westCoast && n2 in westCoast) || (n1 in river && n2 in river) ==> r.Some?
      ensures n1 !in eastCoast + westCoast + river ==> r.None?
      ensures r.Some? && !(n1 in river && n2 in river) && !(n1 in eastCoast && n2 in eastCoast) && !(n1 in westCoast && n2 in westCoast) ==>
        Member(Last(RiverPath()), eastCoast + westCoast)
      ensures r.Some? ==> r.value in {eastCoast, westCoast, river, eastCoast + river, westCoast + river}
      ensures n1 in eastCoast && n2 in eastCoast ==> r == Some(eastCoast)
      ensures (!(n1 in eastCoast && n2 in eastCoast) && !(n1 in westCoast && n2 in westCoast) && !(n1 in river && n2 in river)
               && Member(Last(RiverPath()), eastCoast) && n1 in eastCoast + river && n2 in eastCoast + river)
              ==> r == Some(eastCoast + river)
      ensures (!(n1 in eastCoast && n2 in eastCoast) && !(n1 in westCoast && n2 in westCoast) && !(n1 in river && n2 in river)
               && !Member(Last(RiverPath()), eastCoast) && Member(Last(RiverPath()), westCoast)
               && n1 in westCoast + river && n2 in westCoast + river)
              ==> r == Some(westCoast + river)
    {
      if n1 in eastCoast && n2 in eastCoast then Some(eastCoast)
      else if n1 in westCoast && n2 in westCoast then Some(westCoast)
      else if n1 in river && n2 in river then Some(river)
      else
        var terminus := Last(RiverPath());
        if Member(terminus, eastCoast) then
          if n1 in eastCoast + river && n2 in eastCoast + river then Some(eastCoast + river) else None
        else if Member(terminus, westCoast) then
          if n1 in westCoast + river && n2 in westCoast + river then Some(westCoast + river) else None
        else None
    }
    /** `land_cost`: KeyError for an unknown city, no land route to or
        from an island, and otherwise the distance weighted by the climb. */
    function LandCost(n1: Name, n2: Name): (r: Result<real>)
      reads this
      requires Valid()
      ensures r.Err? ==> r.error == KeyError || r.error == NoLandRoute
      ensures r.Err? && r.error == KeyError <==> n1 !in cities || n2 !in cities
      ensures n1 in cities && n2 in cities ==> (r.Err? <==> cities[n1] == Island || cities[n2] == Island)
      ensures r.Ok? ==> r.value == Climb(Dist(n1, n2).value, positions[n2].z - positions[n1].z)
      ensures r.Ok? ==> 0.5 * Dist(n1, n2).value <= r.value <= 1.5 * Dist(n1, n2).value
      ensures r.Ok? && positions[n2].z >= positions[n1].z ==> r.value >= Dist(n1, n2).value
      ensures r.Ok? && positions[n2].z <= positions[n1].z ==> r.value <= Dist(n1, n2).value
    {
      if n1 !in cities || n2 !in cities then Err(KeyError)
      else if cities[n1] == Island || cities[n2] == Island then Err(NoLandRoute)
      else
        var d := Dist(n1, n2).value;
        var alt := positions[n2].z - positions[n1].z;
        ClimbBounds(d, alt);
        Ok(Climb(d, alt))
    }

    /** Going there and back over land costs twice the distance. */
    lemma LandCostThereAndBack(a: Name, b: Name)
      requires Valid()
      requires LandCost(a, b).Ok?
      ensures LandCost(b, a).Ok?
      ensures LandCost(a, b).value + LandCost(b, a).value == 2.0 * Dist(a, b).value
    {
      var alt := positions[b].z - positions[a].z;
      assert positions[a].z - positions[b].z == -alt;
      ClimbThereAndBack(Dist(a, b).value, alt);
    }

    /** `sea_cost`: a tenth of the distance between two cities on the same
        coast, and no sea route otherwise. */
    function SeaCost(n1: Name, n2: Name): (r: Result<real>)
      reads this
      requires Valid()
      ensures r.Ok? <==> (n1 in eastCoast && n2 in eastCoast) || (n1 in westCoast && n2 in westCoast)
      ensures r.Err? ==> r.error == NoSeaRoute
      ensures r.Ok? ==> r.value >= 0.0 && r.value * SeaDivisor == Dist(n1, n2).value
    {
      if (n1 in eastCoast && n2 in eastCoast) || (n1 in westCoast && n2 in westCoast) then
        Ok(Dist(n1, n2).value / SeaDivisor)
      else Err(NoSeaRoute)
    }

    /** `river_cost`: between two river cities, the path between them
        along the river, a segment at a time, divided by 12 downstream and
        by 8.5 upstream; no river route otherwise. */
    function RiverCost(n1: Name, n2: Name): (r: Result<real>)
      reads this
      requires Valid()
      ensures r.Ok? <==> n1 in river && n2 in river
      ensures r.Err? ==> r.error == NoRiverRoute
    {
      if n1 in river && n2 in river then
        var rp := RiverPath();
        var leg := Leg(rp, n1, n2);
        Ok(SegmentCost(mag, positions, leg.0, leg.1))
      else Err(NoRiverRoute)
    }

    /** `river_cost` as the Ruby code computes it. */
    method ComputeRiverCost(n1: Name, n2: Name) returns (r: Result<real>)
      requires Valid()
      ensures r == RiverCost(n1, n2)
    {
      if !(n1 in river && n2 in river) {
        return Err(NoRiverRoute);
      }
      var rp := RiverPath();
      var cost := CostAlong(mag, positions, rp, n1, n2);
      return Ok(cost);
    }

    /** Staying put on the river costs nothing. */
    lemma RiverCostToSelf(n: Name)
      requires Valid() && n in river
      ensures RiverCost(n, n) == Ok(0.0)
    {
      LegToSelf(RiverPath(), n);
    }

    /** River travel never costs less than nothing. */
    lemma RiverCostNonNegative(n1: Name, n2: Name)
      requires Valid() && RiverCost(n1, n2).Ok?
      ensures RiverCost(n1, n2).value >= 0.0
    {
      var leg := Leg(RiverPath(), n1, n2);
      SegmentCostNonNegative(mag, positions, leg.0, leg.1);
    }

    /** Going back up a stretch of river costs 12/8.5 times going down it,
        so the trip against the current is never cheaper. */
    lemma RiverCostUpstream(a: Name, b: Name)
      requires Valid() && a in river && b in river
      requires IndexOf(RiverPath(), a) <= IndexOf(RiverPath(), b)
      ensures RiverCost(b, a).value * UpstreamDivisor == RiverCost(a, b).value * DownstreamDivisor
      ensures RiverCost(b, a).value >= RiverCost(a, b).value
    {
      LegReversed(mag, positions, RiverPath(), a, b);
    }

    /** Downstream, the river cost is the distance covered along the river
        path from one city to the other, a segment at a time, divided by 12. */
    lemma RiverCostDownstream(a: Name, b: Name)
      requires Valid() && a in river && b in river
      requires IndexOf(RiverPath(), a) <= IndexOf(RiverPath(), b)
      ensures RiverCost(a, b).value * DownstreamDivisor == SegmentCost(mag, positions, Leg(RiverPath(), a, b).0, 1.0)
    {
      LegDownstream(mag, positions, RiverPath(), a, b);
    }

    /** The sink of `sort_by { distance(city, port) }.first` over the
        members of `candidates`, in insertion order: None when there are
        none; KeyError when the city is unknown and there is something to
        compare. */
    function Port(city: Name, candidates: set<Name>): (r: Result<Option<Name>>)
      reads this
      requires Valid() && candidates <= positions.Keys
      ensures r.Err? <==> city !in positions && candidates != {}
      ensures r.Err? ==> r.error == KeyError
      ensures r.Ok? ==> (r.value.None? <==> candidates == {})
      ensures r.Ok? && r.value.Some? ==> r.value.value in candidates
      ensures r.Ok? && r.value.Some? ==>
        forall n :: n in candidates ==> Dist(city, r.value.value).value <= Dist(city, n).value
    {
      var order := Filter(names, candidates);
      assert forall n :: n in candidates ==> n in names && n in order;
      if order == [] then
        assert candidates == {};
        Ok(None)
      else if city !in positions then
        assert order[0] in candidates;
        Err(KeyError)
      else
        assert forall n :: n in candidates ==> n in order;
        Ok(Nearest(mag, positions, positions[city], order))
    }

    /** `west_port`: the nearest mainland west-coast city. */
    function WestPort(city: Name): (r: Result<Option<Name>>)
      reads this
      requires Valid()
      ensures r == Port(city, westCoast - westIsles)
      ensures r.Ok? && r.value.Some? ==> r.value.value in westCoast && r.value.value !in westIsles
    {
      Port(city, westCoast - westIsles)
    }

    /** `east_port`: the nearest mainland east-coast city. */
    function EastPort(city: Name): (r: Result<Option<Name>>)
      reads this
      requires Valid()
      ensures r == Port(city, eastCoast - eastIsles)
      ensures r.Ok? && r.value.Some? ==> r.value.value in eastCoast && r.value.value !in eastIsles
    {
      Port(city, eastCoast - eastIsles)
    }

    /** `river_port`: the nearest river city. */
    function RiverPort(city: Name): (r: Result<Option<Name>>)
      reads this
      requires Valid()
      ensures r == Port(city, river)
      ensures r.Ok? && r.value.Some? ==> r.value.value in river
    {
      Port(city, river)
    }

    /** One leg by the given mode, where either end may be a nil port:
        nil is on no coast and not on the river, and fetching it raises. */
    function Hop(mode: Mode, a: Option<Name>, b: Option<Name>): (r: Result<real>)
      reads this
      requires Valid()
      ensures a.Some? && b.Some? ==> r == ModeCost(mode, a.value, b.value)
      ensures a.None? || b.None? ==> r == Err(match mode case Sea => NoSeaRoute case Land => KeyError case Riverway => NoRiverRoute)
    {
      if a.None? || b.None? then
        Err(match mode case Sea => NoSeaRoute case Land => KeyError case Riverway => NoRiverRoute)
      else ModeCost(mode, a.value, b.value)
    }

    function ModeCost(mode: Mode, a: Name, b: Name): Result<real>
      reads this
      requires Valid()
    {
      match mode
      case Sea => SeaCost(a, b)
      case Land => LandCost(a, b)
      case Riverway => RiverCost(a, b)
    }

    /** `first(n1, port) + second(port, n2)` for a port found by nearest
        search; the search's own error comes first. */
    function ThroughPort(port: Result<Option<Name>>, first: Mode, n1: Name, second: Mode, n2: Name): (r: Result<real>)
      reads this
      requires Valid()
      ensures port.Err? ==> r == Err(port.error)
      ensures port.Ok? ==> r == Plus(Hop(first, Some(n1), port.value), Hop(second, port.value, Some(n2)))
    {
      match port
      case Err(e) => Err(e)
      case Ok(p) => Plus(Hop(first, Some(n1), p), Hop(second, p, Some(n2)))
    }

    /** `transport_cost`: sea along a shared coast, river along the river,
        land otherwise, switching mode at the river mouth or at the
        nearest port. */
    function TransportCost(n1: Name, n2: Name): (r: Result<real>)
      reads this
      requires Valid()
      ensures n1 in eastCoast && n2 in eastCoast ==> r == SeaCost(n1, n2)
      ensures n1 !in eastCoast && n1 in westCoast && n2 in westCoast ==> r == SeaCost(n1, n2)
      ensures n1 !in eastCoast + westCoast && n1 in river && n2 in river ==> r == RiverCost(n1, n2)
      ensures n1 !in eastCoast + westCoast + river && n2 !in eastCoast + westCoast + river ==> r == LandCost(n1, n2)
      // From the east coast to elsewhere: by sea to the river mouth and up the river, or by sea to a port and overland.
      ensures n1 in eastCoast && n2 !in eastCoast && n2 in river && Member(Last(RiverPath()), eastCoast) ==>
        r == Plus(SeaCost(n1, Last(RiverPath()).value), RiverCost(Last(RiverPath()).value, n2))
      ensures n1 in eastCoast && n2 !in eastCoast && !(n2 in river && Member(Last(RiverPath()), eastCoast)) ==>
        r == ThroughPort(EastPort(n2), Sea, n1, Land, n2)
      // From the west coast only, likewise.
      ensures n1 !in eastCoast && n1 in westCoast && n2 !in westCoast && n2 in river && Member(Last(RiverPath()), westCoast) ==>
        r == Plus(SeaCost(n1, Last(RiverPath()).value), RiverCost(Last(RiverPath()).value, n2))
      ensures n1 !in eastCoast && n1 in westCoast && n2 !in westCoast && !(n2 in river && Member(Last(RiverPath()), westCoast)) ==>
        r == ThroughPort(WestPort(n2), Sea, n1, Land, n2)
      // From the river, off the coasts, to elsewhere: down to the mouth and by sea, east before west, or to a river port and overland.
      ensures n1 !in eastCoast + westCoast && n1 in river && n2 !in river && n2 in eastCoast && Member(Last(RiverPath()), eastCoast) ==>
        r == Plus(RiverCost(n1, Last(RiverPath()).value), SeaCost(Last(RiverPath()).value, n2))
      ensures n1 !in eastCoast + westCoast && n1 in river && n2 !in river && !(n2 in eastCoast && Member(Last(RiverPath()), eastCoast))
              && n2 in westCoast && Member(Last(RiverPath()), westCoast) ==>
        r == Plus(RiverCost(n1, Last(RiverPath()).value), SeaCost(Last(RiverPath()).value, n2))
      ensures n1 !in eastCoast + westCoast && n1 in river && n2 !in river && !(n2 in eastCoast && Member(Last(RiverPath()), eastCoast))
              && !(n2 in westCoast && Member(Last(RiverPath()), westCoast)) ==>
        r == ThroughPort(RiverPort(n2), Riverway, n1, Land, n2)
      // From inland, off every water, to water: overland to the nearest port, west before east before river.
      ensures n1 !in eastCoast + westCoast + river && n2 in westCoast ==> r == ThroughPort(WestPort(n1), Land, n1, Sea, n2)
      ensures n1 !in eastCoast + westCoast + river && n2 !in westCoast && n2 in eastCoast ==>
        r == ThroughPort(EastPort(n1), Land, n1, Sea, n2)
      ensures n1 !in eastCoast + westCoast + river && n2 !in eastCoast + westCoast && n2 in river ==>
        r == ThroughPort(RiverPort(n1), Land, n1, Riverway, n2)
    {
      var delta := Last(RiverPath());
      if n1 in eastCoast then FromEastCoast(n1, n2, delta)
      else if n1 in westCoast then FromWestCoast(n1, n2, delta)
      else if n1 in river then FromRiver(n1, n2, delta)
      else FromInland(n1, n2)
    }

    /** The branch of `transport_cost` for a start on the east coast;
        `delta` is the last city of the river path. */
    function FromEastCoast(n1: Name, n2: Name, delta: Option<Name>): Result<real>
      reads this
      requires Valid()
    {
      if n2 in eastCoast then SeaCost(n1, n2)
      else if n2 in river && Member(delta, eastCoast) then Plus(SeaCost(n1, delta.value), RiverCost(delta.value, n2))
      else ThroughPort(EastPort(n2), Sea, n1, Land, n2)
    }

    /** The branch of `transport_cost` for a start on the west coast only. */
    function FromWestCoast(n1: Name, n2: Name, delta: Option<Name>): Result<real>
      reads this
      requires Valid()
    {
      if n2 in westCoast then SeaCost(n1, n2)
      else if n2 in river && Member(delta, westCoast) then Plus(SeaCost(n1, delta.value), RiverCost(delta.value, n2))
      else ThroughPort(WestPort(n2), Sea, n1, Land, n2)
    }

    /** The branch of `transport_cost` for a start on the river, off the coast. */
    function FromRiver(n1: Name, n2: Name, delta: Option<Name>): Result<real>
      reads this
      requires Valid()
    {
      if n2 in river then RiverCost(n1, n2)
      else if n2 in eastCoast && Member(delta, eastCoast) then Plus(RiverCost(n1, delta.value), SeaCost(delta.value, n2))
      else if n2 in westCoast && Member(delta, westCoast) then Plus(RiverCost(n1, delta.value), SeaCost(delta.value, n2))
      else ThroughPort(RiverPort(n2), Riverway, n1, Land, n2)
    }

    /** The branch of `transport_cost` for a start inland, off every water. */
    function FromInland(n1: Name, n2: Name): Result<real>
      reads this
      requires Valid()
    {
      if n2 in westCoast then ThroughPort(WestPort(n1), Land, n1, Sea, n2)
      else if n2 in eastCoast then ThroughPort(EastPort(n1), Land, n1, Sea, n2)
      else if n2 in river then ThroughPort(RiverPort(n1), Land, n1, Riverway, n2)
      else LandCost(n1, n2)
    }

    lemma ModeCostNonNegative(mode: Mode, a: Name, b: Name)
      requires Valid() && ModeCost(mode, a, b).Ok?
      ensures ModeCost(mode, a, b).value >= 0.0
    {
      if mode == Riverway {
        RiverCostNonNegative(a, b);
      } else if mode == Land {
        DistanceNonNegative(mag, positions[a], positions[b]);
      }
    }

    lemma HopNonNegative(mode: Mode, a: Option<Name>, b: Option<Name>)
      requires Valid() && Hop(mode, a, b).Ok?
      ensures Hop(mode, a, b).value >= 0.0
    {
      ModeCostNonNegative(mode, a.value, b.value);
    }

    lemma ThroughPortNonNegative(port: Result<Option<Name>>, first: Mode, n1: Name, second: Mode, n2: Name)
      requires Valid() && ThroughPort(port, first, n1, second, n2).Ok?
      ensures ThroughPort(port, first, n1, second, n2).value >= 0.0
    {
      HopNonNegative(first, Some(n1), port.value);
      HopNonNegative(second, port.value, Some(n2));
    }

    /** Every route `transport_cost` prices costs something non-negative. */
    lemma TransportCostNonNegative(n1: Name, n2: Name)
      requires Valid() && TransportCost(n1, n2).Ok?
      ensures TransportCost(n1, n2).value >= 0.0
    {
      var delta := Last(RiverPath());
      if n1 in eastCoast {
        FromEastCoastNonNegative(n1, n2, delta);
      } else if n1 in westCoast {
        FromWestCoastNonNegative(n1, n2, delta);
      } else if n1 in river {
        FromRiverNonNegative(n1, n2, delta);
      } else {
        FromInlandNonNegative(n1, n2);
      }
    }

    lemma FromEastCoastNonNegative(n1: Name, n2: Name, delta: Option<Name>)
      requires Valid() && FromEastCoast(n1, n2, delta).Ok?
      ensures FromEastCoast(n1, n2, delta).value >= 0.0
    {
      if n2 in eastCoast {
      } else if n2 in river && Member(delta, eastCoast) {
        ModeCostNonNegative(Riverway, delta.value, n2);
      } else {
        ThroughPortNonNegative(EastPort(n2), Sea, n1, Land, n2);
      }
    }

    lemma FromWestCoastNonNegative(n1: Name, n2: Name, delta: Option<Name>)
      requires Valid() && FromWestCoast(n1, n2, delta).Ok?
      ensures FromWestCoast(n1, n2, delta).value >= 0.0
    {
      if n2 in westCoast {
      } else if n2 in river && Member(delta, westCoast) {
        ModeCostNonNegative(Riverway, delta.value, n2);
      } else {
        ThroughPortNonNegative(WestPort(n2), Sea, n1, Land, n2);
      }
    }

    lemma FromRiverNonNegative(n1: Name, n2: Name, delta: Option<Name>)
      requires Valid() && FromRiver(n1, n2, delta).Ok?
      ensures FromRiver(n1, n2, delta).value >= 0.0
    {
      if n2 in river {
        RiverCostNonNegative(n1, n2);
      } else if n2 in eastCoast && Member(delta, eastCoast) {
        RiverCostNonNegative(n1, delta.value);
      } else if n2 in westCoast && Member(delta, westCoast) {
        RiverCostNonNegative(n1, delta.value);
      } else {
        ThroughPortNonNegative(RiverPort(n2), Riverway, n1, Land, n2);
      }
    }

    lemma FromInlandNonNegative(n1: Name, n2: Name)
      requires Valid() && FromInland(n1, n2).Ok?
      ensures FromInland(n1, n2).value >= 0.0
    {
      if n2 in westCoast {
        ThroughPortNonNegative(WestPort(n1), Land, n1, Sea, n2);
      } else if n2 in eastCoast {
        ThroughPortNonNegative(EastPort(n1), Land, n1, Sea, n2);
      } else if n2 in river {
        ThroughPortNonNegative(RiverPort(n1), Land, n1, Riverway, n2);
      } else {
        ModeCostNonNegative(Land, n1, n2);
      }
    }

    /** `pos1.midpoint(pos2)` for two named cities. */
    function Mid(a: Name, b: Name): Position
      reads this`positions
      requires a in positions && b in positions
    {
      Midpoint(positions[a], positions[b]).value
    }

    /** `mp.distance(pos)`: how far `n` lies from the midpoint of `a` and `b`. */
    function MidDistance(a: Name, b: Name, n: Name): real
      reads this`positions
      requires a in positions && b in positions && n in positions
    {
      Distance(mag, Mid(a, b), positions[n])
    }

    /** The tests `find_river_midpoint` applies to a candidate between `a`
        and `b`: not an endpoint, altitude between theirs, not on a coast,
        and within the distance between them over 1.5 of their midpoint. */
    predicate Qualifies(a: Name, b: Name, n: Name)
      reads this`names, this`positions, this`cities, this`eastCoast, this`westCoast, this`eastIsles, this`westIsles
      requires a in positions && b in positions
    {
      QualifiesIn(mag, positions, eastCoast, westCoast, a, b, n)
    }

    /** `find_river_midpoint`: KeyError for an unknown endpoint; otherwise
        nil when nothing qualifies, else the qualifying city nearest the
        midpoint, the earliest one among equals. */
    method FindRiverMidpoint(a: Name, b: Name) returns (r: Result<Option<Name>>)
      requires Valid()
      ensures r.Ok? <==> a in positions && b in positions
      ensures r.Err? ==> r.error == KeyError
      ensures r.Ok? && r.value.None? ==> forall n :: !Qualifies(a, b, n)
      ensures r.Ok? && r.value.Some? ==> Qualifies(a, b, r.value.value)
      ensures r.Ok? && r.value.Some? ==>
        forall n :: Qualifies(a, b, n) ==> MidDistance(a, b, r.value.value) <= MidDistance(a, b, n)
      ensures r.Ok? && r.value.Some? ==>
        forall j :: 0 <= j < IndexOf(names, r.value.value) && Qualifies(a, b, names[j]) ==>
          MidDistance(a, b, r.value.value) < MidDistance(a, b, names[j])
      ensures r.Ok? ==> r.value == NearestMidpoint(mag, names, positions, eastCoast, westCoast, a, b)
    {
      if a !in positions || b !in positions {
        return Err(KeyError);
      }
      var pos1, pos2 := positions[a], positions[b];
      var dist := Distance(mag, pos1, pos2);
      var mp := Mid(a, b);
      var closest: Option<Name> := None;
      var shortest := 0.0;
      ghost var ok, far := MidpointTest(mag, positions, eastCoast, westCoast, a, b), MidpointDistance(mag, positions, a, b);
      for i := 0 to |names|
        invariant ArgMinScan(names, ok, far, 0, None) == ArgMinScan(names, ok, far, i, closest)
        invariant closest.Some? ==> closest.value in positions && shortest == far(closest.value)
      {
        var name := names[i];
        var pos := positions[name];
        if name != a && name != b
          && !(pos.z > pos1.z && pos.z > pos2.z)
          && !(pos.z < pos1.z && pos.z < pos2.z)
          && name !in eastCoast && name !in westCoast
        {
          var mpDist := Distance(mag, mp, pos);
          if mpDist <= dist / RiverMidpointDivisor && (closest.None? || mpDist < shortest) {
            closest, shortest := Some(name), mpDist;
          }
        }
      }
      NearestMidpointCharacterized(mag, names, positions, eastCoast, westCoast, a, b);
      return Ok(closest);
    }

    /** One round of `generate` after the draw: record the city `name` of
        type `t` at `p`, put a coastal city on the coast it lies on and an
        island in the isles on its side. An existing name is overwritten. */
    method PlaceCity(name: Name, p: Position, t: CityType, s: Settlement)
      requires Valid()
      requires s == IslandCity ==> WestIsles(p) || EastIsles(p)
      requires s != InlandCity ==> WestCoast(p) || EastCoast(p)
      modifies this`names, this`positions, this`cities, this`eastCoast, this`westCoast, this`eastIsles, this`westIsles
      ensures Valid()
      ensures names == if name in old(positions) then old(names) else old(names) + [name]
      ensures positions == old(positions)[name := p] && cities == old(cities)[name := t]
      ensures eastCoast == old(eastCoast) + (if s != InlandCity && EastCoast(p) then {name} else {})
      ensures westCoast == old(westCoast) + (if s != InlandCity && !EastCoast(p) then {name} else {})
      ensures eastIsles == old(eastIsles) + (if s == IslandCity && EastIsles(p) then {name} else {})
      ensures westIsles == old(westIsles) + (if s == IslandCity && !EastIsles(p) then {name} else {})
    {
      Record(name, p, t);
      Register(name, p, s);
    }

    /** `@cities[name] = ...; @positions[name] = pos`, a new name going
        last in insertion order. */
    method Record(name: Name, p: Position, t: CityType)
      requires Valid()
      modifies this`names, this`positions, this`cities
      ensures Valid()
      ensures names == if name in old(positions) then old(names) else old(names) + [name]
      ensures positions == old(positions)[name := p] && cities == old(cities)[name := t]
    {
      if name !in positions {
        names := names + [name];
      }
      cities := cities[name := t];
      positions := positions[name := p];
    }

    /** The coast and isles sets a recorded city of settlement `s` at `p`
        joins. */
    method Register(name: Name, p: Position, s: Settlement)
      requires Valid() && name in positions
      requires s == IslandCity ==> WestIsles(p) || EastIsles(p)
      requires s != InlandCity ==> WestCoast(p) || EastCoast(p)
      modifies this`eastCoast, this`westCoast, this`eastIsles, this`westIsles
      ensures Valid()
      ensures eastCoast == old(eastCoast) + (if s != InlandCity && EastCoast(p) then {name} else {})
      ensures westCoast == old(westCoast) + (if s != InlandCity && !EastCoast(p) then {name} else {})
      ensures eastIsles == old(eastIsles) + (if s == IslandCity && EastIsles(p) then {name} else {})
      ensures westIsles == old(westIsles) + (if s == IslandCity && !EastIsles(p) then {name} else {})
    {
      if s != InlandCity {
        if EastCoast(p) {
          eastCoast := eastCoast + {name};
        } else {
          westCoast := westCoast + {name};
        }
      }
      if s == IslandCity {
        if EastIsles(p) {
          eastIsles := eastIsles + {name};
        } else {
          westIsles := westIsles + {name};
        }
      }
    }

    /** The i-th round of `generate`'s loop: sample a name for the i-th
        letter from the table the draw calls for and place the city. The
        name is new to this run, its initial being the i-th letter. */
    method PlaceDraw(i: nat, d: Draw, inland: CityType, tables: CityNames.Tables, ghost chosen: seq<Name>) returns (name: Name)
      requires Valid() && i < 26 && RandomRange(d) && InlandType(inland)
      requires CityNames.InitialsMatch(tables.names) && CityNames.InitialsMatch(tables.coastal) && CityNames.InitialsMatch(tables.delta)
      requires CityNames.Letter(i) in NameTable(tables, d) && NameTable(tables, d)[CityNames.Letter(i)] != {}
      requires |chosen| == i && Initialled(chosen)
      modifies this`names, this`positions, this`cities, this`eastCoast, this`westCoast, this`eastIsles, this`westIsles
      ensures Valid() && name in NameTable(tables, d)[CityNames.Letter(i)]
      ensures |name| > 0 && name[0] as int == 65 + i && name !in chosen
      ensures names == if name in old(positions) then old(names) else old(names) + [name]
      ensures positions == old(positions)[name := Placement(d)] && cities == old(cities)[name := TypeOf(d, inland)]
      ensures eastCoast == Joined(EastCoastBand, old(eastCoast), d, name)
      ensures westCoast == Joined(WestCoastBand, old(westCoast), d, name)
      ensures eastIsles == Joined(EastIslesBand, old(eastIsles), d, name)
      ensures westIsles == Joined(WestIslesBand, old(westIsles), d, name)
    {
      name :| name in NameTable(tables, d)[CityNames.Letter(i)];
      NameTableInitials(tables, d);
      assert |name| > 0 && name[0] as int == 65 + i;
      assert forall j :: 0 <= j < i ==> chosen[j] != name;
      SettleKeepsSettlement(Point(d), d.coinZero);
      PlaceCity(name, Placement(d), TypeOf(d, inland), Kind(d));
    }

    /** The `times` loop of `generate`: the i-th draw becomes a city at
        its settled point, of its settlement's type, named from the i-th
        letter's entry of the matching table. */
    method PlaceCities(draws: seq<Draw>, inland: seq<CityType>, tables: CityNames.Tables) returns (chosen: seq<Name>)
      requires Valid() && Drawn(draws, inland) && NamesAvailable(tables, draws)
      modifies this`names, this`positions, this`cities, this`eastCoast, this`westCoast, this`eastIsles, this`westIsles
      ensures Valid() && |chosen| == |draws| && Distinct(chosen)
      ensures Generated(old(names), old(positions), old(cities), old(eastCoast), old(westCoast), old(eastIsles), old(westIsles),
                        chosen, draws, inland, tables)
    {
      chosen := [];
      assert (set n | n in chosen) == {};
      for i := 0 to |draws|
        invariant Valid() && |chosen| == i
        invariant Generated(old(names), old(positions), old(cities), old(eastCoast), old(westCoast), old(eastIsles), old(westIsles),
                            chosen, draws, inland, tables)
      {
        var name := PlaceNext(i, draws, inland, tables, chosen,
                              old(names), old(positions), old(cities), old(eastCoast), old(westCoast), old(eastIsles), old(westIsles));
        chosen := chosen + [name];
      }
      InitialledDistinct(chosen);
    }

    /** The state after the first |chosen| rounds of `generate`'s loop
        over the state `n0`, `p0`, `c0`, `e0`, `w0`, `ei0`, `wi0`. */
    ghost predicate Generated(n0: seq<Name>, p0: Table, c0: map<Name, CityType>,
                              e0: set<Name>, w0: set<Name>, ei0: set<Name>, wi0: set<Name>,
                              chosen: seq<Name>, draws: seq<Draw>, inland: seq<CityType>, tables: CityNames.Tables)
      reads this`names, this`positions, this`cities, this`eastCoast, this`westCoast, this`eastIsles, this`westIsles
      requires |chosen| <= |draws| && Drawn(draws, inland) && NamesAvailable(tables, draws)
    {
      GeneratedFrom(n0, p0, c0, e0, w0, ei0, wi0, names, positions, cities, eastCoast, westCoast, eastIsles, westIsles,
                    chosen, draws, inland, tables)
    }

    /** One more round of `generate`'s loop keeps `Generated`. */
    method PlaceNext(i: nat, draws: seq<Draw>, inland: seq<CityType>, tables: CityNames.Tables, ghost chosen: seq<Name>,
                     ghost n0: seq<Name>, ghost p0: Table, ghost c0: map<Name, CityType>,
                     ghost e0: set<Name>, ghost w0: set<Name>, ghost ei0: set<Name>, ghost wi0: set<Name>)
      returns (name: Name)
      requires |chosen| == i < |draws| && Drawn(draws, inland) && NamesAvailable(tables, draws)
      requires Valid() && Generated(n0, p0, c0, e0, w0, ei0, wi0, chosen, draws, inland, tables)
      modifies this`names, this`positions, this`cities, this`eastCoast, this`westCoast, this`eastIsles, this`westIsles
      ensures Valid() && Generated(n0, p0, c0, e0, w0, ei0, wi0, chosen + [name], draws, inland, tables)
    {
      ghost var p, c, e, w, ei, wi := positions, cities, eastCoast, westCoast, eastIsles, westIsles;
      name := PlaceDraw(i, draws[i], inland[i], tables, chosen);
      NamedFromStep(tables, chosen, draws, name);
      OverlaidStep(p0, p, chosen, Placements(draws), name);
      OverlaidStep(c0, c, chosen, Types(draws, inland), name);
      GrownStep(EastCoastBand, e0, e, chosen, draws, name);
      GrownStep(WestCoastBand, w0, w, chosen, draws, name);
      GrownStep(EastIslesBand, ei0, ei, chosen, draws, name);
      GrownStep(WestIslesBand, wi0, wi, chosen, draws, name);
      InitialledStep(chosen, name);
    }

    /** `generate`: a city for every draw, then the river; the answer is
        `@cities.keys` in insertion order. Distinct altitudes, which the
        river's growth needs, are asked of the draws. The river is then
        synthesised from the river held before the call. */
    method Generate(draws: seq<Draw>, inland: seq<CityType>, tables: CityNames.Tables)
      returns (r: seq<Name>, chosen: seq<Name>, apex: Name, gulch: Name, ghost steps: seq<Name>, ghost grown: set<Name>,
               link: Option<Name>)
      requires Valid() && AltitudesDistinct() && |names| + |draws| > 0
      requires Drawn(draws, inland) && NamesAvailable(tables, draws)
      requires FreshAltitudes(draws)
      modifies this
      ensures Valid() && AltitudesDistinct() && r == names && |names| > 0
      ensures |chosen| == |draws| && Distinct(chosen)
      ensures Generated(old(names), old(positions), old(cities), old(eastCoast), old(westCoast), old(eastIsles), old(westIsles),
                        chosen, draws, inland, tables)
      ensures RiverFrom(old(river), apex, gulch, steps, grown, link)
    {
      chosen := PlaceAll(draws, inland, tables);
      var river';
      river', apex, gulch, steps, grown, link := AddRiver();
      r := names;
    }

    /** The settled altitudes of the draws differ from each other and from
        every altitude on the map. */
    predicate FreshAltitudes(draws: seq<Draw>)
      reads this`positions
      requires forall i :: 0 <= i < |draws| ==> RandomRange(draws[i])
    {
      (forall i, j :: 0 <= i < j < |draws| ==> Placement(draws[i]).z != Placement(draws[j]).z)
      && (forall n, i :: n in positions && 0 <= i < |draws| ==> positions[n].z != Placement(draws[i]).z)
    }

    /** The loop of `generate` with what the river's growth needs after it:
        distinct altitudes and at least one city. */
    method PlaceAll(draws: seq<Draw>, inland: seq<CityType>, tables: CityNames.Tables) returns (chosen: seq<Name>)
      requires Valid() && AltitudesDistinct() && |names| + |draws| > 0
      requires Drawn(draws, inland) && NamesAvailable(tables, draws)
      requires FreshAltitudes(draws)
      modifies this`names, this`positions, this`cities, this`eastCoast, this`westCoast, this`eastIsles, this`westIsles
      ensures Valid() && AltitudesDistinct() && |names| > 0
      ensures |chosen| == |draws| && Distinct(chosen)
      ensures Generated(old(names), old(positions), old(cities), old(eastCoast), old(westCoast), old(eastIsles), old(westIsles),
                        chosen, draws, inland, tables)
    {
      ghost var p0 := positions;
      chosen := PlaceCities(draws, inland, tables);
      OverlaidAltitudes(p0, positions, chosen, Placements(draws));
      if |draws| > 0 {
        assert chosen[0] in positions;
      }
    }

    /** The cities `add_river` may seed from: the first city and every
        city off the coast. */
    predicate Seed(n: Name)
      reads this`names, this`positions, this`cities, this`eastCoast, this`westCoast, this`eastIsles, this`westIsles
      requires Placed() && |names| > 0
    {
      SeedIn(names, positions, eastCoast, westCoast, n)
    }

    /** The seeding scan of `add_river`: an apex no lower and a gulch no
        higher than any seed. */
    method SeedRiver() returns (apexName: Name, gulchName: Name)
      requires Valid() && |names| > 0
      ensures Seed(apexName) && Seed(gulchName)
      ensures forall n :: Seed(n) ==> positions[gulchName].z <= positions[n].z <= positions[apexName].z
    {
      apexName, gulchName := names[0], names[0];
      var apex, gulch := positions[names[0]], positions[names[0]];
      for i := 0 to |names|
        invariant Seed(apexName) && Seed(gulchName)
        invariant apex == positions[apexName] && gulch == positions[gulchName]
        invariant gulch.z <= positions[names[0]].z <= apex.z
        invariant forall j :: 0 <= j < i && Seed(names[j]) ==> gulch.z <= positions[names[j]].z <= apex.z
      {
        var name := names[i];
        if name !in eastCoast && name !in westCoast {
          var pos := positions[name];
          if pos.z >= apex.z {
            apexName, apex := name, pos;
          } else if pos.z <= gulch.z {
            gulchName, gulch := name, pos;
          }
        }
      }
      forall n | Seed(n) ensures positions[gulchName].z <= positions[n].z <= positions[apexName].z {
        var k :| 0 <= k < |names| && names[k] == n;
      }
    }

    /** No city qualifies as a midpoint between `a` and `b`. */
    ghost predicate NoMidpoint(a: Name, b: Name)
      reads this`names, this`positions, this`cities, this`eastCoast, this`westCoast, this`eastIsles, this`westIsles
      requires Placed() && a in positions && b in positions
    {
      NoMidpointIn(mag, positions, eastCoast, westCoast, a, b)
    }

    /** No two consecutive cities of the path through `rs` have a midpoint
        candidate. */
    ghost predicate Saturated(rs: set<Name>)
      reads this`names, this`positions, this`cities, this`eastCoast, this`westCoast, this`eastIsles, this`westIsles
      requires Placed() && rs <= positions.Keys
    {
      SaturatedIn(mag, names, positions, eastCoast, westCoast, rs)
    }

    /** One pass of `river_path.each_cons(2)`: the first consecutive pair
        with a midpoint candidate, and that candidate. */
    method ScanForMidpoint(path: seq<Name>) returns (found: Option<Name>, at: int)
      requires Valid() && Within(path, positions)
      ensures found.None? ==> forall i :: 0 <= i < |path| - 1 ==> NoMidpoint(path[i], path[i + 1])
      ensures found.Some? ==> 0 <= at && at + 1 < |path| && Qualifies(path[at], path[at + 1], found.value)
      ensures found == FirstFound(path, 0, PairMidpoint(mag, names, positions, eastCoast, westCoast))
    {
      at := 0;
      ghost var find := PairMidpoint(mag, names, positions, eastCoast, westCoast);
      while at + 1 < |path|
        invariant 0 <= at
        invariant FirstFound(path, 0, find) == FirstFound(path, at, find)
        invariant forall j :: 0 <= j < at && j + 1 < |path| ==> NoMidpoint(path[j], path[j + 1])
        decreases |path| - at
      {
        var mp := FindRiverMidpoint(path[at], path[at + 1]);
        if mp.value.Some? {
          return mp.value, at;
        }
        var a, b := path[at], path[at + 1];
        forall n ensures !QualifiesIn(mag, positions, eastCoast, westCoast, a, b, n) {
          assert !Qualifies(a, b, n);
        }
        at := at + 1;
      }
      return None, at;
    }

    /** The river grew from `r0` by cities off the coast only. */
    ghost predicate GrewInland(r0: set<Name>)
      reads this`river, this`eastCoast, this`westCoast
    {
      r0 <= river && forall n :: n in river - r0 ==> n !in eastCoast && n !in westCoast
    }

    /** One pass of the growth loop: add the first midpoint found, if any. */
    method GrowStep(ghost r0: set<Name>, ghost next: set<Name> -> Option<Name>, ghost steps: seq<Name>)
      returns (added: bool, ghost steps': seq<Name>)
      requires Valid() && AltitudesDistinct() && GrewInland(r0)
      requires next == GrowthOf(mag, names, positions, eastCoast, westCoast) && Iterated(next, r0, steps, river)
      modifies this`river
      ensures Valid() && GrewInland(r0)
      ensures added ==> |positions.Keys - river| < |positions.Keys - old(river)|
      ensures !added ==> river == old(river) && Saturated(river)
      ensures added <==> old(NextGrowthIn(mag, names, positions, eastCoast, westCoast, river)).Some?
      ensures added ==> river == old(river) + {old(NextGrowthIn(mag, names, positions, eastCoast, westCoast, river)).value}
      ensures Iterated(next, r0, steps', river)
    {
      var found, at, path := ScanRiver();
      if found.None? {
        return false, steps;
      }
      IteratedAppend(next, r0, steps, river);
      steps' := steps + [found.value];
      InsertMidpoint(path, at, found.value, r0);
      return true, steps';
    }

    /** A pass over the river path looking for a midpoint candidate. */
    method ScanRiver() returns (found: Option<Name>, at: int, path: seq<Name>)
      requires Valid()
      ensures path == RiverPath()
      ensures found.None? ==> Saturated(river)
      ensures found.Some? ==> 0 <= at && at + 1 < |path| && Qualifies(path[at], path[at + 1], found.value)
      ensures found == NextGrowthIn(mag, names, positions, eastCoast, westCoast, river)
    {
      path := RiverPath();
      found, at := ScanForMidpoint(path);
    }

    /** Adds the candidate `c` found between the `at`-th and the next city
        of the river path. */
    method InsertMidpoint(path: seq<Name>, at: int, c: Name, ghost r0: set<Name>)
      requires Valid() && AltitudesDistinct() && GrewInland(r0) && path == RiverPath()
      requires 0 <= at && at + 1 < |path| && Qualifies(path[at], path[at + 1], c)
      modifies this`river
      ensures Valid() && GrewInland(r0) && river == old(river) + {c}
      ensures |positions.Keys - river| < |positions.Keys - old(river)|
    {
      NotOnRiverBetween(path, at, c);
      AddToRiver(c);
    }

    /** `@river.add(name)` for a city not yet on the river. */
    method AddToRiver(c: Name)
      requires Valid() && c in positions && c !in river
      modifies this`river
      ensures Valid() && river == old(river) + {c}
      ensures |positions.Keys - river| < |positions.Keys - old(river)|
    {
      river := river + {c};
      AddingShrinks(positions.Keys, old(river), c);
    }

    /** Adds the cities `s` to the river. */
    method Extend(s: set<Name>)
      requires Valid() && s <= positions.Keys
      modifies this`river
      ensures Valid() && river == old(river) + s
    {
      river := river + s;
    }

    /** The growth loop of `add_river`: insert the first midpoint found
        along the path and rescan, until a full pass adds nothing. With
        distinct altitudes every insertion is a new city, so the loop ends. */
    method GrowRiver() returns (ghost steps: seq<Name>)
      requires Valid() && AltitudesDistinct()
      modifies this`river
      ensures Valid()
      ensures old(river) <= river
      ensures forall n :: n in river - old(river) ==> n !in eastCoast && n !in westCoast
      ensures Saturated(river)
      ensures Iterated(GrowthOf(mag, names, positions, eastCoast, westCoast), old(river), steps, river)
      ensures NextGrowthIn(mag, names, positions, eastCoast, westCoast, river).None?
    {
      ghost var next := GrowthOf(mag, names, positions, eastCoast, westCoast);
      steps := [];
      var nothingAdded := true;
      while true
        invariant Valid() && nothingAdded && GrewInland(old(river))
        invariant Iterated(next, old(river), steps, river)
        decreases |positions.Keys - river|
      {
        var added;
        added, steps := GrowStep(old(river), next, steps);
        if added {
          nothingAdded := false;
        }
        if nothingAdded {
          break;
        }
        nothingAdded := true;
      }
    }

    /** A city that qualifies between two consecutive cities of the river
        path, with distinct altitudes, lies strictly between them and so
        is not yet on the river. */
    lemma NotOnRiverBetween(path: seq<Name>, i: int, c: Name)
      requires Valid() && AltitudesDistinct() && path == RiverPath()
      requires 0 <= i && i + 1 < |path| && Qualifies(path[i], path[i + 1], c)
      ensures c !in river
    {
      var a, b := path[i], path[i + 1];
      assert positions[a].z > positions[b].z by {
        StrictlyDescending(path, positions, i, i + 1);
      }
      assert positions[b].z < positions[c].z < positions[a].z;
      forall k | 0 <= k < |path| ensures path[k] != c {
        if k < i {
          StrictlyDescending(path, positions, k, i);
        } else if k > i + 1 {
          StrictlyDescending(path, positions, i + 1, k);
        }
      }
    }

    /** The cities the final step of `add_river` may connect to the gulch:
        coastal, not the gulch itself, and no higher than it. */
    predicate Attachable(gulch: Name, n: Name)
      reads this`names, this`positions, this`cities, this`eastCoast, this`westCoast, this`eastIsles, this`westIsles
      requires Placed() && gulch in positions
    {
      AttachableIn(positions, eastCoast, westCoast, gulch, n)
    }

    /** The final step of `add_river`: the attachable city nearest the
        gulch, or none. */
    method CoastLink(gulchName: Name) returns (closest: Option<Name>)
      requires Valid() && gulchName in positions
      ensures closest.None? <==> forall n :: !Attachable(gulchName, n)
      ensures closest.Some? ==> Attachable(gulchName, closest.value)
      ensures closest.Some? ==> forall n :: Attachable(gulchName, n) ==>
        Distance(mag, positions[closest.value], positions[gulchName]) <= Distance(mag, positions[n], positions[gulchName])
    {
      var gulch := positions[gulchName];
      var order := Filter(names, eastCoast) + Filter(names, westCoast - eastCoast);
      assert forall n :: n in eastCoast + westCoast <==> n in order;
      closest := None;
      var shortest := 0.0;
      for i := 0 to |order|
        invariant closest.None? ==> forall j :: 0 <= j < i ==> !Attachable(gulchName, order[j])
        invariant closest.Some? ==> Attachable(gulchName, closest.value)
        invariant closest.Some? ==> shortest == Distance(mag, positions[closest.value], gulch)
        invariant closest.Some? ==> forall j :: 0 <= j < i && Attachable(gulchName, order[j]) ==>
          shortest <= Distance(mag, positions[order[j]], gulch)
      {
        var name := order[i];
        if name != gulchName {
          var pos := positions[name];
          if pos.z <= gulch.z {
            var dist := Distance(mag, pos, gulch);
            if closest.None? || dist < shortest {
              shortest := dist;
              closest := Some(name);
            }
          }
        }
      }
      forall n | Attachable(gulchName, n) ensures exists j :: 0 <= j < |order| && order[j] == n {
        assert n in order;
      }
    }

    /** `apex` and `gulch` are seeds no lower and no higher than any seed. */
    ghost predicate SeedsBound(apex: Name, gulch: Name)
      reads this`names, this`positions, this`cities, this`eastCoast, this`westCoast, this`eastIsles, this`westIsles
      requires Placed() && |names| > 0
    {
      SeedsBoundIn(names, positions, eastCoast, westCoast, apex, gulch)
    }

    /** `link` is an attachable city nearest the gulch, or none when no
        city is attachable. */
    ghost predicate LinkChoice(gulch: Name, link: Option<Name>)
      reads this`names, this`positions, this`cities, this`eastCoast, this`westCoast, this`eastIsles, this`westIsles
      requires Placed() && gulch in positions
    {
      LinkChoiceIn(mag, positions, eastCoast, westCoast, gulch, link)
    }

    /** What `CoastLink` promises is the link choice of the synthesis. */
    lemma LinkChosen(gulch: Name, link: Option<Name>)
      requires Valid() && gulch in positions
      requires link.None? <==> forall n :: !Attachable(gulch, n)
      requires link.Some? ==> Attachable(gulch, link.value)
      requires link.Some? ==> forall n :: Attachable(gulch, n) ==>
        Distance(mag, positions[link.value], positions[gulch]) <= Distance(mag, positions[n], positions[gulch])
      ensures LinkChoice(gulch, link)
    {
      forall n ensures AttachableIn(positions, eastCoast, westCoast, gulch, n) == Attachable(gulch, n) { }
    }

    /** The first two phases of `add_river`: seed with the apex and the
        gulch, then grow by midpoints until saturated. */
    method SeedAndGrow() returns (apex: Name, gulch: Name, ghost steps: seq<Name>)
      requires Valid() && AltitudesDistinct() && |names| > 0
      modifies this`river
      ensures Valid() && SeedsBound(apex, gulch)
      ensures old(river) + {apex, gulch} <= river && Saturated(river)
      ensures forall n :: n in river - (old(river) + {apex, gulch}) ==> n !in eastCoast && n !in westCoast
      ensures Iterated(GrowthOf(mag, names, positions, eastCoast, westCoast), old(river) + {apex, gulch}, steps, river)
      ensures NextGrowthIn(mag, names, positions, eastCoast, westCoast, river).None?
    {
      apex, gulch := SeedRiver();
      Extend({apex, gulch});
      steps := GrowRiver();
    }

    /** What `add_river` makes of the river `r0`: `apex` and `gulch` are
        the extreme seeds, `grown` is the river after the growth loop (it
        holds `r0` and both seeds, is saturated, and every city it added
        lies off the coast), and the river is `grown` with `link`, the
        attachable city nearest the gulch, if there is one. */
    ghost predicate RiverFrom(r0: set<Name>, apex: Name, gulch: Name, steps: seq<Name>, grown: set<Name>, link: Option<Name>)
      reads this
      requires Valid() && |names| > 0
    {
      Synthesis(r0, apex, gulch, steps, grown, link)
      && river == grown + (if link.Some? then {link.value} else {})
    }

    /** The part of `RiverFrom` that does not read the river itself. */
    ghost predicate Synthesis(r0: set<Name>, apex: Name, gulch: Name, steps: seq<Name>, grown: set<Name>, link: Option<Name>)
      reads this`names, this`positions, this`cities, this`eastCoast, this`westCoast, this`eastIsles, this`westIsles
      requires Placed() && |names| > 0
    {
      SynthesisIn(mag, names, positions, eastCoast, westCoast, r0, apex, gulch, steps, grown, link)
    }

    /** The last phase of `add_river`: connect the nearest attachable
        coast city, if there is one. */
    method Attach(ghost r0: set<Name>, apex: Name, gulch: Name, ghost steps: seq<Name>) returns (ghost grown: set<Name>, link: Option<Name>)
      requires Valid() && |names| > 0 && SeedsBound(apex, gulch)
      requires r0 + {apex, gulch} <= river
      requires Iterated(GrowthOf(mag, names, positions, eastCoast, westCoast), r0 + {apex, gulch}, steps, river)
      requires NextGrowthIn(mag, names, positions, eastCoast, westCoast, river).None?
      requires forall n :: n in river - (r0 + {apex, gulch}) ==> n !in eastCoast && n !in westCoast
      modifies this`river
      ensures Valid() && RiverFrom(r0, apex, gulch, steps, grown, link)
    {
      grown := river;
      link := CoastLink(gulch);
      LinkChosen(gulch, link);
      SynthesisGathered(mag, names, positions, eastCoast, westCoast, r0, apex, gulch, steps, grown, link);
      if link.Some? {
        Connect(link.value, r0, apex, gulch, steps, grown, link);
      }
    }

    /** `@river.add(closest)`: the outcome of the synthesis, which reads no
        river, stays as it was. */
    method Connect(c: Name, ghost r0: set<Name>, ghost apex: Name, ghost gulch: Name, ghost steps: seq<Name>,
                   ghost grown: set<Name>, ghost link: Option<Name>)
      requires Valid() && |names| > 0 && c in positions && Synthesis(r0, apex, gulch, steps, grown, link)
      modifies this`river
      ensures Valid() && river == old(river) + {c}
      ensures Synthesis(r0, apex, gulch, steps, grown, link) == old(Synthesis(r0, apex, gulch, steps, grown, link))
    {
      river := river + {c};
    }

    /** `add_river`: seed, grow, attach; the answer is the river. */
    method AddRiver() returns (r: set<Name>, apex: Name, gulch: Name, ghost steps: seq<Name>, ghost grown: set<Name>, link: Option<Name>)
      requires Valid() && AltitudesDistinct() && |names| > 0
      modifies this`river
      ensures Valid() && r == river && RiverFrom(old(river), apex, gulch, steps, grown, link)
    {
      apex, gulch, steps := SeedAndGrow();
      grown, link := Attach(old(river), apex, gulch, steps);
      r := river;
    }

  }

  /** The walk `river_cost` sums along the path `rp`, with its divisor:
      from `a` down to `b`, or reversed when `b` lies upstream. */
  function Leg(rp: seq<Name>, a: Name, b: Name): (leg: (seq<Name>, real))
    requires a in rp && b in rp
    ensures |leg.0| >= 1 && leg.0[0] == a && leg.0[|leg.0| - 1] == b
    ensures forall n :: n in leg.0 ==> n in rp
    ensures leg.1 > 0.0
    ensures leg.1 == DownstreamDivisor <==> IndexOf(rp, a) <= IndexOf(rp, b)
    ensures leg.1 == UpstreamDivisor <==> IndexOf(rp, a) > IndexOf(rp, b)
    ensures IndexOf(rp, a) <= IndexOf(rp, b) ==> |leg.0| == IndexOf(rp, b) - IndexOf(rp, a) + 1
    ensures IndexOf(rp, a) > IndexOf(rp, b) ==> |leg.0| == IndexOf(rp, a) - IndexOf(rp, b) + 1
    ensures IndexOf(rp, a) <= IndexOf(rp, b) ==> forall k :: 0 <= k < |leg.0| ==> leg.0[k] == rp[IndexOf(rp, a) + k]
    ensures IndexOf(rp, a) > IndexOf(rp, b) ==> forall k :: 0 <= k < |leg.0| ==> leg.0[k] == rp[IndexOf(rp, a) - k]
  {
    var start, finish := IndexOf(rp, a), IndexOf(rp, b);
    if start > finish then
      ReversedSliceWithin(rp, finish, start + 1);
      (Reverse(rp[finish..start + 1]), UpstreamDivisor)
    else (rp[start..finish + 1], DownstreamDivisor)
  }

  /** The index arithmetic of `river_cost` on the path `rp`, then the
      accumulation over consecutive pairs. */
  method CostAlong(mag: Vec3 -> real, pos: Table, rp: seq<Name>, n1: Name, n2: Name) returns (cost: real)
    requires Within(rp, pos) && n1 in rp && n2 in rp
    ensures cost == SegmentCost(mag, pos, Leg(rp, n1, n2).0, Leg(rp, n1, n2).1)
  {
    var start, finish := IndexOf(rp, n1), IndexOf(rp, n2);
    var path: seq<Name>;
    var riverMult: real;
    if start > finish {
      path, riverMult := Reverse(rp[finish..start + 1]), UpstreamDivisor;
    } else {
      path, riverMult := rp[start..finish + 1], DownstreamDivisor;
    }
    cost := Accumulate(mag, pos, path, riverMult);
  }

  /** `cost += distance(a, b) / river_mult` over `each_cons(2)`. */
  method Accumulate(mag: Vec3 -> real, pos: Table, path: seq<Name>, mult: real) returns (cost: real)
    requires Within(path, pos) && mult > 0.0 && |path| >= 1
    ensures cost == SegmentCost(mag, pos, path, mult)
  {
    cost := 0.0;
    for i := 1 to |path|
      invariant cost == SegmentCost(mag, pos, path[..i], mult)
    {
      assert path[..i + 1][..i] == path[..i];
      cost := cost + Distance(mag, pos[path[i - 1]], pos[path[i]]) / mult;
    }
    assert path[..|path|] == path;
  }

  lemma LegDownstream(mag: Vec3 -> real, pos: Table, rp: seq<Name>, a: Name, b: Name)
    requires Within(rp, pos) && a in rp && b in rp
    requires IndexOf(rp, a) <= IndexOf(rp, b)
    ensures Leg(rp, a, b).0 == rp[IndexOf(rp, a)..IndexOf(rp, b) + 1]
    ensures SegmentCost(mag, pos, Leg(rp, a, b).0, Leg(rp, a, b).1) * DownstreamDivisor
      == SegmentCost(mag, pos, Leg(rp, a, b).0, 1.0)
  {
    var ia, ib := IndexOf(rp, a), IndexOf(rp, b);
    var stretch := rp[ia..ib + 1];
    assert Within(stretch, pos) by {
      forall i | 0 <= i < |stretch| ensures stretch[i] in pos {
        assert stretch[i] == rp[ia + i];
      }
    }
    assert Leg(rp, a, b) == (stretch, DownstreamDivisor);
    SegmentCostScales(mag, pos, stretch, DownstreamDivisor);
  }

  lemma LegToSelf(rp: seq<Name>, n: Name)
    requires n in rp
    ensures Leg(rp, n, n).0 == [n]
  {
  }

  lemma LegReversed(mag: Vec3 -> real, pos: Table, rp: seq<Name>, a: Name, b: Name)
    requires IsMagnitude(mag) && Within(rp, pos) && a in rp && b in rp
    requires IndexOf(rp, a) <= IndexOf(rp, b)
    ensures SegmentCost(mag, pos, Leg(rp, b, a).0, Leg(rp, b, a).1) * UpstreamDivisor
      == SegmentCost(mag, pos, Leg(rp, a, b).0, Leg(rp, a, b).1) * DownstreamDivisor
    ensures SegmentCost(mag, pos, Leg(rp, b, a).0, Leg(rp, b, a).1) >= SegmentCost(mag, pos, Leg(rp, a, b).0, Leg(rp, a, b).1)
  {
    var ia, ib := IndexOf(rp, a), IndexOf(rp, b);
    var stretch := rp[ia..ib + 1];
    if ia < ib {
      assert Leg(rp, a, b) == (stretch, DownstreamDivisor);
      assert Leg(rp, b, a) == (Reverse(stretch), UpstreamDivisor);
      SegmentCostReverse(mag, pos, stretch, UpstreamDivisor);
      SegmentCostScales(mag, pos, stretch, UpstreamDivisor);
      SegmentCostScales(mag, pos, stretch, DownstreamDivisor);
      SegmentCostNonNegative(mag, pos, stretch, DownstreamDivisor);
      var down := SegmentCost(mag, pos, stretch, DownstreamDivisor);
      var up := SegmentCost(mag, pos, stretch, UpstreamDivisor);
      assert up * UpstreamDivisor == down * DownstreamDivisor;
      assert up >= down;
    } else {
      assert a == b;
      LegToSelf(rp, a);
    }
  }

  lemma DistinctIndex(s: seq<Name>, k: int)
    requires Distinct(s) && 0 <= k < |s|
    ensures IndexOf(s, s[k]) == k
  {
  }

  lemma DistinctCardinality(p: seq<Name>, s: set<Name>)
    requires Distinct(p) && forall n :: n in p <==> n in s
    ensures |p| == |s|
  {
    if p != [] {
      var rest := p[1..];
      assert forall n :: n in rest <==> n in s - {p[0]} by {
        assert p == [p[0]] + rest;
      }
      DistinctCardinality(rest, s - {p[0]});
    } else {
      assert forall n :: n !in s;
      assert s == {};
    }
  }
}
