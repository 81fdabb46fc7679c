/** A city's economy: utility factors by population, the labour check,
    terrain derived from the type modifiers, and the labour, proposal,
    allocation and advice computed from that terrain. */
module Cities {
  import opened Common
  import opened Goods

  /** Diminishing marginal utility, stepping up with population. */
  function Dmu(pop: int): (d: real)
    ensures 0.9 <= d < 1.0
  {
    if pop <= 10 then 0.9
    else if pop <= 100 then 0.92
    else if pop <= 1000 then 0.95
    else if pop <= 5000 then 0.965
    else if pop <= 10000 then 0.98
    else if pop <= 100000 then 0.99
    else 0.999
  }

  /** Increasing complementary utility, stepping down with population. */
  function Icu(pop: int): (c: real)
    ensures 1.0 < c <= 1.1
  {
    if pop <= 10 then 1.1
    else if pop <= 100 then 1.05
    else if pop <= 1000 then 1.001
    else if pop <= 5000 then 1.0001
    else if pop <= 10000 then 1.00002
    else if pop <= 100000 then 1.00001
    else 1.000005
  }

  lemma DmuNonDecreasing(p: int, q: int)
    requires p <= q
    ensures Dmu(p) <= Dmu(q)
  {
  }

  lemma IcuNonIncreasing(p: int, q: int)
    requires p <= q
    ensures Icu(p) >= Icu(q)
  {
  }

  /** `labor_check!`: raises LaborShortfall when the population cannot
      supply the labour, and returns the labour otherwise. */
  function LaborCheck(labor: real, pop: int): (r: Result<real>)
    ensures r.Err? <==> labor > pop as real
    ensures r.Err? ==> r.error == LaborShortfall
    ensures r.Ok? ==> r.value == labor
  {
    if labor > pop as real then Err(LaborShortfall) else Ok(labor)
  }

  /** `[1, v].max`. */
  function AtLeastOne(v: real): (r: real)
    ensures r >= 1.0 && r >= v
    ensures r == v || r == 1.0
  {
    if v >= 1.0 then v else 1.0
  }

  /** The labour table with the type's modifiers applied and every value
      clamped to at least 1. */
  function Clamped(labor: Hash<real>, mods: Hash<real>): (r: Hash<real>)
    ensures Keys(r) == Keys(labor)
    ensures forall i :: 0 <= i < |r| ==> r[i].1 >= 1.0
  {
    seq(|labor|, i requires 0 <= i < |labor| => (labor[i].0, AtLeastOne(ModifiedLabor(mods, labor[i].0, labor[i].1))))
  }

  /** The clamped table is the top-level modified table with each value
      raised to 1 where it falls below. */
  lemma ClampedIsModifiedAtLeastOne(labor: Hash<real>, mods: Hash<real>, i: int)
    requires 0 <= i < |labor|
    ensures Clamped(labor, mods)[i].1 == AtLeastOne(Modifications(labor, mods)[i].1)
  {
  }

  /** `City.modify`: KeyError for a type the table does not list. */
  function ModifyOf(labor: Hash<real>, types: map<CityType, Hash<real>>, t: CityType): (r: Result<Hash<real>>)
    ensures r.Err? <==> t !in types
    ensures r.Err? ==> r.error == KeyError
  {
    if t in types then Ok(Clamped(labor, types[t])) else Err(KeyError)
  }

  method Modify(labor: Hash<real>, types: map<CityType, Hash<real>>, t: CityType) returns (r: Result<Hash<real>>)
    ensures r == ModifyOf(labor, types, t)
  {
    if t !in types {
      return Err(KeyError);
    }
    var mods := types[t];
    var hsh: Hash<real> := [];
    for i := 0 to |labor|
      invariant |hsh| == i
      invariant forall j :: 0 <= j < i ==> hsh[j] == Clamped(labor, mods)[j]
    {
      var v := ModifiedLabor(mods, labor[i].0, labor[i].1);
      hsh := hsh + [(labor[i].0, if v >= 1.0 then v else 1.0)];
    }
    assert |Keys(Clamped(labor, mods))| == |labor|;
    assert hsh == Clamped(labor, mods);
    return Ok(hsh);
  }

  /** Ruby's `Float#round`: to the nearest integer, halves away from zero. */
  function Round(x: real): (n: int)
    ensures x - 0.5 <= n as real <= x + 0.5
  {
    if x >= 0.0 then (x + 0.5).Floor else -((-x + 0.5).Floor)
  }

  /** `[1, (labor + labor * (noise - 0.5) / 2).round].max`, where `noise`
      stands for the value of `rand(0)`. */
  function Disturbed(labor: real, noise: real): (r: real)
    ensures r >= 1.0 && r == r.Floor as real
  {
    var n := Round(labor + labor * (noise - 0.5) / 2.0);
    if n >= 1 then n as real else 1.0
  }

  predicate UnitNoise(noise: seq<real>) {
    forall i :: 0 <= i < |noise| ==> 0.0 <= noise[i] < 1.0
  }

  /** `terrain` is what `City.terrain(t)` draws with the noise `noise`:
      the modified labour of every good of `labor`, in order, each
      disturbed by its draw. */
  predicate DrawnFrom(terrain: Hash<real>, labor: Hash<real>, types: map<CityType, Hash<real>>, t: CityType, noise: seq<real>)
    requires |noise| == |labor|
  {
    t in types && Keys(terrain) == Keys(labor)
    && forall i :: 0 <= i < |terrain| ==> terrain[i].1 == Disturbed(Clamped(labor, types[t])[i].1, noise[i])
  }

  /** `City.terrain`, with one draw of `rand(0)` per good given in order:
      every value is a whole number of at least 1. */
  method Terrain(labor: Hash<real>, types: map<CityType, Hash<real>>, t: CityType, noise: seq<real>)
    returns (r: Result<Hash<real>>)
    requires |noise| == |labor| && UnitNoise(noise)
    ensures r.Err? <==> t !in types
    ensures r.Err? ==> r.error == KeyError
    ensures r.Ok? ==> Keys(r.value) == Keys(labor)
    ensures r.Ok? ==> forall i :: 0 <= i < |r.value| ==> r.value[i].1 >= 1.0 && r.value[i].1 == r.value[i].1.Floor as real
    ensures r.Ok? ==> forall i :: 0 <= i < |r.value| ==> r.value[i].1 == Disturbed(ModifyOf(labor, types, t).value[i].1, noise[i])
    ensures r.Ok? ==> DrawnFrom(r.value, labor, types, t, noise)
  {
    var modified := Modify(labor, types, t);
    if modified.Err? {
      return Err(modified.error);
    }
    var base := modified.value;
    var hsh: Hash<real> := [];
    for i := 0 to |base|
      invariant |hsh| == i
      invariant forall j :: 0 <= j < i ==> hsh[j] == (base[j].0, Disturbed(base[j].1, noise[j]))
    {
      hsh := hsh + [(base[i].0, Disturbed(base[i].1, noise[i]))];
    }
    return Ok(hsh);
  }

  /** `type=` as written: fetching `Island` or `Delta` from a table keyed
      like `City::TYPES` raises, so a city of either type cannot be built. */
  lemma IslandAndDeltaHaveNoTerrain(labor: Hash<real>, types: map<CityType, Hash<real>>)
    requires TypeKeys(types)
    ensures ModifyOf(labor, types, Island) == Err(KeyError)
    ensures ModifyOf(labor, types, Delta) == Err(KeyError)
  {
  }

  /** The economy a map settlement type is meant to follow: islands trade
      as coastal cities and deltas farm; every other type is its own. */
  function Economy(t: CityType): (e: CityType)
    ensures e != Island && e != Delta
    ensures t != Island && t != Delta ==> e == t
  {
    match t
    case Island => Coastal
    case Delta => Farming
    case _ => t
  }

  /** With the economy in place of the type, terrain exists for every type. */
  lemma EconomyHasTerrain(labor: Hash<real>, types: map<CityType, Hash<real>>, t: CityType)
    requires TypeKeys(types)
    ensures ModifyOf(labor, types, Economy(t)).Ok?
  {
  }

  /** The labour, total and leisure `propose` reports (its utility part is
      not modelled). */
  datatype Proposal = Proposal(labor: Hash<real>, totalLabor: real, leisure: real)

  /** Units produced per good, plus the leisure left over. */
  datatype Allocation = Allocation(units: Hash<int>, leisure: real)

  function SumInts(h: Hash<int>): int {
    if h == [] then 0 else SumInts(h[..|h| - 1]) + h[|h| - 1].1
  }

  /** `labor / terrain.fetch(good)` on whole numbers, floored. */
  function Units(labor: int, cost: real): int
    requires cost > 0.0
  {
    (labor as real / cost).Floor
  }

  /** The labour `units` units of a good cost when each costs `cost`. */
  function Spent(units: int, cost: real): real {
    units as real * cost
  }

  /** Units never need more labour than was assigned, and one more unit
      would. */
  lemma UnitsWithinLabor(labor: int, cost: real)
    requires cost > 0.0
    ensures Spent(Units(labor, cost), cost) <= labor as real
    ensures labor as real < Spent(Units(labor, cost) + 1, cost)
  {
    var u := Units(labor, cost);
    var q := labor as real / cost;
    assert q * cost == labor as real;
    assert u as real <= q < (u + 1) as real;
    MulMonotone(u as real, q, cost);
    MulMonotone(q, (u + 1) as real, cost);
    assert Spent(u, cost) == u as real * cost <= labor as real;
    assert Spent(u + 1, cost) == (u + 1) as real * cost > labor as real;
  }

  lemma MulMonotone(a: real, b: real, c: real)
    requires a <= b && c > 0.0
    ensures a * c <= b * c
    ensures a < b ==> a * c < b * c
  {
  }

  predicate PositiveCosts(terrain: Hash<real>) {
    forall i :: 0 <= i < |terrain| ==> terrain[i].1 >= 1.0
  }

  lemma {:induction false} LookupPositive(terrain: Hash<real>, g: Good)
    requires PositiveCosts(terrain) && g in Keys(terrain)
    ensures Cost(terrain, g) >= 1.0
  {
    var init := terrain[..|terrain| - 1];
    if terrain[|terrain| - 1].0 != g {
      assert PositiveCosts(init) by {
        assert forall i :: 0 <= i < |init| ==> init[i] == terrain[i];
      }
      assert g in Keys(init) by {
        var k :| 0 <= k < |terrain| && terrain[k].0 == g;
        assert init[k] == terrain[k];
      }
      LookupPositive(init, g);
    }
  }

  /** Production per good for an assignment of labour: the most whole
      units the labour pays for, one more would cost more than it;
      KeyError when the terrain lacks a good. */
  function UnitsOf(goodsLabor: Hash<int>, terrain: Hash<real>): (r: Result<Hash<int>>)
    requires PositiveCosts(terrain)
    ensures r.Err? ==> r.error == KeyError
    ensures r.Ok? <==> forall i :: 0 <= i < |goodsLabor| ==> goodsLabor[i].0 in Keys(terrain)
    ensures r.Ok? ==> |r.value| == |goodsLabor|
    ensures r.Ok? ==> forall i :: 0 <= i < |goodsLabor| ==>
      r.value[i].0 == goodsLabor[i].0 &&
      Spent(r.value[i].1, Cost(terrain, goodsLabor[i].0)) <= goodsLabor[i].1 as real <
      Spent(r.value[i].1 + 1, Cost(terrain, goodsLabor[i].0))
  {
    if goodsLabor == [] then Ok([])
    else
      var init := goodsLabor[..|goodsLabor| - 1];
      var last := goodsLabor[|goodsLabor| - 1];
      assert forall i :: 0 <= i < |init| ==> init[i] == goodsLabor[i];
      match UnitsOf(init, terrain)
      case Err(e) => Err(e)
      case Ok(p) =>
        if last.0 in Keys(terrain) then
          LookupPositive(terrain, last.0);
          UnitsWithinLabor(last.1, Cost(terrain, last.0));
          var q := p + [(last.0, Units(last.1, Cost(terrain, last.0)))];
          assert forall i :: 0 <= i < |init| ==> q[i] == p[i];
          Ok(q)
        else Err(KeyError)
  }


  /** `utils.to_f / labor ** pow`. */
  function Ratio(utils: real, labor: real, pow: nat): real
    requires labor >= 1.0
  {
    PowPositive(labor, pow);
    utils / Pow(labor, pow)
  }

  /** Utility per unit of labour for each terrain good, in terrain order;
      KeyError when the consumption table lacks a good. */
  function RatiosOf(terrain: Hash<real>, consumption: Hash<real>, pow: nat): (r: Result<Hash<real>>)
    requires PositiveCosts(terrain)
    ensures r.Err? ==> r.error == KeyError
    ensures r.Ok? <==> forall i :: 0 <= i < |terrain| ==> terrain[i].0 in Keys(consumption)
    ensures r.Ok? ==> |r.value| == |terrain|
    ensures r.Ok? ==> forall i :: 0 <= i < |terrain| ==>
      r.value[i] == (terrain[i].0, Ratio(Cost(consumption, terrain[i].0), terrain[i].1, pow))
  {
    if terrain == [] then Ok([])
    else
      var init := terrain[..|terrain| - 1];
      var last := terrain[|terrain| - 1];
      assert forall i :: 0 <= i < |init| ==> init[i] == terrain[i];
      match RatiosOf(init, consumption, pow)
      case Err(e) => Err(e)
      case Ok(p) =>
        if last.0 in Keys(consumption) then
          var q := p + [(last.0, Ratio(Cost(consumption, last.0), last.1, pow))];
          assert forall i :: 0 <= i < |init| ==> q[i] == p[i];
          Ok(q)
        else Err(KeyError)
  }

  lemma RatiosOfErrExtends(terrain: Hash<real>, consumption: Hash<real>, pow: nat, n: int)
    requires PositiveCosts(terrain) && 0 <= n <= |terrain|
    requires RatiosOf(terrain[..n], consumption, pow).Err?
    ensures RatiosOf(terrain, consumption, pow) == Err(KeyError)
  {
    var i :| 0 <= i < n && terrain[..n][i].0 !in Keys(consumption);
    assert terrain[i].0 !in Keys(consumption);
  }

  /** Values never increase along the sequence. */
  predicate NonIncreasing(h: Hash<real>) {
    forall i, j :: 0 <= i < j < |h| ==> h[i].1 >= h[j].1
  }

  function InsertByValue(e: (Good, real), h: Hash<real>): (r: Hash<real>)
    ensures multiset(r) == multiset(h) + multiset{e}
  {
    if h == [] then [e]
    else if e.1 >= h[0].1 then [e] + h
    else
      assert h == [h[0]] + h[1..];
      [h[0]] + InsertByValue(e, h[1..])
  }

  lemma {:induction false} InsertByValueOrdered(e: (Good, real), h: Hash<real>)
    requires NonIncreasing(h)
    ensures NonIncreasing(InsertByValue(e, h))
  {
    if h != [] && e.1 < h[0].1 {
      var t := InsertByValue(e, h[1..]);
      InsertByValueOrdered(e, h[1..]);
      assert h == [h[0]] + h[1..];
      forall j | 0 <= j < |t| ensures h[0].1 >= t[j].1 {
        assert t[j] in multiset(t);
        if t[j] != e {
          assert t[j] in multiset(h[1..]);
          var k :| 0 <= k < |h[1..]| && h[1..][k] == t[j];
          assert h[k + 1] == t[j];
        }
      }
      NonIncreasingCons(h[0], t);
    }
  }

  lemma NonIncreasingCons(x: (Good, real), t: Hash<real>)
    requires NonIncreasing(t) && forall j :: 0 <= j < |t| ==> x.1 >= t[j].1
    ensures NonIncreasing([x] + t)
  {
    var r := [x] + t;
    assert forall k :: 1 <= k < |r| ==> r[k] == t[k - 1];
  }

  /** `sort_by { |k, v| -1 * v }`: the same entries, largest value first. */
  function SortByValue(h: Hash<real>): (r: Hash<real>)
    ensures multiset(r) == multiset(h)
    ensures NonIncreasing(r)
  {
    if h == [] then []
    else
      assert h == [h[0]] + h[1..];
      InsertByValueOrdered(h[0], SortByValue(h[1..]));
      InsertByValue(h[0], SortByValue(h[1..]))
  }

  class City {
    var name: string
    var pop: int
    var dmu: real
    var icu: real
    var terrain: Hash<real>
    var cityType: CityType

    /** Every terrain value is at least 1. */
    ghost predicate Valid()
      reads this
    {
      PositiveCosts(terrain)
    }

    constructor Init(name: string, pop: int, t: CityType, terrain: Hash<real>)
      requires PositiveCosts(terrain)
      ensures Valid()
      ensures this.name == name && this.pop == pop && cityType == t && this.terrain == terrain
      ensures dmu == Dmu(pop) && icu == Icu(pop)
    {
      this.name := name;
      this.pop := pop;
      dmu := Dmu(pop);
      icu := Icu(pop);
      this.terrain := terrain;
      cityType := t;
    }

    /** `City.new`: the terrain is drawn first, for the economy of the
        type, so a type without one raises before any city exists; with
        the type table's keys every type has one. */
    static method New(name: string, pop: int, t: CityType, labor: Hash<real>, types: map<CityType, Hash<real>>, noise: seq<real>)
      returns (r: Result<City>)
      requires |noise| == |labor| && UnitNoise(noise)
      ensures r.Err? <==> Economy(t) !in types
      ensures TypeKeys(types) ==> r.Ok?
      ensures r.Ok? ==> fresh(r.value) && r.value.Valid() && r.value.cityType == t && r.value.name == name
      ensures r.Ok? ==> r.value.pop == pop && r.value.dmu == Dmu(pop) && r.value.icu == Icu(pop)
      ensures r.Ok? ==> DrawnFrom(r.value.terrain, labor, types, Economy(t), noise)
    {
      var terrain := Terrain(labor, types, Economy(t), noise);
      if terrain.Err? {
        return Err(terrain.error);
      }
      var c := new City.Init(name, pop, t, terrain.value);
      return Ok(c);
    }

    /** `type=`: regenerates the terrain for the economy of the new type;
        on KeyError the city keeps its old type and terrain. */
    method SetType(t: CityType, labor: Hash<real>, types: map<CityType, Hash<real>>, noise: seq<real>)
      returns (r: Result<CityType>)
      requires Valid() && |noise| == |labor| && UnitNoise(noise)
      modifies this
      ensures Valid()
      ensures r.Err? <==> Economy(t) !in types
      ensures TypeKeys(types) ==> r.Ok?
      ensures r.Err? ==> unchanged(this)
      ensures r.Ok? ==> cityType == t && DrawnFrom(terrain, labor, types, Economy(t), noise)
      ensures r.Ok? ==> name == old(name) && pop == old(pop) && dmu == old(dmu) && icu == old(icu)
    {
      var drawn := Terrain(labor, types, Economy(t), noise);
      if drawn.Err? {
        return Err(drawn.error);
      }
      terrain := drawn.value;
      cityType := t;
      return Ok(t);
    }

    /** `labor`: the labour each good of the basket takes on this terrain. */
    method Labor(goods: Hash<int>) returns (r: Result<Hash<real>>)
      ensures r == LaborOf(goods, terrain)
    {
      r := LaborCost(goods, terrain);
    }

    /** What `propose` reports: KeyError from the labour lookup comes
        before the labour check. */
    function ProposalOf(goods: Hash<int>): (r: Result<Proposal>)
      reads this
      ensures r.Err? ==> r.error == KeyError || r.error == LaborShortfall
      ensures r.Err? && r.error == KeyError <==> LaborOf(goods, terrain).Err?
      ensures r.Ok? ==> r.value.totalLabor <= pop as real
      ensures r.Ok? ==> r.value.leisure >= 0.0 && r.value.leisure + r.value.totalLabor == pop as real
      ensures r.Ok? ==> Keys(r.value.labor) == Keys(goods) && r.value.totalLabor == Sum(r.value.labor)
      ensures r.Ok? ==> LaborOf(goods, terrain) == Ok(r.value.labor)
      ensures LaborOf(goods, terrain).Ok? ==> (r.Err? <==> Sum(LaborOf(goods, terrain).value) > pop as real)
    {
      match LaborOf(goods, terrain)
      case Err(e) => Err(e)
      case Ok(labor) =>
        var total := Sum(labor);
        match LaborCheck(total, pop)
        case Err(e) => Err(e)
        case Ok(_) => Ok(Proposal(labor, total, pop as real - total))
    }

    method Propose(goods: Hash<int>) returns (r: Result<Proposal>)
      ensures r == ProposalOf(goods)
    {
      var labor := Labor(goods);
      if labor.Err? {
        return Err(labor.error);
      }
      var total := Sum(labor.value);
      var leisure := pop as real - total;
      var checked := LaborCheck(total, pop);
      if checked.Err? {
        return Err(checked.error);
      }
      return Ok(Proposal(labor.value, total, leisure));
    }

    /** What `allocate` returns: the labour check comes before any terrain
        lookup; leisure is the population left over. */
    function AllocationOf(goodsLabor: Hash<int>): (r: Result<Allocation>)
      requires Valid()
      reads this
      ensures r.Err? ==> r.error == KeyError || r.error == LaborShortfall
      ensures r.Err? && r.error == LaborShortfall <==> SumInts(goodsLabor) > pop
      ensures r.Ok? ==> r.value.leisure >= 0.0 && r.value.leisure == (pop - SumInts(goodsLabor)) as real
      ensures r.Ok? ==> UnitsOf(goodsLabor, terrain) == Ok(r.value.units)
      ensures SumInts(goodsLabor) <= pop ==> (r.Err? <==> UnitsOf(goodsLabor, terrain).Err?)
    {
      var total := SumInts(goodsLabor);
      match LaborCheck(total as real, pop)
      case Err(e) => Err(e)
      case Ok(_) =>
        match UnitsOf(goodsLabor, terrain)
        case Err(e) => Err(e)
        case Ok(units) => Ok(Allocation(units, (pop - total) as real))
    }

    method Allocate(goodsLabor: Hash<int>) returns (r: Result<Allocation>)
      requires Valid()
      ensures r == AllocationOf(goodsLabor)
    {
      var total := SumInts(goodsLabor);
      var checked := LaborCheck(total as real, pop);
      if checked.Err? {
        return Err(checked.error);
      }
      var units: Hash<int> := [];
      for i := 0 to |goodsLabor|
        invariant UnitsOf(goodsLabor[..i], terrain) == Ok(units)
      {
        assert goodsLabor[..i + 1][..i] == goodsLabor[..i];
        var good := goodsLabor[i].0;
        if good !in Keys(terrain) {
          UnitsOfErrExtends(goodsLabor, terrain, i + 1);
          return Err(KeyError);
        }
        LookupPositive(terrain, good);
        units := units + [(good, Units(goodsLabor[i].1, Cost(terrain, good)))];
      }
      assert goodsLabor[..|goodsLabor|] == goodsLabor;
      return Ok(Allocation(units, (pop - total) as real));
    }

    /** `advisor`: every terrain good with its utility per labour, best
        first. */
    method Advisor(consumption: Hash<real>, pow: nat) returns (r: Result<Hash<real>>)
      requires Valid()
      ensures r.Err? <==> RatiosOf(terrain, consumption, pow).Err?
      ensures r.Err? ==> r.error == KeyError
      ensures r.Ok? ==> multiset(r.value) == multiset(RatiosOf(terrain, consumption, pow).value)
      ensures r.Ok? ==> NonIncreasing(r.value) && |r.value| == |terrain|
    {
      var hsh: Hash<real> := [];
      for i := 0 to |terrain|
        invariant RatiosOf(terrain[..i], consumption, pow) == Ok(hsh)
      {
        assert terrain[..i + 1][..i] == terrain[..i];
        var good := terrain[i].0;
        if good !in Keys(consumption) {
          RatiosOfErrExtends(terrain, consumption, pow, i + 1);
          return Err(KeyError);
        }
        hsh := hsh + [(good, Ratio(Cost(consumption, good), terrain[i].1, pow))];
      }
      assert terrain[..|terrain|] == terrain;
      var sorted := SortByValue(hsh);
      assert |sorted| == |multiset(sorted)| == |multiset(hsh)| == |hsh|;
      return Ok(sorted);
    }
  }

  lemma UnitsOfErrExtends(goodsLabor: Hash<int>, terrain: Hash<real>, n: int)
    requires PositiveCosts(terrain) && 0 <= n <= |goodsLabor|
    requires UnitsOf(goodsLabor[..n], terrain).Err?
    ensures UnitsOf(goodsLabor, terrain) == Err(KeyError)
  {
    var i :| 0 <= i < n && goodsLabor[..n][i].0 !in Keys(terrain);
    assert goodsLabor[i].0 !in Keys(terrain);
  }
}
