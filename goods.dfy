/** The goods tables and helpers of the top-level module: Ruby hashes keyed
    by good, the labour modifiers per city type, labour cost and the
    utility multiplier. */
module Goods {
  import opened Common

  type Good = string

  /** A Ruby Hash keyed by good, as an association list in insertion order. */
  type Hash<V> = seq<(Good, V)>

  /** Keys of a hash are distinct. */
  predicate IsHash<V>(h: Hash<V>) {
    forall i, j :: 0 <= i < j < |h| ==> h[i].0 != h[j].0
  }

  function Keys<V>(h: Hash<V>): (ks: seq<Good>)
    ensures |ks| == |h| && forall i :: 0 <= i < |h| ==> ks[i] == h[i].0
  {
    seq(|h|, i requires 0 <= i < |h| => h[i].0)
  }

  /** `h[g]`: the value stored under `g`, or None (Ruby's nil). */
  function Lookup<V>(h: Hash<V>, g: Good): (r: Option<V>)
    ensures r.None? <==> g !in Keys(h)
  {
    if h == [] then None
    else if h[|h| - 1].0 == g then Some(h[|h| - 1].1)
    else
      assert forall i :: 0 <= i < |h| - 1 ==> h[..|h| - 1][i] == h[i];
      Lookup(h[..|h| - 1], g)
  }

  /** In a hash with distinct keys every entry is what its key looks up. */
  lemma {:induction false} LookupAt<V>(h: Hash<V>, i: int)
    requires IsHash(h) && 0 <= i < |h|
    ensures Lookup(h, h[i].0) == Some(h[i].1)
  {
    if i < |h| - 1 {
      var init := h[..|h| - 1];
      assert init[i] == h[i];
      LookupAt(init, i);
    }
  }

  /** Sum of the values of a hash (`values.sum`). */
  function Sum(h: Hash<real>): real {
    if h == [] then 0.0 else Sum(h[..|h| - 1]) + h[|h| - 1].1
  }

  /** The city types that both modifier tables use as keys; `Untyped` is
      Ruby's `nil` key. Island and delta are types the map gives its
      cities, not keys of either table. */
  datatype CityType = Untyped | Farming | HighTech | Industrial | Culture | Coastal | Undeveloped | Island | Delta

  /** Key set of `CITY_TYPES` (and of `City::TYPES`). */
  predicate TypeKeys<V>(types: map<CityType, V>) {
    types.Keys == {Untyped, Farming, HighTech, Industrial, Culture, Coastal, Undeveloped}
  }

  /** `mods[good] || 1`: the modifier of a good, 1 when the type gives none. */
  function Factor(mods: Hash<real>, g: Good): real {
    match Lookup(mods, g)
    case None => 1.0
    case Some(m) => m
  }

  /** `labor * (mods[good] || 1)`. */
  function ModifiedLabor(mods: Hash<real>, g: Good, labor: real): real {
    labor * Factor(mods, g)
  }

  /** Every good of `labor` with its labour scaled by the type's factor. */
  function Modifications(labor: Hash<real>, mods: Hash<real>): (r: Hash<real>)
    ensures |r| == |labor|
    ensures forall i :: 0 <= i < |r| ==> r[i] == (labor[i].0, ModifiedLabor(mods, labor[i].0, labor[i].1))
  {
    if labor == [] then []
    else
      var init := labor[..|labor| - 1];
      var last := labor[|labor| - 1];
      var rest := Modifications(init, mods);
      var r := rest + [(last.0, ModifiedLabor(mods, last.0, last.1))];
      assert forall i :: 0 <= i < |init| ==> init[i] == labor[i] && r[i] == rest[i];
      r
  }

  /** A type without modifiers leaves every labour value as it is, so
      `modified(nil)` reproduces `LABOR`. */
  lemma {:induction false} ModificationsWithoutMods(labor: Hash<real>)
    ensures Modifications(labor, []) == labor
  {
    if labor != [] {
      ModificationsWithoutMods(labor[..|labor| - 1]);
      assert labor == labor[..|labor| - 1] + [labor[|labor| - 1]];
    }
  }

  /** `Hansa.modified`: fetching an unknown type raises KeyError. */
  method Modified(labor: Hash<real>, types: map<CityType, Hash<real>>, m: CityType) returns (r: Result<Hash<real>>)
    ensures r.Err? <==> m !in types
    ensures r.Err? ==> r.error == KeyError
    ensures r.Ok? ==> r.value == Modifications(labor, types[m])
  {
    if m !in types {
      return Err(KeyError);
    }
    var mods := types[m];
    var hsh: Hash<real> := [];
    for i := 0 to |labor|
      invariant hsh == Modifications(labor[..i], mods)
    {
      var good := labor[i].0;
      assert labor[..i + 1][..i] == labor[..i];
      hsh := hsh + [(good, ModifiedLabor(mods, good, labor[i].1))];
    }
    assert labor[..|labor|] == labor;
    return Ok(hsh);
  }

  /** Every good of the basket has a terrain cost. */
  predicate Covered(goods: Hash<int>, terrain: Hash<real>) {
    forall i :: 0 <= i < |goods| ==> goods[i].0 in Keys(terrain)
  }

  /** `terrain.fetch(g)` for a good the terrain lists. */
  function Cost(terrain: Hash<real>, g: Good): real
    requires g in Keys(terrain)
  {
    Lookup(terrain, g).value
  }

  /** `count * terrain.fetch(good)`. */
  function CountLabor(count: int, cost: real): real {
    count as real * cost
  }

  /** The labour a basket needs: each count times its good's terrain cost;
      a good the terrain lacks raises KeyError. */
  function LaborOf(goods: Hash<int>, terrain: Hash<real>): (r: Result<Hash<real>>)
    ensures r.Err? ==> r.error == KeyError
    ensures r.Ok? <==> Covered(goods, terrain)
    ensures r.Ok? ==> |r.value| == |goods|
    ensures r.Ok? ==> forall i :: 0 <= i < |goods| ==>
      r.value[i] == (goods[i].0, CountLabor(goods[i].1, Cost(terrain, goods[i].0)))
  {
    if goods == [] then Ok([])
    else
      var init := goods[..|goods| - 1];
      var last := goods[|goods| - 1];
      assert forall i :: 0 <= i < |init| ==> init[i] == goods[i];
      match LaborOf(init, terrain)
      case Err(e) => Err(e)
      case Ok(p) =>
        match Lookup(terrain, last.0)
        case None => Err(KeyError)
        case Some(t) =>
          var q := p + [(last.0, CountLabor(last.1, t))];
          assert forall i :: 0 <= i < |init| ==> q[i] == p[i];
          Ok(q)
  }

  /** `Hansa.labor_cost`, with the terrain as a parameter (its Ruby default
      is `LABOR`). */
  method LaborCost(goods: Hash<int>, terrain: Hash<real>) returns (r: Result<Hash<real>>)
    ensures r == LaborOf(goods, terrain)
  {
    var labor: Hash<real> := [];
    for i := 0 to |goods|
      invariant LaborOf(goods[..i], terrain) == Ok(labor)
    {
      assert goods[..i + 1][..i] == goods[..i];
      match Lookup(terrain, goods[i].0) {
        case None =>
          LaborOfErrExtends(goods, terrain, i + 1);
          return Err(KeyError);
        case Some(t) =>
          labor := labor + [(goods[i].0, CountLabor(goods[i].1, t))];
      }
    }
    assert goods[..|goods|] == goods;
    return Ok(labor);
  }

  /** A KeyError on a prefix of the basket is a KeyError on all of it. */
  lemma LaborOfErrExtends(goods: Hash<int>, terrain: Hash<real>, n: int)
    requires 0 <= n <= |goods|
    requires LaborOf(goods[..n], terrain).Err?
    ensures LaborOf(goods, terrain) == Err(KeyError)
  {
    var i :| 0 <= i < n && goods[..n][i].0 !in Keys(terrain);
    assert goods[i].0 !in Keys(terrain);
    assert !Covered(goods, terrain);
  }

  /** Diminishing marginal and increasing complementary utility factors. */
  const DMU: real := 0.95
  const ICU: real := 1.01

  function Pow(b: real, n: nat): real {
    if n == 0 then 1.0 else b * Pow(b, n - 1)
  }

  lemma {:induction false} PowPositive(b: real, n: nat)
    requires b > 0.0
    ensures Pow(b, n) > 0.0
  {
    if n > 0 {
      PowPositive(b, n - 1);
    }
  }

  /** `Hansa.mult`: `DMU ** num_goods * ICU ** num_other_goods`. */
  function Mult(numGoods: nat, numOtherGoods: nat): (r: real)
    ensures r > 0.0
  {
    PowPositive(DMU, numGoods);
    PowPositive(ICU, numOtherGoods);
    Pow(DMU, numGoods) * Pow(ICU, numOtherGoods)
  }

  lemma MultOfNothing()
    ensures Mult(0, 0) == 1.0
  {
  }

  /** One more unit of the same good is worth less ... */
  lemma MultDiminishes(n: nat, k: nat)
    ensures Mult(n + 1, k) < Mult(n, k)
    ensures Mult(n + 1, k) == DMU * Mult(n, k)
  {
    var a, b := Pow(DMU, n), Pow(ICU, k);
    PowPositive(DMU, n);
    PowPositive(ICU, k);
    assert Mult(n + 1, k) == (DMU * a) * b;
    assert (DMU * a) * b == DMU * (a * b);
  }

  /** ... and one more unit of other goods makes it worth more. */
  lemma MultComplements(n: nat, k: nat)
    ensures Mult(n, k + 1) > Mult(n, k)
    ensures Mult(n, k + 1) == ICU * Mult(n, k)
  {
    var a, b := Pow(DMU, n), Pow(ICU, k);
    PowPositive(DMU, n);
    PowPositive(ICU, k);
    assert Mult(n, k + 1) == a * (ICU * b);
    assert a * (ICU * b) == ICU * (a * b);
  }
}
