/** Choosing a city name for a letter: the candidates are a table entry
    minus the names to exclude, with a fallback to a wider pool when none
    is left, and an error when even that is exhausted. `sample` is a
    nondeterministic choice from the candidates. */
module CityNames {
  import opened Common

  type Table = map<char, set<string>>

  /** The five name tables, each keyed by a lower-case letter. */
  datatype Tables = Tables(names: Table, mountain: Table, coastal: Table, delta: Table, island: Table)

  predicate IsLetter(c: char) { 'a' <= c <= 'z' }

  /** The symbol for the i-th city of `generate`: `(97 + i).chr`. */
  function Letter(i: nat): (c: char)
    requires i < 26
    ensures IsLetter(c)
  {
    (97 + i) as char
  }

  predicate KeyedByLetters(tb: Table) {
    forall c :: c in tb <==> IsLetter(c)
  }

  /** Every table has exactly the keys `a`..`z`. */
  predicate Lettered(t: Tables) {
    KeyedByLetters(t.names) && KeyedByLetters(t.mountain) && KeyedByLetters(t.coastal)
      && KeyedByLetters(t.delta) && KeyedByLetters(t.island)
  }

  /** Every name stored under a letter starts with that letter in upper case. */
  predicate InitialsMatch(tb: Table) {
    forall c, n :: c in tb && n in tb[c] ==> IsLetter(c) && |n| > 0 && n[0] as int + 32 == c as int
  }

  /** The names `generate` may pick for two different cities come from
      different letters, so they differ when the initials match. */
  lemma LettersDisjoint(a: Table, b: Table, i: nat, j: nat, n: string)
    requires InitialsMatch(a) && InitialsMatch(b) && i < 26 && j < 26 && i != j
    requires Letter(i) in a && Letter(j) in b && n in a[Letter(i)]
    ensures n !in b[Letter(j)]
  {
    assert Letter(i) as int == 97 + i && Letter(j) as int == 97 + j;
    assert n[0] as int + 32 == 97 + i;
    assert forall m :: m in b[Letter(j)] ==> |m| > 0 && m[0] as int + 32 == 97 + j;
  }

  /** `table.fetch(sym)`. */
  function Fetch(tb: Table, sym: char): (r: Result<set<string>>)
    ensures r.Ok? <==> sym in tb
    ensures r.Ok? ==> r.value == tb[sym]
    ensures r.Err? ==> r.error == KeyError
  {
    if sym in tb then Ok(tb[sym]) else Err(KeyError)
  }

  /** `primary - exclude`, or when that is empty `fallback - exclude`
      (each fallback pool includes the primary entry), or the
      no-candidates error. */
  function Pool(primary: set<string>, fallback: Result<set<string>>, exclude: set<string>): (r: Result<set<string>>)
    ensures r.Ok? ==> r.value != {} && r.value !! exclude
    ensures primary - exclude != {} ==> r == Ok(primary - exclude)
    ensures primary - exclude == {} && fallback.Ok? ==>
      (r.Err? <==> fallback.value - exclude == {}) && (r.Ok? ==> r.value == fallback.value - exclude)
    ensures primary - exclude == {} && fallback.Ok? && r.Err? ==> r.error == NoCandidates
    ensures primary - exclude == {} && fallback.Err? ==> r == fallback
  {
    if primary - exclude != {} then Ok(primary - exclude)
    else match fallback
      case Err(e) => Err(e)
      case Ok(wider) => if wider - exclude != {} then Ok(wider - exclude) else Err(NoCandidates)
  }

  /** `MOUNTAIN_NAMES.fetch(sym) + NAMES.fetch(sym)`, and the like. */
  function Union(a: Result<set<string>>, b: Result<set<string>>): (r: Result<set<string>>)
    ensures r.Ok? <==> a.Ok? && b.Ok?
    ensures r.Ok? ==> r.value == a.value + b.value
    ensures a.Err? ==> r == a
    ensures a.Ok? && b.Err? ==> r == b
  {
    if a.Err? then a else if b.Err? then b else Ok(a.value + b.value)
  }

  /** Candidates of `City.name`. */
  function NameCandidates(t: Tables, sym: char, exclude: set<string>): (r: Result<set<string>>)
    ensures r.Ok? ==> r.value != {} && r.value !! exclude
    ensures sym in t.names && t.names[sym] - exclude != {} ==> r == Ok(t.names[sym] - exclude)
    ensures sym in t.names && sym in t.mountain && t.names[sym] - exclude == {} ==>
      (r.Err? <==> (t.mountain[sym] + t.names[sym]) - exclude == {}) &&
      (r.Ok? ==> r.value == (t.mountain[sym] + t.names[sym]) - exclude)
    ensures r.Err? ==> r.error == KeyError || r.error == NoCandidates
    ensures r.Err? && r.error == KeyError ==> sym !in t.names || sym !in t.mountain
  {
    match Fetch(t.names, sym)
    case Err(e) => Err(e)
    case Ok(primary) => Pool(primary, Union(Fetch(t.mountain, sym), Fetch(t.names, sym)), exclude)
  }

  /** Candidates of `City.coastal_name`: island names widen the pool. */
  function CoastalCandidates(t: Tables, sym: char, exclude: set<string>): (r: Result<set<string>>)
    ensures r.Ok? ==> r.value != {} && r.value !! exclude
    ensures sym in t.coastal && t.coastal[sym] - exclude != {} ==> r == Ok(t.coastal[sym] - exclude)
    ensures sym in t.coastal && sym in t.island && t.coastal[sym] - exclude == {} ==>
      (r.Err? <==> (t.island[sym] + t.coastal[sym]) - exclude == {}) &&
      (r.Ok? ==> r.value == (t.island[sym] + t.coastal[sym]) - exclude)
    ensures r.Err? ==> r.error == KeyError || r.error == NoCandidates
    ensures r.Err? && r.error == KeyError ==> sym !in t.coastal || sym !in t.island
  {
    match Fetch(t.coastal, sym)
    case Err(e) => Err(e)
    case Ok(primary) => Pool(primary, Union(Fetch(t.island, sym), Fetch(t.coastal, sym)), exclude)
  }

  /** Candidates of `City.delta_name`: inland and coastal names widen the
      pool. */
  function DeltaCandidates(t: Tables, sym: char, exclude: set<string>): (r: Result<set<string>>)
    ensures r.Ok? ==> r.value != {} && r.value !! exclude
    ensures sym in t.delta && t.delta[sym] - exclude != {} ==> r == Ok(t.delta[sym] - exclude)
    ensures sym in t.delta && sym in t.names && sym in t.coastal && t.delta[sym] - exclude == {} ==>
      (r.Err? <==> (t.names[sym] + t.coastal[sym]) - exclude == {}) &&
      (r.Ok? ==> r.value == (t.names[sym] + t.coastal[sym]) - exclude)
    ensures r.Err? ==> r.error == KeyError || r.error == NoCandidates
    ensures r.Err? && r.error == KeyError ==> sym !in t.delta || sym !in t.names || sym !in t.coastal
  {
    match Fetch(t.delta, sym)
    case Err(e) => Err(e)
    case Ok(primary) => Pool(primary, Union(Fetch(t.names, sym), Fetch(t.coastal, sym)), exclude)
  }

  /** Candidates of `City.mountain_name`: mountain names while any are
      left, otherwise whatever `City.name` would choose from. */
  function MountainCandidates(t: Tables, sym: char, exclude: set<string>): (r: Result<set<string>>)
    ensures r.Ok? ==> r.value != {} && r.value !! exclude
    ensures sym in t.mountain && t.mountain[sym] - exclude != {} ==> r == Ok(t.mountain[sym] - exclude)
    ensures sym in t.mountain && t.mountain[sym] - exclude == {} ==> r == NameCandidates(t, sym, exclude)
    ensures sym !in t.mountain ==> r == Err(KeyError)
  {
    match Fetch(t.mountain, sym)
    case Err(e) => Err(e)
    case Ok(m) => if m - exclude != {} then Ok(m - exclude) else NameCandidates(t, sym, exclude)
  }

  /** Candidates of `City.island_name`: island names while any are left,
      otherwise whatever `City.coastal_name` would choose from. */
  function IslandCandidates(t: Tables, sym: char, exclude: set<string>): (r: Result<set<string>>)
    ensures r.Ok? ==> r.value != {} && r.value !! exclude
    ensures sym in t.island && t.island[sym] - exclude != {} ==> r == Ok(t.island[sym] - exclude)
    ensures sym in t.island && t.island[sym] - exclude == {} ==> r == CoastalCandidates(t, sym, exclude)
    ensures sym !in t.island ==> r == Err(KeyError)
  {
    match Fetch(t.island, sym)
    case Err(e) => Err(e)
    case Ok(m) => if m - exclude != {} then Ok(m - exclude) else CoastalCandidates(t, sym, exclude)
  }

  /** `sample`: any member of a nonempty candidate pool. */
  method Sample(pool: Result<set<string>>) returns (r: Result<string>)
    requires pool.Ok? ==> pool.value != {}
    ensures r.Ok? <==> pool.Ok?
    ensures r.Err? ==> r.error == pool.error
    ensures r.Ok? ==> r.value in pool.value
  {
    if pool.Err? {
      return Err(pool.error);
    }
    var name :| name in pool.value;
    return Ok(name);
  }

  /** Which selector to run. */
  datatype Locale = Inland | Mountain | CoastalLocale | DeltaLocale | IslandLocale

  function Candidates(t: Tables, locale: Locale, sym: char, exclude: set<string>): (r: Result<set<string>>)
    ensures r.Ok? ==> r.value != {} && r.value !! exclude
  {
    match locale
    case Inland => NameCandidates(t, sym, exclude)
    case Mountain => MountainCandidates(t, sym, exclude)
    case CoastalLocale => CoastalCandidates(t, sym, exclude)
    case DeltaLocale => DeltaCandidates(t, sym, exclude)
    case IslandLocale => IslandCandidates(t, sym, exclude)
  }

  /** `City.name`, `coastal_name`, `delta_name`, `mountain_name` and
      `island_name`: a name from the candidates, never an excluded one. */
  method ChooseName(t: Tables, locale: Locale, sym: char, exclude: set<string>) returns (r: Result<string>)
    ensures r.Ok? <==> Candidates(t, locale, sym, exclude).Ok?
    ensures r.Ok? ==> r.value in Candidates(t, locale, sym, exclude).value && r.value !in exclude
    ensures r.Err? ==> r.error == Candidates(t, locale, sym, exclude).error
  {
    r := Sample(Candidates(t, locale, sym, exclude));
  }

  /** With the full tables, the only error a selector can raise for a
      letter is running out of candidates. */
  lemma LetteredNeverKeyError(t: Tables, locale: Locale, sym: char, exclude: set<string>)
    requires Lettered(t) && IsLetter(sym)
    ensures Candidates(t, locale, sym, exclude).Err? ==> Candidates(t, locale, sym, exclude).error == NoCandidates
  {
  }

  /** With nothing excluded, a nonempty primary entry is the whole pool. */
  lemma NothingExcluded(t: Tables, sym: char)
    requires sym in t.names && t.names[sym] != {}
    ensures NameCandidates(t, sym, {}) == Ok(t.names[sym])
  {
    assert t.names[sym] - {} == t.names[sym];
  }
}
