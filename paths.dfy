/** Helpers over sequences of city names whose positions are looked up in
    a table: restricting the map's insertion order to a set, ordering by
    descending altitude (`sort_by { -z }`), the cost of walking a path
    segment by segment, and the first nearest name (`sort_by(...).first`). */
module Paths {
  import opened Common
  import opened Vectors
  import opened MapPosition

  type Name = string

  type Table = map<Name, Position>

  predicate Distinct(s: seq<Name>) {
    forall i, j :: 0 <= i < j < |s| ==> s[i] != s[j]
  }

  predicate Within(s: seq<Name>, pos: Table) {
    forall i :: 0 <= i < |s| ==> s[i] in pos
  }

  /** The members of `keep`, in the order they occur in `s`. */
  function Filter(s: seq<Name>, keep: set<Name>): (r: seq<Name>)
    ensures forall n :: n in r <==> n in s && n in keep
    ensures Distinct(s) ==> Distinct(r)
    ensures |r| <= |s|
  {
    if s == [] then []
    else if s[0] in keep then [s[0]] + Filter(s[1..], keep)
    else Filter(s[1..], keep)
  }

  /** Non-increasing altitude along the sequence. */
  predicate Descending(s: seq<Name>, pos: Table)
    requires Within(s, pos)
  {
    forall i, j :: 0 <= i < j < |s| ==> pos[s[i]].z >= pos[s[j]].z
  }

  /** Insert `n` in front of the first name not higher than it. */
  function Insert(n: Name, s: seq<Name>, pos: Table): (r: seq<Name>)
    requires n in pos && Within(s, pos) && Descending(s, pos)
    ensures multiset(r) == multiset(s) + multiset{n}
    ensures Within(r, pos) && Descending(r, pos)
  {
    if s == [] then [n]
    else if pos[n].z >= pos[s[0]].z then [n] + s
    else
      var t := Insert(n, s[1..], pos);
      assert multiset(s) == multiset{s[0]} + multiset(s[1..]) by {
        assert s == [s[0]] + s[1..];
      }
      assert forall k :: 0 <= k < |t| ==> pos[t[k]].z <= pos[s[0]].z by {
        forall k | 0 <= k < |t| ensures pos[t[k]].z <= pos[s[0]].z {
          assert t[k] in multiset(s[1..]) + multiset{n};
          if t[k] != n {
            assert t[k] in s[1..];
          }
        }
      }
      DescendingCons(s[0], t, pos);
      [s[0]] + t
  }

  /** A name no lower than every name of a descending sequence may go in front. */
  lemma DescendingCons(x: Name, t: seq<Name>, pos: Table)
    requires x in pos && Within(t, pos) && Descending(t, pos)
    requires forall k :: 0 <= k < |t| ==> pos[t[k]].z <= pos[x].z
    ensures Within([x] + t, pos) && Descending([x] + t, pos)
  {
    var r := [x] + t;
    assert forall k :: 1 <= k < |r| ==> r[k] == t[k - 1];
  }

  /** `sort_by { |name| -1 * pos[name].z }`: an ordering by descending
      altitude that is a permutation of its input. */
  function SortByAltitude(s: seq<Name>, pos: Table): (r: seq<Name>)
    requires Within(s, pos)
    ensures multiset(r) == multiset(s)
    ensures Within(r, pos) && Descending(r, pos)
  {
    if s == [] then []
    else
      assert s == [s[0]] + s[1..];
      Insert(s[0], SortByAltitude(s[1..], pos), pos)
  }

  /** A permutation of a sequence without repeats has no repeats and the
      same members. */
  lemma PermutationKeepsMembers(s: seq<Name>, r: seq<Name>)
    requires multiset(r) == multiset(s) && Distinct(s)
    ensures Distinct(r) && |r| == |s|
    ensures forall n :: n in r <==> n in s
  {
    assert |r| == |multiset(r)| == |multiset(s)| == |s|;
    forall n ensures n in r <==> n in s {
      assert n in r <==> n in multiset(r);
      assert n in s <==> n in multiset(s);
    }
    forall i, j | 0 <= i < j < |r| ensures r[i] != r[j] {
      if r[i] == r[j] {
        DistinctCountsOnce(s, r[i]);
        TwiceCountsTwice(r, i, j);
        assert false;
      }
    }
  }

  lemma DistinctCountsOnce(s: seq<Name>, n: Name)
    requires Distinct(s)
    ensures multiset(s)[n] <= 1
  {
    if s != [] {
      assert s == [s[0]] + s[1..];
      DistinctCountsOnce(s[1..], n);
      if s[0] == n {
        assert n !in s[1..];
      }
    }
  }

  lemma TwiceCountsTwice(s: seq<Name>, i: nat, j: nat)
    requires i < j < |s| && s[i] == s[j]
    ensures multiset(s)[s[i]] >= 2
  {
    assert s == s[..i] + [s[i]] + s[i + 1..j] + [s[j]] + s[j + 1..];
  }

  /** In a descending order of distinct altitudes the altitude strictly
      drops from each name to the next. */
  lemma StrictlyDescending(s: seq<Name>, pos: Table, i: int, j: int)
    requires Within(s, pos) && Descending(s, pos) && Distinct(s)
    requires forall a, b :: a in pos && b in pos && a != b ==> pos[a].z != pos[b].z
    requires 0 <= i < j < |s|
    ensures pos[s[i]].z > pos[s[j]].z
  {
  }

  /** Ruby's `cost += distance(a, b) / mult` over `each_cons(2)`: the sum,
      pair by consecutive pair, of distance divided by `mult`. */
  function SegmentCost(mag: Vec3 -> real, pos: Table, s: seq<Name>, mult: real): real
    requires Within(s, pos) && mult > 0.0
  {
    if |s| < 2 then 0.0
    else SegmentCost(mag, pos, s[..|s| - 1], mult) + Distance(mag, pos[s[|s| - 2]], pos[s[|s| - 1]]) / mult
  }

  /** Peeling the first segment off a path instead of the last. */
  lemma {:induction false} SegmentCostFront(mag: Vec3 -> real, pos: Table, s: seq<Name>, mult: real)
    requires Within(s, pos) && mult > 0.0 && |s| >= 2
    ensures SegmentCost(mag, pos, s, mult) == Distance(mag, pos[s[0]], pos[s[1]]) / mult + SegmentCost(mag, pos, s[1..], mult)
  {
    if |s| > 2 {
      var init := s[..|s| - 1];
      SegmentCostFront(mag, pos, init, mult);
      assert init[1..] == s[1..][..|s[1..]| - 1];
    }
  }

  function Reverse(s: seq<Name>): (r: seq<Name>)
    ensures |r| == |s| && forall i :: 0 <= i < |s| ==> r[i] == s[|s| - 1 - i]
  {
    if s == [] then [] else Reverse(s[1..]) + [s[0]]
  }

  /** A reversed slice holds only members of the whole sequence, the
      last of the slice first. */
  lemma ReversedSliceWithin(s: seq<Name>, i: nat, j: nat)
    requires i <= j <= |s|
    ensures forall n :: n in Reverse(s[i..j]) ==> n in s
    ensures forall k :: 0 <= k < j - i ==> Reverse(s[i..j])[k] == s[j - 1 - k]
  {
    var r := Reverse(s[i..j]);
    forall k | 0 <= k < j - i ensures r[k] == s[j - 1 - k] {
      assert s[i..j][j - i - 1 - k] == s[j - 1 - k];
    }
    forall n | n in r ensures n in s {
      var k :| 0 <= k < |r| && r[k] == n;
      assert s[i..j][j - i - 1 - k] == s[i + (j - i - 1 - k)];
    }
  }

  /** Walking a path backwards covers the same distances. */
  lemma {:induction false} SegmentCostReverse(mag: Vec3 -> real, pos: Table, s: seq<Name>, mult: real)
    requires IsMagnitude(mag)
    requires Within(s, pos) && mult > 0.0
    ensures Within(Reverse(s), pos)
    ensures SegmentCost(mag, pos, Reverse(s), mult) == SegmentCost(mag, pos, s, mult)
  {
    var r := Reverse(s);
    if |s| >= 2 {
      var init := s[..|s| - 1];
      SegmentCostReverse(mag, pos, init, mult);
      assert r == [s[|s| - 1]] + Reverse(init);
      assert r[1..] == Reverse(init);
      SegmentCostFront(mag, pos, r, mult);
      DistanceSymmetric(mag, pos[s[|s| - 1]], pos[s[|s| - 2]]);
    }
  }

  /** The cost scales inversely with the divisor. */
  lemma {:induction false} SegmentCostScales(mag: Vec3 -> real, pos: Table, s: seq<Name>, mult: real)
    requires Within(s, pos) && mult > 0.0
    ensures SegmentCost(mag, pos, s, mult) * mult == SegmentCost(mag, pos, s, 1.0)
  {
    if |s| >= 2 {
      SegmentCostScales(mag, pos, s[..|s| - 1], mult);
      var d := Distance(mag, pos[s[|s| - 2]], pos[s[|s| - 1]]);
      assert (d / mult) * mult == d;
    }
  }

  lemma {:induction false} SegmentCostNonNegative(mag: Vec3 -> real, pos: Table, s: seq<Name>, mult: real)
    requires IsMagnitude(mag)
    requires Within(s, pos) && mult > 0.0
    ensures SegmentCost(mag, pos, s, mult) >= 0.0
  {
    if |s| >= 2 {
      SegmentCostNonNegative(mag, pos, s[..|s| - 1], mult);
      DistanceNonNegative(mag, pos[s[|s| - 2]], pos[s[|s| - 1]]);
    }
  }

  /** The first name of `s` at least as close to `from` as every other
      (`sort_by { distance }.first`, ties going to the earliest). */
  function Nearest(mag: Vec3 -> real, pos: Table, from: Position, s: seq<Name>): (r: Option<Name>)
    requires Within(s, pos)
    ensures r.None? <==> s == []
    ensures r.Some? ==> r.value in s
    ensures r.Some? ==> forall n :: n in s ==> Distance(mag, from, pos[r.value]) <= Distance(mag, from, pos[n])
  {
    if s == [] then None
    else
      var rest := Nearest(mag, pos, from, s[1..]);
      if rest.None? || Distance(mag, from, pos[s[0]]) <= Distance(mag, from, pos[rest.value]) then Some(s[0])
      else rest
  }

  /** `index`: the first position of a member. */
  function IndexOf(s: seq<Name>, n: Name): (i: nat)
    requires n in s
    ensures i < |s| && s[i] == n && n !in s[..i]
  {
    if s[0] == n then 0
    else
      var k := IndexOf(s[1..], n);
      assert s[..k + 1] == [s[0]] + s[1..][..k];
      k + 1
  }

  /** `last`: None for an empty sequence. */
  function Last(s: seq<Name>): (r: Option<Name>)
    ensures r.None? <==> s == []
    ensures r.Some? ==> r.value == s[|s| - 1]
  {
    if s == [] then None else Some(s[|s| - 1])
  }
}
