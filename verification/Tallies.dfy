/**
 * Count maps. A `Counts` map goes from instance type to a count; a `Tally`
 * goes from availability zone to the `Counts` of that zone. A key that is
 * absent reads as zero. `DictSum` and `DictDiff` are the key-wise
 * combinators `dict_sum` and `dict_diff`; maps are values here, so neither
 * can change its arguments (`reservationist.py` copies `d1` before updating).
 */
module Tallies {

  type Counts = map<string, int>
  type Tally = map<string, Counts>

  /** `d.get(k)` with a missing key read as 0. */
  function Get(d: Counts, k: string): int
  {
    if k in d then d[k] else 0
  }

  /** The zone's counts, or `{}` when the zone is absent (the `except KeyError` fallback). */
  function ZoneOf(t: Tally, az: string): Counts
  {
    if az in t then t[az] else map[]
  }

  /** The count of type `ty` in zone `az`, 0 when either key is absent. */
  function Lookup(t: Tally, az: string, ty: string): int
  {
    Get(ZoneOf(t, az), ty)
  }

  /** Every instance type that appears under some zone. */
  ghost function InnerKeys(t: Tally): set<string>
  {
    set az, ty | az in t && ty in t[az] :: ty
  }

  /** Reference definition of the key-wise sum: union of the keys, missing side counts 0. */
  function Sum(d1: Counts, d2: Counts): Counts
  {
    map k | k in d1.Keys + d2.Keys :: Get(d1, k) + Get(d2, k)
  }

  /** Reference definition of the key-wise difference: union of the keys, missing side counts 0. */
  function Diff(d1: Counts, d2: Counts): Counts
  {
    map k | k in d1.Keys + d2.Keys :: Get(d1, k) - Get(d2, k)
  }

  /**
   * `dict_sum`: start from a copy of `d1` and fold in each entry of `d2`.
   * A stored 0 is falsy in Python, so it takes the `else` branch;
   * that branch stores `v`, which is still `0 + v`.
   */
  method DictSum(d1: Counts, d2: Counts) returns (result: Counts)
    ensures result.Keys == d1.Keys + d2.Keys
    ensures forall k :: k in result ==> result[k] == Get(d1, k) + Get(d2, k)
    ensures result == Sum(d1, d2)
  {
    result := d1;
    var pending := d2.Keys;
    while pending != {}
      invariant pending <= d2.Keys
      invariant result.Keys == d1.Keys + (d2.Keys - pending)
      invariant forall k :: k in result ==> result[k] == Get(d1, k) + (if k in pending then 0 else Get(d2, k))
      decreases pending
    {
      var k :| k in pending;
      if k in result && result[k] != 0 {
        result := result[k := result[k] + d2[k]];
      } else {
        result := result[k := d2[k]];
      }
      pending := pending - {k};
    }
  }

  /**
   * `dict_diff`: start from a copy of `d1` and subtract each entry of `d2`;
   * a key found only in `d2` gets the negated count.
   */
  method DictDiff(d1: Counts, d2: Counts) returns (result: Counts)
    ensures result.Keys == d1.Keys + d2.Keys
    ensures forall k :: k in result ==> result[k] == Get(d1, k) - Get(d2, k)
    ensures result == Diff(d1, d2)
  {
    result := d1;
    var pending := d2.Keys;
    while pending != {}
      invariant pending <= d2.Keys
      invariant result.Keys == d1.Keys + (d2.Keys - pending)
      invariant forall k :: k in result ==> result[k] == Get(d1, k) - (if k in pending then 0 else Get(d2, k))
      decreases pending
    {
      var k :| k in pending;
      if k in result && result[k] != 0 {
        result := result[k := result[k] - d2[k]];
      } else {
        result := result[k := -d2[k]];
      }
      pending := pending - {k};
    }
  }

  /** The example in the documentation of `dict_sum`. */
  lemma SumExample()
    ensures Sum(map["a" := 1, "b" := 2], map["a" := 3, "c" := 5]) == map["a" := 4, "b" := 2, "c" := 5]
  {
    var s := Sum(map["a" := 1, "b" := 2], map["a" := 3, "c" := 5]);
    assert s.Keys == {"a", "b", "c"};
  }

  /** The example in the documentation of `dict_diff`. */
  lemma DiffExample()
    ensures Diff(map["a" := 1, "b" := 2], map["a" := 3, "c" := 5]) == map["a" := -2, "b" := 2, "c" := -5]
  {
    var d := Diff(map["a" := 1, "b" := 2], map["a" := 3, "c" := 5]);
    assert d.Keys == {"a", "b", "c"};
  }

  /** Reading a sum or a difference at any key, present or not. */
  lemma GetSumDiff(d1: Counts, d2: Counts, k: string)
    ensures Get(Sum(d1, d2), k) == Get(d1, k) + Get(d2, k)
    ensures Get(Diff(d1, d2), k) == Get(d1, k) - Get(d2, k)
  {
  }

  lemma SumCommutative(d1: Counts, d2: Counts)
    ensures Sum(d1, d2) == Sum(d2, d1)
  {
  }

  lemma SumAssociative(d1: Counts, d2: Counts, d3: Counts)
    ensures Sum(Sum(d1, d2), d3) == Sum(d1, Sum(d2, d3))
  {
    var left, right := Sum(Sum(d1, d2), d3), Sum(d1, Sum(d2, d3));
    assert left.Keys == right.Keys;
    forall k | k in left
      ensures left[k] == right[k]
    {
      GetSumDiff(d1, d2, k);
      GetSumDiff(d2, d3, k);
    }
  }

  /** The empty map is a neutral element; the totals fold relies on the left one. */
  lemma SumIdentity(d: Counts)
    ensures Sum(map[], d) == d && Sum(d, map[]) == d
  {
  }

  /** `diff(x, x)` keeps every key of `x`, each with count 0. */
  lemma DiffSelf(d: Counts)
    ensures Diff(d, d).Keys == d.Keys
    ensures forall k :: k in Diff(d, d) ==> Diff(d, d)[k] == 0
  {
  }

  /** Swapping the operands negates every count and keeps the keys. */
  lemma DiffAntisymmetric(d1: Counts, d2: Counts)
    ensures Diff(d2, d1).Keys == Diff(d1, d2).Keys
    ensures forall k :: k in Diff(d1, d2) ==> Diff(d2, d1)[k] == -Diff(d1, d2)[k]
  {
  }

  /** Replacing a zone's counts by a map that keeps its keys adds exactly that map's keys to the types. */
  lemma InnerKeysUpdate(t: Tally, az: string, m: Counts)
    requires az in t ==> t[az].Keys <= m.Keys
    ensures InnerKeys(t[az := m]) == InnerKeys(t) + m.Keys
  {
    var u := t[az := m];
    forall ty | ty in InnerKeys(u)
      ensures ty in InnerKeys(t) + m.Keys
    {
      var z :| z in u && ty in u[z];
      if z != az {
        assert z in t && ty in t[z];
      }
    }
    forall ty | ty in InnerKeys(t) + m.Keys
      ensures ty in InnerKeys(u)
    {
      if ty in m.Keys {
        assert az in u && ty in u[az];
      } else {
        var z :| z in t && ty in t[z];
        assert z in u && ty in u[z];
      }
    }
  }
}
