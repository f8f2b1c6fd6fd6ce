/**
 * The listings page's query pipeline (`filteredProperties`): the listings are
 * copied, narrowed by up to six filter stages in a fixed order, each enabled by
 * its own guard, and then optionally sorted in place, stably, by one of five keys.
 *
 * The specification is the function `Query`: a single-pass selection by
 * `Matches` followed by a stable insertion sort by the chosen key. The method
 * `FilteredProperties` follows the source stage by stage and sorts an array in
 * place, and is proved to compute `Query`.
 */
module ListingQuery {
  import opened Wrappers
  import opened Text
  import opened PropertyTypes

  // ---------------------------------------------------------------- filtering

  /** The six filter stages, in the order the page applies them. */
  datatype Stage = LocationStage | TypeStage | ViewsStage | ThemesStage | GuestsStage | PriceStage

  const Pipeline: seq<Stage> := [LocationStage, TypeStage, ViewsStage, ThemesStage, GuestsStage, PriceStage]

  /**
   * The guard that enables a stage: a non-empty location text, a non-empty
   * list, a non-zero guest count, or any price range.
   */
  predicate Active(st: Stage, f: FilterOptions) {
    match st
    case LocationStage => f.location.Some? && f.location.value != ""
    case TypeStage => f.propertyType.Some? && |f.propertyType.value| > 0
    case ViewsStage => f.views.Some? && |f.views.value| > 0
    case ThemesStage => f.themes.Some? && |f.themes.value| > 0
    case GuestsStage => f.maxGuests.Some? && f.maxGuests.value != 0
    case PriceStage => f.priceRange.Some?
  }

  /** The lower-cased query occurs in the lower-cased location, state or name. */
  predicate LocationHit(p: Property, query: string) {
    var q := Lower(query);
    Contains(Lower(p.location), q) || Contains(Lower(p.state), q) || Contains(Lower(p.name), q)
  }

  /** Some requested tag is among the listing's tags (`wanted.some(t => tags.includes(t))`). */
  predicate SharesTag(wanted: seq<string>, tags: seq<string>) {
    exists i :: 0 <= i < |wanted| && wanted[i] in tags
  }

  /** The callback an enabled stage passes to `filter`. */
  predicate StageTest(st: Stage, f: FilterOptions, p: Property)
    requires Active(st, f)
  {
    match st
    case LocationStage => LocationHit(p, f.location.value)
    case TypeStage => p.propertyType in f.propertyType.value
    case ViewsStage => SharesTag(f.views.value, p.views)
    case ThemesStage => SharesTag(f.themes.value, p.themes)
    case GuestsStage => p.maxGuests >= f.maxGuests.value
    case PriceStage => p.price >= f.priceRange.value.0 && p.price <= f.priceRange.value.1
  }

  /** A listing gets past a stage when the stage is disabled or its test holds. */
  predicate StageHolds(st: Stage, f: FilterOptions, p: Property) {
    Active(st, f) ==> StageTest(st, f, p)
  }

  /** One stage: `filtered.filter(test)`. */
  function Keep(s: seq<Property>, st: Stage, f: FilterOptions): seq<Property>
    requires Active(st, f)
  {
    if s == [] then []
    else (if StageTest(st, f, s[0]) then [s[0]] else []) + Keep(s[1..], st, f)
  }

  predicate PassesAll(sts: seq<Stage>, f: FilterOptions, p: Property) {
    forall i :: 0 <= i < |sts| ==> StageHolds(sts[i], f, p)
  }

  /** The listings that get past every stage of `sts`, in their input order. */
  function KeepAll(s: seq<Property>, sts: seq<Stage>, f: FilterOptions): seq<Property> {
    if s == [] then []
    else (if PassesAll(sts, f, s[0]) then [s[0]] else []) + KeepAll(s[1..], sts, f)
  }

  /** A listing survives the stages `sts` iff it is in the input and gets past each of them. */
  lemma {:induction false} KeepAllMembers(s: seq<Property>, sts: seq<Stage>, f: FilterOptions, p: Property)
    ensures p in KeepAll(s, sts, f) <==> p in s && PassesAll(sts, f, p)
  {
    if s != [] {
      KeepAllMembers(s[1..], sts, f, p);
      assert s == [s[0]] + s[1..];
    }
  }

  /** A listing matches a filter when it gets past all six stages. */
  predicate Matches(f: FilterOptions, p: Property) {
    PassesAll(Pipeline, f, p)
  }

  /** The filtered listings, before any sorting. */
  function Select(s: seq<Property>, f: FilterOptions): seq<Property> {
    KeepAll(s, Pipeline, f)
  }

  lemma PassesAllSnoc(sts: seq<Stage>, st: Stage, f: FilterOptions, p: Property)
    ensures PassesAll(sts + [st], f, p) <==> PassesAll(sts, f, p) && StageHolds(st, f, p)
  {
    if PassesAll(sts, f, p) && StageHolds(st, f, p) {
      forall i | 0 <= i < |sts + [st]| ensures StageHolds((sts + [st])[i], f, p) {
        if i < |sts| { assert (sts + [st])[i] == sts[i]; }
      }
    }
    if PassesAll(sts + [st], f, p) {
      forall i | 0 <= i < |sts| ensures StageHolds(sts[i], f, p) {
        assert (sts + [st])[i] == sts[i];
      }
      assert (sts + [st])[|sts|] == st;
    }
  }

  /** Running one more stage on the survivors of the earlier ones: the step the page takes. */
  lemma {:induction false} Advance(s: seq<Property>, sts: seq<Stage>, st: Stage, f: FilterOptions)
    ensures KeepAll(s, sts + [st], f) ==
      if Active(st, f) then Keep(KeepAll(s, sts, f), st, f) else KeepAll(s, sts, f)
  {
    if s != [] {
      Advance(s[1..], sts, st, f);
      PassesAllSnoc(sts, st, f, s[0]);
      if Active(st, f) {
        var rest := KeepAll(s[1..], sts, f);
        if PassesAll(sts, f, s[0]) {
          assert ([s[0]] + rest)[1..] == rest;
        } else {
          assert [] + rest == rest;
        }
      }
    }
  }

  /** The listings left after the first `n` stages, each run only when its guard holds, as the page does. */
  function Through(s: seq<Property>, f: FilterOptions, n: nat): seq<Property>
    requires n <= |Pipeline|
  {
    if n == 0 then s
    else if Active(Pipeline[n - 1], f) then Keep(Through(s, f, n - 1), Pipeline[n - 1], f)
    else Through(s, f, n - 1)
  }

  /** Running the stages one after another selects the same listings as one pass over all of them. */
  lemma {:induction false} ThroughIsKeepAll(s: seq<Property>, f: FilterOptions, n: nat)
    requires n <= |Pipeline|
    ensures Through(s, f, n) == KeepAll(s, Pipeline[..n], f)
  {
    if n == 0 {
      KeepAllEverything(s, Pipeline[..0], f);
    } else {
      ThroughIsKeepAll(s, f, n - 1);
      assert Pipeline[..n - 1] + [Pipeline[n - 1]] == Pipeline[..n];
      Advance(s, Pipeline[..n - 1], Pipeline[n - 1], f);
    }
  }

  /** With no stages, or only stages that everything passes, nothing is dropped. */
  lemma {:induction false} KeepAllEverything(s: seq<Property>, sts: seq<Stage>, f: FilterOptions)
    requires forall i :: 0 <= i < |sts| ==> !Active(sts[i], f)
    ensures KeepAll(s, sts, f) == s
  {
    if s != [] {
      KeepAllEverything(s[1..], sts, f);
      assert PassesAll(sts, f, s[0]);
      assert [s[0]] + s[1..] == s;
    }
  }

  // ---------------------------------------------------------------- sorting

  /** The field a sort key compares. */
  function SortField(k: SortKey, p: Property): int {
    match k
    case Rating => p.rating
    case PriceLow | PriceHigh => p.price
    case Popular => p.reviewCount
    case Newest => p.createdAt
  }

  /** The comparator the page passes to `sort`: negative keeps `a` before `b`. */
  function Compare(k: SortKey, a: Property, b: Property): int {
    match k
    case Rating => b.rating - a.rating
    case PriceLow => a.price - b.price
    case PriceHigh => b.price - a.price
    case Popular => b.reviewCount - a.reviewCount
    case Newest => b.createdAt - a.createdAt
  }

  /** An ascending integer key equivalent to the comparator. */
  function Rank(k: SortKey, p: Property): int {
    if k == PriceLow then SortField(k, p) else -SortField(k, p)
  }

  lemma CompareIsRankDifference(k: SortKey, a: Property, b: Property)
    ensures Compare(k, a, b) == Rank(k, a) - Rank(k, b)
  {
  }

  /** `a` may stand before `b` in a list sorted by `k`. */
  predicate InOrder(k: SortKey, a: Property, b: Property) {
    match k
    case PriceLow => a.price <= b.price
    case PriceHigh => a.price >= b.price
    case Rating => a.rating >= b.rating
    case Popular => a.reviewCount >= b.reviewCount
    case Newest => a.createdAt >= b.createdAt
  }

  /**
   * Stable insertion of `x` after the sorted `s`: `x` moves left past every
   * element that the comparator puts after it, and no further.
   */
  function Insert(s: seq<Property>, x: Property, k: SortKey): seq<Property>
    decreases |s|
  {
    if s == [] then [x]
    else if Compare(k, s[|s| - 1], x) > 0 then Insert(s[..|s| - 1], x, k) + [s[|s| - 1]]
    else s + [x]
  }

  /** The stable sort of `s` by `k`: the result `Array.prototype.sort` must give. */
  function SortBy(s: seq<Property>, k: SortKey): seq<Property>
    decreases |s|
  {
    if s == [] then [] else Insert(SortBy(s[..|s| - 1], k), s[|s| - 1], k)
  }

  /** The sort step: none without a key. */
  function Arrange(s: seq<Property>, sortBy: Option<SortKey>): seq<Property> {
    match sortBy
    case None => s
    case Some(k) => SortBy(s, k)
  }

  /** What the page shows for `properties` under `f`. */
  function Query(properties: seq<Property>, f: FilterOptions): seq<Property> {
    Arrange(Select(properties, f), f.sortBy)
  }

  predicate RankSorted(s: seq<Property>, k: SortKey) {
    forall i, j :: 0 <= i < j < |s| ==> Rank(k, s[i]) <= Rank(k, s[j])
  }

  lemma {:induction false} InsertPermutes(s: seq<Property>, x: Property, k: SortKey)
    ensures multiset(Insert(s, x, k)) == multiset(s) + multiset{x}
    decreases |s|
  {
    if s != [] {
      var init, last := s[..|s| - 1], s[|s| - 1];
      assert s == init + [last];
      if Compare(k, last, x) > 0 {
        InsertPermutes(init, x, k);
      }
    }
  }

  /** Sorting rearranges and neither adds nor drops a listing. */
  lemma {:induction false} SortByPermutes(s: seq<Property>, k: SortKey)
    ensures multiset(SortBy(s, k)) == multiset(s)
    decreases |s|
  {
    if s != [] {
      var init, last := s[..|s| - 1], s[|s| - 1];
      assert s == init + [last];
      SortByPermutes(init, k);
      InsertPermutes(SortBy(init, k), last, k);
    }
  }

  predicate AllAtMost(s: seq<Property>, k: SortKey, bound: int) {
    forall i :: 0 <= i < |s| ==> Rank(k, s[i]) <= bound
  }

  lemma {:induction false} InsertBounded(s: seq<Property>, x: Property, k: SortKey, bound: int)
    requires AllAtMost(s, k, bound) && Rank(k, x) <= bound
    ensures AllAtMost(Insert(s, x, k), k, bound)
    decreases |s|
  {
    if s != [] && Compare(k, s[|s| - 1], x) > 0 {
      InsertBounded(s[..|s| - 1], x, k, bound);
    }
  }

  lemma SortedSnoc(s: seq<Property>, y: Property, k: SortKey)
    requires RankSorted(s, k) && AllAtMost(s, k, Rank(k, y))
    ensures RankSorted(s + [y], k)
  {
    var r := s + [y];
    forall i, j | 0 <= i < j < |r| ensures Rank(k, r[i]) <= Rank(k, r[j]) {
      assert r[i] == s[i];
      if j < |s| { assert r[j] == s[j]; }
    }
  }

  lemma {:induction false} InsertSorted(s: seq<Property>, x: Property, k: SortKey)
    requires RankSorted(s, k)
    ensures RankSorted(Insert(s, x, k), k)
    decreases |s|
  {
    if s != [] {
      var init, last := s[..|s| - 1], s[|s| - 1];
      assert AllAtMost(init, k, Rank(k, last)) && RankSorted(init, k) by {
        assert forall i :: 0 <= i < |init| ==> init[i] == s[i];
      }
      if Compare(k, last, x) > 0 {
        InsertSorted(init, x, k);
        InsertBounded(init, x, k, Rank(k, last));
        SortedSnoc(Insert(init, x, k), last, k);
      } else {
        assert AllAtMost(s, k, Rank(k, x));
        SortedSnoc(s, x, k);
      }
    }
  }

  lemma {:induction false} SortBySorted(s: seq<Property>, k: SortKey)
    ensures RankSorted(SortBy(s, k), k)
    decreases |s|
  {
    if s != [] {
      SortBySorted(s[..|s| - 1], k);
      InsertSorted(SortBy(s[..|s| - 1], k), s[|s| - 1], k);
    }
  }

  /** Adjacent listings of a sorted result are in the order the key asks for. */
  lemma SortByInOrder(s: seq<Property>, k: SortKey)
    ensures var r := SortBy(s, k); |r| == |s| && forall i :: 0 <= i < |r| - 1 ==> InOrder(k, r[i], r[i + 1])
  {
    var r := SortBy(s, k);
    SortBySorted(s, k);
    SortByPermutes(s, k);
    assert |r| == |multiset(r)| == |multiset(s)| == |s|;
    forall i | 0 <= i < |r| - 1 ensures InOrder(k, r[i], r[i + 1]) {
      assert Rank(k, r[i]) <= Rank(k, r[i + 1]);
    }
  }

  /** The listings of `s` whose sort field equals `v`, in their order in `s`. */
  function SameKey(s: seq<Property>, k: SortKey, v: int): seq<Property> {
    if s == [] then [] else (if SortField(k, s[0]) == v then [s[0]] else []) + SameKey(s[1..], k, v)
  }

  lemma {:induction false} SameKeyAppend(a: seq<Property>, b: seq<Property>, k: SortKey, v: int)
    ensures SameKey(a + b, k, v) == SameKey(a, k, v) + SameKey(b, k, v)
  {
    if a == [] {
      assert a + b == b;
    } else {
      assert (a + b)[1..] == a[1..] + b;
      SameKeyAppend(a[1..], b, k, v);
    }
  }

  lemma {:induction false} InsertStable(s: seq<Property>, x: Property, k: SortKey, v: int)
    ensures SameKey(Insert(s, x, k), k, v) == SameKey(s, k, v) + (if SortField(k, x) == v then [x] else [])
    decreases |s|
  {
    if s == [] {
    } else {
      var init, last := s[..|s| - 1], s[|s| - 1];
      assert s == init + [last];
      SameKeyAppend(init, [last], k, v);
      if Compare(k, last, x) > 0 {
        InsertStable(init, x, k, v);
        SameKeyAppend(Insert(init, x, k), [last], k, v);
      } else {
        SameKeyAppend(s, [x], k, v);
      }
    }
  }

  /** Stability: listings with equal keys keep their relative order. */
  lemma {:induction false} SortByStable(s: seq<Property>, k: SortKey, v: int)
    ensures SameKey(SortBy(s, k), k, v) == SameKey(s, k, v)
    decreases |s|
  {
    if s != [] {
      var init, last := s[..|s| - 1], s[|s| - 1];
      assert s == init + [last];
      SortByStable(init, k, v);
      InsertStable(SortBy(init, k), last, k, v);
      SameKeyAppend(init, [last], k, v);
    }
  }

  /**
   * `x` lands at position `j` of the sorted `s` when the comparator puts every
   * element from `j` on after `x` and the element before `j`, if any, not after it.
   */
  lemma {:induction false} InsertLands(s: seq<Property>, x: Property, k: SortKey, j: int)
    requires 0 <= j <= |s|
    requires forall m :: j <= m < |s| ==> Compare(k, s[m], x) > 0
    requires j == 0 || Compare(k, s[j - 1], x) <= 0
    ensures Insert(s, x, k) == s[..j] + [x] + s[j..]
    decreases |s|
  {
    if j == |s| {
      assert s[..j] == s && s[j..] == [];
    } else {
      var init, last := s[..|s| - 1], s[|s| - 1];
      assert Compare(k, last, x) > 0;
      assert forall m :: 0 <= m < |init| ==> init[m] == s[m];
      InsertLands(init, x, k, j);
      SplitLast(s, j);
      AppendAfter(init[..j], x, init[j..], last);
    }
  }

  /** Cutting the last element off `s` before a split at `j < |s|` changes only the right half. */
  lemma SplitLast<T>(s: seq<T>, j: int)
    requires 0 <= j < |s|
    ensures s[..|s| - 1][..j] == s[..j]
    ensures s[..|s| - 1][j..] + [s[|s| - 1]] == s[j..]
  {
  }

  /** Two sequences that agree from `i` on agree at `i` and from `i + 1` on. */
  lemma TailStep<T>(u: seq<T>, v: seq<T>, i: int)
    requires 0 <= i < |u| == |v| && u[i..] == v[i..]
    ensures u[i] == v[i] && u[i + 1..] == v[i + 1..]
  {
    assert u[i] == u[i..][0] && v[i] == v[i..][0];
    assert u[i + 1..] == u[i..][1..] && v[i + 1..] == v[i..][1..];
  }

  /** The prefix of length `i + 1` ends with `s[i]` after the prefix of length `i`. */
  lemma PrefixStep<T>(s: seq<T>, i: int)
    requires 0 <= i < |s|
    ensures s[..i + 1][..i] == s[..i] && s[..i + 1][i] == s[i]
  {
  }

  lemma AppendAfter<T>(a: seq<T>, x: T, b: seq<T>, y: T)
    ensures a + [x] + b + [y] == a + [x] + (b + [y])
  {
  }

  /**
   * The array while insertion sort opens a gap at `j` for the element taken
   * from `s[i]`: `s[j..i]` has moved one place right and `s[j]` is still in place.
   */
  function Shifted<T>(s: seq<T>, j: int, i: int): (r: seq<T>)
    requires 0 <= j <= i < |s|
    ensures |r| == |s|
  {
    s[..j + 1] + s[j..i] + s[i + 1..]
  }

  /** Shifting `s[j - 1]` into the gap moves the gap one place left. */
  lemma ShiftStep<T>(s: seq<T>, j: int, i: int)
    requires 0 < j <= i < |s|
    ensures Shifted(s, j, i)[j := s[j - 1]] == Shifted(s, j - 1, i)
  {
    var u := Shifted(s, j, i)[j := s[j - 1]];
    var v := Shifted(s, j - 1, i);
    forall m | 0 <= m < |s|
      ensures u[m] == v[m]
    {
      if m < j {
        assert u[m] == s[m] && v[m] == s[m];
      } else if m <= i {
        assert u[m] == s[m - 1] && v[m] == s[m - 1];
      } else {
        assert u[m] == s[m] && v[m] == s[m];
      }
    }
  }

  /** Writing `x` into the gap yields `s[..j] + [x] + s[j..i]` followed by the untouched rest. */
  lemma FillGap<T>(s: seq<T>, j: int, i: int, x: T)
    requires 0 <= j <= i < |s|
    ensures Shifted(s, j, i)[j := x][..i + 1] == s[..j] + [x] + s[j..i]
    ensures Shifted(s, j, i)[j := x][i + 1..] == s[i + 1..]
  {
    var u := Shifted(s, j, i)[j := x];
    assert u[..i + 1] == u[..j] + [u[j]] + u[j + 1..i + 1];
    assert u[..j] == s[..j];
    assert u[j + 1..i + 1] == s[j..i];
    assert u[i + 1..] == s[i + 1..];
  }

  /**
   * The inner loop of insertion sort: shifts one place right each element at
   * the end of the sorted prefix `a[..i]` that the comparator puts after `x`,
   * leaving a gap at `j`, the place `x` belongs.
   */
  method OpenGap(a: array<Property>, i: int, x: Property, k: SortKey) returns (j: int)
    requires 0 <= i < a.Length
    modifies a
    ensures 0 <= j <= i
    ensures a[..] == Shifted(old(a[..]), j, i)
    ensures forall m :: j < m <= i ==> Compare(k, a[m], x) > 0
    ensures j == 0 || Compare(k, old(a[j - 1]), x) <= 0
  {
    ghost var s := a[..];
    j := i;
    assert s == Shifted(s, i, i);
    while j > 0 && Compare(k, a[j - 1], x) > 0
      invariant 0 <= j <= i
      invariant a[..] == Shifted(s, j, i)
      invariant forall m :: j < m <= i ==> Compare(k, a[m], x) > 0
    {
      ShiftOne(a, s, j, i, x, k);
      j := j - 1;
    }
  }

  /** One step of the inner loop: `a[j - 1]`, which goes after `x`, moves into the gap at `j`. */
  method ShiftOne(a: array<Property>, ghost s: seq<Property>, j: int, i: int, x: Property, k: SortKey)
    requires 0 < j <= i < a.Length == |s|
    requires a[..] == Shifted(s, j, i)
    requires forall m :: j < m <= i ==> Compare(k, a[m], x) > 0
    requires Compare(k, a[j - 1], x) > 0
    modifies a
    ensures a[..] == Shifted(s, j - 1, i)
    ensures forall m :: j - 1 < m <= i ==> Compare(k, a[m], x) > 0
  {
    assert a[j - 1] == s[j - 1];
    ShiftStep(s, j, i);
    a[j] := a[j - 1];
  }

  /** One pass of insertion sort: moves `a[i]` left into the sorted prefix `a[..i]`. */
  method InsertLast(a: array<Property>, i: int, k: SortKey)
    requires 0 <= i < a.Length
    modifies a
    ensures a[..i + 1] == Insert(old(a[..i]), old(a[i]), k)
    ensures a[i + 1..] == old(a[i + 1..])
  {
    ghost var s := a[..];
    ghost var sorted := s[..i];
    var x := a[i];
    var j := OpenGap(a, i, x, k);
    forall m | j <= m < i
      ensures Compare(k, sorted[m], x) > 0
    {
      assert a[m + 1] == sorted[m];
    }
    InsertLands(sorted, x, k, j);
    assert sorted[j..] == s[j..i];
    FillGap(s, j, i, x);
    a[j] := x;
  }

  /** `filtered.sort(...)` with the comparator for `k`, on the page's copy of the filtered listings. */
  method SortInPlace(a: array<Property>, k: SortKey)
    modifies a
    ensures a[..] == SortBy(old(a[..]), k)
  {
    ghost var input := a[..];
    var i := 0;
    while i < a.Length
      invariant 0 <= i <= a.Length
      invariant a[..i] == SortBy(input[..i], k)
      invariant a[i..] == input[i..]
    {
      TailStep(a[..], input, i);
      PrefixStep(input, i);
      InsertLast(a, i, k);
      i := i + 1;
    }
    assert input[..a.Length] == input;
  }

  /** The page's pipeline: copy, filter stage by stage, then sort the copy. */
  method FilteredProperties(properties: seq<Property>, filters: FilterOptions) returns (result: seq<Property>)
    ensures result == Query(properties, filters)
  {
    var filtered := ApplyFilters(properties, filters);
    if filters.sortBy.Some? {
      var copy := new Property[|filtered|](i requires 0 <= i < |filtered| => filtered[i]);
      assert copy[..] == filtered;
      SortInPlace(copy, filters.sortBy.value);
      filtered := copy[..];
    }
    result := filtered;
  }

  /** The six filter stages of the page, each run when its guard holds. */
  method ApplyFilters(properties: seq<Property>, filters: FilterOptions) returns (filtered: seq<Property>)
    ensures filtered == Select(properties, filters)
  {
    filtered := properties;

    if filters.location.Some? && filters.location.value != "" {
      filtered := Keep(filtered, LocationStage, filters);
    }
    assert filtered == Through(properties, filters, 1);

    if filters.propertyType.Some? && |filters.propertyType.value| > 0 {
      filtered := Keep(filtered, TypeStage, filters);
    }
    assert filtered == Through(properties, filters, 2);

    if filters.views.Some? && |filters.views.value| > 0 {
      filtered := Keep(filtered, ViewsStage, filters);
    }
    assert filtered == Through(properties, filters, 3);

    if filters.themes.Some? && |filters.themes.value| > 0 {
      filtered := Keep(filtered, ThemesStage, filters);
    }
    assert filtered == Through(properties, filters, 4);

    if filters.maxGuests.Some? && filters.maxGuests.value != 0 {
      filtered := Keep(filtered, GuestsStage, filters);
    }
    assert filtered == Through(properties, filters, 5);

    if filters.priceRange.Some? {
      filtered := Keep(filtered, PriceStage, filters);
    }
    assert filtered == Through(properties, filters, 6);

    ThroughIsKeepAll(properties, filters, 6);
    assert Pipeline[..6] == Pipeline;
  }

  // ---------------------------------------------------------------- properties of the query

  /** A listing is shown iff it is one of the input listings and passes every enabled filter (AND). */
  lemma QueryMembership(properties: seq<Property>, f: FilterOptions, p: Property)
    ensures p in Query(properties, f) <==>
      && p in properties
      && (f.location.Some? && f.location.value != "" ==> LocationHit(p, f.location.value))
      && (f.propertyType.Some? && |f.propertyType.value| > 0 ==> p.propertyType in f.propertyType.value)
      && (f.views.Some? && |f.views.value| > 0 ==> SharesTag(f.views.value, p.views))
      && (f.themes.Some? && |f.themes.value| > 0 ==> SharesTag(f.themes.value, p.themes))
      && (f.maxGuests.Some? && f.maxGuests.value != 0 ==> p.maxGuests >= f.maxGuests.value)
      && (f.priceRange.Some? ==> f.priceRange.value.0 <= p.price <= f.priceRange.value.1)
  {
    var sel := Select(properties, f);
    KeepAllMembers(properties, Pipeline, f, p);
    if f.sortBy.Some? {
      SortByPermutes(sel, f.sortBy.value);
      assert p in Query(properties, f) <==> p in multiset(sel);
    }
    assert Matches(f, p) <==>
      StageHolds(Pipeline[0], f, p) && StageHolds(Pipeline[1], f, p) && StageHolds(Pipeline[2], f, p) &&
      StageHolds(Pipeline[3], f, p) && StageHolds(Pipeline[4], f, p) && StageHolds(Pipeline[5], f, p);
  }

  /** `s` can be obtained from `t` by deleting elements. */
  predicate SubsequenceOf(s: seq<Property>, t: seq<Property>)
    decreases |t|
  {
    if t == [] then s == []
    else (s != [] && s[0] == t[0] && SubsequenceOf(s[1..], t[1..])) || SubsequenceOf(s, t[1..])
  }

  lemma {:induction false} KeepAllSubsequence(s: seq<Property>, sts: seq<Stage>, f: FilterOptions)
    ensures SubsequenceOf(KeepAll(s, sts, f), s)
  {
    if s != [] {
      KeepAllSubsequence(s[1..], sts, f);
      var rest := KeepAll(s[1..], sts, f);
      if PassesAll(sts, f, s[0]) {
        assert ([s[0]] + rest)[1..] == rest;
      } else {
        assert [] + rest == rest;
      }
    }
  }

  /** The result is a rearrangement of a subsequence of the input (the input itself is a value, never reordered). */
  lemma QueryPermutesSubsequence(properties: seq<Property>, f: FilterOptions)
    ensures SubsequenceOf(Select(properties, f), properties)
    ensures multiset(Query(properties, f)) == multiset(Select(properties, f))
  {
    KeepAllSubsequence(properties, Pipeline, f);
    if f.sortBy.Some? {
      SortByPermutes(Select(properties, f), f.sortBy.value);
    }
  }

  /** The empty filter shows every listing, in the input order. */
  lemma NoFiltersIsIdentity(properties: seq<Property>)
    ensures Query(properties, NoFilters) == properties
  {
    KeepAllEverything(properties, Pipeline, NoFilters);
  }

  /** An inverted price range admits no listing. */
  lemma InvertedRangeIsEmpty(properties: seq<Property>, f: FilterOptions)
    requires f.priceRange.Some? && f.priceRange.value.0 > f.priceRange.value.1
    ensures Query(properties, f) == []
  {
    var r := Query(properties, f);
    if r != [] {
      QueryMembership(properties, f, r[0]);
      assert false;
    }
  }

  /** After sorting, each adjacent pair is in the order of the chosen key. */
  lemma QuerySorted(properties: seq<Property>, f: FilterOptions)
    requires f.sortBy.Some?
    ensures var r := Query(properties, f);
      forall i :: 0 <= i < |r| - 1 ==> InOrder(f.sortBy.value, r[i], r[i + 1])
  {
    SortByInOrder(Select(properties, f), f.sortBy.value);
  }

  /** Listings with equal keys keep their filtered order; with no key nothing moves. */
  lemma QueryStable(properties: seq<Property>, f: FilterOptions, v: int)
    ensures f.sortBy.None? ==> Query(properties, f) == Select(properties, f)
    ensures f.sortBy.Some? ==>
      SameKey(Query(properties, f), f.sortBy.value, v) == SameKey(Select(properties, f), f.sortBy.value, v)
  {
    if f.sortBy.Some? {
      SortByStable(Select(properties, f), f.sortBy.value, v);
    }
  }
}
