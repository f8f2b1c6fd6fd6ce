/**
 * The demo admin dashboard: its own mock login, the name-or-location search,
 * the headline stats, the recent-listings strip and the per-state and
 * per-type tallies of the analytics tab.
 */
module AdminDashboard {
  import opened Text
  import opened Lists
  import opened PropertyTypes
  import AdminProperties
  import ListingQuery

  const DemoEmail := "admin@vibestays.com"
  const DemoPassword := "demo123"

  /** The login form and the flag that unlocks the dashboard. */
  class Dashboard {
    var isAuthenticated: bool
    var email: string
    var password: string

    constructor ()
      ensures !isAuthenticated && email == "" && password == ""
    {
      isAuthenticated := false;
      email := "";
      password := "";
    }

    method SetCredentials(e: string, p: string)
      modifies this
      ensures email == e && password == p && isAuthenticated == old(isAuthenticated)
    {
      email := e;
      password := p;
    }

    /**
     * `handleLogin`: the demo pair unlocks the dashboard; anything else only
     * raises the alert, reported here as `alerted`, and changes nothing.
     */
    method HandleLogin() returns (alerted: bool)
      modifies this
      ensures alerted <==> !(old(email) == DemoEmail && old(password) == DemoPassword)
      ensures !alerted ==> isAuthenticated
      ensures alerted ==> isAuthenticated == old(isAuthenticated)
      ensures email == old(email) && password == old(password)
    {
      if email == DemoEmail && password == DemoPassword {
        isAuthenticated := true;
        alerted := false;
      } else {
        alerted := true;
      }
    }

    method Logout()
      modifies this
      ensures !isAuthenticated && email == old(email) && password == old(password)
    {
      isAuthenticated := false;
    }
  }

  /** The dashboard's search looks at the name and the location only. */
  predicate SearchHit(p: Property, query: string) {
    var q := Lower(query);
    Contains(Lower(p.name), q) || Contains(Lower(p.location), q)
  }

  function SearchResults(properties: seq<Property>, query: string): (r: seq<Property>)
    ensures |r| <= |properties|
    ensures forall p :: p in r <==> p in properties && SearchHit(p, query)
  {
    Filter(properties, (p: Property) => SearchHit(p, query))
  }

  /** Every dashboard hit is also a hit of the management screen's wider search. */
  lemma NarrowerThanManagementSearch(properties: seq<Property>, query: string)
    ensures forall p :: p in SearchResults(properties, query) ==> p in AdminProperties.SearchResults(properties, query)
    ensures |SearchResults(properties, query)| <= |AdminProperties.SearchResults(properties, query)|
  {
    FilterMonotone(properties, (p: Property) => SearchHit(p, query),
                   (p: Property) => AdminProperties.SearchHit(p, query));
  }

  /** The listings page's location test is a special case of the management search. */
  lemma LocationHitIsManagementHit(p: Property, query: string)
    ensures ListingQuery.LocationHit(p, query) ==> AdminProperties.SearchHit(p, query)
  {
  }

  /** `properties.reduce((sum, p) => sum + p.reviewCount, 0)` */
  function TotalReviews(properties: seq<Property>): int {
    if |properties| == 0 then 0
    else TotalReviews(properties[..|properties| - 1]) + properties[|properties| - 1].reviewCount
  }

  /** The review total adds up piecewise over any split of the list. */
  lemma {:induction false} TotalReviewsAppend(a: seq<Property>, b: seq<Property>)
    ensures TotalReviews(a + b) == TotalReviews(a) + TotalReviews(b)
    decreases |b|
  {
    if |b| == 0 {
      assert a + b == a;
    } else {
      assert (a + b)[..|a + b| - 1] == a + b[..|b| - 1];
      TotalReviewsAppend(a, b[..|b| - 1]);
    }
  }

  /** With non-negative review counts the total is at least each listing's count. */
  lemma {:induction false} TotalReviewsBounds(properties: seq<Property>, i: int)
    requires forall j :: 0 <= j < |properties| ==> properties[j].reviewCount >= 0
    requires 0 <= i < |properties|
    ensures TotalReviews(properties) >= properties[i].reviewCount
  {
    var n := |properties|;
    if i < n - 1 {
      TotalReviewsBounds(properties[..n - 1], i);
      assert TotalReviews(properties) == TotalReviews(properties[..n - 1]) + properties[n - 1].reviewCount;
    }
    TotalReviewsNonNegative(properties[..n - 1]);
  }

  lemma {:induction false} TotalReviewsNonNegative(properties: seq<Property>)
    requires forall j :: 0 <= j < |properties| ==> properties[j].reviewCount >= 0
    ensures TotalReviews(properties) >= 0
  {
    if |properties| > 0 {
      TotalReviewsNonNegative(properties[..|properties| - 1]);
    }
  }

  /** The four headline figures. */
  datatype Stats = Stats(totalProperties: nat, featuredProperties: nat, verifiedProperties: nat, totalReviews: int)

  function DashboardStats(properties: seq<Property>): (s: Stats)
    ensures s.totalProperties == |properties|
    ensures s.featuredProperties <= s.totalProperties && s.verifiedProperties <= s.totalProperties
    ensures s.featuredProperties == |AdminProperties.Featured(properties)|
    ensures s.verifiedProperties == |AdminProperties.Verified(properties)|
    ensures s.totalReviews == TotalReviews(properties)
  {
    Stats(|properties|, |AdminProperties.Featured(properties)|,
          |AdminProperties.Verified(properties)|, TotalReviews(properties))
  }

  /** `properties.slice(0, 3)` */
  function Recent(properties: seq<Property>): (r: seq<Property>)
    ensures |r| == if |properties| < 3 then |properties| else 3
    ensures forall i :: 0 <= i < |r| ==> r[i] == properties[i]
  {
    if |properties| < 3 then properties else properties[..3]
  }

  /** A tally in the order its keys were first met: `Object.entries` of the reduce's record. */
  type Entries = seq<(string, nat)>

  /** Where `key` sits in `e`, or -1. */
  function IndexOf(e: Entries, key: string): (r: int)
    ensures -1 <= r < |e|
    ensures r >= 0 ==> e[r].0 == key && forall j :: 0 <= j < r ==> e[j].0 != key
    ensures r == -1 ==> forall j :: 0 <= j < |e| ==> e[j].0 != key
  {
    if |e| == 0 then -1
    else if e[0].0 == key then 0
    else
      var r := IndexOf(e[1..], key);
      if r == -1 then -1 else r + 1
  }

  /** `acc[key] || 0` */
  function Lookup(e: Entries, key: string): nat {
    var j := IndexOf(e, key);
    if j >= 0 then e[j].1 else 0
  }

  /** `acc[key] = (acc[key] || 0) + 1`: a known key counts one more, a new key goes last with 1. */
  function Bump(e: Entries, key: string): Entries {
    var j := IndexOf(e, key);
    if j >= 0 then e[j := (key, e[j].1 + 1)] else e + [(key, 1)]
  }

  /** The tally of `keys` as the reduce builds it, one key at a time from the left. */
  function TallyOf(keys: seq<string>): Entries {
    if |keys| == 0 then [] else Bump(TallyOf(keys[..|keys| - 1]), keys[|keys| - 1])
  }

  predicate DistinctKeys(e: Entries) {
    forall i, j :: 0 <= i < j < |e| ==> e[i].0 != e[j].0
  }

  predicate Positive(e: Entries) {
    forall i :: 0 <= i < |e| ==> e[i].1 >= 1
  }

  function SumCounts(e: Entries): nat {
    if |e| == 0 then 0 else SumCounts(e[..|e| - 1]) + e[|e| - 1].1
  }

  /** Changing one count changes the sum by the difference. */
  lemma {:induction false} SumCountsUpdate(e: Entries, j: int, key: string, c: nat)
    requires 0 <= j < |e|
    ensures SumCounts(e[j := (key, c)]) == SumCounts(e) - e[j].1 + c
  {
    var n := |e|;
    var u := e[j := (key, c)];
    if j < n - 1 {
      assert u[..n - 1] == e[..n - 1][j := (key, c)];
      SumCountsUpdate(e[..n - 1], j, key, c);
    } else {
      assert u[..n - 1] == e[..n - 1];
    }
  }

  /** One bump keeps the keys distinct and the counts positive, adds one to `key` and to the sum. */
  lemma BumpSpec(e: Entries, key: string)
    requires DistinctKeys(e) && Positive(e)
    ensures DistinctKeys(Bump(e, key)) && Positive(Bump(e, key))
    ensures Lookup(Bump(e, key), key) == Lookup(e, key) + 1
    ensures forall other :: other != key ==> Lookup(Bump(e, key), other) == Lookup(e, other)
    ensures SumCounts(Bump(e, key)) == SumCounts(e) + 1
  {
    BumpLookups(e, key);
    if IndexOf(e, key) >= 0 {
      BumpKnownWellFormed(e, key);
      BumpKnownSum(e, key);
    } else {
      BumpNewWellFormed(e, key);
      BumpNewSum(e, key);
    }
  }

  /** Bumping a known key keeps the keys where they were and every count positive. */
  lemma BumpKnownWellFormed(e: Entries, key: string)
    requires DistinctKeys(e) && Positive(e) && IndexOf(e, key) >= 0
    ensures DistinctKeys(Bump(e, key)) && Positive(Bump(e, key))
  {
    var j := IndexOf(e, key);
    assert Bump(e, key) == e[j := (key, e[j].1 + 1)];
  }

  /** One bump adds one to the count of `key` and leaves every other count alone. */
  lemma BumpLookups(e: Entries, key: string)
    ensures Lookup(Bump(e, key), key) == Lookup(e, key) + 1
    ensures forall other :: other != key ==> Lookup(Bump(e, key), other) == Lookup(e, other)
  {
    if IndexOf(e, key) >= 0 {
      BumpKnownLookups(e, key);
    } else {
      BumpNewLookups(e, key);
    }
  }

  /** Bumping a known key leaves every key where it was. */
  lemma BumpKnownKeepsPlaces(e: Entries, key: string)
    requires IndexOf(e, key) >= 0
    ensures forall other :: IndexOf(Bump(e, key), other) == IndexOf(e, other)
  {
    var j := IndexOf(e, key);
    var b := e[j := (key, e[j].1 + 1)];
    assert forall i :: 0 <= i < |e| ==> e[i].0 == b[i].0;
    forall other
      ensures IndexOf(b, other) == IndexOf(e, other)
    {
      IndexOfSameKeys(e, b, other);
    }
  }

  /** Bumping a known key adds one to its count and leaves every other count alone. */
  lemma BumpKnownLookups(e: Entries, key: string)
    requires IndexOf(e, key) >= 0
    ensures Lookup(Bump(e, key), key) == Lookup(e, key) + 1
    ensures forall other :: other != key ==> Lookup(Bump(e, key), other) == Lookup(e, other)
  {
    BumpKnownKeepsPlaces(e, key);
  }

  /** Bumping a known key adds one to the sum. */
  lemma BumpKnownSum(e: Entries, key: string)
    requires IndexOf(e, key) >= 0
    ensures SumCounts(Bump(e, key)) == SumCounts(e) + 1
  {
    var j := IndexOf(e, key);
    var c: nat := e[j].1 + 1;
    SumCountsUpdate(e, j, key, c);
  }

  /** Bumping a new key appends it last with count 1: the keys stay distinct and the counts positive. */
  lemma BumpNewWellFormed(e: Entries, key: string)
    requires DistinctKeys(e) && Positive(e) && IndexOf(e, key) == -1
    ensures DistinctKeys(Bump(e, key)) && Positive(Bump(e, key))
  {
    assert Bump(e, key) == e + [(key, 1)];
  }

  /** Bumping a new key gives it count 1 and leaves every other count alone. */
  lemma BumpNewLookups(e: Entries, key: string)
    requires IndexOf(e, key) == -1
    ensures Lookup(Bump(e, key), key) == Lookup(e, key) + 1
    ensures forall other :: other != key ==> Lookup(Bump(e, key), other) == Lookup(e, other)
  {
    var b := e + [(key, 1)];
    assert Bump(e, key) == b;
    IndexOfSnoc(e, key, key);
    forall other | other != key
      ensures Lookup(b, other) == Lookup(e, other)
    {
      IndexOfSnoc(e, key, other);
    }
  }

  /** Bumping a new key adds one to the sum. */
  lemma BumpNewSum(e: Entries, key: string)
    requires IndexOf(e, key) == -1
    ensures SumCounts(Bump(e, key)) == SumCounts(e) + 1
  {
    var b := e + [(key, 1)];
    assert b[..|b| - 1] == e;
  }

  /** Two tallies with the same keys in the same places find every key at the same place. */
  lemma {:induction false} IndexOfSameKeys(e: Entries, b: Entries, key: string)
    requires |e| == |b| && forall i :: 0 <= i < |e| ==> e[i].0 == b[i].0
    ensures IndexOf(b, key) == IndexOf(e, key)
  {
    if |e| > 0 && e[0].0 != key {
      IndexOfSameKeys(e[1..], b[1..], key);
    }
  }

  /** Appending a new key leaves the old keys where they were. */
  lemma {:induction false} IndexOfSnoc(e: Entries, added: string, key: string)
    requires forall i :: 0 <= i < |e| ==> e[i].0 != added
    ensures key != added ==> IndexOf(e + [(added, 1)], key) == IndexOf(e, key)
    ensures key == added ==> IndexOf(e + [(added, 1)], key) == |e|
  {
    if |e| > 0 {
      assert (e + [(added, 1)])[1..] == e[1..] + [(added, 1)];
      IndexOfSnoc(e[1..], added, key);
    }
  }

  /** The tally lists each key once and only with a positive count. */
  lemma {:induction false} TallyWellFormed(keys: seq<string>)
    ensures DistinctKeys(TallyOf(keys)) && Positive(TallyOf(keys))
  {
    if |keys| > 0 {
      var init := keys[..|keys| - 1];
      TallyWellFormed(init);
      BumpSpec(TallyOf(init), keys[|keys| - 1]);
    }
  }

  /** The tally gives each key exactly the number of times it occurs. */
  lemma {:induction false} TallyCounts(keys: seq<string>, key: string)
    ensures Lookup(TallyOf(keys), key) == multiset(keys)[key]
  {
    if |keys| > 0 {
      var init := keys[..|keys| - 1];
      var last := keys[|keys| - 1];
      TallyCounts(init, key);
      BumpLookups(TallyOf(init), last);
      assert keys == init + [last];
      assert multiset(keys) == multiset(init) + multiset{last};
    }
  }

  /** The tally's counts add up to the number of keys tallied. */
  lemma {:induction false} TallySum(keys: seq<string>)
    ensures SumCounts(TallyOf(keys)) == |keys|
  {
    if |keys| > 0 {
      var init := keys[..|keys| - 1];
      TallySum(init);
      TallyWellFormed(init);
      BumpSpec(TallyOf(init), keys[|keys| - 1]);
    }
  }

  /**
   * The tally lists each key once, gives each exactly the number of times it
   * occurs, and its counts add up to the number of keys tallied.
   */
  lemma TallySpec(keys: seq<string>)
    ensures DistinctKeys(TallyOf(keys)) && Positive(TallyOf(keys))
    ensures forall key :: Lookup(TallyOf(keys), key) == multiset(keys)[key]
    ensures SumCounts(TallyOf(keys)) == |keys|
  {
    TallyWellFormed(keys);
    TallySum(keys);
    forall key
      ensures Lookup(TallyOf(keys), key) == multiset(keys)[key]
    {
      TallyCounts(keys, key);
    }
  }

  /** A key is listed exactly when it occurs among the tallied keys. */
  lemma TallyListsOccurringKeys(keys: seq<string>, key: string)
    ensures IndexOf(TallyOf(keys), key) >= 0 <==> key in keys
  {
    TallyWellFormed(keys);
    TallyCounts(keys, key);
    var t := TallyOf(keys);
    assert key in keys <==> multiset(keys)[key] > 0;
    if IndexOf(t, key) >= 0 {
      assert t[IndexOf(t, key)].1 >= 1;
    }
  }

  /** The reduce over the listings, with the record `acc` updated in place one listing at a time. */
  method Tally(keys: seq<string>) returns (acc: Entries)
    ensures acc == TallyOf(keys)
    ensures DistinctKeys(acc) && Positive(acc)
    ensures forall key :: Lookup(acc, key) == multiset(keys)[key]
    ensures SumCounts(acc) == |keys|
  {
    acc := [];
    var i := 0;
    while i < |keys|
      invariant 0 <= i <= |keys|
      invariant acc == TallyOf(keys[..i])
    {
      assert keys[..i + 1][..i] == keys[..i];
      acc := Bump(acc, keys[i]);
      i := i + 1;
    }
    assert keys[..i] == keys;
    TallySpec(keys);
  }

  function StatesOf(properties: seq<Property>): (r: seq<string>)
    ensures |r| == |properties| && forall i :: 0 <= i < |r| ==> r[i] == properties[i].state
  {
    if |properties| == 0 then [] else StatesOf(properties[..|properties| - 1]) + [properties[|properties| - 1].state]
  }

  function TypesOf(properties: seq<Property>): (r: seq<string>)
    ensures |r| == |properties| && forall i :: 0 <= i < |r| ==> r[i] == properties[i].propertyType
  {
    if |properties| == 0 then [] else TypesOf(properties[..|properties| - 1]) + [properties[|properties| - 1].propertyType]
  }

  /** "Popular Destinations": listings per state. */
  method StateTally(properties: seq<Property>) returns (entries: Entries)
    ensures entries == TallyOf(StatesOf(properties))
    ensures DistinctKeys(entries) && Positive(entries)
    ensures forall key :: Lookup(entries, key) == multiset(StatesOf(properties))[key]
    ensures SumCounts(entries) == |properties|
  {
    entries := Tally(StatesOf(properties));
  }

  /** "Property Types": listings per type. */
  method TypeTally(properties: seq<Property>) returns (entries: Entries)
    ensures entries == TallyOf(TypesOf(properties))
    ensures DistinctKeys(entries) && Positive(entries)
    ensures forall key :: Lookup(entries, key) == multiset(TypesOf(properties))[key]
    ensures SumCounts(entries) == |properties|
  {
    entries := Tally(TypesOf(properties));
  }
}
