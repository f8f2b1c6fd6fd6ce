/**
 * The listings page's filter bar: the component state (`filters`, the search
 * box text, whether the panel is open) and the handlers that replace it.
 * Every handler hands the filter value it stores to the page's
 * `onFiltersChange` callback; the model records those calls in `emitted`.
 */
module FilterBar {
  import opened Wrappers
  import opened PropertyTypes
  import opened Lists
  import ListingQuery

  /** The three multi-select filters the bar toggles values in. */
  datatype ListKey = PropertyTypeKey | ViewsKey | ThemesKey

  /** The values offered by the guest buttons. */
  const GuestChoices: seq<int> := [2, 4, 6, 8, 10]

  function ListOf(f: FilterOptions, key: ListKey): Option<seq<string>> {
    match key
    case PropertyTypeKey => f.propertyType
    case ViewsKey => f.views
    case ThemesKey => f.themes
  }

  /** `{ ...f, [key]: v }` */
  function WithList(f: FilterOptions, key: ListKey, v: Option<seq<string>>): (r: FilterOptions)
    ensures ListOf(r, key) == v
    ensures forall other :: other != key ==> ListOf(r, other) == ListOf(f, other)
    ensures r.location == f.location && r.priceRange == f.priceRange
    ensures r.maxGuests == f.maxGuests && r.sortBy == f.sortBy
  {
    match key
    case PropertyTypeKey => f.(propertyType := v)
    case ViewsKey => f.(views := v)
    case ThemesKey => f.(themes := v)
  }

  /**
   * The filter `handleArrayFilter` stores: `value` toggled in the list under
   * `key` (a missing list counting as empty), an emptied list stored as absent.
   */
  function ArrayFilter(f: FilterOptions, value: string, key: ListKey): (r: FilterOptions)
    ensures ListOf(r, key).GetOr([]) == Toggle(ListOf(f, key).GetOr([]), value)
    ensures ListOf(r, key) != Some([])
    ensures forall other :: other != key ==> ListOf(r, other) == ListOf(f, other)
    ensures r.location == f.location && r.priceRange == f.priceRange
    ensures r.maxGuests == f.maxGuests && r.sortBy == f.sortBy
  {
    var newArray := Toggle(ListOf(f, key).GetOr([]), value);
    WithList(f, key, if |newArray| > 0 then Some(newArray) else None)
  }

  /** The filter `handleSearchChange` stores: the typed text, with `""` meaning no location. */
  function SearchFilter(f: FilterOptions, value: string): (r: FilterOptions)
    ensures r.location.None? <==> value == ""
    ensures r.location.Some? ==> r.location.value == value
    ensures r == f.(location := r.location)
  {
    f.(location := if value == "" then None else Some(value))
  }

  /** The filter a guest button stores: pressing the selected count clears it, any other selects it. */
  function GuestFilter(f: FilterOptions, guests: int): (r: FilterOptions)
    ensures f.maxGuests == Some(guests) ==> r.maxGuests.None?
    ensures f.maxGuests != Some(guests) ==> r.maxGuests == Some(guests)
    ensures r == f.(maxGuests := r.maxGuests)
  {
    f.(maxGuests := if f.maxGuests == Some(guests) then None else Some(guests))
  }

  /** How many of the stages `sts` the filter `f` switches on. */
  function CountActive(sts: seq<ListingQuery.Stage>, f: FilterOptions): (r: nat)
    ensures r <= |sts|
  {
    if |sts| == 0 then 0
    else (if ListingQuery.Active(sts[0], f) then 1 else 0) + CountActive(sts[1..], f)
  }

  /** The badge count is zero exactly when no stage is switched on. */
  lemma {:induction false} CountZeroIffNoneActive(sts: seq<ListingQuery.Stage>, f: FilterOptions)
    ensures CountActive(sts, f) == 0 <==> forall i :: 0 <= i < |sts| ==> !ListingQuery.Active(sts[i], f)
  {
    if |sts| > 0 {
      CountZeroIffNoneActive(sts[1..], f);
      assert forall i :: 1 <= i < |sts| ==> sts[i] == sts[1..][i - 1];
    }
  }

  /** A filter bar showing no badge lets every listing through, in order. */
  lemma NoBadgeShowsAll(properties: seq<Property>, f: FilterOptions)
    requires CountActive(ListingQuery.Pipeline, f) == 0
    ensures ListingQuery.Select(properties, f) == properties
  {
    CountZeroIffNoneActive(ListingQuery.Pipeline, f);
    ListingQuery.KeepAllEverything(properties, ListingQuery.Pipeline, f);
  }

  /** The count does not look at the sort key. */
  lemma {:induction false} CountIgnoresSort(sts: seq<ListingQuery.Stage>, f: FilterOptions, sortBy: Option<SortKey>)
    ensures CountActive(sts, f.(sortBy := sortBy)) == CountActive(sts, f)
  {
    if |sts| > 0 {
      CountIgnoresSort(sts[1..], f, sortBy);
    }
  }

  /** Pressing a guest button twice restores the filter exactly when it was unset or already that count. */
  lemma GuestPressTwice(f: FilterOptions, guests: int)
    ensures GuestFilter(GuestFilter(f, guests), guests) == f <==> f.maxGuests == None || f.maxGuests == Some(guests)
  {
    if f.maxGuests != None && f.maxGuests != Some(guests) {
      assert GuestFilter(GuestFilter(f, guests), guests).maxGuests == None;
    }
  }

  /** Every guest button selects a count the capacity stage enforces. */
  lemma GuestChoiceActivates(f: FilterOptions, i: int)
    requires 0 <= i < |GuestChoices| && f.maxGuests != Some(GuestChoices[i])
    ensures ListingQuery.Active(ListingQuery.GuestsStage, GuestFilter(f, GuestChoices[i]))
  {
  }

  class FilterBar {
    var isOpen: bool
    var filters: FilterOptions
    var searchQuery: string
    /** The arguments of every `onFiltersChange` call so far, oldest first. */
    var emitted: seq<FilterOptions>

    constructor (initialFilters: FilterOptions)
      ensures !isOpen && filters == initialFilters && emitted == []
      ensures searchQuery == initialFilters.location.GetOr("")
    {
      isOpen := false;
      filters := initialFilters;
      searchQuery := initialFilters.location.GetOr("");
      emitted := [];
    }

    method HandleArrayFilter(value: string, key: ListKey)
      modifies this
      ensures filters == ArrayFilter(old(filters), value, key)
      ensures emitted == old(emitted) + [filters]
      ensures searchQuery == old(searchQuery) && isOpen == old(isOpen)
    {
      var currentArray := ListOf(filters, key).GetOr([]);
      var newArray := Toggle(currentArray, value);
      var newFilters := WithList(filters, key, if |newArray| > 0 then Some(newArray) else None);
      filters := newFilters;
      emitted := emitted + [newFilters];
    }

    method HandleSearchChange(value: string)
      modifies this
      ensures searchQuery == value
      ensures filters == SearchFilter(old(filters), value)
      ensures emitted == old(emitted) + [filters]
      ensures isOpen == old(isOpen)
    {
      searchQuery := value;
      var newFilters := filters.(location := if value == "" then None else Some(value));
      filters := newFilters;
      emitted := emitted + [newFilters];
    }

    method HandleSortChange(sortBy: SortKey)
      modifies this
      ensures filters == old(filters).(sortBy := Some(sortBy))
      ensures emitted == old(emitted) + [filters]
      ensures searchQuery == old(searchQuery) && isOpen == old(isOpen)
    {
      var newFilters := filters.(sortBy := Some(sortBy));
      filters := newFilters;
      emitted := emitted + [newFilters];
    }

    method ClearFilters()
      modifies this
      ensures filters == NoFilters && searchQuery == ""
      ensures emitted == old(emitted) + [NoFilters]
      ensures isOpen == old(isOpen)
    {
      var newFilters := NoFilters;
      filters := newFilters;
      searchQuery := "";
      emitted := emitted + [newFilters];
    }

    /** The guest button for `guests`. */
    method PressGuests(guests: int)
      modifies this
      ensures filters == GuestFilter(old(filters), guests)
      ensures emitted == old(emitted) + [filters]
      ensures searchQuery == old(searchQuery) && isOpen == old(isOpen)
    {
      var newFilters := filters.(maxGuests := if filters.maxGuests == Some(guests) then None else Some(guests));
      filters := newFilters;
      emitted := emitted + [newFilters];
    }

    /** The "Filters" button. */
    method ToggleOpen()
      modifies this
      ensures isOpen == !old(isOpen)
      ensures filters == old(filters) && searchQuery == old(searchQuery) && emitted == old(emitted)
    {
      isOpen := !isOpen;
    }

    /** The badge number: one for each filter the listings page would apply. */
    method ActiveFilterCount() returns (count: int)
      ensures count == CountActive(ListingQuery.Pipeline, filters)
      ensures 0 <= count <= 6
    {
      count := 0;
      if filters.location.Some? && filters.location.value != "" {
        count := count + 1;
      }
      if filters.propertyType.Some? && |filters.propertyType.value| > 0 {
        count := count + 1;
      }
      if filters.views.Some? && |filters.views.value| > 0 {
        count := count + 1;
      }
      if filters.themes.Some? && |filters.themes.value| > 0 {
        count := count + 1;
      }
      if filters.priceRange.Some? {
        count := count + 1;
      }
      if filters.maxGuests.Some? && filters.maxGuests.value != 0 {
        count := count + 1;
      }
      CountPipeline(filters);
    }
  }

  /** The count over the page's six stages, spelled out in the order the badge tallies them. */
  lemma CountPipeline(f: FilterOptions)
    ensures CountActive(ListingQuery.Pipeline, f) ==
      (if f.location.Some? && f.location.value != "" then 1 else 0) +
      (if f.propertyType.Some? && |f.propertyType.value| > 0 then 1 else 0) +
      (if f.views.Some? && |f.views.value| > 0 then 1 else 0) +
      (if f.themes.Some? && |f.themes.value| > 0 then 1 else 0) +
      (if f.priceRange.Some? then 1 else 0) +
      (if f.maxGuests.Some? && f.maxGuests.value != 0 then 1 else 0)
  {
    var p := ListingQuery.Pipeline;
    assert p[1..][1..] == p[2..] && p[2..][1..] == p[3..] && p[3..][1..] == p[4..];
    assert p[4..][1..] == p[5..] && p[5..][1..] == p[6..] && p[6..] == [];
    assert CountActive(p[5..], f) == (if f.priceRange.Some? then 1 else 0) + CountActive(p[6..], f);
    assert CountActive(p[4..], f) == (if ListingQuery.Active(p[4], f) then 1 else 0) + CountActive(p[5..], f);
    assert CountActive(p[3..], f) == (if ListingQuery.Active(p[3], f) then 1 else 0) + CountActive(p[4..], f);
    assert CountActive(p[2..], f) == (if ListingQuery.Active(p[2], f) then 1 else 0) + CountActive(p[3..], f);
    assert CountActive(p[1..], f) == (if ListingQuery.Active(p[1], f) then 1 else 0) + CountActive(p[2..], f);
  }
}
