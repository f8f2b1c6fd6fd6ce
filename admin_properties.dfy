/**
 * The property-management screen: its four-field search, the stats cards and
 * the state that decides whether the form, the table or a detail view is shown.
 * The create, update and delete requests it sends are recorded in `requests`.
 */
module AdminProperties {
  import opened Wrappers
  import opened Text
  import opened Lists
  import opened PropertyTypes
  import PropertyForm

  /** The lower-cased query occurs in the lower-cased name, location, state or host's name. */
  predicate SearchHit(p: Property, query: string) {
    var q := Lower(query);
    Contains(Lower(p.name), q) || Contains(Lower(p.location), q) ||
    Contains(Lower(p.state), q) || Contains(Lower(p.hostName), q)
  }

  /** `filteredProperties` */
  function SearchResults(properties: seq<Property>, query: string): (r: seq<Property>)
    ensures |r| <= |properties|
    ensures forall p :: p in r <==> p in properties && SearchHit(p, query)
  {
    Filter(properties, (p: Property) => SearchHit(p, query))
  }

  /** An empty search box lists every property, in order. */
  lemma EmptySearchKeepsAll(properties: seq<Property>)
    ensures SearchResults(properties, "") == properties
  {
    forall p: Property
      ensures SearchHit(p, "")
    {
      ContainsEmpty(Lower(p.name));
    }
    FilterKeepsAll(properties, (p: Property) => SearchHit(p, ""));
  }

  /** The listings marked featured. */
  function Featured(properties: seq<Property>): (r: seq<Property>)
    ensures |r| <= |properties|
    ensures forall p :: p in r <==> p in properties && p.featured
  {
    Filter(properties, (p: Property) => p.featured)
  }

  /** The listings marked verified. */
  function Verified(properties: seq<Property>): (r: seq<Property>)
    ensures |r| <= |properties|
    ensures forall p :: p in r <==> p in properties && p.verified
  {
    Filter(properties, (p: Property) => p.verified)
  }

  /** The four cards: total, featured, verified and search results. */
  datatype Stats = Stats(total: nat, featured: nat, verified: nat, results: nat)

  function ScreenStats(properties: seq<Property>, query: string): (s: Stats)
    ensures s.total == |properties|
    ensures s.featured <= s.total && s.verified <= s.total && s.results <= s.total
    ensures query == "" ==> s.results == s.total
  {
    EmptySearchKeepsAll(properties);
    Stats(|properties|, |Featured(properties)|, |Verified(properties)|, |SearchResults(properties, query)|)
  }

  /** A request the screen sends to the table's mutations. */
  datatype Request =
    | Create(data: PropertyForm.FormData)
    | Update(id: string, data: PropertyForm.FormData)
    | Delete(id: string)

  class Screen {
    var searchQuery: string
    var showForm: bool
    var editingProperty: Option<Property>
    var viewingProperty: Option<Property>
    /** The requests sent so far, oldest first. */
    var requests: seq<Request>

    constructor ()
      ensures searchQuery == "" && !showForm
      ensures editingProperty.None? && viewingProperty.None? && requests == []
    {
      searchQuery := "";
      showForm := false;
      editingProperty := None;
      viewingProperty := None;
      requests := [];
    }

    method SetSearchQuery(query: string)
      modifies this
      ensures searchQuery == query
      ensures showForm == old(showForm) && editingProperty == old(editingProperty)
      ensures viewingProperty == old(viewingProperty) && requests == old(requests)
    {
      searchQuery := query;
    }

    /** "Add Property": an empty form. */
    method HandleAddProperty()
      modifies this
      ensures editingProperty.None? && showForm
      ensures searchQuery == old(searchQuery) && viewingProperty == old(viewingProperty)
      ensures requests == old(requests)
    {
      editingProperty := None;
      showForm := true;
    }

    /** Edit: the form for `p`, and the detail view closed. */
    method HandleEditProperty(p: Property)
      modifies this
      ensures editingProperty == Some(p) && showForm && viewingProperty.None?
      ensures searchQuery == old(searchQuery) && requests == old(requests)
    {
      editingProperty := Some(p);
      showForm := true;
      viewingProperty := None;
    }

    method HandleViewProperty(p: Property)
      modifies this
      ensures viewingProperty == Some(p)
      ensures searchQuery == old(searchQuery) && showForm == old(showForm)
      ensures editingProperty == old(editingProperty) && requests == old(requests)
    {
      viewingProperty := Some(p);
    }

    /** The detail view's close button. */
    method CloseView()
      modifies this
      ensures viewingProperty.None?
      ensures searchQuery == old(searchQuery) && showForm == old(showForm)
      ensures editingProperty == old(editingProperty) && requests == old(requests)
    {
      viewingProperty := None;
    }

    /** Delete: a request is sent only when the user confirms the dialog. */
    method HandleDeleteProperty(id: string, confirmed: bool)
      modifies this
      ensures requests == old(requests) + (if confirmed then [Delete(id)] else [])
      ensures searchQuery == old(searchQuery) && showForm == old(showForm)
      ensures editingProperty == old(editingProperty) && viewingProperty == old(viewingProperty)
    {
      if confirmed {
        requests := requests + [Delete(id)];
      }
    }

    /**
     * The form's submit: an update of the listing being edited, or a create
     * when there is none. Only a request that `succeeded` closes the form.
     */
    method HandleFormSubmit(data: PropertyForm.FormData, succeeded: bool)
      modifies this
      ensures old(editingProperty).Some? ==> requests == old(requests) + [Update(old(editingProperty).value.id, data)]
      ensures old(editingProperty).None? ==> requests == old(requests) + [Create(data)]
      ensures succeeded ==> !showForm && editingProperty.None?
      ensures !succeeded ==> showForm == old(showForm) && editingProperty == old(editingProperty)
      ensures searchQuery == old(searchQuery) && viewingProperty == old(viewingProperty)
    {
      if editingProperty.Some? {
        requests := requests + [Update(editingProperty.value.id, data)];
      } else {
        requests := requests + [Create(data)];
      }
      if succeeded {
        showForm := false;
        editingProperty := None;
      }
    }

    method HandleFormCancel()
      modifies this
      ensures !showForm && editingProperty.None?
      ensures searchQuery == old(searchQuery) && viewingProperty == old(viewingProperty)
      ensures requests == old(requests)
    {
      showForm := false;
      editingProperty := None;
    }
  }
}
