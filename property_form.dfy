/**
 * The admin property form: the `formData` record the editor keeps, its
 * initialisation from an existing listing, the list editors (add, remove and
 * update an entry, toggle a checkbox tag) and the blank-dropping done on submit.
 * Numeric fields stay text in the form, as in the input boxes.
 */
module PropertyForm {
  import opened Wrappers
  import opened Text
  import opened Lists
  import opened PropertyTypes

  datatype FormData = FormData(
    name: string,
    location: string,
    state: string,
    price: string,
    priceUnit: string,
    images: seq<string>,
    videos: seq<string>,
    description: string,
    shortDescription: string,
    maxGuests: string,
    bedrooms: string,
    bathrooms: string,
    propertyType: string,
    views: seq<string>,
    themes: seq<string>,
    amenities: seq<string>,
    nearbyExperiences: seq<string>,
    localTips: seq<string>,
    hostName: string,
    contactNumber: string,
    whatsappNumber: string,
    featured: bool,
    verified: bool)

  /** The form before any listing is loaded: one empty box per editable list. */
  const InitialForm := FormData(
    "", "", "", "", "night", [""], [""], "", "", "", "", "", "villa", [], [],
    [""], [""], [""], "", "", "", false, false)

  /** The free-text list fields, edited one entry per input box. */
  datatype ListField = Images | Videos | Amenities | NearbyExperiences | LocalTips

  /** The checkbox list fields. */
  datatype TagField = Views | Themes

  function ListOf(d: FormData, field: ListField): seq<string> {
    match field
    case Images => d.images
    case Videos => d.videos
    case Amenities => d.amenities
    case NearbyExperiences => d.nearbyExperiences
    case LocalTips => d.localTips
  }

  /** `{ ...d, [field]: s }` */
  function WithList(d: FormData, field: ListField, s: seq<string>): (r: FormData)
    ensures ListOf(r, field) == s
    ensures forall other :: other != field ==> ListOf(r, other) == ListOf(d, other)
    ensures r == d.(images := r.images, videos := r.videos, amenities := r.amenities,
                    nearbyExperiences := r.nearbyExperiences, localTips := r.localTips)
  {
    match field
    case Images => d.(images := s)
    case Videos => d.(videos := s)
    case Amenities => d.(amenities := s)
    case NearbyExperiences => d.(nearbyExperiences := s)
    case LocalTips => d.(localTips := s)
  }

  function TagsOf(d: FormData, field: TagField): seq<string> {
    match field
    case Views => d.views
    case Themes => d.themes
  }

  function WithTags(d: FormData, field: TagField, s: seq<string>): (r: FormData)
    ensures TagsOf(r, field) == s
    ensures forall other :: other != field ==> TagsOf(r, other) == TagsOf(d, other)
    ensures forall f :: ListOf(r, f) == ListOf(d, f)
  {
    match field
    case Views => d.(views := s)
    case Themes => d.(themes := s)
  }

  /**
   * `s.filter((_, i) => i !== index)`: an index inside the list drops exactly
   * that entry, any other index keeps the list as it is.
   */
  function RemoveAt(s: seq<string>, index: int): (r: seq<string>)
    ensures 0 <= index < |s| ==> |r| == |s| - 1
    ensures 0 <= index < |s| ==> forall m :: 0 <= m < |r| ==> r[m] == (if m < index then s[m] else s[m + 1])
    ensures !(0 <= index < |s|) ==> r == s
  {
    if 0 <= index < |s| then s[..index] + s[index + 1..] else s
  }

  /** `s.map((item, i) => i === index ? value : item)` */
  function UpdateAt(s: seq<string>, index: int, value: string): (r: seq<string>)
    ensures |r| == |s|
    ensures forall m :: 0 <= m < |s| ==> r[m] == (if m == index then value else s[m])
  {
    if 0 <= index < |s| then s[index := value] else s
  }

  /** Removing the box that was just added gives back the list before it. */
  lemma AddThenRemove(s: seq<string>)
    ensures RemoveAt(s + [""], |s|) == s
  {
    assert (s + [""])[..|s|] == s;
  }

  /** Writing back an entry's own value changes nothing, and a later write to the same box wins. */
  lemma UpdateLaws(s: seq<string>, index: int, v: string, w: string)
    ensures 0 <= index < |s| ==> UpdateAt(s, index, s[index]) == s
    ensures UpdateAt(UpdateAt(s, index, v), index, w) == UpdateAt(s, index, w)
  {
  }

  /** The remove buttons only appear while a list has more than one box, so a box always remains. */
  lemma RemoveKeepsABox(s: seq<string>, index: int)
    requires |s| > 1
    ensures |RemoveAt(s, index)| >= 1
  {
  }

  /** `x.trim()` is truthy: something other than white space is left after trimming. */
  predicate Filled(x: string) {
    Trim(x) != ""
  }

  /** `s.filter(x => x.trim())`: the entries whose trimmed text is non-empty, in order. */
  function DropBlanks(s: seq<string>): (r: seq<string>)
    ensures |r| <= |s|
  {
    Filter(s, Filled)
  }

  /** An entry is kept exactly when it is in the list and not all white space. */
  lemma DropBlanksMembers(s: seq<string>)
    ensures forall x :: x in DropBlanks(s) <==> x in s && !IsBlank(x)
  {
    forall x
      ensures Filled(x) <==> !IsBlank(x)
    {
      TrimEmptyIffBlank(x);
    }
  }

  /** Dropping blanks distributes over concatenation, so the kept entries keep their order. */
  lemma DropBlanksAppend(a: seq<string>, b: seq<string>)
    ensures DropBlanks(a + b) == DropBlanks(a) + DropBlanks(b)
  {
    FilterAppend(a, b, Filled);
  }

  /** A list with no blank entry is submitted unchanged. */
  lemma DropBlanksKeepsFilled(s: seq<string>)
    requires forall i :: 0 <= i < |s| ==> !IsBlank(s[i])
    ensures DropBlanks(s) == s
  {
    forall i | 0 <= i < |s|
      ensures Filled(s[i])
    {
      TrimEmptyIffBlank(s[i]);
    }
    FilterKeepsAll(s, Filled);
  }

  /** The single empty box of a fresh list is submitted as an empty list. */
  lemma DropBlanksOfEmptyBox()
    ensures DropBlanks([""]) == []
  {
    var boxes: seq<string> := [""];
    assert boxes[1..] == [];
    assert TrimStart(boxes[0]) == [];
    assert Trim(boxes[0]) == [];
  }

  /** `xs?.length ? xs : ['']` */
  function BoxesFor(xs: seq<string>): (r: seq<string>)
    ensures |r| >= 1
    ensures |xs| > 0 ==> r == xs
    ensures |xs| == 0 ==> r == [""]
  {
    if |xs| > 0 then xs else [""]
  }

  /**
   * The form filled in from an existing listing: numbers written as decimal
   * text, an empty unit or type replaced by the default, and every free-text
   * list given at least one box.
   */
  function LoadFromProperty(p: Property): (r: FormData)
    ensures r.name == p.name && r.location == p.location && r.state == p.state
    ensures r.price == IntToString(p.price) && r.maxGuests == IntToString(p.maxGuests)
    ensures r.priceUnit == (if p.priceUnit == "" then "night" else p.priceUnit)
    ensures r.propertyType == (if p.propertyType == "" then "villa" else p.propertyType)
    ensures r.views == p.views && r.themes == p.themes
    ensures forall f :: |ListOf(r, f)| >= 1
    ensures r.images == BoxesFor(p.images) && r.videos == BoxesFor(p.videos.GetOr([]))
    ensures r.amenities == BoxesFor(p.amenities) && r.localTips == BoxesFor(p.localTips)
    ensures r.nearbyExperiences == BoxesFor(p.nearbyExperiences)
    ensures r.featured == p.featured && r.verified == p.verified
    ensures r.description == p.description && r.shortDescription == p.shortDescription
    ensures r.bedrooms == IntToString(p.bedrooms) && r.bathrooms == IntToString(p.bathrooms)
    ensures r.hostName == p.hostName && r.contactNumber == p.contactNumber && r.whatsappNumber == p.whatsappNumber
  {
    FormData(
      p.name, p.location, p.state,
      IntToString(p.price),
      if p.priceUnit == "" then "night" else p.priceUnit,
      BoxesFor(p.images),
      BoxesFor(p.videos.GetOr([])),
      p.description, p.shortDescription,
      IntToString(p.maxGuests), IntToString(p.bedrooms), IntToString(p.bathrooms),
      if p.propertyType == "" then "villa" else p.propertyType,
      p.views, p.themes,
      BoxesFor(p.amenities), BoxesFor(p.nearbyExperiences), BoxesFor(p.localTips),
      p.hostName, p.contactNumber, p.whatsappNumber,
      p.featured, p.verified)
  }

  /** `handleSubmit`: the record handed to `onSubmit`, with number parsing left out. */
  function Submitted(d: FormData): (r: FormData)
    ensures r.images == DropBlanks(d.images) && r.videos == DropBlanks(d.videos)
    ensures r.amenities == DropBlanks(d.amenities) && r.localTips == DropBlanks(d.localTips)
    ensures r.nearbyExperiences == DropBlanks(d.nearbyExperiences)
    ensures r.name == d.name && r.price == d.price && r.maxGuests == d.maxGuests
    ensures r.views == d.views && r.themes == d.themes
    ensures r.featured == d.featured && r.verified == d.verified
    ensures r == d.(images := r.images, videos := r.videos, amenities := r.amenities,
                    nearbyExperiences := r.nearbyExperiences, localTips := r.localTips)
  {
    d.(images := DropBlanks(d.images), videos := DropBlanks(d.videos),
       amenities := DropBlanks(d.amenities),
       nearbyExperiences := DropBlanks(d.nearbyExperiences),
       localTips := DropBlanks(d.localTips))
  }

  /** A list and its boxes submit the same entries. */
  lemma DropBlanksOfBoxes(xs: seq<string>)
    ensures DropBlanks(BoxesFor(xs)) == DropBlanks(xs)
  {
    if |xs| == 0 {
      DropBlanksOfEmptyBox();
    }
  }

  /** Submitting a listing's form untouched gives back its list entries that are not blank. */
  lemma LoadThenSubmit(p: Property, f: ListField)
    ensures ListOf(Submitted(LoadFromProperty(p)), f) ==
      DropBlanks(match f
        case Images => p.images
        case Videos => p.videos.GetOr([])
        case Amenities => p.amenities
        case NearbyExperiences => p.nearbyExperiences
        case LocalTips => p.localTips)
  {
    var xs := match f
      case Images => p.images
      case Videos => p.videos.GetOr([])
      case Amenities => p.amenities
      case NearbyExperiences => p.nearbyExperiences
      case LocalTips => p.localTips;
    var d := LoadFromProperty(p);
    assert ListOf(d, f) == BoxesFor(xs);
    assert ListOf(Submitted(d), f) == DropBlanks(ListOf(d, f));
    DropBlanksOfBoxes(xs);
  }

  /** An untouched empty form submits every free-text list empty. */
  lemma InitialSubmitsEmptyLists(f: ListField)
    ensures ListOf(Submitted(InitialForm), f) == []
  {
    DropBlanksOfEmptyBox();
  }

  class PropertyForm {
    var formData: FormData

    /** The form for `property`, or the empty form when there is none. */
    constructor (property: Option<Property>)
      ensures property.None? ==> formData == InitialForm
      ensures property.Some? ==> formData == LoadFromProperty(property.value)
    {
      formData := InitialForm;
      if property.Some? {
        formData := LoadFromProperty(property.value);
      }
    }

    method AddArrayField(field: ListField)
      modifies this
      ensures |ListOf(formData, field)| == |ListOf(old(formData), field)| + 1
      ensures ListOf(formData, field) == ListOf(old(formData), field) + [""]
      ensures formData == WithList(old(formData), field, ListOf(formData, field))
    {
      formData := WithList(formData, field, ListOf(formData, field) + [""]);
    }

    method RemoveArrayField(field: ListField, index: int)
      modifies this
      ensures ListOf(formData, field) == RemoveAt(ListOf(old(formData), field), index)
      ensures formData == WithList(old(formData), field, ListOf(formData, field))
    {
      formData := WithList(formData, field, RemoveAt(ListOf(formData, field), index));
    }

    method UpdateArrayField(field: ListField, index: int, value: string)
      modifies this
      ensures ListOf(formData, field) == UpdateAt(ListOf(old(formData), field), index, value)
      ensures formData == WithList(old(formData), field, ListOf(formData, field))
    {
      formData := WithList(formData, field, UpdateAt(ListOf(formData, field), index, value));
    }

    method ToggleCheckbox(field: TagField, value: string)
      modifies this
      ensures TagsOf(formData, field) == Toggle(TagsOf(old(formData), field), value)
      ensures value in TagsOf(formData, field) <==> value !in TagsOf(old(formData), field)
      ensures formData == WithTags(old(formData), field, TagsOf(formData, field))
    {
      formData := WithTags(formData, field, Toggle(TagsOf(formData, field), value));
    }
  }
}
