/**
 * The listing card: the display label of a property type and the first two
 * view and theme tags it shows.
 */
module PropertyCard {
  import opened PropertyTypes

  /** The label record of `getPropertyTypeLabel`. */
  const Labels: map<string, string> := map[
    "villa" := "Villa",
    "tent" := "Tent",
    "homestay" := "Homestay",
    "cabin" := "Cabin",
    "treehouse" := "Treehouse",
    "houseboat" := "Houseboat"]

  /** The ASCII upper-case letter of a lower-case one; any other character is kept. */
  function UpperChar(c: char): char {
    if 'a' <= c <= 'z' then (c as int - 'a' as int + 'A' as int) as char else c
  }

  /** The string with its first character upper-cased. */
  function Capitalised(s: string): (r: string)
    ensures |r| == |s|
  {
    if |s| == 0 then s else [UpperChar(s[0])] + s[1..]
  }

  /** `labels[type] || type`: a listed type gets its label, any other type shows as itself. */
  function TypeLabel(t: string): (r: string)
    ensures t in Labels ==> r == Labels[t]
    ensures t !in Labels ==> r == t
  {
    if t in Labels && Labels[t] != "" then Labels[t] else t
  }

  /** Each of the six listed types is labelled by its own name with a capital first letter. */
  lemma LabelsAreCapitalised(t: string)
    requires t in {"villa", "tent", "homestay", "cabin", "treehouse", "houseboat"}
    ensures TypeLabel(t) == Capitalised(t)
  {
    if t == "villa" {
      assert Capitalised(t) == "Villa";
    } else if t == "tent" {
      assert Capitalised(t) == "Tent";
    } else if t == "homestay" {
      assert Capitalised(t) == "Homestay";
    } else if t == "cabin" {
      assert Capitalised(t) == "Cabin";
    } else if t == "treehouse" {
      assert Capitalised(t) == "Treehouse";
    } else {
      assert Capitalised(t) == "Houseboat";
    }
  }

  /** The label lookup covers exactly the six listed types. */
  lemma LabelledTypes(t: string)
    ensures t in Labels <==> t in {"villa", "tent", "homestay", "cabin", "treehouse", "houseboat"}
  {
  }

  /** The two types of the record type that have no label show as they are. */
  lemma UnlistedTypesShowAsThemselves()
    ensures TypeLabel("cottage") == "cottage" && TypeLabel("resort") == "resort"
  {
  }

  /** A label is never itself a key of the record, so labelling twice changes nothing. */
  lemma {:induction false} TypeLabelIdempotent(t: string)
    ensures TypeLabel(TypeLabel(t)) == TypeLabel(t)
  {
    if t in Labels {
      assert TypeLabel(t)[0] in "VTHC";
      assert forall k | k in Labels :: k[0] in "vthc";
    }
  }

  /** `tags.slice(0, 2)` */
  function FirstTwo(tags: seq<string>): (r: seq<string>)
    ensures |r| == if |tags| < 2 then |tags| else 2
    ensures forall i :: 0 <= i < |r| ==> r[i] == tags[i]
  {
    if |tags| < 2 then tags else tags[..2]
  }

  /** Every shown tag is one of the listing's tags, and a listing with two tags or fewer shows them all. */
  lemma FirstTwoShowsOwnTags(tags: seq<string>)
    ensures forall x :: x in FirstTwo(tags) ==> x in tags
    ensures |tags| <= 2 ==> FirstTwo(tags) == tags
  {
  }

  /** The tags a card shows: the first two views then the first two themes, none on a compact card. */
  function ShownTags(p: Property, compact: bool): (r: seq<string>)
    ensures compact ==> r == []
    ensures !compact ==> r == FirstTwo(p.views) + FirstTwo(p.themes)
    ensures |r| <= 4
  {
    if compact then [] else FirstTwo(p.views) + FirstTwo(p.themes)
  }
}
