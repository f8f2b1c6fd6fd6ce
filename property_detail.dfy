/**
 * The listing detail page: the gallery's image index and image kind, the
 * image list each kind shows, the Google Drive link rewriting used for video
 * embeds, and the WhatsApp contact link.
 */
module PropertyDetail {
  import opened Wrappers
  import opened Text
  import opened PropertyTypes

  /** The gallery's four kinds; `Panorama` is the page's '360' kind. */
  datatype ImageType = Regular | Seasonal | Panorama | Video

  /** The page's placeholder seasonal pictures. */
  const MockSeasonalImages: seq<string> := [
    "https://images.unsplash.com/photo-1470071459604-3b5ec3a7fe05",
    "https://images.unsplash.com/photo-1506905925346-21bda4d32df4",
    "https://images.unsplash.com/photo-1523712999610-f77fbcfc3843"]

  /** The page's placeholder panorama. */
  const Mock360Image: string := "https://images.unsplash.com/photo-1482938289607-e9573fc25ebb"

  /** `getCurrentImages()` */
  function CurrentImages(p: Property, t: ImageType): (r: seq<string>)
    ensures t == Regular ==> r == p.images
    ensures t == Seasonal ==> r == MockSeasonalImages && |r| == 3
    ensures t == Panorama ==> r == [Mock360Image]
    ensures t == Video ==> r == p.videos.GetOr([])
  {
    match t
    case Seasonal => MockSeasonalImages
    case Panorama => [Mock360Image]
    case Video => p.videos.GetOr([])
    case Regular => p.images
  }

  /** `nextImage`'s update of the index over `n` images. */
  function NextIndex(prev: int, n: int): int {
    if prev == n - 1 then 0 else prev + 1
  }

  /** `prevImage`'s update of the index over `n` images. */
  function PrevIndex(prev: int, n: int): int {
    if prev == 0 then n - 1 else prev - 1
  }

  /** Inside a gallery of `n >= 1` images the two arrows step round a cycle of length `n`. */
  lemma StepsAreModular(prev: int, n: int)
    requires 0 <= prev < n
    ensures NextIndex(prev, n) == (prev + 1) % n
    ensures PrevIndex(prev, n) == (prev - 1) % n
  {
    if prev == n - 1 {
      assert (prev + 1) % n == 0 by {
        assert prev + 1 == n;
      }
    } else {
      assert (prev + 1) % n == prev + 1;
    }
    if prev == 0 {
      assert (prev - 1) % n == n - 1 by {
        assert prev - 1 == -1;
        assert -1 == (-1) * n + (n - 1);
      }
    } else {
      assert (prev - 1) % n == prev - 1;
    }
  }

  /** Both arrows keep a valid index valid, and each undoes the other. */
  lemma StepsStayInRange(prev: int, n: int)
    requires 0 <= prev < n
    ensures 0 <= NextIndex(prev, n) < n && 0 <= PrevIndex(prev, n) < n
    ensures PrevIndex(NextIndex(prev, n), n) == prev
    ensures NextIndex(PrevIndex(prev, n), n) == prev
  {
  }

  /** The index reached from `start` after `k` presses of the next arrow. */
  function Advance(start: int, n: int, k: nat): int {
    if k == 0 then start else NextIndex(Advance(start, n, k - 1), n)
  }

  /** From `start`, `k <= n` presses of next move `k` places forward, wrapping once past the last image. */
  lemma {:induction false} AdvanceWraps(start: int, n: int, k: nat)
    requires 0 <= start < n && k <= n
    ensures Advance(start, n, k) == if start + k < n then start + k else start + k - n
  {
    if k > 0 {
      AdvanceWraps(start, n, k - 1);
    }
  }

  /** Pressing next `n` times in a gallery of `n` images comes back to the same image. */
  lemma FullCircle(start: int, n: int)
    requires 0 <= start < n
    ensures Advance(start, n, n) == start
  {
    AdvanceWraps(start, n, n);
  }

  /** The gallery's state for one listing. */
  class Gallery {
    const property: Property
    var currentImageIndex: int
    var currentImageType: ImageType

    /** The index points at a shown image, or is 0 when the kind has no images. */
    predicate Valid()
      reads this
    {
      var n := |CurrentImages(property, currentImageType)|;
      if n == 0 then currentImageIndex == 0 else 0 <= currentImageIndex < n
    }

    constructor (p: Property)
      ensures property == p && currentImageIndex == 0 && currentImageType == Regular
      ensures Valid()
    {
      property := p;
      currentImageIndex := 0;
      currentImageType := Regular;
    }

    method NextImage()
      modifies this
      ensures currentImageType == old(currentImageType)
      ensures currentImageIndex == NextIndex(old(currentImageIndex), |CurrentImages(property, currentImageType)|)
      ensures old(Valid()) && |CurrentImages(property, currentImageType)| >= 1 ==> Valid()
    {
      var images := CurrentImages(property, currentImageType);
      currentImageIndex := if currentImageIndex == |images| - 1 then 0 else currentImageIndex + 1;
    }

    method PrevImage()
      modifies this
      ensures currentImageType == old(currentImageType)
      ensures currentImageIndex == PrevIndex(old(currentImageIndex), |CurrentImages(property, currentImageType)|)
      ensures old(Valid()) && |CurrentImages(property, currentImageType)| >= 1 ==> Valid()
    {
      var images := CurrentImages(property, currentImageType);
      currentImageIndex := if currentImageIndex == 0 then |images| - 1 else currentImageIndex - 1;
    }

    /** A kind button: switches the kind and goes back to the first image. */
    method SelectType(t: ImageType)
      modifies this
      ensures currentImageType == t && currentImageIndex == 0
      ensures Valid()
    {
      currentImageType := t;
      currentImageIndex := 0;
    }
  }

  /** The characters of a Drive file id: `[a-zA-Z0-9-_]`. */
  predicate IdChar(c: char) {
    'a' <= c <= 'z' || 'A' <= c <= 'Z' || '0' <= c <= '9' || c == '-' || c == '_'
  }

  /** The pattern `/\/d\/([a-zA-Z0-9-_]+)/` can start matching at position `i`. */
  predicate MatchesAt(url: string, i: int) {
    0 <= i && i + 4 <= |url| && url[i..i + 3] == "/d/" && IdChar(url[i + 3])
  }

  /** The longest run of id characters starting at `j`, as the greedy `+` takes it. */
  function IdRun(url: string, j: nat): (r: string)
    requires j <= |url|
    ensures j + |r| <= |url| && r == url[j..j + |r|]
    ensures forall m :: 0 <= m < |r| ==> IdChar(r[m])
    ensures j + |r| == |url| || !IdChar(url[j + |r|])
    decreases |url| - j
  {
    if j < |url| && IdChar(url[j]) then [url[j]] + IdRun(url, j + 1) else []
  }

  /** The leftmost position at or after `i` where the pattern matches. */
  function FirstMatch(url: string, i: nat): (r: Option<nat>)
    ensures r.Some? ==> i <= r.value && MatchesAt(url, r.value)
    ensures r.Some? ==> forall j :: i <= j < r.value ==> !MatchesAt(url, j)
    ensures r.None? ==> forall j :: i <= j ==> !MatchesAt(url, j)
    decreases |url| - i
  {
    if i + 4 > |url| then None
    else if MatchesAt(url, i) then Some(i)
    else FirstMatch(url, i + 1)
  }

  /** `url.match(...)?.[1]`: the id captured at the leftmost match. */
  function DriveFileId(url: string): (r: Option<string>)
    ensures r.None? <==> forall i :: !MatchesAt(url, i)
    ensures r.Some? ==> |r.value| >= 1
    ensures r.Some? ==> exists i :: MatchesAt(url, i) && (forall j :: 0 <= j < i ==> !MatchesAt(url, j)) && r.value == IdRun(url, i + 3)
  {
    match FirstMatch(url, 0)
    case None => None
    case Some(i) => Some(IdRun(url, i + 3))
  }

  /** `convertGoogleDriveUrl` */
  function ConvertGoogleDriveUrl(url: string): (r: string)
    ensures (forall i :: !MatchesAt(url, i)) ==> r == url
    ensures DriveFileId(url).Some? ==> r == "https://drive.google.com/file/d/" + DriveFileId(url).value + "/preview"
  {
    match DriveFileId(url)
    case None => url
    case Some(id) => "https://drive.google.com/file/d/" + id + "/preview"
  }

  /** The text the WhatsApp button pre-fills. */
  function WhatsAppMessage(p: Property): string {
    "Hi! I'm interested in " + p.name + " in " + p.location + ". Can you please provide more details?"
  }

  /**
   * `getWhatsAppUrl()`: the listing's WhatsApp number reduced to its decimal
   * digits, with the message URL-encoded by `encode` (`encodeURIComponent`).
   */
  function WhatsAppUrl(p: Property, encode: string -> string): (r: string)
    ensures r == WhatsAppPrefix + DigitsOnly(p.whatsappNumber) + "?text=" + encode(WhatsAppMessage(p))
    ensures forall i :: |WhatsAppPrefix| <= i < |WhatsAppPrefix| + |DigitsOnly(p.whatsappNumber)| ==> IsDigit(r[i])
  {
    DigitsOnlyAreDigits(p.whatsappNumber);
    WhatsAppPrefix + DigitsOnly(p.whatsappNumber) + "?text=" + encode(WhatsAppMessage(p))
  }

  const WhatsAppPrefix := "https://wa.me/"
}
