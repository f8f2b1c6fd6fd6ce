/**
 * The domain records of the site: a listing (`Property`), a guest review and the
 * options the listings page filters and sorts by. Numbers are integers (a rating
 * is an integer on the site's own scale); `createdAt` and `updatedAt` are
 * timestamps that have already been parsed into integers.
 */
module PropertyTypes {
  import opened Wrappers

  datatype Review = Review(
    id: string,
    propertyId: string,
    guestName: string,
    rating: int,
    comment: string,
    verified: bool,
    createdAt: int,
    approved: bool)

  datatype Property = Property(
    id: string,
    name: string,
    location: string,
    state: string,
    price: int,
    priceUnit: string,
    images: seq<string>,
    videos: Option<seq<string>>,
    seasonalImages: Option<seq<string>>,
    description: string,
    shortDescription: string,
    maxGuests: int,
    bedrooms: int,
    bathrooms: int,
    propertyType: string,
    views: seq<string>,
    themes: seq<string>,
    amenities: seq<string>,
    nearbyExperiences: seq<string>,
    localTips: seq<string>,
    hostName: string,
    contactNumber: string,
    whatsappNumber: string,
    rating: int,
    reviewCount: int,
    reviews: seq<Review>,
    featured: bool,
    verified: bool,
    createdAt: int,
    updatedAt: int)

  /** The five orderings the listings page offers. */
  datatype SortKey = Rating | PriceLow | PriceHigh | Popular | Newest

  /** Every field is optional; an absent field imposes nothing. */
  datatype FilterOptions = FilterOptions(
    location: Option<string>,
    priceRange: Option<(int, int)>,
    maxGuests: Option<int>,
    propertyType: Option<seq<string>>,
    views: Option<seq<string>>,
    themes: Option<seq<string>>,
    sortBy: Option<SortKey>)

  /** The empty filter `{}`. */
  const NoFilters := FilterOptions(None, None, None, None, None, None, None)
}
