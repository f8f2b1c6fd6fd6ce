/**
 * The translation between rows of the `properties` table (snake_case columns,
 * some nullable) and the site's `Property` records, in both directions.
 * Timestamps are integers on both sides, as in the rest of the model.
 */
module AdminMapping {
  import opened Wrappers
  import opened PropertyTypes

  /** A row of the `properties` table; `None` is a SQL null. */
  datatype PropertyRow = PropertyRow(
    amenities: Option<seq<string>>,
    bathrooms: int,
    bedrooms: int,
    contact_number: string,
    created_at: int,
    description: string,
    featured: Option<bool>,
    host_name: string,
    id: string,
    images: seq<string>,
    local_tips: Option<seq<string>>,
    location: string,
    max_guests: int,
    name: string,
    nearby_experiences: Option<seq<string>>,
    price: int,
    price_unit: string,
    property_type: string,
    rating: Option<int>,
    review_count: Option<int>,
    seasonal_images: Option<seq<string>>,
    short_description: string,
    state: string,
    themes: Option<seq<string>>,
    updated_at: int,
    verified: Option<bool>,
    videos: Option<seq<string>>,
    views: Option<seq<string>>,
    whatsapp_number: string)

  /**
   * The object written on create and update: the editable columns only. A
   * listing without videos or seasonal images leaves those columns unset.
   */
  datatype PropertyWrite = PropertyWrite(
    name: string,
    location: string,
    state: string,
    price: int,
    price_unit: string,
    images: seq<string>,
    videos: Option<seq<string>>,
    seasonal_images: Option<seq<string>>,
    description: string,
    short_description: string,
    max_guests: int,
    bedrooms: int,
    bathrooms: int,
    property_type: string,
    views: seq<string>,
    themes: seq<string>,
    amenities: seq<string>,
    nearby_experiences: seq<string>,
    local_tips: seq<string>,
    host_name: string,
    contact_number: string,
    whatsapp_number: string,
    featured: bool,
    verified: bool)

  /**
   * `mapDatabaseToProperty`: each column copied to its field, null lists read
   * as empty, a null rating or review count as 0, null flags as false, and no
   * reviews attached.
   */
  function MapDatabaseToProperty(row: PropertyRow): (p: Property)
    ensures p.id == row.id && p.name == row.name && p.location == row.location && p.state == row.state
    ensures p.price == row.price && p.priceUnit == row.price_unit && p.images == row.images
    ensures p.videos == Some(row.videos.GetOr([])) && p.seasonalImages == Some(row.seasonal_images.GetOr([]))
    ensures p.description == row.description && p.shortDescription == row.short_description
    ensures p.maxGuests == row.max_guests && p.bedrooms == row.bedrooms && p.bathrooms == row.bathrooms
    ensures p.propertyType == row.property_type
    ensures p.views == row.views.GetOr([]) && p.themes == row.themes.GetOr([])
    ensures p.amenities == row.amenities.GetOr([]) && p.localTips == row.local_tips.GetOr([])
    ensures p.nearbyExperiences == row.nearby_experiences.GetOr([])
    ensures p.hostName == row.host_name && p.contactNumber == row.contact_number
    ensures p.whatsappNumber == row.whatsapp_number
    ensures p.rating == row.rating.GetOr(0) && p.reviewCount == row.review_count.GetOr(0)
    ensures p.reviews == []
    ensures p.featured == row.featured.GetOr(false) && p.verified == row.verified.GetOr(false)
    ensures p.createdAt == row.created_at && p.updatedAt == row.updated_at
  {
    Property(
      row.id, row.name, row.location, row.state,
      row.price, row.price_unit,
      row.images,
      Some(row.videos.GetOr([])),
      Some(row.seasonal_images.GetOr([])),
      row.description, row.short_description,
      row.max_guests, row.bedrooms, row.bathrooms,
      row.property_type,
      row.views.GetOr([]), row.themes.GetOr([]),
      row.amenities.GetOr([]), row.nearby_experiences.GetOr([]), row.local_tips.GetOr([]),
      row.host_name, row.contact_number, row.whatsapp_number,
      row.rating.GetOr(0), row.review_count.GetOr(0),
      [],
      row.featured.GetOr(false), row.verified.GetOr(false),
      row.created_at, row.updated_at)
  }

  /** `mapPropertyToDatabase`: the editable fields under their column names. */
  function MapPropertyToDatabase(p: Property): (w: PropertyWrite)
    ensures w.name == p.name && w.location == p.location && w.state == p.state
    ensures w.price == p.price && w.price_unit == p.priceUnit && w.images == p.images
    ensures w.videos == p.videos && w.seasonal_images == p.seasonalImages
    ensures w.views == p.views && w.themes == p.themes && w.amenities == p.amenities
    ensures w.nearby_experiences == p.nearbyExperiences && w.local_tips == p.localTips
    ensures w.host_name == p.hostName && w.whatsapp_number == p.whatsappNumber
    ensures w.featured == p.featured && w.verified == p.verified
    ensures w.description == p.description && w.short_description == p.shortDescription
    ensures w.max_guests == p.maxGuests && w.bedrooms == p.bedrooms && w.bathrooms == p.bathrooms
    ensures w.property_type == p.propertyType && w.contact_number == p.contactNumber
  {
    PropertyWrite(
      p.name, p.location, p.state, p.price, p.priceUnit,
      p.images, p.videos, p.seasonalImages,
      p.description, p.shortDescription,
      p.maxGuests, p.bedrooms, p.bathrooms,
      p.propertyType,
      p.views, p.themes, p.amenities, p.nearbyExperiences, p.localTips,
      p.hostName, p.contactNumber, p.whatsappNumber,
      p.featured, p.verified)
  }

  /** The written object does not depend on the fields the database owns. */
  lemma WriteIgnoresDatabaseFields(p: Property, id: string, rating: int, reviewCount: int,
                                   reviews: seq<Review>, createdAt: int, updatedAt: int)
    ensures MapPropertyToDatabase(p.(id := id, rating := rating, reviewCount := reviewCount,
      reviews := reviews, createdAt := createdAt, updatedAt := updatedAt)) == MapPropertyToDatabase(p)
  {
  }

  /**
   * The row an insert of `w` creates: the database supplies the id, the
   * rating, the review count and both timestamps, and a list the write leaves
   * unset (videos, seasonal images) is stored as null.
   */
  function Stored(w: PropertyWrite, id: string, rating: Option<int>, reviewCount: Option<int>,
                  createdAt: int, updatedAt: int): (row: PropertyRow)
    ensures row.id == id && row.rating == rating && row.review_count == reviewCount
    ensures row.created_at == createdAt && row.updated_at == updatedAt
    ensures row.name == w.name && row.location == w.location && row.state == w.state
    ensures row.price == w.price && row.price_unit == w.price_unit && row.images == w.images
    ensures row.videos == w.videos && row.seasonal_images == w.seasonal_images
    ensures row.description == w.description && row.short_description == w.short_description
    ensures row.max_guests == w.max_guests && row.bedrooms == w.bedrooms && row.bathrooms == w.bathrooms
    ensures row.property_type == w.property_type
    ensures row.views == Some(w.views) && row.themes == Some(w.themes) && row.amenities == Some(w.amenities)
    ensures row.nearby_experiences == Some(w.nearby_experiences) && row.local_tips == Some(w.local_tips)
    ensures row.host_name == w.host_name && row.contact_number == w.contact_number
    ensures row.whatsapp_number == w.whatsapp_number
    ensures row.featured == Some(w.featured) && row.verified == Some(w.verified)
  {
    PropertyRow(
      Some(w.amenities), w.bathrooms, w.bedrooms, w.contact_number, createdAt,
      w.description, Some(w.featured), w.host_name, id, w.images,
      Some(w.local_tips), w.location, w.max_guests, w.name,
      Some(w.nearby_experiences), w.price, w.price_unit, w.property_type,
      rating, reviewCount, w.seasonal_images, w.short_description, w.state,
      Some(w.themes), updatedAt, Some(w.verified), w.videos, Some(w.views),
      w.whatsapp_number)
  }

  /**
   * Inserting a listing and reading it back restores every field the write
   * carries; videos and seasonal images come back as given when present and
   * as empty lists when absent, and the database's own fields come from the row.
   */
  lemma RoundTrip(p: Property, id: string, rating: Option<int>, reviewCount: Option<int>,
                  createdAt: int, updatedAt: int)
    ensures MapDatabaseToProperty(Stored(MapPropertyToDatabase(p), id, rating, reviewCount, createdAt, updatedAt)) ==
      p.(id := id, videos := Some(p.videos.GetOr([])), seasonalImages := Some(p.seasonalImages.GetOr([])),
         rating := rating.GetOr(0), reviewCount := reviewCount.GetOr(0), reviews := [],
         createdAt := createdAt, updatedAt := updatedAt)
  {
  }

  /**
   * The row after an update of `row` with `w`: every written column is
   * replaced, a list the write leaves unset keeps its old value (the key is
   * dropped from the request), and the id, rating, review count and creation
   * time stay the row's own.
   */
  function Updated(row: PropertyRow, w: PropertyWrite, updatedAt: int): (r: PropertyRow)
    ensures r.id == row.id && r.rating == row.rating && r.review_count == row.review_count
    ensures r.created_at == row.created_at && r.updated_at == updatedAt
    ensures r.videos == (if w.videos.Some? then w.videos else row.videos)
    ensures r.seasonal_images == (if w.seasonal_images.Some? then w.seasonal_images else row.seasonal_images)
    ensures r == Stored(w, row.id, row.rating, row.review_count, row.created_at, updatedAt)
                   .(videos := r.videos, seasonal_images := r.seasonal_images)
  {
    PropertyRow(
      Some(w.amenities), w.bathrooms, w.bedrooms, w.contact_number, row.created_at,
      w.description, Some(w.featured), w.host_name, row.id, w.images,
      Some(w.local_tips), w.location, w.max_guests, w.name,
      Some(w.nearby_experiences), w.price, w.price_unit, w.property_type,
      row.rating, row.review_count,
      if w.seasonal_images.Some? then w.seasonal_images else row.seasonal_images,
      w.short_description, w.state,
      Some(w.themes), updatedAt, Some(w.verified),
      if w.videos.Some? then w.videos else row.videos,
      Some(w.views), w.whatsapp_number)
  }

  /**
   * Updating a row with a listing and reading it back restores every written
   * field; a list the listing leaves unset reads as the row had it before.
   */
  lemma UpdateRoundTrip(row: PropertyRow, p: Property, updatedAt: int)
    ensures var before := MapDatabaseToProperty(row);
      MapDatabaseToProperty(Updated(row, MapPropertyToDatabase(p), updatedAt)) ==
      p.(id := row.id,
         videos := if p.videos.Some? then Some(p.videos.value) else before.videos,
         seasonalImages := if p.seasonalImages.Some? then Some(p.seasonalImages.value) else before.seasonalImages,
         rating := before.rating, reviewCount := before.reviewCount, reviews := [],
         createdAt := before.createdAt, updatedAt := updatedAt)
  {
  }

  /** An edit that carries no seasonal images, as the admin form's never does, keeps the stored ones. */
  lemma EditKeepsSeasonalImages(row: PropertyRow, p: Property, updatedAt: int)
    requires p.seasonalImages.None?
    ensures MapDatabaseToProperty(Updated(row, MapPropertyToDatabase(p), updatedAt)).seasonalImages ==
      MapDatabaseToProperty(row).seasonalImages
  {
  }

  /** A row with every nullable column null reads as a listing with empty lists, no rating and no flags. */
  lemma NullRowDefaults(row: PropertyRow)
    requires row.amenities.None? && row.local_tips.None? && row.nearby_experiences.None?
    requires row.themes.None? && row.views.None? && row.videos.None? && row.seasonal_images.None?
    requires row.rating.None? && row.review_count.None? && row.featured.None? && row.verified.None?
    ensures var p := MapDatabaseToProperty(row);
      p.amenities == [] && p.localTips == [] && p.nearbyExperiences == [] && p.themes == [] &&
      p.views == [] && p.videos == Some([]) && p.seasonalImages == Some([]) &&
      p.rating == 0 && p.reviewCount == 0 && !p.featured && !p.verified
  {
  }
}
