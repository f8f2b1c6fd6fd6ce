# VibeStays listing site — a Dafny model

VibeStays is a holiday-rental site. Visitors browse listings (villas, tents,
homestays, cabins, treehouses, houseboats…), narrow them with a filter bar and
sort them, open a listing's gallery, and contact the host on WhatsApp. Admins
manage the listings through a form and a management screen, and see a
dashboard with headline counts and per-state and per-type tallies.

This project models the logic behind those screens and proves what it
promises:

- **The listings query** (`ListingQuery`). The page copies the listings and
  runs up to six guarded filter stages in a fixed order: location text,
  property type, views, themes, guest capacity, price range. It then sorts
  the copy in place by one of five keys. `FilteredProperties` follows that
  code stage by stage and sorts an array by insertion. It is proved equal to
  the specification `Query`, a one-pass selection followed by a stable
  functional insertion sort. About `Query` the model proves:
  - exact membership: the filters combine with AND;
  - the result is a permutation of a subsequence of the input;
  - the empty filter is the identity;
  - an inverted price range gives nothing;
  - adjacent results are in key order, and the sort is stable.
- **The filter bar** (`FilterBar`). It toggles values in and out of the
  multi-select filters, handles the search box, the sort select, the clear
  button and the guest buttons, and counts the active filters for the badge.
- **The property form** (`PropertyForm`). It loads a listing into the form,
  edits the lists (add, remove, update, toggle a checkbox), and drops blank
  entries on submit.
- **The detail page** (`PropertyDetail`). It holds the gallery's index and
  image kind, the images each kind shows, the Google Drive preview link, and
  the WhatsApp link.
- **The mapping between the `properties` table and `Property` records**
  (`AdminMapping`), with its null defaults and round-trip laws for an insert
  and for an update.
- **The management screen** (`AdminProperties`): its search, its stats cards,
  and the form/edit/view state together with the requests it sends.
- **The admin dashboard** (`AdminDashboard`): the demo login, the
  name-or-location search, the stats, the recent strip, and the tallies.
- **The listing card's labels and tags** (`PropertyCard`), **the navigation
  bar** (`Navigation`), and **the demo sign-in hook** (`Auth`).

Shared modules:
- `Wrappers` holds `Option`.
- `Text` holds ASCII lower-casing, substring search, ECMA-262 white-space
  trimming, digit stripping and decimal printing.
- `Lists` holds remove-all, toggle and filter on sequences.
- `PropertyTypes` holds the records of the site's type definitions.

Modelling choices:
- Numbers (price, rating, review count, guests, timestamps) are unbounded
  integers. `createdAt` is an already-parsed timestamp.
- Browser storage is a map from keys to stored user records.
- The URL encoder is a parameter of `PropertyDetail.WhatsAppUrl`.
- Component state that a handler replaces is a class field. Every handler of
  the filter bar records the value it passes to `onFiltersChange` in
  `emitted`. The management screen records its create/update/delete requests
  in `requests`.

The location filter is one case-insensitive substring test of the whole query
against location, state and name. The code does not split the query on
commas, and the model follows the code. The WhatsApp link uses the listing's
`whatsappNumber`, as the code does.

## Model

| member | source | states |
|---|---|---|
| `ListingQuery.FilteredProperties` | src/pages/Properties.tsx:13-84 | The page's pipeline (copy, six guarded stages, in-place sort of the copy when a key is chosen) computes exactly `Query` |
| `ListingQuery.ApplyFilters` | src/pages/Properties.tsx:16-60 | The six stages run in order, each only when its guard holds, leave exactly the listings that pass all enabled stages, in input order |
| `ListingQuery.SortInPlace` | src/pages/Properties.tsx:63-81 | Sorting an array in place leaves the stable sort `SortBy` of its old contents |
| `ListingQuery.InsertLast` | src/pages/Properties.tsx:63-81 | One insertion pass puts `a[i]` into the sorted prefix exactly as `Insert` does and leaves the rest of the array alone |
| `ListingQuery.OpenGap` | src/pages/Properties.tsx:63-81 | The inner loop shifts right just the trailing elements the comparator puts after `x`, stopping at the first one it does not |
| `ListingQuery.KeepAllMembers` | src/pages/Properties.tsx:16-60 | A listing survives a list of stages iff it is in the input and passes every one of them |
| `ListingQuery.Advance` | src/pages/Properties.tsx:16-60 | Running one more stage on the survivors equals one pass with that stage added; a disabled stage changes nothing |
| `ListingQuery.ThroughIsKeepAll` | src/pages/Properties.tsx:14-60 | The first `n` guarded stages applied one after another select what a single pass over those `n` stages selects |
| `ListingQuery.KeepAllEverything` | src/pages/Properties.tsx:17-55 | When no stage's guard holds, no listing is dropped and the order is kept |
| `ListingQuery.QueryMembership` | src/pages/Properties.tsx:16-60 | A listing is shown iff it is an input listing and satisfies each enabled filter (substring, type, shared view, shared theme, capacity, inclusive price range) |
| `ListingQuery.QueryPermutesSubsequence` | src/pages/Properties.tsx:14-81 | The filtered listings are a subsequence of the input and the shown listings are a rearrangement of them |
| `ListingQuery.NoFiltersIsIdentity` | src/pages/Properties.tsx:13-84 | The empty filter shows every listing in the input order |
| `ListingQuery.InvertedRangeIsEmpty` | src/pages/Properties.tsx:55-60 | A price range whose lower bound exceeds its upper bound shows nothing |
| `ListingQuery.QuerySorted` | src/pages/Properties.tsx:63-81 | With a sort key, each adjacent pair of results is in that key's order |
| `ListingQuery.QueryStable` | src/pages/Properties.tsx:63-81 | Without a key the filtered order is kept; with one, listings with equal keys keep their filtered order |
| `ListingQuery.CompareIsRankDifference` | src/pages/Properties.tsx:64-80 | Each of the five comparators is the difference of one integer rank, so they all sort ascending by that rank |
| `ListingQuery.InsertPermutes` | src/pages/Properties.tsx:63-81 | One insertion adds exactly the inserted listing |
| `ListingQuery.SortByPermutes` | src/pages/Properties.tsx:63-81 | Sorting neither adds nor drops a listing |
| `ListingQuery.InsertSorted` | src/pages/Properties.tsx:63-81 | Inserting into a rank-sorted list keeps it rank-sorted |
| `ListingQuery.SortBySorted` | src/pages/Properties.tsx:63-81 | The sorted list is ordered by rank |
| `ListingQuery.SortByInOrder` | src/pages/Properties.tsx:64-80 | In the sorted list prices rise for `price_low` and price, rating, review count or creation time fall for the other keys |
| `ListingQuery.InsertStable` | src/pages/Properties.tsx:63-81 | An insertion appends the inserted listing to the listings of its key and leaves the order of the other keys alone |
| `ListingQuery.SortByStable` | src/pages/Properties.tsx:63-81 | Listings with equal keys keep their relative order through the sort |
| `ListingQuery.InsertLands` | src/pages/Properties.tsx:63-81 | The inserted listing lands just after the last listing that does not compare after it |
| `Lists.Toggle` | src/components/PropertyFilters.tsx:60-62 | The toggled value is present afterwards iff it was absent; other values keep their membership; an absent value is appended at the end, a present one is removed everywhere with the rest kept in order |
| `Lists.RemoveAll` | src/components/PropertyFilters.tsx:61 | Every occurrence of the value is removed and nothing else; a list without it is unchanged |
| `Lists.RemoveAllCount` | src/components/PropertyFilters.tsx:61 | Removing a value shortens the list by exactly its number of occurrences |
| `Lists.ToggleTwiceAbsent` | src/components/PropertyFilters.tsx:60-62 | Toggling an absent value twice gives back the original list |
| `Lists.ToggleTwicePresent` | src/components/PropertyFilters.tsx:60-62 | Toggling a present value twice moves it to the end, with one copy only |
| `FilterBar.ArrayFilter` | src/components/PropertyFilters.tsx:55-67 | The keyed list becomes the toggled list, an emptied list becomes absent, and every other filter field is unchanged |
| `FilterBar.SearchFilter` | src/components/PropertyFilters.tsx:69-74 | Location becomes the typed text, or absent for the empty text, and nothing else changes |
| `FilterBar.GuestFilter` | src/components/PropertyFilters.tsx:216-222 | Pressing the selected count clears it, any other count replaces it, nothing else changes |
| `FilterBar.GuestPressTwice` | src/components/PropertyFilters.tsx:216-222 | Two presses of one button restore the filter iff no count or that count was selected |
| `FilterBar.GuestChoiceActivates` | src/components/PropertyFilters.tsx:211-222 | Selecting any offered count switches on the capacity stage of the listings page |
| `FilterBar.CountActive` | src/components/PropertyFilters.tsx:89-98 | The badge counts at most one per stage |
| `FilterBar.CountPipeline` | src/components/PropertyFilters.tsx:89-98 | The badge over the six stages is the sum of the six guards, in the order the badge tallies them |
| `FilterBar.CountZeroIffNoneActive` | src/components/PropertyFilters.tsx:89-98 | The count is zero iff no stage is switched on |
| `FilterBar.NoBadgeShowsAll` | src/components/PropertyFilters.tsx:89-98 | A zero badge means the listings page drops nothing |
| `FilterBar.CountIgnoresSort` | src/components/PropertyFilters.tsx:89-98 | The count does not depend on the sort key |
| `FilterBar.FilterBar.constructor` | src/components/PropertyFilters.tsx:18-20 | The panel starts closed, with the initial filters and their location as the search text |
| `FilterBar.FilterBar.HandleArrayFilter` | src/components/PropertyFilters.tsx:55-67 | Stores `ArrayFilter` of the old filters and emits exactly the stored value |
| `FilterBar.FilterBar.HandleSearchChange` | src/components/PropertyFilters.tsx:69-74 | Sets the search text, stores `SearchFilter`, emits the stored value |
| `FilterBar.FilterBar.HandleSortChange` | src/components/PropertyFilters.tsx:76-80 | Changes only the sort key and emits the stored value |
| `FilterBar.FilterBar.ClearFilters` | src/components/PropertyFilters.tsx:82-87 | Stores and emits the empty filter and empties the search text |
| `FilterBar.FilterBar.PressGuests` | src/components/PropertyFilters.tsx:216-223 | Stores `GuestFilter` of the old filters and emits it |
| `FilterBar.FilterBar.ToggleOpen` | src/components/PropertyFilters.tsx:117 | Flips the panel and changes nothing else |
| `FilterBar.FilterBar.ActiveFilterCount` | src/components/PropertyFilters.tsx:89-98 | The six increments give `CountActive` over the page's stages, between 0 and 6 |
| `PropertyForm.WithList` | src/components/admin/PropertyForm.tsx:101-122 | `{ ...prev, [field]: s }` replaces one list field and leaves every other list, tag and scalar field alone |
| `PropertyForm.WithTags` | src/components/admin/PropertyForm.tsx:124-131 | Replacing one tag list leaves the other and every free-text list alone |
| `PropertyForm.RemoveAt` | src/components/admin/PropertyForm.tsx:108-113 | An index in range drops exactly that entry, shifting the later ones down; any other index changes nothing |
| `PropertyForm.UpdateAt` | src/components/admin/PropertyForm.tsx:115-122 | The length is kept, the indexed entry becomes the value, the others are kept |
| `PropertyForm.AddThenRemove` | src/components/admin/PropertyForm.tsx:101-113 | Removing the box just added restores the list |
| `PropertyForm.UpdateLaws` | src/components/admin/PropertyForm.tsx:115-122 | Writing an entry's own value changes nothing; of two writes to one box the later wins |
| `PropertyForm.RemoveKeepsABox` | src/components/admin/PropertyForm.tsx:369-370 | A remove button is only offered on lists of two boxes or more, so a box always remains |
| `PropertyForm.DropBlanks` | src/components/admin/PropertyForm.tsx:91-95 | The submitted list is no longer than the edited one |
| `PropertyForm.DropBlanksMembers` | src/components/admin/PropertyForm.tsx:91-95 | An entry is submitted iff it was in the list and is not all white space |
| `PropertyForm.DropBlanksAppend` | src/components/admin/PropertyForm.tsx:91-95 | Dropping blanks distributes over concatenation, so kept entries stay in order |
| `PropertyForm.DropBlanksKeepsFilled` | src/components/admin/PropertyForm.tsx:91-95 | A list with no blank entry is submitted unchanged |
| `PropertyForm.DropBlanksOfEmptyBox` | src/components/admin/PropertyForm.tsx:91-95 | A single empty box is submitted as an empty list |
| `PropertyForm.BoxesFor` | src/components/admin/PropertyForm.tsx:59-72 | A loaded list is kept when non-empty and becomes one empty box otherwise |
| `PropertyForm.LoadFromProperty` | src/components/admin/PropertyForm.tsx:52-80 | Every field is copied, the four numbers as decimal text, an empty unit or type replaced by `night`/`villa`, and each free-text list given at least one box |
| `PropertyForm.Submitted` | src/components/admin/PropertyForm.tsx:82-99 | Each free-text list is submitted without its blank entries; every other field is passed on unchanged |
| `PropertyForm.DropBlanksOfBoxes` | src/components/admin/PropertyForm.tsx:59-95 | A list and its boxes submit the same entries |
| `PropertyForm.LoadThenSubmit` | src/components/admin/PropertyForm.tsx:52-99 | Submitting an untouched loaded form gives each list of the listing without its blank entries |
| `PropertyForm.InitialSubmitsEmptyLists` | src/components/admin/PropertyForm.tsx:26-99 | An untouched empty form submits every free-text list empty |
| `PropertyForm.PropertyForm.constructor` | src/components/admin/PropertyForm.tsx:26-80 | The form starts empty, or loaded from the listing being edited |
| `PropertyForm.PropertyForm.AddArrayField` | src/components/admin/PropertyForm.tsx:101-106 | Appends one empty box to the field and changes nothing else |
| `PropertyForm.PropertyForm.RemoveArrayField` | src/components/admin/PropertyForm.tsx:108-113 | The field becomes `RemoveAt` of itself, nothing else changes |
| `PropertyForm.PropertyForm.UpdateArrayField` | src/components/admin/PropertyForm.tsx:115-122 | The field becomes `UpdateAt` of itself, nothing else changes |
| `PropertyForm.PropertyForm.ToggleCheckbox` | src/components/admin/PropertyForm.tsx:124-131 | The tag is present afterwards iff it was absent before; only that tag list changes |
| `Text.TrimEmptyIffBlank` | src/components/admin/PropertyForm.tsx:91-95 | `trim()` gives the empty string iff every character is ECMA-262 white space |
| `PropertyDetail.CurrentImages` | src/pages/PropertyDetail.tsx:128-139 | Photos show the listing's images, seasonal exactly the three placeholder images, 360 exactly one image, video the videos or nothing |
| `PropertyDetail.StepsStayInRange` | src/pages/PropertyDetail.tsx:141-153 | Inside `n >= 1` images both arrows keep the index in range and undo each other |
| `PropertyDetail.StepsAreModular` | src/pages/PropertyDetail.tsx:141-153 | The arrows step by plus and minus one modulo the number of images |
| `PropertyDetail.AdvanceWraps` | src/pages/PropertyDetail.tsx:141-146 | Up to `n` presses of next move that many places forward, wrapping once past the last image |
| `PropertyDetail.FullCircle` | src/pages/PropertyDetail.tsx:141-146 | `n` presses of next return to the starting image |
| `PropertyDetail.Gallery.constructor` | src/pages/PropertyDetail.tsx:17-19 | The gallery opens on the first photo |
| `PropertyDetail.Gallery.NextImage` | src/pages/PropertyDetail.tsx:141-146 | The last index goes to 0, any other goes up by one; a valid index stays valid |
| `PropertyDetail.Gallery.PrevImage` | src/pages/PropertyDetail.tsx:148-153 | Index 0 goes to the last image, any other goes down by one; a valid index stays valid |
| `PropertyDetail.Gallery.SelectType` | src/pages/PropertyDetail.tsx:197-205 | Choosing a kind shows it from its first image |
| `PropertyDetail.IdRun` | src/pages/PropertyDetail.tsx:24 | The greedy `+` takes the maximal run of id characters |
| `PropertyDetail.FirstMatch` | src/pages/PropertyDetail.tsx:24 | The match found is the leftmost place where `/d/` is followed by an id character |
| `PropertyDetail.DriveFileId` | src/pages/PropertyDetail.tsx:23-29 | There is an id iff the pattern matches somewhere; it is non-empty and is the run at the leftmost match |
| `PropertyDetail.ConvertGoogleDriveUrl` | src/pages/PropertyDetail.tsx:23-29 | A matching link becomes the Drive preview link of its id; any other link is returned unchanged |
| `PropertyDetail.WhatsAppUrl` | src/pages/PropertyDetail.tsx:119-126 | The link is the wa.me prefix, the WhatsApp number's digits, and the encoded message; the number part is all digits |
| `Text.DigitsOnly` | src/pages/PropertyDetail.tsx:125 | The kept characters are exactly the digits of the input |
| `Text.DigitsOnlyAreDigits` | src/pages/PropertyDetail.tsx:125 | Every kept character is a decimal digit |
| `Text.DigitsOnlyKeepsDigits` | src/pages/PropertyDetail.tsx:125 | A number that is all digits is kept whole |
| `Text.DigitsOnlyAppend` | src/pages/PropertyDetail.tsx:125 | Stripping distributes over concatenation, so the digits keep their order |
| `AdminMapping.MapDatabaseToProperty` | src/hooks/useAdminProperties.ts:9-40 | Every column is copied to its field; null lists read as empty, a null rating or review count as 0, null flags as false; no reviews |
| `AdminMapping.MapPropertyToDatabase` | src/hooks/useAdminProperties.ts:43-68 | Every editable field is written under its column name |
| `AdminMapping.WriteIgnoresDatabaseFields` | src/hooks/useAdminProperties.ts:43-68 | The write is the same whatever the id, rating, review count, reviews and timestamps |
| `AdminMapping.Stored` | src/hooks/useAdminProperties.ts:87-93 | The row an insert creates: every column is the written value (the nullable lists and flags as non-null), an unset videos or seasonal-images list is null, and the id, rating, review count and timestamps are the database's |
| `AdminMapping.Updated` | src/hooks/useAdminProperties.ts:116-123 | The row after an update: every written column replaced, an unset videos or seasonal-images list keeps its old column, and the id, rating, review count and creation time are the row's own |
| `AdminMapping.RoundTrip` | src/hooks/useAdminProperties.ts:9-68 | Inserting a listing and reading the row back restores every written field; absent videos and seasonal images come back empty |
| `AdminMapping.UpdateRoundTrip` | src/hooks/useAdminProperties.ts:9-68 | Updating a row with a listing and reading it back restores every written field; an absent videos or seasonal-images list reads as the row had it |
| `AdminMapping.EditKeepsSeasonalImages` | src/hooks/useAdminProperties.ts:116-123 | An edit from the admin form, which carries no seasonal images, keeps the stored seasonal images |
| `AdminMapping.NullRowDefaults` | src/hooks/useAdminProperties.ts:16-37 | A row with every nullable column null reads as empty lists, no rating, no reviews and no flags |
| `AdminProperties.SearchResults` | src/pages/AdminProperties.tsx:27-32 | A listing is a result iff the lower-cased query occurs in its name, location, state or host's name |
| `AdminProperties.EmptySearchKeepsAll` | src/pages/AdminProperties.tsx:27-32 | An empty search lists every listing in order |
| `AdminProperties.Featured` | src/pages/AdminProperties.tsx:124 | Exactly the featured listings |
| `AdminProperties.Verified` | src/pages/AdminProperties.tsx:130 | Exactly the verified listings |
| `AdminProperties.ScreenStats` | src/pages/AdminProperties.tsx:118-136 | Featured, verified and result counts are each at most the total; an empty search shows the total |
| `AdminProperties.Screen.constructor` | src/pages/AdminProperties.tsx:14-17 | No search, no form, nothing edited or viewed |
| `AdminProperties.Screen.SetSearchQuery` | src/pages/AdminProperties.tsx:14 | Only the search text changes |
| `AdminProperties.Screen.HandleAddProperty` | src/pages/AdminProperties.tsx:34-37 | An empty form is shown |
| `AdminProperties.Screen.HandleEditProperty` | src/pages/AdminProperties.tsx:39-43 | The form for the listing is shown and the detail view closed |
| `AdminProperties.Screen.HandleViewProperty` | src/pages/AdminProperties.tsx:45-47 | The detail view shows the listing |
| `AdminProperties.Screen.CloseView` | src/pages/AdminProperties.tsx:155 | The detail view closes |
| `AdminProperties.Screen.HandleDeleteProperty` | src/pages/AdminProperties.tsx:49-53 | A delete request is sent iff the user confirms |
| `AdminProperties.Screen.HandleFormSubmit` | src/pages/AdminProperties.tsx:55-67 | An update of the edited listing, or a create when none is edited; only success closes the form |
| `AdminProperties.Screen.HandleFormCancel` | src/pages/AdminProperties.tsx:69-72 | The form closes and nothing is edited |
| `AdminDashboard.Dashboard.constructor` | src/pages/Admin.tsx:18-19 | Signed out with empty credentials |
| `AdminDashboard.Dashboard.SetCredentials` | src/pages/Admin.tsx:19 | Only the typed credentials change |
| `AdminDashboard.Dashboard.HandleLogin` | src/pages/Admin.tsx:21-29 | Signs in iff email and password are the demo pair; otherwise alerts and changes nothing |
| `AdminDashboard.Dashboard.Logout` | src/pages/Admin.tsx:110 | Always signs out |
| `AdminDashboard.SearchResults` | src/pages/Admin.tsx:31-34 | A listing is a result iff the lower-cased query occurs in its name or location |
| `AdminDashboard.NarrowerThanManagementSearch` | src/pages/Admin.tsx:31-34 | Every dashboard result is also a result of the management screen's search, so it never finds more |
| `AdminDashboard.LocationHitIsManagementHit` | src/pages/Admin.tsx:31-34 | Whatever the listings page's location filter keeps, the management search also finds |
| `AdminDashboard.DashboardStats` | src/pages/Admin.tsx:36-41 | The total is the number of listings, featured and verified are at most it, and the review total is the sum of review counts |
| `AdminDashboard.TotalReviewsAppend` | src/pages/Admin.tsx:40 | The review sum adds up over any split of the list |
| `AdminDashboard.TotalReviewsBounds` | src/pages/Admin.tsx:40 | With non-negative counts the total is at least each listing's count |
| `AdminDashboard.TotalReviewsNonNegative` | src/pages/Admin.tsx:40 | With non-negative counts the total is non-negative |
| `AdminDashboard.Recent` | src/pages/Admin.tsx:191 | The first `min(3, n)` listings, in order |
| `AdminDashboard.IndexOf` | src/pages/Admin.tsx:354 | The first place of a key in the tally, or -1 when it is not there |
| `AdminDashboard.BumpSpec` | src/pages/Admin.tsx:354 | One update keeps the keys distinct and counts positive, adds one to its key and to the sum, and leaves other counts alone |
| `AdminDashboard.TallySpec` | src/pages/Admin.tsx:352-356 | The tally lists each key once, counts each key exactly as often as it occurs, and its counts sum to the number of keys |
| `AdminDashboard.TallyListsOccurringKeys` | src/pages/Admin.tsx:352-356 | A key is listed iff it occurs |
| `AdminDashboard.Tally` | src/pages/Admin.tsx:352-356 | The reduce with its record updated in place computes exactly `TallyOf`: distinct keys, each with a positive count equal to its occurrences, summing to the number of keys; no key is listed with 0 |
| `AdminDashboard.StateTally` | src/pages/Admin.tsx:352-356 | Per-state counts are exact and positive, only occurring states are listed, and the counts sum to the number of listings |
| `AdminDashboard.TypeTally` | src/pages/Admin.tsx:373-377 | Per-type counts are exact and positive, only occurring types are listed, and the counts sum to the number of listings |
| `PropertyCard.TypeLabel` | src/components/PropertyCard.tsx:19-29 | A listed type gets its label, any other type is shown as itself |
| `PropertyCard.LabelsAreCapitalised` | src/components/PropertyCard.tsx:20-27 | Each of the six labels is its type with a capital first letter |
| `PropertyCard.LabelledTypes` | src/components/PropertyCard.tsx:20-27 | Exactly the six listed types have labels |
| `PropertyCard.UnlistedTypesShowAsThemselves` | src/components/PropertyCard.tsx:28 | `cottage` and `resort` are shown unchanged |
| `PropertyCard.TypeLabelIdempotent` | src/components/PropertyCard.tsx:19-29 | Labelling a label changes nothing |
| `PropertyCard.FirstTwo` | src/components/PropertyCard.tsx:104 | At most two tags, the first ones in order |
| `PropertyCard.FirstTwoShowsOwnTags` | src/components/PropertyCard.tsx:104-109 | Every shown tag is the listing's; two tags or fewer are all shown |
| `PropertyCard.ShownTags` | src/components/PropertyCard.tsx:102-113 | A full card shows the first two views then the first two themes, at most four tags; a compact card shows none |
| `Navigation.HomeActiveOnlyAtRoot` | src/components/Navigation.tsx:19-21 | Home is highlighted iff the path is exactly `/` |
| `Navigation.ItemActiveBelowOwnPath` | src/components/Navigation.tsx:11-23 | Each item is highlighted on its own path, and the others also on every path below it |
| `Navigation.RootHighlightsOnlyHome` | src/components/Navigation.tsx:11-23 | On `/` no item but Home is highlighted |
| `Navigation.AtMostOneActive` | src/components/Navigation.tsx:11-23 | No path highlights two items |
| `Navigation.Menu.constructor` | src/components/Navigation.tsx:8 | The menu starts closed |
| `Navigation.Menu.Toggle` | src/components/Navigation.tsx:76 | The menu button flips the menu |
| `Navigation.Menu.ClickLink` | src/components/Navigation.tsx:94 | A link always closes the menu |
| `Auth.Restored` | src/hooks/useAuth.ts:16-19 | A stored user is found iff the key is present, and it is the stored record |
| `Auth.TwoCredentialChecks` | src/hooks/useAuth.ts:25 | The hook rejects the dashboard's own demo pair: same email, other password |
| `Auth.SignInSurvivesReload` | src/hooks/useAuth.ts:25-33 | After a successful sign-in a reload restores the admin user |
| `Auth.SignOutSurvivesReload` | src/hooks/useAuth.ts:39-43 | After a sign-out a reload finds nobody |
| `Auth.AuthState.constructor` | src/hooks/useAuth.ts:11-12 | Nobody signed in, still loading |
| `Auth.AuthState.Mount` | src/hooks/useAuth.ts:14-21 | The stored user is restored when the key is present; loading ends; storage is untouched |
| `Auth.AuthState.SignIn` | src/hooks/useAuth.ts:23-37 | The admin pair sets and stores the fixed admin user with no error; any other pair returns the error and changes nothing |
| `Auth.AuthState.SignOut` | src/hooks/useAuth.ts:39-43 | Nobody signed in and the stored copy removed |
| `Auth.AuthState.CurrentSession` | src/hooks/useAuth.ts:47 | A session exists iff a user is signed in, and it holds that user |

## Left out

- Rendering, animation, styling and routing: these are display only.
- Supabase queries and mutations, query caching, toasts and simulated delays: these are I/O. The management screen records the requests it would send, and the success of a save is a parameter of `HandleFormSubmit`.
- Number parsing on submit (`parseFloat`/`parseInt`), `Number(...)` coercion, price and percentage formatting: these involve floating point or locale. The form keeps its numbers as text, and loading writes them with a decimal printer.
- Column defaults of the `properties` table: an insert that leaves videos or seasonal images unset is modelled as storing null, which reads back as an empty list either way.
- Date parsing in the `newest` sort: `createdAt` is an integer timestamp, and the NaN case of an unparsable date is not modelled.
- `encodeURIComponent`: it is a parameter of `PropertyDetail.WhatsAppUrl`.
- The regular-expression engine: the Drive link pattern is written out as a leftmost, greedy match.
- Unicode case mapping: `toLowerCase` is modelled on ASCII letters only.
- `JSON.parse`/`JSON.stringify` and the real localStorage: storage is a map from keys to user records, so a stored value is always a well-formed user.
- JavaScript property-name quirks: a label lookup or a tally key that hits an inherited object property (`constructor`, `__proto__`) is not modelled.
- `Object.entries` ordering: it lists integer-like keys first. The model keeps every key in first-insertion order.
- `Array.prototype.sort`: modelled by its required stable result, since an insertion sort is one stable algorithm among many.
- `PropertyDetail.Gallery.NextImage`: promises to keep the index valid only when the current kind has at least one image. The page shows the arrows only when there are two or more.
- `PropertyDetail.Gallery.PrevImage`: promises to keep the index valid only when the current kind has at least one image, for the same reason.
- The gallery's enlarged view, the video index and the review and experience mock data of the detail page: these are display state.
- `FilterBar.FilterBar.HandleSortChange`: takes one of the five keys. The select cannot produce any other string.
- The property form's video list: it is loaded and filtered like the others, but the form renders no editor for it.
- `useAdminAuth`, the listing view dialog, the landing, about and contact pages: these are thin wrappers or static pages.
