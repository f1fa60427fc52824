# LinkinBio store and link editor, in Dafny

LinkinBio is a link-in-bio page: one profile with a list of links the
owner can add, delete and reorder by drag and drop. The server keeps
everything in an in-memory store. This project models that store and the
rules around it, and proves what they promise.

- **Storage.MemStorage** is a class with fields for:
  - the profile map and the link map;
  - the two id counters;
  - the link map's iteration order (`linkOrder`), because a JavaScript
    `Map` iterates in insertion order and `getLinks` depends on it.

  The query `getLinks` is the function `LinkQuery.LinksOf`. It takes the
  map's values in iteration order, keeps one profile's links, and sorts
  them by `order` with a stable insertion sort.
- **LinkList.HandleDragEnd** does the drag-and-drop reorder:
  - two splices on a copy of the list;
  - then one `updateLink(id, { order: i })` per position, in the loop of
    `LinkList.PatchOrders`.

  `LinkList.ReorderEndState` and `LinkList.DragEndState` are the theorems
  that relate it to the store.
- **Middleware.RequireAdmin** is the admin gate.
- **Routes.Handle** is one request against the store. **Routes.Serve** is a
  server run from the seeded store.
- **ProfilePage** holds:
  - the link form as a class, with its URL-driven title auto-fill;
  - the submit, which appends a link with `order` = number of links on
    screen.
- **PlatformIcons** holds the host-name classifiers:
  - the icon rule chain, shown equal to a first-match rule table;
  - the second-label platform name, with `split`/`join` round trips.
- **ThemeRecommender** holds the style table and the recommendation.
  Each `Math.random()` value is an input.
- **Schema** holds the record shapes:
  - `Profile` and `Link`;
  - the insert inputs `InsertProfile` and `InsertLink`, which lack `id`,
    and for links also `clicks`;
  - the `Partial<…>` patches.

  A nullable column is an `Option`. A patch field is an `Option` of the
  field's type.

### Behaviour of the code worth knowing

- **Ids and click counts are not protected.** `updateLink` and
  `updateProfile` merge the request body unvalidated, so a patch can
  overwrite `id` and `clicks` as well as the other fields
  (`Storage.MergeLink`, `Storage.MergeProfile`). A link record can then sit
  under a key other than its own `id`, so the reorder theorem assumes that
  every link record sits under its own id (`LinkQuery.IdsMatch`).
- **`isAdmin` starts absent.** `createProfile` never sets it, so no created
  profile is an admin, and the admin gate treats absent as "not an
  administrator".
- **`mediaType` is not restricted.** Only a comment limits it to 'spotify'
  or 'youtube', so the model leaves it unrestricted.
- **The theme types are not declared in the schema.** `ThemeStyle`,
  `ThemeColor` and `ThemeRecommendation` are imported from the shared
  schema, but shared/schema.ts does not declare them. The model declares
  them in ThemeRecommender, with the members the style table uses.
- **Profile creation over HTTP ignores preferences.** Schema parsing drops
  keys that are not columns, so a `themePreferences` in the body is dropped
  and the default applies.

## Model

| member | source | states |
|---|---|---|
| Storage.MemStorage.CreateFourLinks | server/storage.ts:41-67 | four creations on an empty link map store links 1 to 4 from the four inputs, in that iteration order, and leave the profiles alone |
| Storage.MemStorage.constructor | server/storage.ts:21-68 | the store holds exactly profile 1 (seed values) and links 1 to 4 of profile 1 with orders 0 to 3 and no clicks; the counters are 2 and 5; `Valid` holds |
| Storage.MemStorage.GetProfile | server/storage.ts:70-72 | found exactly when the id is a key, and then the stored profile |
| Storage.MemStorage.CreateProfile | server/storage.ts:74-91 | the id is the old counter value and is not a key; the counter rises by one; absent fields get bio null, "light", "gradient1", true, null media, ["professional", "modern"]; `lastThemeUpdate` is null and `isAdmin` absent; one key is added and nothing else changes |
| Storage.MemStorage.UpdateProfile | server/storage.ts:93-99 | an unknown id fails with "Profile not found" and nothing changes; otherwise the profile under that key is the shallow merge, which it returns, and nothing else changes |
| Storage.MemStorage.GetLinks | server/storage.ts:101-105 | sorted by `order`; every link of the profile appears exactly as often as in the store, no other link appears; when records sit under their ids, ties are in ascending id |
| Storage.MemStorage.CreateLink | server/storage.ts:107-120 | the id is the old counter value and is fresh; the record is the input with clicks 0 and `order` as given; it is appended to the iteration order; no other link changes |
| Storage.MemStorage.UpdateLink | server/storage.ts:122-128 | succeeds exactly when the id is a key, else "Link not found"; the new map is `UpdatedLinks`; the key keeps its place in the iteration order |
| Storage.MemStorage.DeleteLink | server/storage.ts:130-132 | the key is removed from the map and the iteration order; an absent key changes nothing |
| Storage.MemStorage.IncrementClicks | server/storage.ts:134-140 | an unknown id fails and changes nothing; otherwise the stored and returned link is the old one with one more click |
| Storage.UpdatedLinks | server/storage.ts:122-127 | same keys; the patched record is the merge; every other record is unchanged |
| Storage.Erase | server/storage.ts:130-132 | removes exactly the key from the iteration order, keeps it ascending, and is the identity on an absent key |
| Storage.MergeProfile | server/storage.ts:96 | the patch's `id` and `isAdmin` win when it names them and the profile's are kept otherwise, so an unvalidated body can rename or promote a profile |
| Storage.MergeLink | server/storage.ts:125 | the patch's `id` and `clicks` win when it names them and the link's are kept otherwise; a patch without `order` or `profileId` keeps them |
| Storage.EraseIdempotent | server/storage.ts:130-132 | deleting twice is deleting once |
| Storage.MergeOrderOnly | server/storage.ts:125 | a patch naming only `order` changes only `order` |
| Storage.MergeLinkIdempotent | server/storage.ts:125 | merging the same link patch twice equals merging it once |
| Storage.MergeProfileIdempotent | server/storage.ts:96 | merging the same profile patch twice equals merging it once |
| Storage.MergeLinkEmpty | server/storage.ts:125 | the empty patch is the identity |
| Storage.Stored | server/storage.ts:109-117 | a created record has the new id, no clicks, and the input's profile, order and platform |
| Storage.Clicked | server/storage.ts:137 | increments never lower the click count and keep the id |
| Storage.ClickedAddsN | server/storage.ts:134-140 | n increments add exactly n clicks and change no other field |
| LinkQuery.Values | server/storage.ts:102 | the map's records in iteration order, one per key |
| LinkQuery.OfProfile | server/storage.ts:103 | every kept link belongs to the profile |
| LinkQuery.OfProfileCount | server/storage.ts:103 | the filter keeps each link of the profile as often as it occurs and drops every other |
| LinkQuery.Insert | server/storage.ts:104 | inserting makes the list one longer and adds exactly the one element to the multiset |
| LinkQuery.SortByOrder | server/storage.ts:104 | the sort keeps the length |
| LinkQuery.LinksOf | server/storage.ts:101-105 | sorted by `order`, and a permutation of the profile's links in iteration order |
| LinkQuery.SortByOrderSpec | server/storage.ts:104 | the sort keeps the length and the multiset and sorts by `order` |
| LinkQuery.InsertSorted | server/storage.ts:104 | inserting into a sorted list keeps it sorted |
| LinkQuery.InsertStable | server/storage.ts:104 | inserting keeps the relative order of equal-`order` links |
| LinkQuery.SortByOrderStable | server/storage.ts:104 | the sort is stable: the links with any one `order` keep their input sequence |
| LinkQuery.LinksOfStable | server/storage.ts:101-105 | links with equal `order` come out in the map's iteration order |
| LinkQuery.InsertOrderThenId | server/storage.ts:104 | inserting a smaller id into an order-then-id list keeps it order-then-id |
| LinkQuery.SortOrderThenId | server/storage.ts:104 | sorting a list of ascending ids gives order, then id |
| LinkQuery.OfProfileIdsIncreasing | server/storage.ts:103 | filtering keeps ascending ids ascending |
| LinkQuery.ValuesIdsIncreasing | server/storage.ts:102 | with ascending keys and records under their ids, the values have ascending ids |
| LinkQuery.TiesByAscendingId | server/storage.ts:101-105 | with records under their ids, `getLinks` is ordered by `order`, ties by ascending id |
| LinkQuery.SortedUnique | server/storage.ts:104 | a sorted permutation of a strictly ordered list is that list |
| LinkQuery.NoDupIdsOfPermutation | server/storage.ts:101-105 | a permutation of a list with distinct ids has distinct ids |
| LinkQuery.InsertBeforeLast | server/storage.ts:104 | inserting an element not above the last one leaves the last one last |
| LinkQuery.SortAppendLast | server/storage.ts:104 | sorting a list with an appended maximum appends it to the sorted list |
| LinkQuery.OfProfileAppend | server/storage.ts:103 | a link of the profile appended to the input is appended to the output |
| LinkQuery.ValuesAppend | server/storage.ts:118 | a new key is appended to the iteration order |
| LinkQuery.LinksOfAppend | server/storage.ts:101-120 | creating a link of p with an order at least every existing order of p appends it to `getLinks(p)` |
| LinkQuery.OfProfileNone | server/storage.ts:103 | a filter no element passes returns nothing |
| LinkQuery.LinksOfUnknownProfile | server/storage.ts:101-105 | a profile that owns no link gets the empty list |
| LinkList.RemoveAt | client/src/components/link-list.tsx:16 | removing one element leaves one fewer |
| LinkList.InsertAt | client/src/components/link-list.tsx:17 | inserting one element adds one |
| LinkList.Reordered | client/src/components/link-list.tsx:15-17 | the two splices keep the length |
| LinkList.ReorderedIsPermutation | client/src/components/link-list.tsx:15-17 | the reordered list has the same length and elements |
| LinkList.ReorderedMovesElement | client/src/components/link-list.tsx:16-17 | the element from the source index ends at the destination index |
| LinkList.ReorderedKeepsOthers | client/src/components/link-list.tsx:16-17 | all other elements keep their relative order |
| LinkList.ReorderedIdentity | client/src/components/link-list.tsx:16-17 | dropping where the drag began changes nothing |
| LinkList.Numbered | client/src/components/link-list.tsx:20-22 | element i carries `order` i and is otherwise unchanged |
| LinkList.SetOrders | client/src/components/link-list.tsx:20-24 | the patches keep the map's keys |
| LinkList.IdxOf | client/src/components/link-list.tsx:20-22 | the first position holding the id, or the length when there is none |
| LinkList.SetOrdersAt | client/src/components/link-list.tsx:20-24 | with distinct ids, each link ends with its position among the items as its `order`, and unnamed links are untouched |
| LinkList.PatchesCommute | client/src/components/link-list.tsx:20-24 | order patches to different ids commute, so their order does not matter |
| LinkList.Relabelled | client/src/components/link-list.tsx:20-22 | each link gets its position among the items as its `order` |
| LinkList.RelabelledConcat | client/src/components/link-list.tsx:20-22 | relabelling distributes over concatenation |
| LinkList.RelabelledRemove | client/src/components/link-list.tsx:20-22 | removing an element removes its relabelled copy |
| LinkList.RelabelledPermutation | client/src/components/link-list.tsx:20-22 | relabelling keeps permutations permutations |
| LinkList.OfProfileRelabelled | client/src/components/link-list.tsx:20-24 | filtering after the patches is relabelling after filtering |
| LinkList.RelabelledSelf | client/src/components/link-list.tsx:20-22 | relabelling the items by themselves numbers them |
| LinkList.SetOrdersRelabels | client/src/components/link-list.tsx:20-24 | the patches relabel exactly the profile's links |
| LinkList.ReorderEndState | client/src/components/link-list.tsx:15-24 | after the patches for any permutation of `getLinks(p)`, `getLinks(p)` is that permutation with orders 0 to n - 1 |
| LinkList.DragEndState | client/src/components/link-list.tsx:12-24 | when the list is `getLinks(p)` and link ids match their keys, patching the moved list makes `getLinks(p)` that moved list numbered 0 to n - 1 |
| LinkList.PatchOrders | client/src/components/link-list.tsx:20-24 | after one order patch per item, the link map is `SetOrders` of the old map; keys, iteration order, profiles and counters are unchanged |
| LinkList.HandleDragEnd | client/src/components/link-list.tsx:12-26 | no destination changes nothing; otherwise the store holds exactly the patched orders and, when the list was `getLinks(p)` and every link record sits under its own id, `getLinks(p)` becomes the reordered list numbered 0 to n - 1; iteration order, profiles and counters are unchanged |
| Middleware.RequireAdmin | server/middleware.ts:5-14 | passes exactly when the parsed id's profile exists and has `isAdmin` true, else 403 "Access denied. Admin only."; reads the store only |
| Middleware.NoAdminDeniesAll | server/middleware.ts:9-10 | without an administrator profile every request is denied |
| Middleware.CreatedProfilesAreNotAdmins | server/storage.ts:74-91 | adding a profile without `isAdmin` keeps "no administrator" |
| Routes.Handle | server/routes.ts:7-52 | keeps `Valid` and "no administrator"; a profile update the gate denies answers 403 and changes no profile; one it lets through answers the shallow merge and stores it under that id; profile and link reads change nothing and answer the profile (or 404) and `getLinks` of the id (empty for NaN) |
| Routes.Serve | server/routes.ts:21-24 | from the seeded store, every profile update request in any sequence is refused with 403 |
| ProfilePage.NewLinkRequest | client/src/pages/profile.tsx:90-95 | the body is the form data with `order` replaced by the count of links on screen |
| ProfilePage.AppendKeepsDense | client/src/pages/profile.tsx:94 | on orders 0 to n - 1 the new link gets n, above every order, and the orders stay dense |
| ProfilePage.AppendAfterGapDuplicates | client/src/pages/profile.tsx:94 | after a gap (orders 0, 2, 3) the new order equals an existing one |
| ProfilePage.Capitalize | client/src/pages/profile.tsx:271 | first character upper-cased, the rest unchanged |
| ProfilePage.CapitalizeRoundTrip | client/src/pages/profile.tsx:271 | lower-casing a capitalised lower-case name gives it back |
| ProfilePage.LinkForm.constructor | client/src/pages/profile.tsx:61-69 | profile 1, empty title, url and platform, order 0 |
| ProfilePage.LinkForm.SetTitle | client/src/pages/profile.tsx:243-255 | sets only the title |
| ProfilePage.LinkForm.OnUrlChange | client/src/pages/profile.tsx:266-274 | sets the url; an empty title becomes the capitalised platform name when the URL parses; a non-empty title or an unparseable URL leaves the title alone |
| ProfilePage.LinkForm.Reset | client/src/pages/profile.tsx:99 | back to the default values |
| ProfilePage.LinkForm.Data | client/src/pages/profile.tsx:61-69 | the form always submits for the demo profile 1, and always sends a platform string |
| ProfilePage.SubmitLink | client/src/pages/profile.tsx:90-105 | the link is created for profile 1 with `order` = number on screen, under the next id, appended to the iteration order, with the link counter one higher and profiles unchanged, and the form reset; when the screen shows profile 1's current links with dense orders, the new link is listed last and orders stay dense |
| PlatformIcons.ToLower | client/src/lib/platform-icons.ts:7 | same length, each character mapped, no upper-case letter left |
| PlatformIcons.ToLowerIdempotent | client/src/lib/platform-icons.ts:7 | lower-casing twice is lower-casing once |
| PlatformIcons.Includes | client/src/lib/platform-icons.ts:9-17 | a pattern longer than the host name is never found |
| PlatformIcons.IncludesIffOccurs | client/src/lib/platform-icons.ts:9-17 | the scan reports a pattern exactly when it occurs at some offset |
| PlatformIcons.AbsentChar | client/src/lib/platform-icons.ts:9-17 | a pattern holding a character the host lacks does not occur |
| PlatformIcons.MatchesOne | client/src/lib/platform-icons.ts:9-17 | a one-pattern rule matches exactly when its pattern is included |
| PlatformIcons.MatchesTwo | client/src/lib/platform-icons.ts:10 | the two-pattern rule matches exactly when either pattern is included |
| PlatformIcons.PlatformIcon | client/src/lib/platform-icons.ts:9-19 | the if-chain of substring tests; its meaning is stated by `PlatformIcons.PlatformIconIsFirstMatch` and `PlatformIcons.GlobeIffNoRuleMatches` |
| PlatformIcons.GetPlatformIcon | client/src/lib/platform-icons.ts:6-20 | an icon exactly when the URL parses, namely the chain's icon for the lower-cased host name |
| PlatformIcons.PlatformIconIsFirstMatch | client/src/lib/platform-icons.ts:9-19 | the chain returns the icon of the first rule in the table whose pattern occurs, else Globe |
| PlatformIcons.FirstMatchGlobe | client/src/lib/platform-icons.ts:19 | with no Globe rule, the first match is Globe exactly when no later rule matches |
| PlatformIcons.GlobeIffNoRuleMatches | client/src/lib/platform-icons.ts:19 | Globe exactly when no rule's pattern occurs |
| PlatformIcons.GetPlatformIconIgnoresCase | client/src/lib/platform-icons.ts:7 | the icon does not depend on the case of the host name |
| PlatformIcons.SubstringNotSuffix | client/src/lib/platform-icons.ts:10 | "box.com" gets the X icon since it contains "x.com" |
| PlatformIcons.Split | client/src/lib/platform-icons.ts:24 | at least one piece, none holding the separator |
| PlatformIcons.JoinSplit | client/src/lib/platform-icons.ts:24 | joining the pieces gives the string back |
| PlatformIcons.SplitJoin | client/src/lib/platform-icons.ts:24 | splitting a join of separator-free labels gives them back |
| PlatformIcons.SplitNoSep | client/src/lib/platform-icons.ts:24 | a string without separators is one piece |
| PlatformIcons.SplitLabel | client/src/lib/platform-icons.ts:24 | a label before the separator is the first piece |
| PlatformIcons.PlatformName | client/src/lib/platform-icons.ts:24 | never empty and without a dot |
| PlatformIcons.PlatformNameIsSecondLabel | client/src/lib/platform-icons.ts:24 | the second label when it exists and is non-empty, else "website" |
| PlatformIcons.PlatformNameOfSubdomain | client/src/lib/platform-icons.ts:24 | "sub.name.rest" gives "name" (so "www.github.com" gives "github") |
| PlatformIcons.PlatformNameOfDomain | client/src/lib/platform-icons.ts:24 | "name.tld" gives "tld" (so "github.com" gives "com") |
| PlatformIcons.PlatformNameOfSingleLabel | client/src/lib/platform-icons.ts:24 | a host without dots gives "website" |
| PlatformIcons.GetPlatformName | client/src/lib/platform-icons.ts:22-25 | a name exactly when the URL parses, non-empty and without a dot |
| ThemeRecommender.TableShape | client/src/lib/theme-recommender.ts:3-33 | every style has colours and backgrounds, all backgrounds among gradient1 to gradient4 |
| ThemeRecommender.GlassEffectByStyle | client/src/lib/theme-recommender.ts:3-33 | glass effect off exactly for playful and minimal |
| ThemeRecommender.ThemeStyles | client/src/lib/theme-recommender.ts:3-33 | the style table; its shape is stated by `ThemeRecommender.TableShape` and `ThemeRecommender.GlassEffectByStyle` |
| ThemeRecommender.StyleNamed | client/src/lib/theme-recommender.ts:42 | a found style has the key looked up |
| ThemeRecommender.StyleNamedKey | client/src/lib/theme-recommender.ts:3-33 | exactly five styles, each found under its own key |
| ThemeRecommender.RandomIndex | client/src/lib/theme-recommender.ts:36 | the index is below a non-zero length |
| ThemeRecommender.FloorBelow | client/src/lib/theme-recommender.ts:36 | a fraction below 1 times n floors below n |
| ThemeRecommender.GetRandomItem | client/src/lib/theme-recommender.ts:35-37 | an element of the list, present exactly when the list is non-empty |
| ThemeRecommender.GenerateThemeRecommendation | client/src/lib/theme-recommender.ts:39-50 | fails on an empty list, succeeds when every preference is a style; the style is a preference; colour and background come from that style's row, the background is gradient1 to gradient4; the glass effect is the row's |
| ThemeRecommender.RecommendationFollowsDraw | client/src/lib/theme-recommender.ts:41-42 | succeeds exactly when the key the first draw picks is a style |
| ThemeRecommender.Description | client/src/lib/theme-recommender.ts:53-59 | every style has a non-empty description |
| ThemeRecommender.GetThemeDescription | client/src/lib/theme-recommender.ts:52-62 | defined for every style and non-empty |
| ThemeRecommender.DescriptionDependsOnStyle | client/src/lib/theme-recommender.ts:52-62 | the description depends on the style alone |

## Left out

- User-interface rendering is left out: the JSX, animation, toasts, form
  and query libraries, and cache invalidation. Only the link form's field
  values and handlers are modelled.
- Asynchrony is left out. Every store call is a synchronous step. The
  parallel patches of a reorder (`Promise.all`) are a sequential loop.
  That order does not matter when the listed links have distinct ids,
  since patches to different ids commute (`LinkList.PatchesCommute`);
  `getLinks` lists distinct ids whenever every record sits under its own
  id.
- Partial failure of a reorder's patches is not modelled. The loop
  invariant of `LinkList.PatchOrders` states the state after any prefix of
  patches.
- URL parsing (`new URL(...).hostname`) is a foreign call. It becomes an
  input: the host name, or `None` where the parser throws.
- PlatformIcons.ToLower lower-cases ASCII letters only. Host names of
  http(s) URLs are ASCII after parsing.
- ProfilePage.Capitalize upper-cases ASCII letters only, since platform
  names come from lower-cased ASCII host names.
- `Math.random()` and floating point are left out. Each draw is an input
  fraction num/den below 1, and the index is floor(num·len/den).
- HTTP plumbing is reduced to a request datatype:
  - `parseInt` of a path parameter is an `Option<int>`, where `None` is NaN,
    which no key equals.
  - Schema validation of a creation body is `None` for a rejected body.
  - Status codes appear only where the routes set them.
  - A store error thrown inside a handler stays an error, with no status.
- The module-level `storage` singleton is one `MemStorage` object, created
  in `Routes.Serve`.
- JavaScript `splice` clamping of out-of-range indices is not modelled. The
  drag library reports indices inside the list, which
  `LinkList.HandleDragEnd` requires.
- `getGradientBackground` in the home page is not part of this model. It
  renders backgrounds outside gradient1 to gradient4 as gradient1.
- The theme hook (local storage and document classes) and the media
  widget's embed-URL extraction are not part of this model.
- ThemeRecommender.GetThemeDescription is stated without proving that the
  five descriptions differ. Long string literals are not compared
  character by character here.
- Request bodies are typed. A `LinkPatch` or `ProfilePatch` holds only
  well-typed values of known fields. The unvalidated JSON body of the two
  update routes can also carry `null` for a non-null field, a value of the
  wrong type (a `profileId` of "1" drops the link from `getLinks(1)`, whose
  filter compares with `===`), or keys that are not fields. None of these
  is modelled.
- Numbers are unbounded integers. JavaScript numbers are doubles, so
  `clicks + 1` stops growing past 2^53, and the id counters likewise;
  `Storage.ClickedAddsN` holds only below that bound.
