# KaffeKompass storefront core, modelled in Dafny

KaffeKompass is a café directory built with Nuxt. This project models the
client-side state behind its café grid and menu pages, and proves
properties about that model:

- **Main store** (`stores/useStore.js`, module `MainStore`, class
  `MainStore.Store`).
  - The grid's list of café posts and its in-place list operations:
    `update`, `remove`, `addProducts`, the splice helpers.
  - The query that `fetchPosts` builds, and how it tags each result row.
  - The city and section lists, with first-occurrence deduplication.
  - Navigation, which resets the current city, section and café.
  - `search`, which fills a four-field result record.
  - Every answer of the content API is a parameter of the action that
    awaits it, and each action returns the query it would send.
- **Detail panel** (`plugins/detailPlugin.ts`, module `DetailPlugin`,
  class `DetailPlugin.DetailPanel`).
  - A two-ref state machine (`isDetailOpen`, `currentDetailId`).
  - It splices one synthetic `'ProductDetail'` entry into the store's
    `posts`, just after the clicked café's row.
  - The number of items per row is an input, and timers fire at once.
  - Its invariant: exactly one detail entry while open, none while closed.
- **Menu store** (`stores/useMenuStore.js`, module `MenuStore`, class
  `MenuStore.MenuStore`).
  - Menus are normalised from nested (`attributes`-wrapped) or flat API
    records.
  - Missing fields get defaults through JavaScript `||`.
  - Entries are stably sorted by `sortOrder`.
  - Café records are cached by slug.
  - Selections live in a three-level map, toggled in place.
- **Pure builders.**
  - The image URL joiner (`plugins/imageUrl.ts`, module `ImageUrl`).
  - The SEO record mapping and meta-tag generator (`utils/seo.ts`, module
    `SeoUtils`).
  - The plugin's tag generator and the `setSeo` partition (`plugins/seo.ts`,
    module `SeoPlugin`).
  - Both generators are described by one rank table (module `SeoTags`).

Shared modules:

- `Js` is a JSON value type with JavaScript truthiness, optional chaining,
  `||`, and ASCII `trim`/`toLowerCase`/`includes`/`startsWith`/`endsWith`.
- `Lists` holds splice semantics, `filter`, and first-occurrence
  deduplication.
- `StableSort` is an insertion sort. Its lemmas show it is ordered, a
  permutation of its input, and stable.

A `TypeError` that the source catches becomes `None` in the model, or the
error message the catch handler records.

## Model

| member | source | states |
|---|---|---|
| ImageUrl.ImgUrl | plugins/imageUrl.ts:4-23 | the result is '' exactly when the path is missing or empty |
| ImageUrl.ImgUrlOneSlash | plugins/imageUrl.ts:12-22 | for a non-empty path, all three branches give the base without its trailing '/', then exactly one '/', then the path without its leading '/' |
| ImageUrl.ImgUrlParts | plugins/imageUrl.ts:12-22 | the joined URL starts with the base (minus its trailing '/') and ends with the path (minus its leading '/') |
| ImageUrl.ImgUrlSlashCombinations | plugins/imageUrl.ts:12-22 | for any base without a trailing '/' and any non-empty path without a leading '/', adding a slash to the base, to the path, to both or to neither gives the same URL, base + '/' + path |
| SeoTags.AbsoluteImage | utils/seo.ts:109 | an image URL starting with 'http' is kept; any other is prefixed with the base URL |
| SeoTags.AllTags | utils/seo.ts:80-127 | a generator emits between 2 tags (og:type and twitter:card are unconditional) and 13 tags |
| SeoTags.AllTagsRanked | utils/seo.ts:80-127 | a generator's tag list is in the fixed order (title, description, keywords, canonical, og:title, og:description, og:type, og:url, og:image, twitter:card, twitter:title, twitter:description, twitter:image) with each kind at most once, and a tag is in it exactly when the generator emits it at that rank |
| SeoTags.TypeAndCardOnce | utils/seo.ts:106-114 | og:type and twitter:card are always emitted, exactly once each, by both generators |
| SeoTags.RankedUnique | utils/seo.ts:80-127 | two lists in rank order with the same tags are equal, so the order and the set of emitted tags determine the output |
| SeoUtils.MapSeoRecord | utils/seo.ts:47-57 | title is metaTitle, else shop_name, else ''; description, keywords and canonical are the SEO field when non-empty, else ''; ogType and twitterCard are the SEO field when non-empty, else 'website' and 'summary_large_image'; the image is the URL of the first shop image when the list is non-empty, else null |
| SeoUtils.FetchSeoData | utils/seo.ts:14-66 | an error answer or a thrown call leaves a non-empty message ('Failed to fetch SEO data' / 'An unknown error occurred' by default) and yields null; no rows yield null without an error; otherwise the first row is mapped |
| SeoUtils.MetaTagsCount | utils/seo.ts:80-127 | tag count = 2 + 3·[title] + 3·[description] + [keywords] + [canonical] + 2·[image] |
| SeoUtils.GenerateMetaTags | utils/seo.ts:73-130 | null gives []; otherwise the conditional pushes build exactly the generator's ranked tag list |
| SeoPlugin.GenerateSeoTags | plugins/seo.ts:16-80 | null gives []; otherwise the conditional pushes build exactly the plugin's ranked tag list, with the base URL and route path as inputs |
| SeoPlugin.SeoTagsCount | plugins/seo.ts:23-77 | the plugin emits the same count as generateMetaTags plus one og:url when the base URL is non-empty |
| SeoPlugin.SeoTagsDefaults | plugins/seo.ts:50-64 | a missing ogType gives og:type 'website'; a missing twitterCard gives twitter:card 'summary_large_image' |
| SeoPlugin.OgUrlAfterOgType | plugins/seo.ts:50-56 | with a base URL, og:url = base URL + route path comes right after og:type; without one there is no og:url |
| SeoPlugin.SeoTagsMatchMetaTags | plugins/seo.ts:23-77 | with an empty base URL and ogType/twitterCard given, the plugin's list equals generateMetaTags's element for element |
| SeoPlugin.FirstTitle | plugins/seo.ts:11 | the head title is '' exactly when no `{ title }` entry has a non-empty title; otherwise it is the title of the first such entry: every `{ title }` entry before it has an empty title |
| SeoPlugin.SetSeo | plugins/seo.ts:8-14 | meta holds exactly the entries with name or property; link holds exactly the entries with rel |
| SeoPlugin.SetSeoPartition | plugins/seo.ts:10-12 | each entry lands in exactly one of meta, link or the title entries; `{ title }` entries are in neither meta nor link |
| SeoPlugin.SetSeoTitle | plugins/seo.ts:11 | for a generated list, the head title is the page title when present, else '' |
| StableSort.SortBySpec | stores/useMenuStore.js:217 | the sort by sortOrder is ordered, is a permutation of its input, and keeps input order among equal keys |
| StableSort.SortBySorted | stores/useMenuStore.js:237 | an input already ordered by key comes back unchanged |
| MainStore.FirstDetailIndex | stores/useStore.js:297 | the index of the first 'ProductDetail' entry, or the length when there is none |
| MainStore.Tagged | stores/useStore.js:159-165 | row i becomes the fetched row i with uniqueId = i + 1 and kind 'Product'; the length is kept |
| MainStore.QueryFor | stores/useStore.js:113-150 | the query is an object with populate '*'; a truthy café id gives exactly the id filter; with no id, city or section there is no filters key |
| MainStore.QueryShape | stores/useStore.js:113-150 | populate is '*'; with a café id the filters are exactly `{ id: { $eq: id } }`; otherwise section and city land under one `address` filter, and there are no filters when neither is given |
| MainStore.PresentValues | stores/useStore.js:43-45 | the extracted values are exactly the present (non-empty) field values of the rows |
| MainStore.UniqueValues | stores/useStore.js:43-46 | the list has no value twice, and every value is a non-empty present value of the rows |
| MainStore.UniqueValuesSpec | stores/useStore.js:43-46 | the city and section lists have no duplicates or empty values, hold every present value, keep first-occurrence order, and start with the first present value |
| MainStore.NameMatches | stores/useStore.js:372-379 | a city or section is listed exactly when its lower-cased name contains the query |
| MainStore.CafeHits | stores/useStore.js:382-388 | a café hit is exactly `{ id, name, address }` of a post that is a 'Product' and whose lower-cased shop name contains the query |
| MainStore.CafeHitsAreProducts | stores/useStore.js:382-388 | every café in the results comes from a 'Product' entry that matches the query |
| MainStore.ZipCandidates | stores/useStore.js:392-398 | the candidates are exactly the `{ zipCode, city, section }` records of 'Product' posts with zip_code or zipcode |
| MainStore.ZipHits | stores/useStore.js:392-407 | every hit contains the raw query and is the record of a 'Product' post with a postal code |
| MainStore.ZipHitsSpec | stores/useStore.js:392-407 | no postal code appears twice; every hit contains the raw, untrimmed query and is the record of the first candidate with its code; hits come in the order in which their codes first occur; every matching code is listed |
| MainStore.UpdateThenRemove | stores/useStore.js:301-308 | removing at the index where `update` inserted gives the original list back |
| MainStore.UpdatePosition | stores/useStore.js:301-308 | a non-negative index inserts at min(index, length); the length grows by one |
| MainStore.FetchError | stores/useStore.js:156-171 | the error fetchPosts leaves is none exactly on success, and otherwise a non-empty message |
| MainStore.Store.constructor | stores/useStore.js:6-22 | the initial state: city 'Köln', no section, no café, empty lists, empty search |
| MainStore.Store.ClosedBundles | stores/useStore.js:271-273 | closedList becomes a copy of the payload |
| MainStore.Store.AddProducts | stores/useStore.js:275-282 | posts is replaced by `update` if given, and then `insert` is appended if given |
| MainStore.Store.AddProductDetail | stores/useStore.js:284-286 | the entry is inserted at the splice start the index resolves to |
| MainStore.Store.RemoveProductDetail | stores/useStore.js:288-290 | exactly the entry at the resolved index is removed; nothing is removed past the end |
| MainStore.Store.ClearProducts | stores/useStore.js:292-294 | posts becomes empty |
| MainStore.Store.Remove | stores/useStore.js:296-299 | the first detail entry is removed only when its index is above 0; a detail at index 0 stays |
| MainStore.Store.Update | stores/useStore.js:301-308 | push when the index is at or past the end, splice otherwise: either way the entry is inserted at the resolved splice start |
| MainStore.Store.FetchPosts | stores/useStore.js:105-174 | the query is the built one; success replaces posts by the tagged rows, clears the error and returns them; failure records the message (or 'Failed to fetch posts'), leaves posts alone and returns nothing; loading ends false |
| MainStore.Store.LoadAvailableCities | stores/useStore.js:28-60 | the distinct present cities are stored and returned; the first becomes current only when no city is set; a failed call returns [] and changes nothing |
| MainStore.Store.LoadCitySections | stores/useStore.js:63-97 | the distinct present sections are stored and returned; a failed call returns [] and changes nothing |
| MainStore.Store.InitNavigation | stores/useStore.js:100-103 | the cities are loaded, the first one becoming current when no city was set, then the sections; a failed answer leaves its list alone |
| MainStore.Store.SetCurrentCafe | stores/useStore.js:177-195 | the café becomes current; without an id nothing else changes; with an id it fetches that café alone (posts, error and loading as fetchPosts leaves them) and takes the city and section of its address where present |
| MainStore.Store.NavigateToCity | stores/useStore.js:198-208 | sets the city, clears section and café, reloads the sections, empties the grid and fetches the city's posts; the result, error and loading are those fetchPosts leaves |
| MainStore.Store.NavigateToSection | stores/useStore.js:211-219 | keeps the city, sets the section, clears the café, empties the grid and fetches by city and section; the result, error and loading are those fetchPosts leaves |
| MainStore.Store.NavigateToHome | stores/useStore.js:222-229 | keeps the city, clears section and café, empties the grid and fetches the city's posts; the result, error and loading are those fetchPosts leaves |
| MainStore.Store.NavigateToCafe | stores/useStore.js:232-249 | clears the grid and fetches the café; a non-empty answer makes its first row current and adopts its city and section where present |
| MainStore.Store.Search | stores/useStore.js:356-408 | a missing or blank query clears the query and all four lists; otherwise the query is trimmed, cities, sections and cafés match the lower-cased query, and postal codes match the raw query |
| MainStore.Store.NavigateToSearchResult | stores/useStore.js:411-435 | a city result navigates to the city (sections, posts, error and loading included); a section result navigates to the section; a café result does exactly what setCurrentCafe does; a postal code with a city selects the city and its section (or none) and fetches; anything else changes nothing; only a city result reloads the sections |
| DetailPlugin.PositionOfRegular | plugins/detailPlugin.ts:97-106 | the counting loop's stop: the café entry with exactly e cafés before it, or the length when there are no more than e cafés |
| DetailPlugin.EndOfRow | plugins/detailPlugin.ts:87-88 | (⌊j/k⌋ + 1)·k lies past the clicked index j and is at least k |
| DetailPlugin.TargetPosition | plugins/detailPlugin.ts:72-84 | the position is within the list; a café that is not among the regular entries gives the list's length |
| DetailPlugin.TargetAfterRow | plugins/detailPlugin.ts:86-111 | for a known café at regular index j, the position has exactly (⌊j/k⌋ + 1)·k cafés before it, or is the length when there are no more cafés; it is never 0 |
| DetailPlugin.TargetWithoutDetails | plugins/detailPlugin.ts:87-111 | without a detail entry, the position is min(e, length) and lies after the clicked café |
| DetailPlugin.WithoutFirstDetail | plugins/detailPlugin.ts:17-20 | removing the first detail entry lowers the detail count by one and keeps every café; without a detail the list is unchanged |
| DetailPlugin.WithDetail | plugins/detailPlugin.ts:163-169 | inserting the detail copy adds one detail entry, keeps every café, and removing at the same index restores the list |
| DetailPlugin.WithDetailThenWithout | plugins/detailPlugin.ts:17-20 | in a list without details, closing after opening restores the list exactly |
| DetailPlugin.FallbackItemsPerRow | plugins/detailPlugin.ts:32-38 | 4 for width ≥ 1024, 2 for 768–1023, 1 below 768 |
| DetailPlugin.ActualItemsPerRow | plugins/detailPlugin.ts:30-69 | always ≥ 1; the fallback with fewer than two elements or a failed query; otherwise the length of the leading run of elements within 5 px of the first element's top |
| DetailPlugin.DetailPanel.constructor | plugins/detailPlugin.ts:5-6 | the panel starts closed with no current id |
| DetailPlugin.DetailPanel.CalculateTargetPosition | plugins/detailPlugin.ts:72-115 | the counting loop returns TargetPosition of the current list |
| DetailPlugin.DetailPanel.CloseDetail | plugins/detailPlugin.ts:14-27 | removes the first detail entry if any, closes, clears the id, returns true |
| DetailPlugin.DetailPanel.OpenDetail | plugins/detailPlugin.ts:154-180 | a product without a truthy id is refused with nothing changed; otherwise its detail copy is inserted via update, the panel opens on its id, and true is returned |
| DetailPlugin.DetailPanel.UpdateDetail | plugins/detailPlugin.ts:183-200 | removes the old detail, computes the position on the list without it, opens there, and returns true |
| DetailPlugin.DetailPanel.ProductSetup | plugins/detailPlugin.ts:203-230 | as written: null is refused; the open café clicked again closes; another café while open moves the detail; when closed it opens at the computed position, and a café without an id changes nothing; the invariant survives clicks on cafés with ids |
| DetailPlugin.DetailPanel.ProductSetupGuarded | plugins/detailPlugin.ts:203-230 | corrected: a click on a café without an id changes nothing, so the invariant survives every click |
| DetailPlugin.DetailPanel.Resize | plugins/detailPlugin.ts:242-246 | an open panel with an id is moved to the position computed for the new layout; the invariant is kept |
| DetailPlugin.DetailPanel.ClickAllWithIds | plugins/detailPlugin.ts:203-230 | any sequence of clicks on cafés with ids keeps at most one detail entry, present exactly when open |
| DetailPlugin.DetailPanel.ClickAll | plugins/detailPlugin.ts:203-230 | with the corrected handler, any sequence of clicks keeps the invariant |
| DetailPlugin.DetailPanel.ClickTwice | plugins/detailPlugin.ts:215-229 | from a closed panel, clicking the same café twice restores the original list and closes the panel |
| DetailPlugin.IdlessClickWhileOpen | plugins/detailPlugin.ts:215-224 | a concrete run where the panel stays open while the list holds no detail entry |
| MenuStore.ItemTags | stores/useMenuStore.js:231-233 | missing tags give []; with tags.data, the result exists exactly when it is an array without null entries, and maps each tag to tag.attributes?.name, else tag.name; without it, exactly when tags is an array without null entries, mapping each tag to tag.name, else the tag itself; the result is always an array |
| MenuStore.FormatItem | stores/useMenuStore.js:223-236 | formatting succeeds exactly for a non-null item whose tags can be read; name falls back name → title → 'Unbenannter Artikel'; description and price are carried when truthy, else '' and '0,00 €'; sortOrder is sortOrder, else sort_order, else 0; the tags are those of ItemTags; selected is false |
| MenuStore.FormatItems | stores/useMenuStore.js:220-238 | a non-array gives []; otherwise the output has the input's length, is ordered by sortOrder, is a permutation of the formatted items, and keeps input order on ties |
| MenuStore.FormatCategory | stores/useMenuStore.js:207-216 | formatting succeeds exactly for a non-null category whose items format; title falls back title → name → 'Unbenannte Kategorie'; the items are items.data, else items, else [] formatted and sorted; sortOrder is sortOrder, else sort_order, else 0 |
| MenuStore.FormatCategories | stores/useMenuStore.js:204-218 | a non-array gives []; otherwise the same length, ordered by sortOrder, a permutation, and stable on ties |
| MenuStore.NestedIsFlat | stores/useMenuStore.js:204-238 | `{ id, attributes: X }` formats exactly like the flat `{ id, ...X }`, as an item and as a category |
| MenuStore.FormatItemsOrdered | stores/useMenuStore.js:237 | items already ordered by sortOrder keep their order |
| MenuStore.VeganTags | stores/useMenuStore.js:72 | ['vegan'] exactly when extra.vegan is truthy, else [] |
| MenuStore.DirectItem | stores/useMenuStore.js:67-74 | every non-null item maps: name is text else 'Unbenannter Artikel', description is subtext else '', price is price else '0,00 €', with the vegan tags, no sortOrder and selected false |
| MenuStore.DirectCategory | stores/useMenuStore.js:64-81 | a category maps exactly when it is non-null and its menu_block, if an array, has no null entry; title is menu_titel or 'Unbenannte Kategorie'; item i is menu_block entry i mapped, or there are none when menu_block is not an array |
| MenuStore.DirectMenu | stores/useMenuStore.js:58-82 | no menu array means no result; otherwise one category per menu entry, in menu order, unsorted |
| MenuStore.PlaceholderCategory | stores/useMenuStore.js:296-302 | a non-null category becomes a category with its id, title menu_titel or 'Unbenannte Kategorie', no sortOrder and no items |
| MenuStore.ExtractCategories | stores/useMenuStore.js:167-179 | the shapes are tried in order `attributes.categories.data`, array `categories`, `attributes.categories`; none matches exactly when there is no result; a result is truthy |
| MenuStore.ApiMenu | stores/useMenuStore.js:181-183 | no shape means no menu; otherwise the formatted categories of the picked shape |
| MenuStore.SectionsData | stores/useMenuStore.js:114-118 | the menu-sections answer is processed exactly when the call returned a truthy `data`, which is what is processed |
| MenuStore.PostsMenuData | stores/useMenuStore.js:140-142 | the posts answer is processed exactly when the call returned a truthy `data.menu_section`, which is what is processed |
| MenuStore.MenuSectionId | stores/useMenuStore.js:276-277 | the café has a menu id exactly when menu_section.id is truthy, and it is that id |
| MenuStore.DataRows | stores/useMenuStore.js:265-266 | the rows are `response.data` when it is an array, else none |
| MenuStore.LoadedMenu | stores/useMenuStore.js:98-156 | the menu-sections answer wins when it processes; otherwise the posts answer's menu_section is processed; nothing is loaded exactly when neither answer processes |
| MenuStore.WithSelection | stores/useMenuStore.js:85-87 | the menu's selection entry is created empty only when absent; existing selections survive |
| MenuStore.Toggle | stores/useMenuStore.js:337-351 | the toggled item's selection flips |
| MenuStore.ToggleOthers | stores/useMenuStore.js:337-351 | every other (menu, category, item) keeps its selection |
| MenuStore.ToggleTwice | stores/useMenuStore.js:337-351 | two toggles of one item restore every selection |
| MenuStore.MenuStore.constructor | stores/useMenuStore.js:6-10 | empty caches and selections, not loading, no error |
| MenuStore.MenuStore.GetCurrentCafe | stores/useMenuStore.js:32 | the cached record when it is truthy, else null |
| MenuStore.MenuStore.GetMenuForCafe | stores/useMenuStore.js:34-47 | [] when the café, its menu_section or its stored menu is missing; else the stored menu |
| MenuStore.MenuStore.IsItemSelected | stores/useMenuStore.js:49-51 | a missing menu, category or item reads as false; otherwise the stored flag |
| MenuStore.MenuStore.ProcessDirectMenuData | stores/useMenuStore.js:54-95 | true exactly when the embedded menu can be built; then it is stored and the selection entry created if absent; otherwise nothing changes |
| MenuStore.MenuStore.ProcessApiMenuData | stores/useMenuStore.js:159-201 | true exactly when a shape matches and formatting succeeds; then the menu is stored and the selection entry created if absent; otherwise nothing changes |
| MenuStore.MenuStore.TryLoadMenu | stores/useMenuStore.js:98-156 | stores the first of the two answers that processes; false with nothing changed when neither does |
| MenuStore.MenuStore.FetchCafeBySlug | stores/useMenuStore.js:241-335 | a cached café is returned with nothing changed; a thrown query, no rows, a null row or a row without menu_section record the matching error and return null; otherwise the café is cached and its menu loaded embedded, then by request, then as title-only categories, else 'Keine Menüdaten…' is recorded; the selection entry is created exactly on the paths that store a menu; loading ends false |
| MenuStore.MenuStore.ToggleItemSelection | stores/useMenuStore.js:337-351 | creates the missing levels and flips exactly the one entry |
| MenuStore.MenuStore.ClearError | stores/useMenuStore.js:353-355 | error becomes null |

## Left out

- Network calls (`useStrapi`'s `find` and `findOne`) are not modelled. Their answers are parameters, and their async ordering and races are not modelled.
- `setCurrentCafe` does not await its fetch. The model applies the answer at once.
- Timers and debounce are not modelled: `setTimeout` in `updateDetail` and in the resize handler, and listener registration. Timers fire at once.
- DOM work is not modelled. Scrolling (`scrollToDetail`) is left out entirely. The float `getBoundingClientRect` tops are integers given as input.
- Logging is not modelled: `console`, the menu store's `debug` log and `rawResponses`, and the `Date` timestamps.
- The web3 and login actions of `stores/useStore.js` (`closeFunding`, `send`, `login`, `logout`, `updateDB`, `txDB`) are not modelled. They call identifiers the file never defines.
- `loadCafeDetail` is not modelled. It is a fetch wrapper with no logic of its own.
- The `getPosts` getter is not modelled. It only returns `posts`.
- Framework calls (`useHead`, `useRoute`, `useRuntimeConfig`) are not modelled. Their values are parameters.
- `server/routes/sitemap.xml.ts`, `server/routes/robots.txt.ts` and `nuxt.config.ts` are not part of this model.
- `toLowerCase` is modelled for ASCII letters only. Unicode case mapping is not.
- MenuStore.SortKey: only integer `sortOrder` values are modelled. Any other value counts as 0, whereas JavaScript would coerce a numeric string or give NaN.
- Numbers are modelled as integers: ids, prices and sort orders.
- JavaScript's coercion of property keys to strings is not modelled. The keys of `menuData` and `selectedItems` are JSON values.
- MenuStore.TypeErrorMessage: the text of a caught `TypeError` follows V8's wording; other engines word it differently.
- `response.data` is treated as rows only when it is an array. A non-array with a `length` is not modelled.
- DetailPlugin.DetailPanel.OpenDetail: a null product is not modelled. The source would throw on its first line, reading `product.id` for the log.
- MainStore.Store.LoadAvailableCities, MainStore.Store.LoadCitySections: the queries these send are not returned. Only their answers are inputs.
- SeoUtils.MapSeoRecord: a null first record, and a `shop_img` with a `length` above 0 whose first entry is null or undefined, are not modelled. In the source reading a property of such an entry throws inside `fetchSeoData` and is caught there (utils/seo.ts:59-61), which sets the error and resolves to null. A `shop_img` without a `length` (an object such as `{ data: [...] }`, a number, `true`) gives a null image with no error, and a non-empty string gives an undefined image with no error; the record type here holds only a list of images, so these inputs are not modelled either.
- SeoUtils.MapSeoRecord: the `rawData` field of the returned object (utils/seo.ts:57), a copy of the whole record, is not modelled; SeoData carries only the seven SEO fields.
- SeoUtils.FetchSeoData: the `loading` flag (utils/seo.ts:15, 64), set on entry and cleared in `finally`, and the query the call sends (the slug filter and the `populate` of seo and shop_img, utils/seo.ts:19-33) are not modelled; the outcome carries only the data and the error.
- MainStore.ZipHits: postal codes are modelled as strings only. A numeric `zip_code`, which the source turns into text with `toString()` before matching, is not modelled.
- MainStore.PresentValues: the contract states which values are extracted, not their order. The order is stated for the deduplicated lists, in MainStore.UniqueValuesSpec.
- SeoPlugin.SetSeo: the contract states which entries go to meta and to link, not their order. Both keep the input order, as `filter` does.

## Findings

| source | as written | input that shows it | evidently intended | confidence | as-written member | corrected member |
|---|---|---|---|---|---|---|
| plugins/detailPlugin.ts:215-224 | While the panel is open, a click on a café whose id is missing or 0 takes the "different product" branch. `updateDetail` removes the detail entry, and `openDetail` (lines 157-160) then refuses the product. `isDetailOpen` stays true while `posts` holds no detail entry. | Two cafés with ids 1 and 2; click café 1, then click a café without an id | A click on a café without an id changes nothing, so the detail entry is present exactly when the panel is open | not executed | DetailPlugin.IdlessClickWhileOpen | DetailPlugin.DetailPanel.ProductSetupGuarded |
