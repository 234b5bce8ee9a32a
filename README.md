# CustomLearning navigation, modelled in Dafny

This project models the navigation state machine of the `CustomLearning`
web part component of the Microsoft 365 learning pathways solution. The
component shows a catalogue of categories, subcategories, playlists and
assets. The catalogue comes from a read-only content cache. Every click
becomes a transition of the component state:

- the template and id being shown;
- the matched parent subcategory;
- the detail (a list of categories, a list of playlists, or one playlist);
- the loaded assets and the current asset;
- the breadcrumb history;
- the active Level/Audience filter and the facet values offered;
- the page URL.

The page URL is either the standard viewer URL with query parameters or,
inside Microsoft Teams, a deep link. The deep link's `context` carries a
colon-joined six-slot `subEntityId`, percent-encoded with ECMAScript
`encodeURI`.

Layout:

- `seqs.dfy` (`Seqs`) holds the lodash and JavaScript array and string
  operations the component uses, with their properties:
  - `filter`, `find` and `findIndex` by key;
  - `splice`, including a negative start;
  - `join` and `split`.
- `content.dfy` (`Content`) holds the catalogue entities, the filter, the
  breadcrumb item, the component properties and the ambient configuration
  (`Env`).
- `parents.dfy` (`Parents`) holds `_findParentCategory`.
- `sorting.dfy` (`Sorting`) holds `_applyCustomSort`.
- `facets.dfy` (`Facets`) holds `_filterPlaylists`, `_getFilterValues` and
  the facet toggle of `_setFilter`.
- `uri.dfy` (`Uri`) holds `encodeURI`: UTF-8 percent-encoding of every
  character outside the unescaped set of the ECMAScript `encodeURI`
  function (RFC 3986 section 2.1 percent-encoding). It also holds a decoder,
  used to state the round trip.
- `links.dfy` (`Links`) holds the Teams deep link and its query-encoding
  step.
- `nav.dfy` (`Navigation`) describes every transition as a function on the
  state value (`NavState`). It also holds the state invariant
  `Consistent`.
- `navprops.dfy` (`NavigationProps`) holds the properties of those
  transitions.
- `component.dfy` (`Component`) holds the class `CustomLearning`:
  - its fields are the component state;
  - its methods perform each transition step by step, as the component
    does, except that the Teams URLs (`FinishUrl`, `AssetLink`) use the
    corrected query encoding described under "Findings";
  - each method is proved to leave exactly the state the matching
    `Navigation` function describes, and to keep `Consistent`.

Every transition in the component runs under a catch-all handler. A
failure (a category, subcategory or playlist that is not in the cache, or
an asset that is not loaded) therefore leaves the state as it was. The
model returns `None` for "no change".

`setState` followed by its callback is modelled as a commit followed by a
synchronous `_selectAsset`.

The cache, viewer base URL, CDN name, content-only mode and the two
localized strings ("Home", "Not set") are read-only parameters (`Env`).

The code behaves as follows, which a first reading may not expect:

- Standard-mode URLs are not cumulative. Every load starts again from the
  base URL.
- Only subcategory ids are searched. A SubCategory load naming a root
  category's id, which no subcategory carries, therefore changes nothing
  (`NavigationProps.RootIdLoadChangesNothing`).
- The breadcrumb starts with the Home entry only outside content-only mode
  and without a start location. Otherwise its first entry is the start
  view, or it is empty. Once Home is first, every transition keeps it
  there (`NavigationProps.HomeStaysFirst`), except one.
- A breadcrumb click naming an id on the one-entry breadcrumb `[Home]`
  splices from index -1 and empties it, so the reloaded view no longer
  starts with Home (`NavigationProps.HomeLostOnMissedClick`).
- The clicked breadcrumb entry is itself removed and then pushed again by
  the load. A breadcrumb id that is not found removes the last entry.
- Toggling a present facet key twice does not restore the list unless
  the key was last: the key moves to the end
  (`Facets.ToggleTwiceMovesKey`).

## Model

| member | source | states |
|---|---|---|
| Component.CustomLearning.constructor | src/webpart/src/webparts/customLearning/components/CustomLearning.tsx:81-129 | The Teams flag is set exactly when a Teams entity id is given, with the deep-link prefix for it. The state is the default state, with a Home breadcrumb exactly when the web part is not content-only and no start location is set. The invariant holds. |
| Component.CustomLearning.Mount | src/webpart/src/webparts/customLearning/components/CustomLearning.tsx:149-151 | Mounting loads the configured start template and location on the current breadcrumb, and keeps the invariant. |
| Component.CustomLearning.LoadDetail | src/webpart/src/webparts/customLearning/components/CustomLearning.tsx:241-369 | The new state is the committed load followed by its start-asset callback, or the old state when the load fails. The invariant is kept. |
| Component.CustomLearning.Callback | src/webpart/src/webparts/customLearning/components/CustomLearning.tsx:349-365 | After a commit, a playlist with assets selects its start asset, an Asset view with an asset selects it, and any other view is unchanged. The invariant is kept. |
| Component.CustomLearning.Commit | src/webpart/src/webparts/customLearning/components/CustomLearning.tsx:338-348 | The ten state fields are replaced by the computed ones, the panel flags are kept, and the invariant holds afterwards. |
| Component.CustomLearning.Compute | src/webpart/src/webparts/customLearning/components/CustomLearning.tsx:243-336 | A missing history defaults to the current one and a missing filter to the empty one. The result is exactly what the branch for the template commits, or `None` when that branch fails. |
| Component.CustomLearning.CategoryBranch | src/webpart/src/webparts/customLearning/components/CustomLearning.tsx:267-279 | The Category branch fails when no root category has the id. Otherwise it shows the matching roots with the first one's subcategories custom-sorted, pushes that category onto the breadcrumb, and names the category in the URL only when exactly one root matched. |
| Component.CustomLearning.SubCategoryBranch | src/webpart/src/webparts/customLearning/components/CustomLearning.tsx:280-304 | The SubCategory/Playlists branch fails when no subcategory of any root has the id. Otherwise the matched subcategory becomes the parent, its facets are recomputed, it is pushed onto the breadcrumb only without a filter, and it is named in the URL. |
| Component.CustomLearning.SubCategoryShown | src/webpart/src/webparts/customLearning/components/CustomLearning.tsx:284-295 | A node with subcategories is shown as a SubCategory view of them, custom-sorted. A node without is shown as a Playlists view of its playlists that pass the filter, custom-sorted. |
| Component.CustomLearning.SubCategoryUrl | src/webpart/src/webparts/customLearning/components/CustomLearning.tsx:299-303 | The URL is the base plus `&subcategory=<id>`, or the deep link with the id in the subcategory slot. |
| Component.CustomLearning.PlaylistBranch | src/webpart/src/webparts/customLearning/components/CustomLearning.tsx:305-319 | The Playlist branch fails when no playlist has the id. Otherwise it shows the first such playlist with its resolved assets, pushes it onto the breadcrumb, and names it in the URL. |
| Component.CustomLearning.PlaylistUrl | src/webpart/src/webparts/customLearning/components/CustomLearning.tsx:308-312 | The URL is the base plus `&playlist=<id>`, or the deep link with the id in the playlist slot. |
| Component.CustomLearning.PlaylistAssets | src/webpart/src/webparts/customLearning/components/CustomLearning.tsx:313-318 | The loop yields the playlist's asset ids looked up in the cache, in order, with misses skipped. |
| Component.CustomLearning.AssetBranch | src/webpart/src/webparts/customLearning/components/CustomLearning.tsx:320-323 | The Asset branch never fails. It loads the asset with the id when it is cached, shows no detail, keeps the breadcrumb, and leaves the base URL. |
| Component.CustomLearning.DefaultBranch | src/webpart/src/webparts/customLearning/components/CustomLearning.tsx:324-326 | Any other template shows all root categories as a Category view with the base URL. |
| Component.CustomLearning.BaseUrl | src/webpart/src/webparts/customLearning/components/CustomLearning.tsx:259-265 | The unparameterised URL is the base with the CDN, or the deep link whose slots hold only the CDN. |
| Component.CustomLearning.StartUrl | src/webpart/src/webparts/customLearning/components/CustomLearning.tsx:259-265 | A load starts from the standard base URL, or in Teams from the deep-link prefix with the six slots empty except the CDN. |
| Component.CustomLearning.FinishUrl | src/webpart/src/webparts/customLearning/components/CustomLearning.tsx:330-336 | In Teams the slots are colon-joined into the context and the query is encoded. Otherwise the URL is kept. |
| Component.CustomLearning.SelectAsset | src/webpart/src/webparts/customLearning/components/CustomLearning.tsx:389-419 | The state becomes `_selectAsset`'s: unchanged for an asset that is not loaded or is already current, otherwise that asset is current and the URL points at it. The invariant is kept. |
| Component.CustomLearning.AssetLink | src/webpart/src/webparts/customLearning/components/CustomLearning.tsx:393-407 | The asset URL is the base plus `&asset=<id>` when there is no detail, or `&playlist=<detail id>&asset=<id>` otherwise. In Teams it is the deep link with the playlist and asset slots. |
| Component.CustomLearning.HistoryClick | src/webpart/src/webparts/customLearning/components/CustomLearning.tsx:371-387 | A breadcrumb click truncates the history (see `TruncateHistorySpec`) and reloads the clicked template on it. The invariant is kept. |
| Component.CustomLearning.SetFilter | src/webpart/src/webparts/customLearning/components/CustomLearning.tsx:421-449 | The facet key is toggled in its own list and the current view is reloaded with the new filter on the current breadcrumb. The invariant is kept. |
| Component.CustomLearning.LoadSearchResultAsset | src/webpart/src/webparts/customLearning/components/CustomLearning.tsx:455-468 | The breadcrumb is cut to its first entry. Then the playlist is opened on the asset when a playlist id is given, else the subcategory, else nothing happens. The invariant is kept. |
| Parents.FindParentCategory | src/webpart/src/webparts/customLearning/components/CustomLearning.tsx:92-115 | The nested loops with `break` return exactly `ParentChain`, whose meaning is `ParentChainSpec`. |
| Parents.ParentChainSpec | src/webpart/src/webparts/customLearning/components/CustomLearning.tsx:92-115 | The result is empty exactly when no subcategory of any root has the id. Otherwise it is `[matched subcategory, its root]` for the first root in list order, and the first position within it. |
| Parents.RootIdNotMatched | src/webpart/src/webparts/customLearning/components/CustomLearning.tsx:95-104 | Only subcategories are searched: the id of a root category is not found when no subcategory of any root carries it. |
| Sorting.ApplyCustomSort | src/webpart/src/webparts/customLearning/components/CustomLearning.tsx:211-239 | The loop over the order, with its search and splice on a working copy, returns exactly `CustomSort`. |
| Sorting.CustomSort | src/webpart/src/webparts/customLearning/components/CustomLearning.tsx:211-239 | The custom sort is a permutation of its input. |
| Sorting.CustomSortSpec | src/webpart/src/webparts/customLearning/components/CustomLearning.tsx:211-239 | With an empty order the input comes back unchanged. Otherwise the output is the picked items followed by the rest. The picked items' ids follow the order's sequence. The rest keep their original relative order. Together they are a permutation of the input. With unique ids, the rest are exactly the items whose id the order does not name, and every picked item's id is named. |
| Sorting.FindIndex | src/webpart/src/webparts/customLearning/components/CustomLearning.tsx:218-224 | The search loop returns the first index with the id, or -1. |
| Sorting.PickStep | src/webpart/src/webparts/customLearning/components/CustomLearning.tsx:225-229 | One step of the order: an id that is absent is skipped, and a present one moves its item to the front of the result and out of the working copy. |
| Facets.FilterPlaylists | src/webpart/src/webparts/customLearning/components/CustomLearning.tsx:194-209 | The result is an order-preserving subsequence of the input. A playlist is kept exactly when (no Level is selected or its level is selected) and (no Audience is selected or its audience is selected). Every copy of a kept playlist stays and no copy of a dropped one does. An empty filter keeps every playlist. |
| Facets.GetFilterValues | src/webpart/src/webparts/customLearning/components/CustomLearning.tsx:153-192 | The loop over the scope returns exactly `FilterValuesOf`. |
| Facets.CheckPlaylists | src/webpart/src/webparts/customLearning/components/CustomLearning.tsx:158-179 | Scanning more playlists extends the deduplicated facet list exactly as scanning all of them at once would. |
| Facets.FilterValuesSpec | src/webpart/src/webparts/customLearning/components/CustomLearning.tsx:153-192 | The scope is the node's subcategories, or the node itself when it has none. No two values share (type, key). Every scanned playlist's audience and level are offered. Every value comes from a scanned playlist. An empty key carries the "Not set" name. |
| Facets.FilterValuesOrder | src/webpart/src/webparts/customLearning/components/CustomLearning.tsx:158-187 | The values appear in first-seen order: each is the first occurrence of its (type, key) among the scanned facets, and the list is a subsequence of them. |
| Facets.DistinctSpec | src/webpart/src/webparts/customLearning/components/CustomLearning.tsx:161-176 | Deduplication by (type, key) leaves no duplicates, loses no (type, key), keeps first occurrences, and keeps the order. |
| Facets.ToggleFilter | src/webpart/src/webparts/customLearning/components/CustomLearning.tsx:426-443 | A Level toggle leaves Audience untouched and an Audience toggle leaves Level untouched. |
| Facets.ToggleFilterNoDup | src/webpart/src/webparts/customLearning/components/CustomLearning.tsx:426-443 | Toggling keeps both facet lists of a duplicate-free filter duplicate-free, and the toggled key is selected afterwards exactly when it was not before. |
| Facets.ToggleSpec | src/webpart/src/webparts/customLearning/components/CustomLearning.tsx:428-441 | `Toggle`: on a duplicate-free list, the key is in the result exactly when it was absent, and every other key keeps its membership. The result stays duplicate-free, and an absent key is appended at the end. |
| Facets.ToggleTwice | src/webpart/src/webparts/customLearning/components/CustomLearning.tsx:428-441 | On a duplicate-free list, toggling twice restores the exact list when the key was absent, and the same multiset of keys in every case. |
| Facets.ToggleTwiceMovesKey | src/webpart/src/webparts/customLearning/components/CustomLearning.tsx:428-433 | Toggling a present key twice moves it to the end: `["a","b"]` becomes `["b","a"]`. |
| NavigationProps.HomeStaysFirst | src/webpart/src/webparts/customLearning/components/CustomLearning.tsx:371-387 | Once the breadcrumb starts with Home, mounting, every load, a filter change, an asset selection and a search result keep Home first. So does a breadcrumb click, except a nav click naming an id on a one-entry breadcrumb. |
| NavigationProps.LoadKeepsHome | src/webpart/src/webparts/customLearning/components/CustomLearning.tsx:243-251 | A load, with its callback, keeps Home first when the current and the given breadcrumb both start with it. |
| NavigationProps.TruncateKeepsHome | src/webpart/src/webparts/customLearning/components/CustomLearning.tsx:371-383 | The click truncation keeps Home first unless it is a nav click naming an id on a one-entry breadcrumb. |
| NavigationProps.HomeLostOnMissedClick | src/webpart/src/webparts/customLearning/components/CustomLearning.tsx:377-381 | A nav click naming any id on the breadcrumb `[Home]` empties it, and a successful reload then does not start with Home. |
| Navigation.ResolveAssets | src/webpart/src/webparts/customLearning/components/CustomLearning.tsx:313-318 | The resolved assets are cached assets whose ids the playlist lists, and there are at most as many as ids. `ResolveAssetsSpec` states completeness and order. |
| NavigationProps.ResolveAssetsSpec | src/webpart/src/webparts/customLearning/components/CustomLearning.tsx:313-318 | The resolved assets' ids are exactly the playlist's ids that are cached, in the playlist's order, with misses skipped: nothing cached is lost and nothing is reordered. |
| NavigationProps.ResolveAssetsFirst | src/webpart/src/webparts/customLearning/components/CustomLearning.tsx:313-318 | Each resolved asset is the first cached asset with its id, as `find` returns it. |
| Navigation.InitialConsistent | src/webpart/src/webparts/customLearning/components/CustomLearning.tsx:117-129 | The initial state satisfies the invariant (among its clauses: the current asset is loaded, the view matches the template, and no facet key is selected twice). Its breadcrumb is `[Home]` when there is no start location and the web part is not content-only, and empty otherwise. |
| Navigation.NavigateConsistent | src/webpart/src/webparts/customLearning/components/CustomLearning.tsx:241-348 | Every successful load (`Navigate`) from a consistent state, given a duplicate-free filter or none, commits a consistent state with no current asset. |
| Navigation.SelectAssetConsistent | src/webpart/src/webparts/customLearning/components/CustomLearning.tsx:389-419 | Selecting an asset keeps the invariant. |
| Navigation.LoadDetailConsistent | src/webpart/src/webparts/customLearning/components/CustomLearning.tsx:241-369 | A whole load (`LoadDetailSpec`), with its callback, keeps the invariant. |
| Navigation.SetFilterConsistent | src/webpart/src/webparts/customLearning/components/CustomLearning.tsx:421-449 | Toggling a facet and reloading keeps the invariant, including that no facet key is selected twice. |
| NavigationProps.NavigateFails | src/webpart/src/webparts/customLearning/components/CustomLearning.tsx:266-327 | `Navigate` fails exactly when the Category id names no root, the SubCategory/Playlists id names no subcategory of any root, or the Playlist id names no playlist. Asset and other templates never fail. |
| NavigationProps.FailedLoadChangesNothing | src/webpart/src/webparts/customLearning/components/CustomLearning.tsx:241-369 | A failed load leaves the whole state unchanged. |
| NavigationProps.RootIdLoadChangesNothing | src/webpart/src/webparts/customLearning/components/CustomLearning.tsx:280-284 | A SubCategory or Playlists load of a root category's id that no subcategory carries changes nothing, whatever the breadcrumb, filter or asset given. |
| NavigationProps.CategoryView | src/webpart/src/webparts/customLearning/components/CustomLearning.tsx:267-279 | The view lists the matching roots in cache order, all with the id, the first with its subcategories custom-sorted (a permutation of them, unchanged without custom sort). The view has no parent or assets, and the breadcrumb gains the category. |
| NavigationProps.SubCategoryView | src/webpart/src/webparts/customLearning/components/CustomLearning.tsx:280-304 | The parent is the matched subcategory itself, found under a root. It is a SubCategory view exactly when the node has subcategories, showing a permutation of them (the same list without custom sort). Otherwise the view shows the node's cached playlists that pass the filter, each as often as the cache holds it, in cache order without custom sort. The facets are the node's, without duplicates. The breadcrumb gains the node only when no filter was given. |
| NavigationProps.PlaylistView | src/webpart/src/webparts/customLearning/components/CustomLearning.tsx:305-319 | The view shows the first cached playlist with the id and its resolved assets. No asset is current yet, and the breadcrumb gains the playlist. |
| NavigationProps.ResolveAssetsAllFound | src/webpart/src/webparts/customLearning/components/CustomLearning.tsx:313-318 | When every id is cached, the i-th asset is the one with the i-th id. |
| NavigationProps.ResolveAssetsNoneFound | src/webpart/src/webparts/customLearning/components/CustomLearning.tsx:313-318 | When no id is cached, there are no assets. |
| NavigationProps.NavigateHistory | src/webpart/src/webparts/customLearning/components/CustomLearning.tsx:243-251 | Category and Playlist loads, and SubCategory/Playlists loads without a filter, push exactly one entry for the loaded item. Asset loads, other templates, and filtered SubCategory/Playlists loads keep the breadcrumb as given. |
| NavigationProps.AfterCommitOnlySelects | src/webpart/src/webparts/customLearning/components/CustomLearning.tsx:349-365 | The callback after a commit changes at most the current asset and the URL. |
| NavigationProps.TruncateHistorySpec | src/webpart/src/webparts/customLearning/components/CustomLearning.tsx:371-383 | `TruncateHistory`: without `nav` the breadcrumb is kept. An empty id resets it to `[Home]`. An id first found at index k keeps exactly the first k entries. An id that is not found drops the last entry. |
| NavigationProps.HistoryClickReturnsToEntry | src/webpart/src/webparts/customLearning/components/CustomLearning.tsx:371-387 | A nav click on the entry at index k that reloads a category or playlist leaves the first k entries followed by the reloaded entry. |
| NavigationProps.KeepFirstSpec | src/webpart/src/webparts/customLearning/components/CustomLearning.tsx:457-459 | `KeepFirst`: the search-result breadcrumb is empty when the breadcrumb was, and otherwise exactly its first entry. |
| NavigationProps.SearchResultHistory | src/webpart/src/webparts/customLearning/components/CustomLearning.tsx:455-464 | Opening a search result in a cached playlist shows that playlist on a breadcrumb of at most the first entry followed by the playlist. |
| NavigationProps.SearchResultAsset | src/webpart/src/webparts/customLearning/components/CustomLearning.tsx:455-461 | Opening a search result with a playlist and an asset id shows that playlist with the named asset current when it is loaded (no asset otherwise), and the URL names both. |
| NavigationProps.PlaylistExplicitAsset | src/webpart/src/webparts/customLearning/components/CustomLearning.tsx:349-360 | A Playlist load given an asset id shows the playlist with its resolved assets and makes exactly the loaded asset with that id current (none when it is not loaded). The URL then names the playlist and the asset. |
| NavigationProps.SetFilterOnPlaylists | src/webpart/src/webparts/customLearning/components/CustomLearning.tsx:421-449 | Toggling a facet on a Playlists view reloads the same category with the toggled filter and no new breadcrumb. Every playlist shown belongs to the category and passes the new filter. |
| NavigationProps.NavigateUrl | src/webpart/src/webparts/customLearning/components/CustomLearning.tsx:259-336 | In standard mode every successful load's URL is the base, `?cdn=` and the CDN, followed by exactly one of: `&category=<id>` when one root matched, `&subcategory=<id>`, `&playlist=<id>`, or nothing. In Teams mode it is the deep link whose slots are `["", CDN, category, subcategory, playlist, ""]`. |
| NavigationProps.NavigateTeamsUrl | src/webpart/src/webparts/customLearning/components/CustomLearning.tsx:329-336 | A Teams load's URL is the app path, the entity id, `?`, and the encoded context. Decoding that query gives back the context with the colon-joined slots. |
| NavigationProps.SelectAssetUnchanged | src/webpart/src/webparts/customLearning/components/CustomLearning.tsx:391-392 | `SelectAssetSpec`: selecting an asset that is not loaded, or the one already current, changes nothing. |
| NavigationProps.SelectAssetEffect | src/webpart/src/webparts/customLearning/components/CustomLearning.tsx:389-414 | Selecting another loaded asset makes it current and changes only the current asset and the URL. The URL is `&asset=<id>` without detail, `&playlist=<playlist id>&asset=<id>` on a playlist, or the deep link with the playlist and asset slots. |
| NavigationProps.SelectAssetIdempotent | src/webpart/src/webparts/customLearning/components/CustomLearning.tsx:389-415 | Selecting the same asset twice is the same as selecting it once. |
| NavigationProps.PlaylistStartAsset | src/webpart/src/webparts/customLearning/components/CustomLearning.tsx:350-361 | A playlist opened without an asset id starts on the configured start asset when it is the start location and a start asset is set (if that asset is loaded), and on its first asset otherwise. A playlist without assets selects nothing. |
| Links.EncodeQuery | src/webpart/src/webparts/customLearning/components/CustomLearning.tsx:333-335 | The intended encoding keeps the URL up to its first `?`, and decoding the rest of the result gives back everything after that `?`. |
| Links.EncodeQueryShape | src/webpart/src/webparts/customLearning/components/CustomLearning.tsx:333-335 | When the part before the `?` has no `?`, the intended encoding is that part, `?`, and the encoded rest. |
| Links.EncodeQueryAsWritten | src/webpart/src/webparts/customLearning/components/CustomLearning.tsx:333-335 | As written: a URL without `?` gains `?` and the encoded word `undefined`. A URL with a `?` keeps everything up to its first `?`, and decoding the rest of the result gives only the text between the first and the second `?`. |
| Links.EncodeQueryAgrees | src/webpart/src/webparts/customLearning/components/CustomLearning.tsx:333-335 | On URLs with at most one `?`, the encoding as written and the intended one agree. |
| Links.EncodeQueryAsWrittenTruncates | src/webpart/src/webparts/customLearning/components/CustomLearning.tsx:333-335 | As written, a URL `a?b?c` becomes `a?` plus the encoded `b`: everything from the second `?` on is lost. |
| Links.EncodeQueryCounterexample | src/webpart/src/webparts/customLearning/components/CustomLearning.tsx:333-335 | On `h?a?b` the encoding as written gives `h?a`, while the intended one gives back `h?a?b`. |
| Links.AsWrittenDropsSecondQuery | src/webpart/src/webparts/customLearning/components/CustomLearning.tsx:333-335 | The encoding as written maps `h?a?b` to `h?a`. |
| Links.IntendedKeepsSecondQuery | src/webpart/src/webparts/customLearning/components/CustomLearning.tsx:333-335 | The intended encoding maps `h?a?b` to itself. |
| Links.EncodeQueryKeepsSafeQuery | src/webpart/src/webparts/customLearning/components/CustomLearning.tsx:333-335 | A query made only of unescaped characters passes through the encoding unchanged. |
| Links.TeamsUrlShape | src/webpart/src/webparts/customLearning/components/CustomLearning.tsx:85-88 | `TeamsUrl`: a deep link is the app path, the entity id, `?`, and the encoded `context={"subEntityId":"<slots>"}`. Decoding its query gives the context back. |
| Uri.EncodeUriRoundTrip | src/webpart/src/webparts/customLearning/components/CustomLearning.tsx:335 | Percent-decoding (with UTF-8) what `encodeURI` produces gives back the original string. |
| Uri.EncodeUri | src/webpart/src/webparts/customLearning/components/CustomLearning.tsx:335 | The output of `encodeURI` contains only unescaped characters and `%`. |
| Uri.EncodeUriKeepsSafe | src/webpart/src/webparts/customLearning/components/CustomLearning.tsx:335 | A string made only of unescaped characters is left unchanged. |
| Uri.EncodeUriAppend | src/webpart/src/webparts/customLearning/components/CustomLearning.tsx:335 | Encoding works character by character: encoding a concatenation concatenates the encodings. |
| Uri.EncodeAsciiEscaped | src/webpart/src/webparts/customLearning/components/CustomLearning.tsx:335 | An ASCII character outside the unescaped set becomes `%` followed by its two upper-case hex digits. |
| Uri.EncodeUriBrace | src/webpart/src/webparts/customLearning/components/CustomLearning.tsx:335 | The `{` that opens the deep link's context is encoded as `%7B`. |
| Uri.HexRoundTrip | src/webpart/src/webparts/customLearning/components/CustomLearning.tsx:335 | Every hex digit `encodeURI` writes reads back as its value. |

## Left out

- React rendering and lifecycle (`render`, `_renderPanel`, `_renderContainer`, `_doRenderPanel`, the dialogs). These are presentational and hold no navigation logic.
- `shouldComponentUpdate` and the re-initialisation in `componentDidUpdate` (lines 131-147). They are framework hooks; only `componentDidMount` is modelled (`Mount`).
- The scroll reset after `_selectAsset`, `onAdminPlaylists` (`window.open`) and `Logger.write`. These are DOM and I/O side effects.
- The content cache, the viewer base URL, the CDN name, the web part mode and the localized strings. They are read-only parameters (`Env`), not modelled at their source. The cache is assumed to be loaded.
- The Category branch writes the sorted subcategories back into the cached category. The model puts the sorted list only into the committed detail, because the cache is a read-only parameter here. With custom sort on, every later view that reads that category's subcategories from the cache therefore shows them sorted in the component but in their original order in the model: the Default/Home view of all categories (whose detail is the cached list itself), and the subcategory positions `_findParentCategory` reports.
- The Asset branch pushes `undefined` into the assets when the asset is not cached. The model commits no assets instead. The later `_selectAsset` changes nothing in either case, so only the `assets` field differs.
- A `null` assets list is modelled as the empty list, and a `null` parent, detail or current asset as `None`/`NoDetail`.
- `_getFilterValues` throws when a playlist has a non-empty audience or level id but no value record for it, or a `null` level id. It catches the error itself and returns the facets gathered before the throw, a prefix of the full list. The model's ids are strings, never `null`, and it takes the display name as part of the playlist, so this path does not arise.
- Multilingual playlist titles are abstracted to one string per playlist.
- `encodeURI` throwing `URIError` on a lone surrogate is not modelled. Dafny's `char` here is a Unicode scalar value, so surrogates cannot occur.
- Aliasing of the breadcrumb array. The component clones the history in `_loadDetail` (when none is given), `_historyClick` and `_loadSearchResultAsset`, and clones the filter in `_setFilter`. `componentDidMount` and `_setFilter` pass the current state's history array itself, so the push in a Category, unfiltered SubCategory or Playlist load changes that array in place before `setState`. Values in the model are immutable and the push is a new value. The difference cannot be seen in the model: nothing after the push can fail, so the pushed array is always the one committed.
- Links.TeamsUrl: the Teams URLs in the model use the corrected query encoding (`Links.EncodeQuery`). The encoding as written is kept as `Links.EncodeQueryAsWritten`, and `Links.EncodeQueryAgrees` shows the two coincide whenever the deep link has a single `?`.

## Findings

| source | as written | input that shows it | evidently intended | confidence | as-written member | corrected member |
|---|---|---|---|---|---|---|
| src/webpart/src/webparts/customLearning/components/CustomLearning.tsx:333-335 (also 398-400) | The Teams URL is split at every `?`, and only piece 1 is encoded and kept, so everything from a second `?` on is silently dropped | an id or CDN name containing `?`, e.g. the URL `h?a?b`, becomes `h?a` | percent-encode everything after the first `?` | not executed | Links.EncodeQueryCounterexample | Links.EncodeQuery |
