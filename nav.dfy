/**
 * The navigation state machine as values: the component state, the state
 * each transition produces, and the properties of those transitions.  The
 * class in component.dfy performs the same transitions step by step and is
 * proved to produce exactly these states.
 *
 * Every transition runs under a catch-all handler, so a failure (an
 * unknown category, an unmatched subcategory, an unknown playlist, an
 * asset that is not loaded) leaves the state as it was: the functions
 * below return `None` for "no change".
 */
module Navigation {
  import opened Seqs
  import opened Content
  import opened Sorting
  import opened Facets
  import opened Parents
  import opened Links

  /** What a view shows: nothing yet, a list of categories, a list of playlists, or one playlist. */
  datatype Detail =
    | NoDetail
    | Categories(categories: seq<Category>)
    | Playlists(playlists: seq<Playlist>)
    | SinglePlaylist(playlist: Playlist)

  /** The component state; a `null` parent, detail or current asset is `None`/`NoDetail`, `null` assets are []. */
  datatype NavState = NavState(
    template: Template,
    templateId: string,
    parent: Option<Category>,
    detail: Detail,
    assets: seq<Asset>,
    currentAsset: Option<Asset>,
    history: seq<HistoryItem>,
    filter: Filter,
    filterValues: seq<FilterValue>,
    url: string,
    renderPanel: bool,
    fullSizeAsset: bool)

  /** The component runs inside Teams when it was given a non-empty Teams entity id. */
  predicate TeamsMode(props: Props)
  {
    |props.teamsEntityId| > 0
  }

  /**
   * The state the constructor leaves: all defaults, and a Home breadcrumb
   * when the web part is not content-only and no start location is set.
   */
  function InitialState(env: Env, props: Props): NavState
  {
    NavState(NoKind, "", None, NoDetail, [], None,
             if !env.contentOnly && |props.startLocation| < 1 then [HomeItem(env)] else [],
             EmptyFilter(), [], "", false, false)
  }

  /** The standard viewer URL every load starts from. */
  function StandardBase(env: Env): string
  {
    env.baseViewerUrl + "?cdn=" + env.cdn
  }

  /** The six subEntityId slots: empty, CDN, category, subcategory, playlist, asset. */
  function Slots(env: Env, category: string, subcategory: string, playlist: string, asset: string): seq<string>
  {
    ["", env.cdn, category, subcategory, playlist, asset]
  }

  /** The URL of a view: the Teams deep link in Teams, the base URL plus `query` otherwise. */
  function PageUrl(env: Env, props: Props, query: string, slots: seq<string>): string
  {
    if TeamsMode(props) then TeamsUrl(props.teamsEntityId, slots) else StandardBase(env) + query
  }

  /** `_applyCustomSort` when custom sorting is switched on, the list itself otherwise. */
  function SortIfCustom<T>(props: Props, items: seq<T>, key: T -> string): seq<T>
  {
    if props.customSort then CustomSort(items, key, props.customSortOrder) else items
  }

  /** The assets a playlist lists, looked up in the cache in list order, misses skipped. */
  function ResolveAssets(ids: seq<string>, assets: seq<Asset>): (r: seq<Asset>)
    ensures |r| <= |ids|
    ensures forall a :: a in r ==> a in assets && a.id in ids
    decreases |ids|
  {
    if ids == [] then []
    else
      var init := ResolveAssets(ids[..|ids| - 1], assets);
      match FindByKey(assets, AssetId, ids[|ids| - 1])
      case None => init
      case Some(a) => init + [a]
  }

  /** The fields `_loadDetail` commits; the current asset is cleared, the panel flags kept. */
  function Commit(st: NavState, template: Template, templateId: string, parent: Option<Category>, detail: Detail,
                  assets: seq<Asset>, history: seq<HistoryItem>, filter: Filter, filterValues: seq<FilterValue>,
                  url: string): NavState
  {
    st.(template := template, templateId := templateId, parent := parent, detail := detail, assets := assets,
        currentAsset := None, history := history, filter := filter, filterValues := filterValues, url := url)
  }

  // ---------------------------------------------------------------------
  // _loadDetail, branch by branch
  // ---------------------------------------------------------------------

  /** The root categories with the id. */
  function MatchingCategories(env: Env, id: string): seq<Category>
  {
    Keep(env.cache.categories, (c: Category) => c.id == id)
  }

  /** The Category branch: the matching roots, the first one's subcategories custom-sorted. */
  function LoadCategory(env: Env, props: Props, st: NavState, templateId: string, h: seq<HistoryItem>, f: Filter): Option<NavState>
  {
    var matches := MatchingCategories(env, templateId);
    if |matches| == 0 then None
    else
      var first := matches[0].(subCategories := SortIfCustom(props, matches[0].subCategories, CategoryId));
      var one := |matches| == 1;
      Some(Commit(st, CategoryKind, templateId, None, Categories([first] + matches[1..]), [],
                  h + [HistoryItem(first.id, first.name, CategoryKind)], f, st.filterValues,
                  PageUrl(env, props, if one then "&category=" + first.id else "",
                          Slots(env, if one then first.id else "", "", "", ""))))
  }

  /** The playlists of a leaf category that pass the filter, custom-sorted. */
  function LeafPlaylists(env: Env, props: Props, node: Category, f: Filter): seq<Playlist>
  {
    SortIfCustom(props, FilterPlaylists(PlaylistsOf(env.cache.playlists, node.id), f), PlaylistId)
  }

  /**
   * The SubCategory/Playlists branch: the matched subcategory becomes the
   * parent; its subcategories are shown when it has any, its filtered
   * playlists otherwise; the facets are recomputed; the breadcrumb is
   * pushed only when no filter was supplied.
   */
  function LoadSubCategory(env: Env, props: Props, st: NavState, templateId: string, h: seq<HistoryItem>, f: Filter,
                           push: bool): Option<NavState>
  {
    var chain := ParentChain(templateId, env.cache.categories);
    if chain == [] then None
    else
      var node := chain[0];
      var kind := if |node.subCategories| > 0 then SubCategoryKind else PlaylistsKind;
      var detail := if |node.subCategories| > 0 then Categories(SortIfCustom(props, node.subCategories, CategoryId))
                    else Playlists(LeafPlaylists(env, props, node, f));
      Some(Commit(st, kind, templateId, Some(node), detail, [],
                  if push then h + [HistoryItem(node.id, node.name, kind)] else h, f,
                  FilterValuesOf(node, env.cache.playlists, env.filterNotSet),
                  PageUrl(env, props, "&subcategory=" + node.id, Slots(env, "", node.id, "", ""))))
  }

  /** The Playlist branch: the first playlist with the id, and its assets. */
  function LoadPlaylist(env: Env, props: Props, st: NavState, templateId: string, h: seq<HistoryItem>, f: Filter): Option<NavState>
  {
    match FindByKey(env.cache.playlists, PlaylistId, templateId)
    case None => None
    case Some(p) =>
      Some(Commit(st, PlaylistKind, templateId, None, SinglePlaylist(p), ResolveAssets(p.assetIds, env.cache.assets),
                  h + [HistoryItem(p.id, p.title, PlaylistKind)], f, st.filterValues,
                  PageUrl(env, props, "&playlist=" + p.id, Slots(env, "", "", p.id, ""))))
  }

  /** The Asset branch: the asset with the id, if loaded; no breadcrumb, no detail. */
  function LoadAsset(env: Env, props: Props, st: NavState, templateId: string, h: seq<HistoryItem>, f: Filter): NavState
  {
    var assets := match FindByKey(env.cache.assets, AssetId, templateId) case None => [] case Some(a) => [a];
    Commit(st, AssetKind, templateId, None, NoDetail, assets, h, f, st.filterValues,
           PageUrl(env, props, "", Slots(env, "", "", "", "")))
  }

  /** Any other template: all root categories, shown as the Category view. */
  function LoadDefault(env: Env, props: Props, st: NavState, templateId: string, h: seq<HistoryItem>, f: Filter): NavState
  {
    Commit(st, CategoryKind, templateId, None, Categories(env.cache.categories), [], h, f, st.filterValues,
           PageUrl(env, props, "", Slots(env, "", "", "", "")))
  }

  /**
   * The state `_loadDetail` commits, or `None` when it fails.  A missing
   * history means the current one; a missing filter means the empty one.
   */
  function Navigate(env: Env, props: Props, st: NavState, template: Template, templateId: string,
                    history: Option<seq<HistoryItem>>, filter: Option<Filter>): Option<NavState>
  {
    var h := if history.Some? then history.value else st.history;
    var f := if filter.Some? then filter.value else EmptyFilter();
    match template
    case CategoryKind => LoadCategory(env, props, st, templateId, h, f)
    case SubCategoryKind => LoadSubCategory(env, props, st, templateId, h, f, filter.None?)
    case PlaylistsKind => LoadSubCategory(env, props, st, templateId, h, f, filter.None?)
    case PlaylistKind => LoadPlaylist(env, props, st, templateId, h, f)
    case AssetKind => Some(LoadAsset(env, props, st, templateId, h, f))
    case NoKind => Some(LoadDefault(env, props, st, templateId, h, f))
  }

  // ---------------------------------------------------------------------
  // _selectAsset and the commit callback
  // ---------------------------------------------------------------------

  /** The playlist id the standard asset URL names: a list detail has no id and prints as `undefined`. */
  function DetailQueryId(d: Detail): string
  {
    match d
    case SinglePlaylist(p) => p.id
    case _ => "undefined"
  }

  /** The playlist slot of the Teams asset link: an id-less detail joins as the empty string. */
  function DetailSlotId(d: Detail): string
  {
    match d
    case SinglePlaylist(p) => p.id
    case _ => ""
  }

  /** The URL of a selected asset. */
  function AssetUrl(env: Env, props: Props, detail: Detail, assetId: string): string
  {
    PageUrl(env, props,
            if detail.NoDetail? then "&asset=" + assetId else "&playlist=" + DetailQueryId(detail) + "&asset=" + assetId,
            Slots(env, "", "", DetailSlotId(detail), assetId))
  }

  /**
   * `_selectAsset`: find the asset among the loaded ones; selecting an
   * asset that is not loaded fails, selecting the current one changes
   * nothing, any other makes it current and points the URL at it.
   */
  function SelectAssetSpec(env: Env, props: Props, st: NavState, assetId: string): NavState
  {
    match FindByKey(st.assets, AssetId, assetId)
    case None => st
    case Some(a) =>
      if st.currentAsset == Some(a) then st
      else st.(currentAsset := Some(a), url := AssetUrl(env, props, st.detail, a.id))
  }

  /** The asset a freshly loaded playlist starts on. */
  function StartAssetId(props: Props, st: NavState, assetId: string): string
    requires |st.assets| > 0
  {
    if assetId != "" then assetId
    else if st.detail.SinglePlaylist? && props.startLocation == st.detail.playlist.id && |props.startAsset| > 0
    then props.startAsset
    else st.assets[0].id
  }

  /** The callback after the commit: a playlist selects its start asset, an asset view selects its asset. */
  function AfterCommit(env: Env, props: Props, st: NavState, assetId: string): NavState
  {
    if st.template == PlaylistKind && |st.assets| > 0 then SelectAssetSpec(env, props, st, StartAssetId(props, st, assetId))
    else if st.template == AssetKind && |st.assets| > 0 then SelectAssetSpec(env, props, st, st.templateId)
    else st
  }

  /** `_loadDetail` as a whole: the commit and its callback, or no change on failure. */
  function LoadDetailSpec(env: Env, props: Props, st: NavState, template: Template, templateId: string,
                          history: Option<seq<HistoryItem>>, filter: Option<Filter>, assetId: string): NavState
  {
    match Navigate(env, props, st, template, templateId, history, filter)
    case None => st
    case Some(s) => AfterCommit(env, props, s, assetId)
  }

  // ---------------------------------------------------------------------
  // The other transitions
  // ---------------------------------------------------------------------

  /**
   * `_historyClick`'s breadcrumb: with `nav`, an empty id resets to Home;
   * otherwise everything from the first entry with the id on is spliced
   * away (a miss splices from index -1, which drops the last entry).
   */
  function TruncateHistory(h: seq<HistoryItem>, templateId: string, nav: bool, home: HistoryItem): seq<HistoryItem>
  {
    if !nav then h
    else if templateId == "" then [home]
    else
      var idx := IndexOfKey(h, HistoryId, templateId);
      Splice(h, idx, |h| - idx)
  }

  function HistoryClickSpec(env: Env, props: Props, st: NavState, template: Template, templateId: string, nav: bool): NavState
  {
    LoadDetailSpec(env, props, st, template, templateId,
                   Some(TruncateHistory(st.history, templateId, nav, HomeItem(env))), None, "")
  }

  /** `_setFilter`: toggle the key, then reload the current view with the new filter. */
  function SetFilterSpec(env: Env, props: Props, st: NavState, v: FilterValue): NavState
  {
    LoadDetailSpec(env, props, st, st.template, st.templateId, Some(st.history), Some(ToggleFilter(st.filter, v)), "")
  }

  /** `_loadSearchResultAsset`'s breadcrumb: `splice(1)` when longer than one entry. */
  function KeepFirst(h: seq<HistoryItem>): seq<HistoryItem>
  {
    if |h| > 1 then SpliceTail(h, 1) else h
  }

  /**
   * `_loadSearchResultAsset`: open the playlist (on the given asset) when a
   * playlist id is given, else the subcategory, else nothing.
   */
  function SearchResultSpec(env: Env, props: Props, st: NavState, subcategoryId: string, playlistId: string,
                            assetId: string): NavState
  {
    var h := KeepFirst(st.history);
    if playlistId != "" then LoadDetailSpec(env, props, st, PlaylistKind, playlistId, Some(h), None, assetId)
    else if subcategoryId != "" then LoadDetailSpec(env, props, st, SubCategoryKind, subcategoryId, Some(h), None, "")
    else st
  }

  /** `componentDidMount`: load the configured start view on the current breadcrumb. */
  function MountSpec(env: Env, props: Props, st: NavState): NavState
  {
    LoadDetailSpec(env, props, st, props.startType, props.startLocation, Some(st.history), None, "")
  }

  // ---------------------------------------------------------------------
  // The state invariant
  // ---------------------------------------------------------------------

  /**
   * What every reachable state satisfies: the detail has the shape the
   * template calls for, a subcategory view has its parent, the current
   * asset is one of the loaded assets, no facet value is offered twice,
   * and no key is selected twice in either facet of the active filter.
   */
  ghost predicate Consistent(st: NavState)
  {
    && (st.currentAsset.Some? ==> st.currentAsset.value in st.assets)
    && (st.template == CategoryKind ==> st.detail.Categories? && st.parent.None?)
    && (st.template == SubCategoryKind ==> st.detail.Categories? && st.parent.Some?)
    && (st.template == PlaylistsKind ==> st.detail.Playlists? && st.parent.Some?)
    && (st.template == PlaylistKind ==> st.detail.SinglePlaylist? && st.parent.None?)
    && (st.template == AssetKind ==> st.detail.NoDetail? && |st.assets| <= 1)
    && (st.template == NoKind ==> st.detail.NoDetail? && st.assets == [] && st.currentAsset.None?)
    && DistinctFacets(st.filterValues)
    && FilterNoDup(st.filter)
  }

  lemma InitialConsistent(env: Env, props: Props)
    ensures Consistent(InitialState(env, props))
    ensures |props.startLocation| == 0 && !env.contentOnly ==> InitialState(env, props).history == [HomeItem(env)]
    ensures |props.startLocation| > 0 || env.contentOnly ==> InitialState(env, props).history == []
  {
  }

  lemma NavigateConsistent(env: Env, props: Props, st: NavState, template: Template, templateId: string,
                           history: Option<seq<HistoryItem>>, filter: Option<Filter>)
    requires Consistent(st)
    requires filter.Some? ==> FilterNoDup(filter.value)
    ensures match Navigate(env, props, st, template, templateId, history, filter)
      case None => true
      case Some(s) => Consistent(s) && s.currentAsset.None?
  {
    var h := if history.Some? then history.value else st.history;
    var f := if filter.Some? then filter.value else EmptyFilter();
    if template == SubCategoryKind || template == PlaylistsKind {
      SubCategoryConsistent(env, props, st, templateId, h, f, filter.None?);
    }
  }

  /** A subcategory load leaves a consistent state: in particular its recomputed facets hold no duplicate. */
  lemma SubCategoryConsistent(env: Env, props: Props, st: NavState, templateId: string, h: seq<HistoryItem>, f: Filter,
                              push: bool)
    requires FilterNoDup(f)
    ensures LoadSubCategory(env, props, st, templateId, h, f, push).Some? ==>
      && Consistent(LoadSubCategory(env, props, st, templateId, h, f, push).value)
      && LoadSubCategory(env, props, st, templateId, h, f, push).value.currentAsset.None?
  {
    var chain := ParentChain(templateId, env.cache.categories);
    if chain != [] {
      FilterValuesSpec(chain[0], env.cache.playlists, env.filterNotSet);
    }
  }

  lemma SelectAssetConsistent(env: Env, props: Props, st: NavState, assetId: string)
    requires Consistent(st)
    ensures Consistent(SelectAssetSpec(env, props, st, assetId))
  {
  }

  lemma LoadDetailConsistent(env: Env, props: Props, st: NavState, template: Template, templateId: string,
                             history: Option<seq<HistoryItem>>, filter: Option<Filter>, assetId: string)
    requires Consistent(st)
    requires filter.Some? ==> FilterNoDup(filter.value)
    ensures Consistent(LoadDetailSpec(env, props, st, template, templateId, history, filter, assetId))
  {
    NavigateConsistent(env, props, st, template, templateId, history, filter);
    match Navigate(env, props, st, template, templateId, history, filter)
    case None =>
    case Some(s) =>
      AfterCommitConsistent(env, props, s, assetId);
  }

  /** `_setFilter` keeps the invariant: the toggled filter stays duplicate-free. */
  lemma SetFilterConsistent(env: Env, props: Props, st: NavState, v: FilterValue)
    requires Consistent(st)
    ensures Consistent(SetFilterSpec(env, props, st, v))
  {
    ToggleFilterNoDup(st.filter, v);
    LoadDetailConsistent(env, props, st, st.template, st.templateId, Some(st.history), Some(ToggleFilter(st.filter, v)), "");
  }

  lemma AfterCommitConsistent(env: Env, props: Props, s: NavState, assetId: string)
    requires Consistent(s)
    ensures Consistent(AfterCommit(env, props, s, assetId))
  {
    if s.template == PlaylistKind && |s.assets| > 0 {
      SelectAssetConsistent(env, props, s, StartAssetId(props, s, assetId));
    } else if s.template == AssetKind && |s.assets| > 0 {
      SelectAssetConsistent(env, props, s, s.templateId);
    }
  }
}
