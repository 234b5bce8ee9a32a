/**
 * Properties of the navigation transitions: when a load fails, what each
 * view shows, how the breadcrumb grows and shrinks, the exact URL in both
 * modes, and how an asset is selected.
 */
module NavigationProps {
  import opened Seqs
  import opened Content
  import opened Sorting
  import opened Facets
  import opened Parents
  import opened Uri
  import opened Links
  import opened Navigation

  /** The breadcrumb a load starts from. */
  function StartHistory(st: NavState, history: Option<seq<HistoryItem>>): seq<HistoryItem>
  {
    if history.Some? then history.value else st.history
  }

  /** The filter a load applies. */
  function StartFilter(filter: Option<Filter>): Filter
  {
    if filter.Some? then filter.value else EmptyFilter()
  }

  // ---------------------------------------------------------------------
  // Failure
  // ---------------------------------------------------------------------

  /**
   * A load fails exactly when a Category load names no root category, a
   * SubCategory/Playlists load names no subcategory of any root, or a
   * Playlist load names no playlist; Asset loads and unknown templates
   * never fail.
   */
  lemma NavigateFails(env: Env, props: Props, st: NavState, template: Template, templateId: string,
                      history: Option<seq<HistoryItem>>, filter: Option<Filter>)
    ensures Navigate(env, props, st, template, templateId, history, filter).None? <==>
      || (template == CategoryKind && forall c :: c in env.cache.categories ==> c.id != templateId)
      || ((template == SubCategoryKind || template == PlaylistsKind)
          && forall i, j :: !MatchAt(env.cache.categories, templateId, i, j))
      || (template == PlaylistKind && forall p :: p in env.cache.playlists ==> p.id != templateId)
  {
    ParentChainSpec(templateId, env.cache.categories);
    var matches := MatchingCategories(env, templateId);
    if template == CategoryKind && |matches| > 0 {
      assert matches[0] in matches;
    }
  }

  /** A failed load leaves the whole state unchanged. */
  lemma FailedLoadChangesNothing(env: Env, props: Props, st: NavState, template: Template, templateId: string,
                                 history: Option<seq<HistoryItem>>, filter: Option<Filter>, assetId: string)
    requires Navigate(env, props, st, template, templateId, history, filter).None?
    ensures LoadDetailSpec(env, props, st, template, templateId, history, filter, assetId) == st
  {
  }

  /** A SubCategory or Playlists load of a root's own id, which no subcategory carries, changes nothing. */
  lemma RootIdLoadChangesNothing(env: Env, props: Props, st: NavState, template: Template, id: string,
                                 history: Option<seq<HistoryItem>>, filter: Option<Filter>, assetId: string)
    requires template == SubCategoryKind || template == PlaylistsKind
    requires exists c :: c in env.cache.categories && c.id == id
    requires forall c, s :: c in env.cache.categories && s in c.subCategories ==> s.id != id
    ensures LoadDetailSpec(env, props, st, template, id, history, filter, assetId) == st
  {
    RootIdNotMatched(id, env.cache.categories);
  }

  // ---------------------------------------------------------------------
  // What each view shows
  // ---------------------------------------------------------------------

  /**
   * The Category view lists every root category with the id, in cache
   * order, the first one with its subcategories custom-sorted (a
   * permutation) and the breadcrumb gains that category.
   */
  lemma CategoryView(env: Env, props: Props, st: NavState, templateId: string,
                     history: Option<seq<HistoryItem>>, filter: Option<Filter>)
    requires Navigate(env, props, st, CategoryKind, templateId, history, filter).Some?
    ensures var s := Navigate(env, props, st, CategoryKind, templateId, history, filter).value;
      var matches := MatchingCategories(env, templateId);
      && s.template == CategoryKind && s.detail.Categories? && s.parent.None? && s.assets == []
      && |s.detail.categories| == |matches| && s.detail.categories[1..] == matches[1..]
      && (forall k :: 0 <= k < |s.detail.categories| ==> s.detail.categories[k].id == templateId)
      && s.detail.categories[0].name == matches[0].name
      && multiset(s.detail.categories[0].subCategories) == multiset(matches[0].subCategories)
      && (!props.customSort ==> s.detail.categories == matches)
      && s.history == StartHistory(st, history) + [HistoryItem(templateId, matches[0].name, CategoryKind)]
  {
    var matches := MatchingCategories(env, templateId);
    assert matches[0] in matches;
    var s := Navigate(env, props, st, CategoryKind, templateId, history, filter).value;
    forall k | 0 <= k < |s.detail.categories| ensures s.detail.categories[k].id == templateId {
      assert s.detail.categories[k].id == matches[k].id;
      assert matches[k] in matches;
    }
    if !props.customSort {
      assert matches[0].(subCategories := matches[0].subCategories) == matches[0];
      assert [matches[0]] + matches[1..] == matches;
    }
  }

  /**
   * The SubCategory/Playlists load: the parent is the matched subcategory
   * itself; it is shown as a SubCategory view of its own subcategories
   * (a permutation of them) when it has any, and otherwise as a Playlists
   * view of exactly the playlists of that category that pass the filter;
   * the facets are recomputed for it; the breadcrumb gains it only when no
   * filter was supplied.
   */
  lemma SubCategoryView(env: Env, props: Props, st: NavState, template: Template, templateId: string,
                        history: Option<seq<HistoryItem>>, filter: Option<Filter>)
    requires template == SubCategoryKind || template == PlaylistsKind
    requires Navigate(env, props, st, template, templateId, history, filter).Some?
    ensures var s := Navigate(env, props, st, template, templateId, history, filter).value;
      && s.parent.Some? && s.parent.value.id == templateId
      && (exists i :: 0 <= i < |env.cache.categories| && s.parent.value in env.cache.categories[i].subCategories)
      && (s.template == SubCategoryKind <==> |s.parent.value.subCategories| > 0)
      && (s.template == SubCategoryKind || s.template == PlaylistsKind)
      && (s.template == SubCategoryKind ==>
            s.detail.Categories? && multiset(s.detail.categories) == multiset(s.parent.value.subCategories)
            && (!props.customSort ==> s.detail.categories == s.parent.value.subCategories))
      && (s.template == PlaylistsKind ==>
            s.detail.Playlists?
            && (forall p :: p in s.detail.playlists <==>
                  p in env.cache.playlists && p.catId == templateId && Passes(p, StartFilter(filter)))
            && multiset(s.detail.playlists)
               == multiset(FilterPlaylists(PlaylistsOf(env.cache.playlists, templateId), StartFilter(filter)))
            && (!props.customSort ==>
                  s.detail.playlists == FilterPlaylists(PlaylistsOf(env.cache.playlists, templateId), StartFilter(filter))))
      && s.filterValues == FilterValuesOf(s.parent.value, env.cache.playlists, env.filterNotSet)
      && DistinctFacets(s.filterValues)
      && s.filter == StartFilter(filter)
      && s.history == (if filter.None? then StartHistory(st, history) + [HistoryItem(templateId, s.parent.value.name, s.template)]
                       else StartHistory(st, history))
  {
    var cats := env.cache.categories;
    ParentChainSpec(templateId, cats);
    var chain := ParentChain(templateId, cats);
    var i, j :| FirstMatch(cats, templateId, i, j) && chain == [cats[i].subCategories[j], cats[i]];
    var node := chain[0];
    assert node in cats[i].subCategories;
    FilterValuesSpec(node, env.cache.playlists, env.filterNotSet);
    SubCategoryDetail(env, props, node, StartFilter(filter));
  }

  /**
   * What a subcategory shows: its own subcategories, reordered, or the
   * cached playlists under it that pass the filter, each as often as the
   * cache holds it, reordered.
   */
  lemma SubCategoryDetail(env: Env, props: Props, node: Category, f: Filter)
    ensures multiset(SortIfCustom(props, node.subCategories, CategoryId)) == multiset(node.subCategories)
    ensures forall p :: p in LeafPlaylists(env, props, node, f) <==>
      p in env.cache.playlists && p.catId == node.id && Passes(p, f)
    ensures multiset(LeafPlaylists(env, props, node, f)) == multiset(FilterPlaylists(PlaylistsOf(env.cache.playlists, node.id), f))
  {
    if props.customSort {
      CustomSortSpec(node.subCategories, CategoryId, props.customSortOrder);
      var kept := FilterPlaylists(PlaylistsOf(env.cache.playlists, node.id), f);
      CustomSortSpec(kept, PlaylistId, props.customSortOrder);
      assert forall p :: p in LeafPlaylists(env, props, node, f) <==> p in multiset(kept);
    }
  }

  /**
   * The Playlist view shows the first playlist with the id; its assets are
   * the playlist's asset ids resolved against the cache; the breadcrumb
   * gains the playlist.
   */
  lemma PlaylistView(env: Env, props: Props, st: NavState, templateId: string,
                     history: Option<seq<HistoryItem>>, filter: Option<Filter>)
    requires Navigate(env, props, st, PlaylistKind, templateId, history, filter).Some?
    ensures var s := Navigate(env, props, st, PlaylistKind, templateId, history, filter).value;
      && s.template == PlaylistKind && s.detail.SinglePlaylist?
      && s.detail.playlist in env.cache.playlists && s.detail.playlist.id == templateId
      && s.detail.playlist == env.cache.playlists[IndexOfKey(env.cache.playlists, PlaylistId, templateId)]
      && s.assets == ResolveAssets(s.detail.playlist.assetIds, env.cache.assets)
      && s.currentAsset.None?
      && s.history == StartHistory(st, history) + [HistoryItem(templateId, s.detail.playlist.title, PlaylistKind)]
  {
  }

  /**
   * Resolving asset ids keeps their order: when every id is cached, the
   * i-th asset is the one with the i-th id.
   */
  lemma {:induction false} ResolveAssetsAllFound(ids: seq<string>, assets: seq<Asset>)
    requires forall i :: 0 <= i < |ids| ==> FindByKey(assets, AssetId, ids[i]).Some?
    ensures |ResolveAssets(ids, assets)| == |ids|
    ensures forall i :: 0 <= i < |ids| ==> ResolveAssets(ids, assets)[i].id == ids[i]
    decreases |ids|
  {
    if ids != [] {
      var init := ids[..|ids| - 1];
      assert forall i :: 0 <= i < |init| ==> init[i] == ids[i];
      ResolveAssetsAllFound(init, assets);
      var last := FindByKey(assets, AssetId, ids[|ids| - 1]);
      assert last.Some? && last.value.id == ids[|ids| - 1];
      var r := ResolveAssets(init, assets);
      var full := ResolveAssets(ids, assets);
      assert full == r + [last.value];
      forall i | 0 <= i < |ids| ensures full[i].id == ids[i] {
        if i < |init| {
          assert full[i] == r[i];
        }
      }
    }
  }

  /** The test `ResolveAssets` applies to each id: is an asset with that id cached? */
  function CachedIn(assets: seq<Asset>): string -> bool
  {
    (id: string) => FindByKey(assets, AssetId, id).Some?
  }

  /**
   * Resolving asset ids is complete and keeps order: the ids of the
   * resolved assets are exactly the listed ids that are cached, in list
   * order.
   */
  lemma {:induction false} ResolveAssetsSpec(ids: seq<string>, assets: seq<Asset>)
    ensures Keys(ResolveAssets(ids, assets), AssetId) == Keep(ids, CachedIn(assets))
    decreases |ids|
  {
    if ids != [] {
      var init := ids[..|ids| - 1];
      ResolveAssetsSpec(init, assets);
      KeepSnoc(ids, CachedIn(assets));
      var found := FindByKey(assets, AssetId, ids[|ids| - 1]);
      if found.Some? {
        KeysSnoc(ResolveAssets(init, assets), found.value);
      }
    }
  }

  /** Filtering a list grown by one element. */
  lemma KeepSnoc(xs: seq<string>, p: string -> bool)
    requires xs != []
    ensures Keep(xs, p) == Keep(xs[..|xs| - 1], p) + (if p(xs[|xs| - 1]) then [xs[|xs| - 1]] else [])
  {
    var init, last := xs[..|xs| - 1], xs[|xs| - 1];
    assert xs == init + [last];
    KeepAppend(init, [last], p);
    assert Keep([last], p) == if p(last) then [last] else [];
  }

  /** The keys of a list grown by one asset. */
  lemma KeysSnoc(r: seq<Asset>, a: Asset)
    ensures Keys(r + [a], AssetId) == Keys(r, AssetId) + [a.id]
  {
  }

  /** Each resolved asset is the first cached asset with its id. */
  lemma {:induction false} ResolveAssetsFirst(ids: seq<string>, assets: seq<Asset>)
    ensures forall a :: a in ResolveAssets(ids, assets) ==> FindByKey(assets, AssetId, a.id) == Some(a)
    decreases |ids|
  {
    if ids != [] {
      ResolveAssetsFirst(ids[..|ids| - 1], assets);
    }
  }

  /** When no id is cached the playlist has no assets. */
  lemma {:induction false} ResolveAssetsNoneFound(ids: seq<string>, assets: seq<Asset>)
    requires forall i :: 0 <= i < |ids| ==> FindByKey(assets, AssetId, ids[i]).None?
    ensures ResolveAssets(ids, assets) == []
    decreases |ids|
  {
    if ids != [] {
      var init := ids[..|ids| - 1];
      assert forall i :: 0 <= i < |init| ==> init[i] == ids[i];
      ResolveAssetsNoneFound(init, assets);
    }
  }

  // ---------------------------------------------------------------------
  // Breadcrumb
  // ---------------------------------------------------------------------

  /**
   * Category and Playlist loads always push one breadcrumb for the loaded
   * item; SubCategory/Playlists loads push only without a filter; Asset
   * loads and unknown templates leave the breadcrumb as given.
   */
  lemma NavigateHistory(env: Env, props: Props, st: NavState, template: Template, templateId: string,
                        history: Option<seq<HistoryItem>>, filter: Option<Filter>)
    requires Navigate(env, props, st, template, templateId, history, filter).Some?
    ensures var s := Navigate(env, props, st, template, templateId, history, filter).value;
      var h := StartHistory(st, history);
      && (template == CategoryKind || template == PlaylistKind || ((template == SubCategoryKind || template == PlaylistsKind) && filter.None?) ==>
            |s.history| == |h| + 1 && s.history[..|h|] == h && s.history[|h|].id == templateId
            && s.history[|h|].template == s.template)
      && (template == AssetKind || template == NoKind || ((template == SubCategoryKind || template == PlaylistsKind) && filter.Some?) ==>
            s.history == h)
  {
    var s := Navigate(env, props, st, template, templateId, history, filter).value;
    var h := StartHistory(st, history);
    if template == CategoryKind {
      CategoryView(env, props, st, templateId, history, filter);
    } else if template == SubCategoryKind || template == PlaylistsKind {
      SubCategoryView(env, props, st, template, templateId, history, filter);
    }
    if |s.history| == |h| + 1 {
      assert s.history[..|h|] == h;
    }
  }

  /** The commit's callback only selects an asset: it changes the current asset and the URL and nothing else. */
  lemma AfterCommitOnlySelects(env: Env, props: Props, s: NavState, assetId: string)
    ensures var r := AfterCommit(env, props, s, assetId);
      r == s.(currentAsset := r.currentAsset, url := r.url)
  {
  }

  /**
   * `_historyClick`'s truncation: without `nav` the breadcrumb is kept; an
   * empty id resets it to Home; an id found at index k keeps exactly the
   * first k entries (the clicked entry itself goes, to be pushed again by
   * the load); an id not found drops the last entry.
   */
  lemma TruncateHistorySpec(h: seq<HistoryItem>, templateId: string, nav: bool, home: HistoryItem)
    ensures !nav ==> TruncateHistory(h, templateId, nav, home) == h
    ensures nav && templateId == "" ==> TruncateHistory(h, templateId, nav, home) == [home]
    ensures nav && templateId != "" && IndexOfKey(h, HistoryId, templateId) >= 0 ==>
      var k := IndexOfKey(h, HistoryId, templateId);
      TruncateHistory(h, templateId, nav, home) == h[..k] && h[k].id == templateId
      && forall i :: 0 <= i < k ==> h[i].id != templateId
    ensures nav && templateId != "" && (forall x :: x in h ==> x.id != templateId) ==>
      TruncateHistory(h, templateId, nav, home) == (if h == [] then [] else h[..|h| - 1])
  {
    if nav && templateId != "" && (forall x :: x in h ==> x.id != templateId) {
      assert forall i :: 0 <= i < |h| ==> HistoryId(h[i]) != templateId;
    }
  }

  /**
   * A nav click on the breadcrumb entry at index k that reloads a category
   * or playlist leaves the first k entries followed by the reloaded entry.
   */
  lemma HistoryClickReturnsToEntry(env: Env, props: Props, st: NavState, template: Template, templateId: string)
    requires template == CategoryKind || template == PlaylistKind
    requires templateId != "" && IndexOfKey(st.history, HistoryId, templateId) >= 0
    requires Navigate(env, props, st, template, templateId,
                      Some(TruncateHistory(st.history, templateId, true, HomeItem(env))), None).Some?
    ensures var k := IndexOfKey(st.history, HistoryId, templateId);
      var r := HistoryClickSpec(env, props, st, template, templateId, true);
      |r.history| == k + 1 && r.history[..k] == st.history[..k] && r.history[k].id == templateId
  {
    var h := TruncateHistory(st.history, templateId, true, HomeItem(env));
    TruncateHistorySpec(st.history, templateId, true, HomeItem(env));
    NavigateHistory(env, props, st, template, templateId, Some(h), None);
    var s := Navigate(env, props, st, template, templateId, Some(h), None).value;
    AfterCommitOnlySelects(env, props, s, "");
  }

  /** `_loadSearchResultAsset` keeps at most the first breadcrumb. */
  lemma KeepFirstSpec(h: seq<HistoryItem>)
    ensures KeepFirst(h) == (if h == [] then [] else h[..1])
  {
  }

  /**
   * Opening a search result in a playlist that exists leaves the first
   * breadcrumb followed by that playlist.
   */
  lemma SearchResultHistory(env: Env, props: Props, st: NavState, subcategoryId: string, playlistId: string, assetId: string)
    requires playlistId != ""
    requires exists p :: p in env.cache.playlists && p.id == playlistId
    ensures var r := SearchResultSpec(env, props, st, subcategoryId, playlistId, assetId);
      && r.template == PlaylistKind
      && |r.history| == |KeepFirst(st.history)| + 1 <= 2
      && r.history[..|r.history| - 1] == KeepFirst(st.history)
      && r.history[|r.history| - 1].id == playlistId
  {
    var h := KeepFirst(st.history);
    NavigateFails(env, props, st, PlaylistKind, playlistId, Some(h), None);
    NavigateHistory(env, props, st, PlaylistKind, playlistId, Some(h), None);
    var s := Navigate(env, props, st, PlaylistKind, playlistId, Some(h), None).value;
    AfterCommitOnlySelects(env, props, s, assetId);
  }

  /**
   * Toggling a facet on a Playlists view reloads the same category with
   * the toggled filter and without a new breadcrumb.
   */
  lemma SetFilterOnPlaylists(env: Env, props: Props, st: NavState, v: FilterValue)
    requires st.template == PlaylistsKind
    requires ParentChain(st.templateId, env.cache.categories) != []
    ensures var r := SetFilterSpec(env, props, st, v);
      && r.history == st.history
      && r.filter == ToggleFilter(st.filter, v)
      && r.templateId == st.templateId
      && (r.template == PlaylistsKind ==>
            r.detail.Playlists?
            && forall p :: p in r.detail.playlists ==> p.catId == st.templateId && Passes(p, ToggleFilter(st.filter, v)))
  {
    var f := Some(ToggleFilter(st.filter, v));
    ParentChainSpec(st.templateId, env.cache.categories);
    NavigateFails(env, props, st, st.template, st.templateId, Some(st.history), f);
    SubCategoryView(env, props, st, st.template, st.templateId, Some(st.history), f);
    var s := Navigate(env, props, st, st.template, st.templateId, Some(st.history), f).value;
    AfterCommitOnlySelects(env, props, s, "");
  }

  // ---------------------------------------------------------------------
  // URLs
  // ---------------------------------------------------------------------

  /** The one query parameter a successful standard-mode load adds to the base URL. */
  function LoadQuery(env: Env, template: Template, templateId: string): string
  {
    match template
    case CategoryKind => if |MatchingCategories(env, templateId)| == 1 then "&category=" + templateId else ""
    case SubCategoryKind => "&subcategory=" + templateId
    case PlaylistsKind => "&subcategory=" + templateId
    case PlaylistKind => "&playlist=" + templateId
    case AssetKind => ""
    case NoKind => ""
  }

  /** The six subEntityId slots of a successful Teams-mode load. */
  function LoadSlots(env: Env, template: Template, templateId: string): seq<string>
  {
    match template
    case CategoryKind => Slots(env, if |MatchingCategories(env, templateId)| == 1 then templateId else "", "", "", "")
    case SubCategoryKind => Slots(env, "", templateId, "", "")
    case PlaylistsKind => Slots(env, "", templateId, "", "")
    case PlaylistKind => Slots(env, "", "", templateId, "")
    case AssetKind => Slots(env, "", "", "", "")
    case NoKind => Slots(env, "", "", "", "")
  }

  /**
   * URLs are not cumulative: every load starts again from the base. In
   * standard mode the URL is the base, `?cdn=` and the CDN, followed by at
   * most one parameter naming the loaded item; in Teams mode it is the
   * deep link whose subEntityId holds the CDN and the loaded item's id in
   * its slot.
   */
  lemma NavigateUrl(env: Env, props: Props, st: NavState, template: Template, templateId: string,
                    history: Option<seq<HistoryItem>>, filter: Option<Filter>)
    requires Navigate(env, props, st, template, templateId, history, filter).Some?
    ensures var s := Navigate(env, props, st, template, templateId, history, filter).value;
      && (!TeamsMode(props) ==> s.url == env.baseViewerUrl + "?cdn=" + env.cdn + LoadQuery(env, template, templateId))
      && (TeamsMode(props) ==> s.url == TeamsUrl(props.teamsEntityId, LoadSlots(env, template, templateId)))
  {
    var h := if history.Some? then history.value else st.history;
    var f := if filter.Some? then filter.value else EmptyFilter();
    if template == CategoryKind {
      var matches := MatchingCategories(env, templateId);
      assert matches[0] in matches;
    } else if template == SubCategoryKind || template == PlaylistsKind {
      SubCategoryUrl(env, props, st, templateId, h, f, filter.None?);
    }
  }

  lemma SubCategoryUrl(env: Env, props: Props, st: NavState, templateId: string, h: seq<HistoryItem>, f: Filter, push: bool)
    requires LoadSubCategory(env, props, st, templateId, h, f, push).Some?
    ensures LoadSubCategory(env, props, st, templateId, h, f, push).value.url ==
      PageUrl(env, props, "&subcategory=" + templateId, Slots(env, "", templateId, "", ""))
  {
    ParentChainSpec(templateId, env.cache.categories);
  }

  /**
   * The Teams deep link of a load, written out: the app path, the entity
   * id, `?`, then the encoded context; decoding that query gives back the
   * context with the colon-joined slots.
   */
  lemma NavigateTeamsUrl(env: Env, props: Props, st: NavState, template: Template, templateId: string,
                         history: Option<seq<HistoryItem>>, filter: Option<Filter>)
    requires TeamsMode(props) && '?' !in props.teamsEntityId
    requires Navigate(env, props, st, template, templateId, history, filter).Some?
    ensures var s := Navigate(env, props, st, template, templateId, history, filter).value;
      var context := TeamsContext(LoadSlots(env, template, templateId));
      s.url == TeamsAppPath + props.teamsEntityId + "?" + EncodeUri(context)
      && PercentDecode(EncodeUri(context)) == context
  {
    NavigateUrl(env, props, st, template, templateId, history, filter);
    TeamsUrlShape(props.teamsEntityId, LoadSlots(env, template, templateId));
  }

  // ---------------------------------------------------------------------
  // Selecting an asset
  // ---------------------------------------------------------------------

  /** Selecting an asset that is not loaded, or the one already current, changes nothing. */
  lemma SelectAssetUnchanged(env: Env, props: Props, st: NavState, assetId: string)
    ensures (forall a :: a in st.assets ==> a.id != assetId) ==> SelectAssetSpec(env, props, st, assetId) == st
    ensures FindByKey(st.assets, AssetId, assetId) == st.currentAsset ==> SelectAssetSpec(env, props, st, assetId) == st
  {
  }

  /**
   * Selecting another loaded asset makes it current and points the URL at
   * it (after the playlist, when there is one); nothing else changes.
   */
  lemma SelectAssetEffect(env: Env, props: Props, st: NavState, assetId: string)
    requires FindByKey(st.assets, AssetId, assetId).Some?
    requires FindByKey(st.assets, AssetId, assetId) != st.currentAsset
    ensures var r := SelectAssetSpec(env, props, st, assetId);
      && r.currentAsset.Some? && r.currentAsset.value in st.assets && r.currentAsset.value.id == assetId
      && r == st.(currentAsset := r.currentAsset, url := r.url)
      && (!TeamsMode(props) && st.detail.NoDetail? ==> r.url == StandardBase(env) + "&asset=" + assetId)
      && (!TeamsMode(props) && st.detail.SinglePlaylist? ==>
            r.url == StandardBase(env) + "&playlist=" + st.detail.playlist.id + "&asset=" + assetId)
      && (TeamsMode(props) ==> r.url == TeamsUrl(props.teamsEntityId, Slots(env, "", "", DetailSlotId(st.detail), assetId)))
  {
    var a := FindByKey(st.assets, AssetId, assetId).value;
    assert SelectAssetSpec(env, props, st, assetId) == st.(currentAsset := Some(a), url := AssetUrl(env, props, st.detail, assetId));
  }

  /** Selecting the same asset twice is the same as selecting it once. */
  lemma SelectAssetIdempotent(env: Env, props: Props, st: NavState, assetId: string)
    ensures var once := SelectAssetSpec(env, props, st, assetId);
      SelectAssetSpec(env, props, once, assetId) == once
  {
    var once := SelectAssetSpec(env, props, st, assetId);
    assert once.assets == st.assets;
  }

  /**
   * A playlist opened without an asset id starts on the configured start
   * asset when the playlist is the start location and a start asset is
   * set (if that asset is in the playlist), and on its first asset
   * otherwise.
   */
  lemma PlaylistStartAsset(env: Env, props: Props, st: NavState, templateId: string,
                           history: Option<seq<HistoryItem>>, filter: Option<Filter>)
    requires Navigate(env, props, st, PlaylistKind, templateId, history, filter).Some?
    ensures var s := Navigate(env, props, st, PlaylistKind, templateId, history, filter).value;
      var r := LoadDetailSpec(env, props, st, PlaylistKind, templateId, history, filter, "");
      && (s.assets == [] ==> r == s)
      && (|s.assets| > 0 && (props.startLocation != templateId || props.startAsset == "") ==>
            r.currentAsset == Some(s.assets[0]))
      && (|s.assets| > 0 && props.startLocation == templateId && props.startAsset != "" ==>
            r.currentAsset == FindByKey(s.assets, AssetId, props.startAsset))
  {
    PlaylistView(env, props, st, templateId, history, filter);
    var s := Navigate(env, props, st, PlaylistKind, templateId, history, filter).value;
    if |s.assets| > 0 {
      var id := StartAssetId(props, s, "");
      assert LoadDetailSpec(env, props, st, PlaylistKind, templateId, history, filter, "") == SelectAssetSpec(env, props, s, id);
      if id == s.assets[0].id {
        assert IndexOfKey(s.assets, AssetId, id) == 0;
      }
      if FindByKey(s.assets, AssetId, id).Some? {
        SelectAssetEffect(env, props, s, id);
      } else {
        SelectAssetUnchanged(env, props, s, id);
      }
    }
  }

  /**
   * A playlist opened on a given asset: the playlist is shown, the asset
   * becomes current when the playlist's resolved assets include it (and
   * nothing is current otherwise), and the URL then names the playlist and
   * the asset.
   */
  lemma PlaylistExplicitAsset(env: Env, props: Props, st: NavState, templateId: string,
                              history: Option<seq<HistoryItem>>, filter: Option<Filter>, assetId: string)
    requires assetId != ""
    requires FindByKey(env.cache.playlists, PlaylistId, templateId).Some?
    ensures var p := FindByKey(env.cache.playlists, PlaylistId, templateId).value;
      var found := FindByKey(ResolveAssets(p.assetIds, env.cache.assets), AssetId, assetId);
      var r := LoadDetailSpec(env, props, st, PlaylistKind, templateId, history, filter, assetId);
      && r.template == PlaylistKind && r.detail == SinglePlaylist(p)
      && r.assets == ResolveAssets(p.assetIds, env.cache.assets)
      && r.currentAsset == found
      && (found.Some? ==>
            r.url == PageUrl(env, props, "&playlist=" + p.id + "&asset=" + assetId, Slots(env, "", "", p.id, assetId)))
  {
    var s := Navigate(env, props, st, PlaylistKind, templateId, history, filter).value;
    GivenAssetSelected(env, props, s, assetId);
  }

  /** On a freshly committed playlist view, the callback selects the given asset if it is loaded. */
  lemma GivenAssetSelected(env: Env, props: Props, s: NavState, assetId: string)
    requires assetId != "" && s.template == PlaylistKind && s.detail.SinglePlaylist? && s.currentAsset.None?
    ensures var r := AfterCommit(env, props, s, assetId);
      && r == s.(currentAsset := r.currentAsset, url := r.url)
      && r.currentAsset == FindByKey(s.assets, AssetId, assetId)
      && (r.currentAsset.Some? ==>
            r.url == PageUrl(env, props, "&playlist=" + s.detail.playlist.id + "&asset=" + assetId,
                             Slots(env, "", "", s.detail.playlist.id, assetId)))
  {
    if |s.assets| > 0 {
      assert StartAssetId(props, s, assetId) == assetId;
    }
  }

  /**
   * `_loadSearchResultAsset` on a cached playlist opens it on the given
   * asset: that asset is current when the playlist holds it.
   */
  lemma SearchResultAsset(env: Env, props: Props, st: NavState, subcategoryId: string, playlistId: string, assetId: string)
    requires playlistId != "" && assetId != ""
    requires FindByKey(env.cache.playlists, PlaylistId, playlistId).Some?
    ensures var p := FindByKey(env.cache.playlists, PlaylistId, playlistId).value;
      var found := FindByKey(ResolveAssets(p.assetIds, env.cache.assets), AssetId, assetId);
      var r := SearchResultSpec(env, props, st, subcategoryId, playlistId, assetId);
      && r.detail == SinglePlaylist(p)
      && r.currentAsset == found
      && (found.Some? ==>
            r.url == PageUrl(env, props, "&playlist=" + p.id + "&asset=" + assetId, Slots(env, "", "", p.id, assetId)))
  {
    PlaylistExplicitAsset(env, props, st, playlistId, Some(KeepFirst(st.history)), None, assetId);
  }

  // ---------------------------------------------------------------------
  // Home at the head of the breadcrumb
  // ---------------------------------------------------------------------

  /** The breadcrumb starts with the Home entry (empty id). */
  ghost predicate HomeFirst(env: Env, h: seq<HistoryItem>)
  {
    |h| > 0 && h[0] == HomeItem(env)
  }

  /** A load, with its callback, keeps Home first when both the current and the given breadcrumb start with it. */
  lemma LoadKeepsHome(env: Env, props: Props, st: NavState, template: Template, templateId: string,
                      history: Option<seq<HistoryItem>>, filter: Option<Filter>, assetId: string)
    requires HomeFirst(env, st.history)
    requires history.Some? ==> HomeFirst(env, history.value)
    ensures HomeFirst(env, LoadDetailSpec(env, props, st, template, templateId, history, filter, assetId).history)
  {
    var n := Navigate(env, props, st, template, templateId, history, filter);
    if n.Some? {
      NavigateHistory(env, props, st, template, templateId, history, filter);
      AfterCommitOnlySelects(env, props, n.value, assetId);
    }
  }

  /**
   * Once the breadcrumb starts with Home, every transition keeps it there:
   * loads only append, a filter change and an asset selection keep the
   * breadcrumb, a search result keeps its first entry, and a breadcrumb
   * click keeps it unless it leaves a one-entry breadcrumb (see
   * `HomeLostOnMissedClick`).
   */
  lemma HomeStaysFirst(env: Env, props: Props, st: NavState, template: Template, templateId: string, nav: bool,
                       v: FilterValue, subcategoryId: string, playlistId: string, assetId: string)
    requires HomeFirst(env, st.history)
    ensures HomeFirst(env, MountSpec(env, props, st).history)
    ensures HomeFirst(env, LoadDetailSpec(env, props, st, template, templateId, None, None, assetId).history)
    ensures HomeFirst(env, SetFilterSpec(env, props, st, v).history)
    ensures HomeFirst(env, SelectAssetSpec(env, props, st, assetId).history)
    ensures HomeFirst(env, SearchResultSpec(env, props, st, subcategoryId, playlistId, assetId).history)
    ensures !nav || templateId == "" || |st.history| >= 2 ==>
      HomeFirst(env, HistoryClickSpec(env, props, st, template, templateId, nav).history)
  {
    MountKeepsHome(env, props, st);
    LoadKeepsHome(env, props, st, template, templateId, None, None, assetId);
    SetFilterKeepsHome(env, props, st, v);
    SearchResultKeepsHome(env, props, st, subcategoryId, playlistId, assetId);
    if !nav || templateId == "" || |st.history| >= 2 {
      HistoryClickKeepsHome(env, props, st, template, templateId, nav);
    }
  }

  /** Mounting loads on the current breadcrumb, so Home stays first. */
  lemma MountKeepsHome(env: Env, props: Props, st: NavState)
    requires HomeFirst(env, st.history)
    ensures HomeFirst(env, MountSpec(env, props, st).history)
  {
    LoadKeepsHome(env, props, st, props.startType, props.startLocation, Some(st.history), None, "");
  }

  /** A filter change reloads on the current breadcrumb, so Home stays first. */
  lemma SetFilterKeepsHome(env: Env, props: Props, st: NavState, v: FilterValue)
    requires HomeFirst(env, st.history)
    ensures HomeFirst(env, SetFilterSpec(env, props, st, v).history)
  {
    LoadKeepsHome(env, props, st, st.template, st.templateId, Some(st.history), Some(ToggleFilter(st.filter, v)), "");
  }

  /** A search result keeps the first entry, so Home stays first. */
  lemma SearchResultKeepsHome(env: Env, props: Props, st: NavState, subcategoryId: string, playlistId: string, assetId: string)
    requires HomeFirst(env, st.history)
    ensures HomeFirst(env, SearchResultSpec(env, props, st, subcategoryId, playlistId, assetId).history)
  {
    KeepFirstSpec(st.history);
    if playlistId != "" {
      LoadKeepsHome(env, props, st, PlaylistKind, playlistId, Some(KeepFirst(st.history)), None, assetId);
    } else if subcategoryId != "" {
      LoadKeepsHome(env, props, st, SubCategoryKind, subcategoryId, Some(KeepFirst(st.history)), None, "");
    }
  }

  /** A breadcrumb click keeps Home first outside the one-entry exception. */
  lemma HistoryClickKeepsHome(env: Env, props: Props, st: NavState, template: Template, templateId: string, nav: bool)
    requires HomeFirst(env, st.history)
    requires !nav || templateId == "" || |st.history| >= 2
    ensures HomeFirst(env, HistoryClickSpec(env, props, st, template, templateId, nav).history)
  {
    TruncateKeepsHome(env, st.history, templateId, nav);
    LoadKeepsHome(env, props, st, template, templateId,
                  Some(TruncateHistory(st.history, templateId, nav, HomeItem(env))), None, "");
  }

  /** The breadcrumb truncation keeps Home first, except on a nav click naming an id on a one-entry breadcrumb. */
  lemma TruncateKeepsHome(env: Env, h: seq<HistoryItem>, templateId: string, nav: bool)
    requires HomeFirst(env, h)
    requires !nav || templateId == "" || |h| >= 2
    ensures HomeFirst(env, TruncateHistory(h, templateId, nav, HomeItem(env)))
  {
    TruncateHistorySpec(h, templateId, nav, HomeItem(env));
    if nav && templateId != "" && IndexOfKey(h, HistoryId, templateId) < 0 {
      forall x | x in h ensures x.id != templateId {
        var j :| 0 <= j < |h| && h[j] == x;
        assert HistoryId(h[j]) != templateId;
      }
    }
  }

  /**
   * The exception: a nav click on the one-entry breadcrumb `[Home]` naming
   * any other id splices from index -1 and empties it, so the reloaded
   * view does not start with Home.
   */
  lemma HomeLostOnMissedClick(env: Env, props: Props, st: NavState, template: Template, templateId: string)
    requires st.history == [HomeItem(env)] && templateId != ""
    ensures TruncateHistory(st.history, templateId, true, HomeItem(env)) == []
    ensures Navigate(env, props, st, template, templateId, Some([]), None).Some? ==>
      !HomeFirst(env, HistoryClickSpec(env, props, st, template, templateId, true).history)
  {
    TruncateHistorySpec(st.history, templateId, true, HomeItem(env));
    var n := Navigate(env, props, st, template, templateId, Some([]), None);
    if n.Some? {
      NavigateHistory(env, props, st, template, templateId, Some([]), None);
      AfterCommitOnlySelects(env, props, n.value, "");
    }
  }
}
