/**
 * The `CustomLearning` component's navigation: an object holding the
 * component state fields, whose transitions build the new state step by
 * step as the component does and then replace the fields.  Each
 * transition is proved to produce the state the matching function of the
 * Navigation module describes, and to keep the state invariant.
 */
module Component {
  import opened Seqs
  import opened Content
  import opened Sorting
  import opened Facets
  import opened Parents
  import opened Links
  import opened Navigation

  class CustomLearning {
    /** The cache, viewer URL, CDN, web part mode and localized strings. */
    const env: Env
    const props: Props
    const teamsContext: bool
    const teamsContextUrl: string

    var template: Template
    var templateId: string
    var parent: Option<Category>
    var detail: Detail
    var assets: seq<Asset>
    var currentAsset: Option<Asset>
    var history: seq<HistoryItem>
    var filterValue: Filter
    var filterValues: seq<FilterValue>
    var url: string
    var renderPanel: bool
    var fullSizeAsset: bool

    /** The state fields as one value. */
    function State(): NavState
      reads this
    {
      NavState(template, templateId, parent, detail, assets, currentAsset, history, filterValue, filterValues,
               url, renderPanel, fullSizeAsset)
    }

    /** The Teams fields match the properties, and the state is consistent. */
    ghost predicate Valid()
      reads this
    {
      && teamsContext == TeamsMode(props)
      && teamsContextUrl == (if teamsContext then TeamsContextUrl(props.teamsEntityId) else "")
      && Consistent(State())
    }

    /** The constructor and `_init`: default state, then the Home breadcrumb when there is no start location. */
    constructor (env: Env, props: Props)
      ensures this.env == env && this.props == props
      ensures State() == InitialState(env, props)
      ensures Valid()
    {
      this.env := env;
      this.props := props;
      template := NoKind;
      templateId := "";
      parent := None;
      detail := NoDetail;
      assets := [];
      currentAsset := None;
      history := [];
      filterValue := EmptyFilter();
      filterValues := [];
      url := "";
      renderPanel := false;
      fullSizeAsset := false;
      teamsContext := |props.teamsEntityId| > 0;
      teamsContextUrl := if |props.teamsEntityId| > 0 then TeamsContextUrl(props.teamsEntityId) else "";
      new;
      if !env.contentOnly && |props.startLocation| < 1 {
        history := history + [HomeItem(env)];
      }
    }

    /** `componentDidMount`: load the start view on the current breadcrumb. */
    method Mount()
      requires Valid()
      modifies this
      ensures Valid()
      ensures State() == MountSpec(env, props, old(State()))
    {
      LoadDetail(props.startType, props.startLocation, Some(history), None, "");
    }

    /**
     * `_loadDetail`: compute the new view for the template and id, commit
     * it, then let a playlist or asset view select its asset.  Any failure
     * returns before the commit, leaving the state as it was.  The only
     * caller passing a filter is `_setFilter`, with a toggled copy of the
     * active one, so a given filter is duplicate-free.
     */
    method LoadDetail(tmpl: Template, tmplId: string, hist: Option<seq<HistoryItem>>, filter: Option<Filter>,
                      assetId: string)
      requires Valid()
      requires filter.Some? ==> FilterNoDup(filter.value)
      modifies this
      ensures Valid()
      ensures State() == LoadDetailSpec(env, props, old(State()), tmpl, tmplId, hist, filter, assetId)
    {
      var next := Compute(tmpl, tmplId, hist, filter);
      NavigateConsistent(env, props, State(), tmpl, tmplId, hist, filter);
      if next.None? {
        return;
      }
      var s := next.value;
      Commit(s);
      Callback(assetId);
    }

    /** The `setState` callback: a playlist selects its start asset, an asset view its own asset. */
    method Callback(assetId: string)
      requires Valid()
      modifies this
      ensures Valid()
      ensures State() == AfterCommit(env, props, old(State()), assetId)
    {
      if template == PlaylistKind {
        if |assets| > 0 {
          var id := assetId;
          if id == "" {
            if detail.SinglePlaylist? && props.startLocation == detail.playlist.id && |props.startAsset| > 0 {
              id := props.startAsset;
            } else {
              id := assets[0].id;
            }
          }
          assert id == StartAssetId(props, State(), assetId);
          SelectAsset(id);
        }
      } else if template == AssetKind && |assets| > 0 {
        SelectAsset(templateId);
      }
    }

    /** `setState` with everything `_loadDetail` computed. */
    method Commit(s: NavState)
      requires Consistent(s) && s.renderPanel == renderPanel && s.fullSizeAsset == fullSizeAsset
      requires teamsContext == TeamsMode(props)
      requires teamsContextUrl == (if teamsContext then TeamsContextUrl(props.teamsEntityId) else "")
      modifies this
      ensures Valid()
      ensures State() == s
    {
      template, templateId, parent, detail, assets := s.template, s.templateId, s.parent, s.detail, s.assets;
      currentAsset, history, filterValue, filterValues, url := s.currentAsset, s.history, s.filter, s.filterValues, s.url;
      assert State() == s;
    }

    /** The body of `_loadDetail` up to `setState`: the state to commit, or `None` when it throws. */
    method Compute(tmpl: Template, tmplId: string, hist: Option<seq<HistoryItem>>, filter: Option<Filter>)
      returns (next: Option<NavState>)
      requires Valid()
      ensures next == Navigate(env, props, State(), tmpl, tmplId, hist, filter)
    {
      var h := if hist.Some? then hist.value else history;
      var f := EmptyFilter();
      var updateHistory := true;
      if filter.Some? {
        f := filter.value;
        updateHistory := false;
      }
      match tmpl {
        case CategoryKind =>
          next := CategoryBranch(tmplId, h, f);
        case SubCategoryKind =>
          next := SubCategoryBranch(tmplId, h, f, updateHistory);
        case PlaylistsKind =>
          next := SubCategoryBranch(tmplId, h, f, updateHistory);
        case PlaylistKind =>
          next := PlaylistBranch(tmplId, h, f);
        case AssetKind =>
          next := AssetBranch(tmplId, h, f);
        case NoKind =>
          next := DefaultBranch(tmplId, h, f);
      }
    }

    /** The Asset branch: the asset with the id, if the cache has it; the URL stays the base. */
    method AssetBranch(tmplId: string, h: seq<HistoryItem>, f: Filter) returns (next: Option<NavState>)
      requires Valid()
      ensures next == Some(LoadAsset(env, props, State(), tmplId, h, f))
    {
      var pas: seq<Asset> := [];
      var found := FindByKey(env.cache.assets, AssetId, tmplId);
      if found.Some? {
        pas := pas + [found.value];
      }
      var newUrl := BaseUrl();
      next := Some(Navigation.Commit(State(), AssetKind, tmplId, None, NoDetail, pas, h, f, filterValues, newUrl));
      assert pas == match FindByKey(env.cache.assets, AssetId, tmplId) case None => [] case Some(a) => [a];
    }

    /** Any other template: the whole category list, under the Category template, at the base URL. */
    method DefaultBranch(tmplId: string, h: seq<HistoryItem>, f: Filter) returns (next: Option<NavState>)
      requires Valid()
      ensures next == Some(LoadDefault(env, props, State(), tmplId, h, f))
    {
      var newUrl := BaseUrl();
      next := Some(Navigation.Commit(State(), CategoryKind, tmplId, None, Categories(env.cache.categories), [], h, f,
                                     filterValues, newUrl));
    }

    /** The URL of a view that names no item. */
    method BaseUrl() returns (newUrl: string)
      requires Valid()
      ensures newUrl == PageUrl(env, props, "", Slots(env, "", "", "", ""))
    {
      var slots;
      newUrl, slots := StartUrl();
      newUrl := FinishUrl(newUrl, slots);
    }

    /** The URL every load starts from: the viewer URL with the CDN, or the Teams prefix and six empty slots but the CDN. */
    method StartUrl() returns (newUrl: string, slots: seq<string>)
      requires Valid()
      ensures teamsContext ==> newUrl == TeamsContextUrl(props.teamsEntityId) && slots == Slots(env, "", "", "", "")
      ensures !teamsContext ==> newUrl == StandardBase(env)
    {
      newUrl := StandardBase(env);
      slots := [];
      if teamsContext {
        newUrl := teamsContextUrl;
        slots := ["", env.cdn, "", "", "", ""];
      }
    }

    /** In Teams, close the deep link with the colon-joined slots and encode its query. */
    method FinishUrl(newUrl: string, slots: seq<string>) returns (u: string)
      requires Valid()
      requires teamsContext ==> newUrl == TeamsContextUrl(props.teamsEntityId)
      ensures teamsContext ==> u == TeamsUrl(props.teamsEntityId, slots)
      ensures !teamsContext ==> u == newUrl
    {
      u := newUrl;
      if teamsContext {
        var subEntityId := Join(slots, ':');
        u := u + "\"" + subEntityId + "\"}";
        u := EncodeQuery(u);
      }
    }

    /** The Category branch: the roots with the id, the first one's subcategories custom-sorted. */
    method CategoryBranch(tmplId: string, h: seq<HistoryItem>, f: Filter) returns (next: Option<NavState>)
      requires Valid()
      ensures next == LoadCategory(env, props, State(), tmplId, h, f)
    {
      var matches := MatchingCategories(env, tmplId);
      if |matches| == 0 {
        return None;  // reading `detail[0]` throws
      }
      var first := matches[0];
      if props.customSort {
        var subs := ApplyCustomSort(first.subCategories, CategoryId, props.customSortOrder);
        first := first.(subCategories := subs);
      }
      var h' := h + [HistoryItem(first.id, first.name, CategoryKind)];
      var newUrl, slots := StartUrl();
      if |matches| == 1 {
        if teamsContext {
          slots := slots[2 := first.id];
        } else {
          newUrl := newUrl + "&category=" + first.id;
        }
      }
      ghost var query := if |matches| == 1 then "&category=" + first.id else "";
      assert teamsContext ==> slots == Slots(env, if |matches| == 1 then first.id else "", "", "", "");
      assert !teamsContext ==> newUrl == StandardBase(env) + query;
      newUrl := FinishUrl(newUrl, slots);
      assert first == matches[0].(subCategories := SortIfCustom(props, matches[0].subCategories, CategoryId));
      next := Some(Navigation.Commit(State(), CategoryKind, tmplId, None, Categories([first] + matches[1..]), [], h', f,
                                     filterValues, newUrl));
    }

    /**
     * The SubCategory/Playlists branch: the matched subcategory, its
     * facets, and its subcategories or its filtered playlists.
     */
    method SubCategoryBranch(tmplId: string, h: seq<HistoryItem>, f: Filter, updateHistory: bool)
      returns (next: Option<NavState>)
      requires Valid()
      ensures next == LoadSubCategory(env, props, State(), tmplId, h, f, updateHistory)
    {
      var chain := FindParentCategory(tmplId, env.cache.categories);
      if |chain| == 0 {
        return None;  // reading the subcategories of an undefined parent throws
      }
      var node := chain[0];
      var values := GetFilterValues(node, env.cache.playlists, env.filterNotSet);
      var kind, shown := SubCategoryShown(node, f);
      var h' := h;
      if updateHistory {
        h' := h' + [HistoryItem(node.id, node.name, kind)];
      }
      var newUrl := SubCategoryUrl(node.id);
      next := Some(Navigation.Commit(State(), kind, tmplId, Some(node), shown, [], h', f, values, newUrl));
    }

    /** What a subcategory shows: its subcategories, custom-sorted, or else its playlists, filtered and custom-sorted. */
    method SubCategoryShown(node: Category, f: Filter) returns (kind: Template, shown: Detail)
      ensures kind == (if |node.subCategories| > 0 then SubCategoryKind else PlaylistsKind)
      ensures |node.subCategories| > 0 ==> shown == Categories(SortIfCustom(props, node.subCategories, CategoryId))
      ensures |node.subCategories| == 0 ==> shown == Playlists(LeafPlaylists(env, props, node, f))
    {
      if |node.subCategories| > 0 {
        kind := SubCategoryKind;
        var subs := node.subCategories;
        if props.customSort {
          subs := ApplyCustomSort(subs, CategoryId, props.customSortOrder);
        }
        shown := Categories(subs);
      } else {
        kind := PlaylistsKind;
        var pls := PlaylistsOf(env.cache.playlists, node.id);
        pls := FilterPlaylists(pls, f);
        if props.customSort {
          pls := ApplyCustomSort(pls, PlaylistId, props.customSortOrder);
        }
        shown := Playlists(pls);
      }
    }

    /** The URL of a subcategory view: the `subcategory` parameter, or the fourth Teams slot. */
    method SubCategoryUrl(id: string) returns (newUrl: string)
      requires Valid()
      ensures newUrl == PageUrl(env, props, "&subcategory=" + id, Slots(env, "", id, "", ""))
    {
      var slots;
      newUrl, slots := StartUrl();
      if teamsContext {
        slots := slots[3 := id];
      } else {
        newUrl := newUrl + "&subcategory=" + id;
      }
      assert teamsContext ==> slots == Slots(env, "", id, "", "");
      newUrl := FinishUrl(newUrl, slots);
    }

    /** The Playlist branch: the first playlist with the id and its assets. */
    method PlaylistBranch(tmplId: string, h: seq<HistoryItem>, f: Filter) returns (next: Option<NavState>)
      requires Valid()
      ensures next == LoadPlaylist(env, props, State(), tmplId, h, f)
    {
      var found := FindByKey(env.cache.playlists, PlaylistId, tmplId);
      if found.None? {
        return None;  // reading the id of an undefined playlist throws
      }
      var p := found.value;
      var h' := h + [HistoryItem(p.id, p.title, PlaylistKind)];
      var newUrl := PlaylistUrl(p.id);
      var pas := PlaylistAssets(p);
      next := Some(Navigation.Commit(State(), PlaylistKind, tmplId, None, SinglePlaylist(p), pas, h', f, filterValues, newUrl));
    }

    /** The URL of a playlist view: the `playlist` parameter, or the fifth Teams slot. */
    method PlaylistUrl(id: string) returns (newUrl: string)
      requires Valid()
      ensures newUrl == PageUrl(env, props, "&playlist=" + id, Slots(env, "", "", id, ""))
    {
      var slots;
      newUrl, slots := StartUrl();
      if teamsContext {
        slots := slots[4 := id];
      } else {
        newUrl := newUrl + "&playlist=" + id;
      }
      assert teamsContext ==> slots == Slots(env, "", "", id, "");
      newUrl := FinishUrl(newUrl, slots);
    }

    /** The Playlist branch's loop: look each asset id up in the cache and keep the hits, in order. */
    method PlaylistAssets(p: Playlist) returns (pas: seq<Asset>)
      ensures pas == ResolveAssets(p.assetIds, env.cache.assets)
    {
      pas := [];
      for i := 0 to |p.assetIds|
        invariant pas == ResolveAssets(p.assetIds[..i], env.cache.assets)
      {
        assert p.assetIds[..i + 1][..i] == p.assetIds[..i];
        var pa := FindByKey(env.cache.assets, AssetId, p.assetIds[i]);
        if pa.Some? {
          pas := pas + [pa.value];
        }
      }
      assert p.assetIds[..|p.assetIds|] == p.assetIds;
    }

    /**
     * `_selectAsset`: find the asset among the loaded ones; unless it is
     * the current one, build its URL and make it current.  Reading the id
     * of an asset that is not loaded throws, which leaves the state.
     */
    method SelectAsset(assetId: string)
      requires Valid()
      modifies this
      ensures Valid()
      ensures State() == SelectAssetSpec(env, props, old(State()), assetId)
    {
      var found := FindByKey(assets, AssetId, assetId);
      if found != currentAsset {
        if found.None? {
          return;
        }
        var newUrl := AssetLink(found.value);
        url := newUrl;
        currentAsset := found;
      }
    }

    /** The URL `_selectAsset` builds for an asset of the current detail. */
    method AssetLink(a: Asset) returns (newUrl: string)
      requires Valid()
      ensures newUrl == AssetUrl(env, props, detail, a.id)
    {
      newUrl := StandardBase(env);
      if teamsContext {
        var slots := ["", env.cdn, "", "", DetailSlotId(detail), a.id];
        var subEntityId := Join(slots, ':');
        newUrl := teamsContextUrl + "\"" + subEntityId + "\"}";
        newUrl := EncodeQuery(newUrl);
      } else if !detail.NoDetail? {
        newUrl := newUrl + "&playlist=" + DetailQueryId(detail) + "&asset=" + a.id;
      } else {
        newUrl := newUrl + "&asset=" + a.id;
      }
    }

    /** `_historyClick`: truncate the breadcrumb when navigating through it, then load. */
    method HistoryClick(tmpl: Template, tmplId: string, nav: bool)
      requires Valid()
      modifies this
      ensures Valid()
      ensures State() == HistoryClickSpec(env, props, old(State()), tmpl, tmplId, nav)
    {
      var h := history;
      if nav {
        if tmplId == "" {
          h := [HomeItem(env)];
        } else {
          var idx := FindIndex(h, HistoryId, tmplId);
          h := Splice(h, idx, |h| - idx);
        }
      }
      LoadDetail(tmpl, tmplId, Some(h), None, "");
    }

    /** `_setFilter`: toggle the key in its facet of a copy of the filter, then reload the current view with it. */
    method SetFilter(v: FilterValue)
      requires Valid()
      modifies this
      ensures Valid()
      ensures State() == SetFilterSpec(env, props, old(State()), v)
    {
      var f := filterValue;
      match v.kind {
        case Level =>
          var idx := FindIndex(f.level, Self, v.key);
          if idx > -1 {
            f := f.(level := Splice(f.level, idx, 1));
          } else {
            f := f.(level := f.level + [v.key]);
          }
        case Audience =>
          var idx := FindIndex(f.audience, Self, v.key);
          if idx > -1 {
            f := f.(audience := Splice(f.audience, idx, 1));
          } else {
            f := f.(audience := f.audience + [v.key]);
          }
      }
      assert f == ToggleFilter(filterValue, v);
      ToggleFilterNoDup(filterValue, v);
      LoadDetail(template, templateId, Some(history), Some(f), "");
    }

    /** `_loadSearchResultAsset`: keep the first breadcrumb, then open the playlist or the subcategory. */
    method LoadSearchResultAsset(subcategoryId: string, playlistId: string, assetId: string)
      requires Valid()
      modifies this
      ensures Valid()
      ensures State() == SearchResultSpec(env, props, old(State()), subcategoryId, playlistId, assetId)
    {
      var h := history;
      if |h| > 1 {
        h := SpliceTail(h, 1);
      }
      if playlistId != "" {
        LoadDetail(PlaylistKind, playlistId, Some(h), None, assetId);
      } else if subcategoryId != "" {
        LoadDetail(SubCategoryKind, subcategoryId, Some(h), None, "");
      }
    }
  }
}
