/**
 * The learning catalogue as the component sees it: a read-only cache of
 * categories, playlists and assets, plus the configuration and component
 * properties the navigation logic consults.  Multilingual names and titles
 * are abstracted to one string.
 */
module Content {
  import opened Seqs

  /** A category; in practice roots carry one level of subcategories. */
  datatype Category = Category(id: string, name: string, subCategories: seq<Category>)

  datatype Playlist = Playlist(
    id: string,
    title: string,
    catId: string,
    audienceId: string,
    audienceName: string,
    levelId: string,
    levelName: string,
    assetIds: seq<string>)

  /** An asset; the viewer's own fields are reduced to a title and a link. */
  datatype Asset = Asset(id: string, title: string, url: string)

  /** The content cache: root categories, all playlists, all assets. */
  datatype Cache = Cache(categories: seq<Category>, playlists: seq<Playlist>, assets: seq<Asset>)

  /**
   * The view kinds.  `NoKind` stands for the empty template of the initial
   * state and of the Home breadcrumb, and for any unrecognised template name.
   */
  datatype Template = CategoryKind | SubCategoryKind | PlaylistsKind | PlaylistKind | AssetKind | NoKind

  datatype HistoryItem = HistoryItem(id: string, title: string, template: Template)

  datatype FilterType = Level | Audience

  /** One selectable facet value: its type, its key and its display name. */
  datatype FilterValue = FilterValue(kind: FilterType, key: string, name: string)

  /** The active filter: selected Level keys and selected Audience keys. */
  datatype Filter = Filter(level: seq<string>, audience: seq<string>)

  /**
   * Ambient, read-only configuration: the cache, the viewer's base URL, the
   * CDN name, whether the web part runs content-only, and the two localized
   * strings the logic uses.
   */
  datatype Env = Env(
    cache: Cache,
    baseViewerUrl: string,
    cdn: string,
    contentOnly: bool,
    navigationHome: string,
    filterNotSet: string)

  /** The component's properties (an absent custom order is the empty one). */
  datatype Props = Props(
    startType: Template,
    startLocation: string,
    startAsset: string,
    customSort: bool,
    customSortOrder: seq<string>,
    teamsEntityId: string)

  function CategoryId(c: Category): string { c.id }
  function PlaylistId(p: Playlist): string { p.id }
  function AssetId(a: Asset): string { a.id }
  function HistoryId(h: HistoryItem): string { h.id }

  function EmptyFilter(): Filter { Filter([], []) }

  /** The synthetic Home breadcrumb. */
  function HomeItem(env: Env): HistoryItem { HistoryItem("", env.navigationHome, NoKind) }

  /** lodash `filter(CachedPlaylists, {CatId: id})`. */
  function PlaylistsOf(playlists: seq<Playlist>, catId: string): (r: seq<Playlist>)
    ensures forall p :: p in r <==> p in playlists && p.catId == catId
  {
    Keep(playlists, (p: Playlist) => p.catId == catId)
  }
}
