/**
 * Facets of playlists (Audience and Level): the playlist filter, the
 * extraction of the available filter values under a category, and the
 * toggling of one facet key in the active filter.
 */
module Facets {
  import opened Seqs
  import opened Content

  /** A playlist passes when each non-empty selection contains the playlist's key for that facet. */
  predicate Passes(p: Playlist, f: Filter)
  {
    (|f.level| == 0 || p.levelId in f.level) && (|f.audience| == 0 || p.audienceId in f.audience)
  }

  /**
   * `_filterPlaylists`: the playlists that pass the filter, in their
   * original order; an empty filter keeps them all.
   */
  function FilterPlaylists(playlists: seq<Playlist>, f: Filter): (r: seq<Playlist>)
    ensures IsSubseq(r, playlists)
    ensures forall p :: p in r <==>
      p in playlists
      && (|f.level| == 0 || p.levelId in f.level)
      && (|f.audience| == 0 || p.audienceId in f.audience)
    ensures forall p :: multiset(r)[p] == if Passes(p, f) then multiset(playlists)[p] else 0
    ensures f == EmptyFilter() ==> r == playlists
  {
    KeepMultiset(playlists, (p: Playlist) => Passes(p, f));
    Keep(playlists, (p: Playlist) => Passes(p, f))
  }

  // ---------------------------------------------------------------------
  // Filter values
  // ---------------------------------------------------------------------

  /** The Audience facet a playlist contributes; an empty id gives the "not set" sentinel. */
  function AudienceFacet(p: Playlist, notSet: string): FilterValue
  {
    if |p.audienceId| > 0 then FilterValue(Audience, p.audienceId, p.audienceName)
    else FilterValue(Audience, "", notSet)
  }

  /** The Level facet a playlist contributes; an empty id gives the "not set" sentinel. */
  function LevelFacet(p: Playlist, notSet: string): FilterValue
  {
    if |p.levelId| > 0 then FilterValue(Level, p.levelId, p.levelName)
    else FilterValue(Level, "", notSet)
  }

  /** Every facet met while scanning `pls`: audience then level, playlist by playlist. */
  function FacetsOf(pls: seq<Playlist>, notSet: string): (r: seq<FilterValue>)
    ensures |r| == 2 * |pls|
    decreases |pls|
  {
    if pls == [] then []
    else
      var p := pls[|pls| - 1];
      FacetsOf(pls[..|pls| - 1], notSet) + [AudienceFacet(p, notSet), LevelFacet(p, notSet)]
  }

  /** The categories whose playlists are scanned: the node's subcategories, or the node itself. */
  function Scope(node: Category): seq<Category>
  {
    if |node.subCategories| == 0 then [node] else node.subCategories
  }

  /** The playlists of each category of the scope, category by category, in cache order. */
  function ScopePlaylists(scope: seq<Category>, playlists: seq<Playlist>): seq<Playlist>
    decreases |scope|
  {
    if scope == [] then []
    else ScopePlaylists(scope[..|scope| - 1], playlists) + PlaylistsOf(playlists, scope[|scope| - 1].id)
  }

  /** lodash `findIndex(values, {Type: kind, Key: key}) >= 0`. */
  predicate HasFacet(values: seq<FilterValue>, kind: FilterType, key: string)
  {
    exists v :: v in values && v.kind == kind && v.key == key
  }

  /** Push `x` unless a value with its (Type, Key) pair is already listed. */
  function AddFacet(values: seq<FilterValue>, x: FilterValue): seq<FilterValue>
  {
    if HasFacet(values, x.kind, x.key) then values else values + [x]
  }

  /** Keep the first value met for each (Type, Key) pair. */
  function Distinct(xs: seq<FilterValue>): seq<FilterValue>
    decreases |xs|
  {
    if xs == [] then [] else AddFacet(Distinct(xs[..|xs| - 1]), xs[|xs| - 1])
  }

  /** The filter values of a node: the distinct facets of the playlists in its scope. */
  function FilterValuesOf(node: Category, playlists: seq<Playlist>, notSet: string): seq<FilterValue>
  {
    Distinct(FacetsOf(ScopePlaylists(Scope(node), playlists), notSet))
  }

  /** No two values share a (Type, Key) pair. */
  ghost predicate DistinctFacets(values: seq<FilterValue>)
  {
    forall i, j :: 0 <= i < j < |values| ==> values[i].kind != values[j].kind || values[i].key != values[j].key
  }

  /** `v` is the first value of `xs` with its (Type, Key) pair. */
  ghost predicate FirstSeen(xs: seq<FilterValue>, v: FilterValue)
  {
    exists i :: 0 <= i < |xs| && xs[i] == v
      && forall j :: 0 <= j < i ==> xs[j].kind != v.kind || xs[j].key != v.key
  }

  lemma {:induction false} DistinctNoDup(xs: seq<FilterValue>)
    ensures DistinctFacets(Distinct(xs))
    decreases |xs|
  {
    if xs != [] {
      DistinctNoDup(xs[..|xs| - 1]);
    }
  }

  lemma {:induction false} DistinctComplete(xs: seq<FilterValue>)
    ensures forall x :: x in xs ==> HasFacet(Distinct(xs), x.kind, x.key)
    decreases |xs|
  {
    if xs != [] {
      var init, x := xs[..|xs| - 1], xs[|xs| - 1];
      assert xs == init + [x];
      DistinctComplete(init);
      var d := Distinct(init);
      forall y | y in xs ensures HasFacet(Distinct(xs), y.kind, y.key) {
        if y in init {
          var w :| w in d && w.kind == y.kind && w.key == y.key;
          assert w in Distinct(xs);
        } else {
          assert y == x;
        }
      }
    }
  }

  lemma {:induction false} DistinctFirstSeen(xs: seq<FilterValue>)
    ensures forall v :: v in Distinct(xs) ==> FirstSeen(xs, v)
    decreases |xs|
  {
    if xs != [] {
      var init, x := xs[..|xs| - 1], xs[|xs| - 1];
      DistinctFirstSeen(init);
      DistinctComplete(init);
      var d := Distinct(init);
      forall v | v in Distinct(xs) ensures FirstSeen(xs, v) {
        if v in d {
          var i :| 0 <= i < |init| && init[i] == v
            && forall j :: 0 <= j < i ==> init[j].kind != v.kind || init[j].key != v.key;
          assert forall j :: 0 <= j <= i ==> xs[j] == init[j];
        } else {
          assert v == x && !HasFacet(d, x.kind, x.key);
          forall j | 0 <= j < |init| ensures xs[j].kind != v.kind || xs[j].key != v.key {
            assert xs[j] == init[j] && init[j] in init;
          }
        }
      }
    }
  }

  lemma {:induction false} DistinctSubseq(xs: seq<FilterValue>)
    ensures IsSubseq(Distinct(xs), xs)
    decreases |xs|
  {
    if xs != [] {
      var init, x := xs[..|xs| - 1], xs[|xs| - 1];
      assert xs == init + [x];
      DistinctSubseq(init);
      SubseqAppendRight(Distinct(init), init, x);
    }
  }

  /**
   * `Distinct` keeps each pair once, loses no pair, and keeps exactly the
   * first value met for each pair, in the order met.
   */
  lemma DistinctSpec(xs: seq<FilterValue>)
    ensures DistinctFacets(Distinct(xs))
    ensures forall x :: x in xs ==> HasFacet(Distinct(xs), x.kind, x.key)
    ensures forall v :: v in Distinct(xs) ==> FirstSeen(xs, v)
    ensures IsSubseq(Distinct(xs), xs)
  {
    DistinctNoDup(xs);
    DistinctComplete(xs);
    DistinctFirstSeen(xs);
    DistinctSubseq(xs);
  }

  /** Appending one element to the sequence keeps a subsequence, with or without appending it to the subsequence. */
  lemma {:induction false} SubseqAppendRight<T>(xs: seq<T>, ys: seq<T>, y: T)
    requires IsSubseq(xs, ys)
    ensures IsSubseq(xs, ys + [y]) && IsSubseq(xs + [y], ys + [y])
    decreases |ys|
  {
    if ys == [] {
      assert xs == [];
      assert ([] + [y])[1..] == [];
    } else if xs == [] {
      assert (xs + [y]) == [y];
      assert (ys + [y])[1..] == ys[1..] + [y];
      if ys[0] != y {
        SubseqAppendRight(xs, ys[1..], y);
      } else {
        SubseqRefl<T>([]);
      }
    } else {
      assert (ys + [y])[1..] == ys[1..] + [y];
      assert (xs + [y])[1..] == xs[1..] + [y];
      if xs[0] == ys[0] && IsSubseq(xs[1..], ys[1..]) {
        SubseqAppendRight(xs[1..], ys[1..], y);
      } else {
        SubseqAppendRight(xs, ys[1..], y);
      }
    }
  }

  /** A playlist belongs to the scan exactly when it is cached and owned by a category of the scope. */
  lemma {:induction false} ScopePlaylistsMembers(scope: seq<Category>, playlists: seq<Playlist>)
    ensures forall p :: p in ScopePlaylists(scope, playlists) <==>
      p in playlists && exists c :: c in scope && p.catId == c.id
    decreases |scope|
  {
    if scope != [] {
      var init := scope[..|scope| - 1];
      ScopePlaylistsMembers(init, playlists);
      assert scope == init + [scope[|scope| - 1]];
    }
  }

  /** Every value met in a scan comes from a playlist of the scan. */
  lemma {:induction false} FacetsOfMembers(pls: seq<Playlist>, notSet: string)
    ensures forall v :: v in FacetsOf(pls, notSet) ==>
      exists p :: p in pls && (v == AudienceFacet(p, notSet) || v == LevelFacet(p, notSet))
    ensures forall p :: p in pls ==>
      AudienceFacet(p, notSet) in FacetsOf(pls, notSet) && LevelFacet(p, notSet) in FacetsOf(pls, notSet)
    decreases |pls|
  {
    if pls != [] {
      var init := pls[..|pls| - 1];
      FacetsOfMembers(init, notSet);
      assert pls == init + [pls[|pls| - 1]];
    }
  }

  /** Every scanned playlist's two keys are listed, and every listed value comes from a scanned playlist. */
  lemma FilterValuesCover(scanned: seq<Playlist>, notSet: string)
    ensures var values := Distinct(FacetsOf(scanned, notSet));
      && (forall p :: p in scanned ==> HasFacet(values, Audience, p.audienceId) && HasFacet(values, Level, p.levelId))
      && (forall v :: v in values ==> exists p :: p in scanned && (v == AudienceFacet(p, notSet) || v == LevelFacet(p, notSet)))
  {
    var facets := FacetsOf(scanned, notSet);
    DistinctComplete(facets);
    DistinctSubseq(facets);
    FacetsOfMembers(scanned, notSet);
    forall p | p in scanned
      ensures HasFacet(Distinct(facets), Audience, p.audienceId) && HasFacet(Distinct(facets), Level, p.levelId)
    {
      assert AudienceFacet(p, notSet) in facets && LevelFacet(p, notSet) in facets;
    }
    forall v | v in Distinct(facets)
      ensures exists p :: p in scanned && (v == AudienceFacet(p, notSet) || v == LevelFacet(p, notSet))
    {
      SubseqMembers(Distinct(facets), facets, v);
    }
  }

  /**
   * What `_getFilterValues` promises about content: over the playlists
   * owned by the node's scope (see `ScopePlaylistsMembers`), no (Type, Key)
   * pair is listed twice; every playlist's Audience key and Level key (the
   * empty key when the facet is unset) is listed; every listed value is one
   * a scanned playlist contributes; the empty key is always labelled with
   * the "not set" text.
   */
  lemma FilterValuesSpec(node: Category, playlists: seq<Playlist>, notSet: string)
    ensures var values := FilterValuesOf(node, playlists, notSet);
      var scanned := ScopePlaylists(Scope(node), playlists);
      && DistinctFacets(values)
      && (forall p :: p in scanned ==> HasFacet(values, Audience, p.audienceId) && HasFacet(values, Level, p.levelId))
      && (forall v :: v in values ==> exists p :: p in scanned && (v == AudienceFacet(p, notSet) || v == LevelFacet(p, notSet)))
      && (forall v :: v in values && v.key == "" ==> v.name == notSet)
  {
    var scanned := ScopePlaylists(Scope(node), playlists);
    var values := Distinct(FacetsOf(scanned, notSet));
    assert FilterValuesOf(node, playlists, notSet) == values;
    DistinctNoDup(FacetsOf(scanned, notSet));
    FilterValuesCover(scanned, notSet);
    forall v | v in values && v.key == "" ensures v.name == notSet {
      var p :| p in scanned && (v == AudienceFacet(p, notSet) || v == LevelFacet(p, notSet));
    }
  }

  /** What `_getFilterValues` promises about order: each listed value is the first met for its pair, in the order met. */
  lemma FilterValuesOrder(node: Category, playlists: seq<Playlist>, notSet: string)
    ensures var scanned := ScopePlaylists(Scope(node), playlists);
      && (forall v :: v in FilterValuesOf(node, playlists, notSet) ==> FirstSeen(FacetsOf(scanned, notSet), v))
      && IsSubseq(FilterValuesOf(node, playlists, notSet), FacetsOf(scanned, notSet))
  {
    var scanned := ScopePlaylists(Scope(node), playlists);
    DistinctFirstSeen(FacetsOf(scanned, notSet));
    DistinctSubseq(FacetsOf(scanned, notSet));
  }

  /** Scanning one more playlist adds its Audience value, then its Level value, unless already listed. */
  lemma DistinctStep(seen: seq<Playlist>, p: Playlist, notSet: string)
    ensures Distinct(FacetsOf(seen + [p], notSet))
         == AddFacet(AddFacet(Distinct(FacetsOf(seen, notSet)), AudienceFacet(p, notSet)), LevelFacet(p, notSet))
  {
    var facets := FacetsOf(seen, notSet);
    var a, l := AudienceFacet(p, notSet), LevelFacet(p, notSet);
    assert (seen + [p])[..|seen|] == seen;
    assert FacetsOf(seen + [p], notSet) == facets + [a, l];
    assert (facets + [a, l])[..|facets| + 1] == facets + [a];
    assert (facets + [a])[..|facets|] == facets;
  }

  /**
   * `_getFilterValues`: scan the playlists of each category of the scope;
   * for each playlist push its Audience value and then its Level value
   * unless a value with the same (Type, Key) is already listed.
   */
  method GetFilterValues(node: Category, playlists: seq<Playlist>, notSet: string) returns (filterValues: seq<FilterValue>)
    ensures filterValues == FilterValuesOf(node, playlists, notSet)
  {
    filterValues := [];
    var subs := if |node.subCategories| == 0 then [node] else node.subCategories;
    for i := 0 to |subs|
      invariant filterValues == Distinct(FacetsOf(ScopePlaylists(subs[..i], playlists), notSet))
    {
      ghost var before := ScopePlaylists(subs[..i], playlists);
      var pl := PlaylistsOf(playlists, subs[i].id);
      assert subs[..i + 1][..i] == subs[..i];
      assert ScopePlaylists(subs[..i + 1], playlists) == before + pl;
      if |pl| > 0 {
        filterValues := CheckPlaylists(filterValues, pl, notSet, before);
      } else {
        assert before + pl == before;
      }
    }
    assert subs[..|subs|] == subs;
  }

  /**
   * The `checkPlaylists` closure of `_getFilterValues`: for each playlist
   * push its Audience value and then its Level value unless a value with
   * the same (Type, Key) is already listed.  `seen` is the playlists
   * scanned before.
   */
  method CheckPlaylists(values: seq<FilterValue>, pl: seq<Playlist>, notSet: string, ghost seen: seq<Playlist>)
    returns (filterValues: seq<FilterValue>)
    requires values == Distinct(FacetsOf(seen, notSet))
    ensures filterValues == Distinct(FacetsOf(seen + pl, notSet))
  {
    filterValues := values;
    assert seen + pl[..0] == seen;
    for j := 0 to |pl|
      invariant filterValues == Distinct(FacetsOf(seen + pl[..j], notSet))
    {
      var p := pl[j];
      DistinctStep(seen + pl[..j], p, notSet);
      AppendSliceStep(seen, pl, j);
      if |p.audienceId| > 0 {
        if !HasFacet(filterValues, Audience, p.audienceId) {
          filterValues := filterValues + [FilterValue(Audience, p.audienceId, p.audienceName)];
        }
      } else {
        if !HasFacet(filterValues, Audience, "") {
          filterValues := filterValues + [FilterValue(Audience, "", notSet)];
        }
      }
      if |p.levelId| > 0 {
        if !HasFacet(filterValues, Level, p.levelId) {
          filterValues := filterValues + [FilterValue(Level, p.levelId, p.levelName)];
        }
      } else {
        if !HasFacet(filterValues, Level, "") {
          filterValues := filterValues + [FilterValue(Level, "", notSet)];
        }
      }
    }
    assert pl[..|pl|] == pl;
  }

  // ---------------------------------------------------------------------
  // Toggling a facet key
  // ---------------------------------------------------------------------

  /** `indexOf` then `splice(i, 1)` when present, `push` when absent. */
  function Toggle(keys: seq<string>, key: string): seq<string>
  {
    var i := IndexOfKey(keys, Self, key);
    if i > -1 then Splice(keys, i, 1) else keys + [key]
  }

  /** `_setFilter`'s change to the active filter: toggle the key in its own facet only. */
  function ToggleFilter(f: Filter, v: FilterValue): (r: Filter)
    ensures v.kind == Level ==> r.audience == f.audience
    ensures v.kind == Audience ==> r.level == f.level
  {
    match v.kind
    case Level => f.(level := Toggle(f.level, v.key))
    case Audience => f.(audience := Toggle(f.audience, v.key))
  }

  /**
   * On a duplicate-free list, toggling removes the key if present and adds
   * it if absent, touches no other key, and keeps the list duplicate-free.
   */
  lemma ToggleSpec(keys: seq<string>, key: string)
    requires NoDup(keys)
    ensures key in Toggle(keys, key) <==> key !in keys
    ensures forall k :: k != key ==> (k in Toggle(keys, key) <==> k in keys)
    ensures NoDup(Toggle(keys, key))
    ensures key !in keys ==> Toggle(keys, key) == keys + [key]
  {
    var i := IndexOfKey(keys, Self, key);
    if i > -1 {
      assert Toggle(keys, key) == keys[..i] + keys[i + 1..];
      RemoveAtNoDup(keys, i);
    } else {
      assert forall j :: 0 <= j < |keys| ==> Self(keys[j]) != key;
      assert key !in keys;
    }
  }

  /** Neither facet selection lists a key twice. */
  ghost predicate FilterNoDup(f: Filter)
  {
    NoDup(f.level) && NoDup(f.audience)
  }

  /**
   * `_setFilter` keeps the active filter duplicate-free: the toggled facet
   * gains or loses exactly the key, and the other facet is untouched.
   */
  lemma ToggleFilterNoDup(f: Filter, v: FilterValue)
    requires FilterNoDup(f)
    ensures FilterNoDup(ToggleFilter(f, v))
    ensures v.kind == Level ==> (v.key in ToggleFilter(f, v).level <==> v.key !in f.level)
    ensures v.kind == Audience ==> (v.key in ToggleFilter(f, v).audience <==> v.key !in f.audience)
  {
    match v.kind
    case Level => ToggleSpec(f.level, v.key);
    case Audience => ToggleSpec(f.audience, v.key);
  }

  /**
   * Toggling the same key twice gives back the same keys: exactly the same
   * list when the key was absent; when it was present it comes back at the
   * end, so the list holds the same keys in a possibly different order.
   */
  lemma ToggleTwice(keys: seq<string>, key: string)
    requires NoDup(keys)
    ensures key !in keys ==> Toggle(Toggle(keys, key), key) == keys
    ensures multiset(Toggle(Toggle(keys, key), key)) == multiset(keys)
  {
    var i := IndexOfKey(keys, Self, key);
    if i > -1 {
      ToggleTwicePresent(keys, key, i);
    } else {
      ToggleTwiceAbsent(keys, key);
    }
  }

  lemma ToggleTwicePresent(keys: seq<string>, key: string, i: nat)
    requires NoDup(keys) && i < |keys| && keys[i] == key
    ensures multiset(Toggle(Toggle(keys, key), key)) == multiset(keys)
  {
    var once := keys[..i] + keys[i + 1..];
    assert IndexOfKey(keys, Self, key) == i;
    assert Toggle(keys, key) == once;
    RemoveAtNoDup(keys, i);
    assert IndexOfKey(once, Self, key) == -1;
    assert Toggle(once, key) == once + [key];
    assert keys == keys[..i] + [keys[i]] + keys[i + 1..];
  }

  lemma ToggleTwiceAbsent(keys: seq<string>, key: string)
    requires key !in keys
    ensures Toggle(Toggle(keys, key), key) == keys
  {
    assert IndexOfKey(keys, Self, key) == -1;
    var once := keys + [key];
    assert Toggle(keys, key) == once;
    assert once[|keys|] == key && forall j :: 0 <= j < |keys| ==> once[j] == keys[j];
    assert IndexOfKey(once, Self, key) == |keys|;
    assert Toggle(once, key) == once[..|keys|];
    assert once[..|keys|] == keys;
  }

  /** The order can change: toggling "a" twice in ["a", "b"] gives ["b", "a"]. */
  lemma ToggleTwiceMovesKey()
    ensures Toggle(Toggle(["a", "b"], "a"), "a") == ["b", "a"]
  {
    assert IndexOfKey(["a", "b"], Self, "a") == 0;
    assert Toggle(["a", "b"], "a") == ["b"];
    assert IndexOfKey(["b"], Self, "a") == -1;
  }
}
