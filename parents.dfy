/**
 * `_findParentCategory`: the one-level search of the category tree for the
 * subcategory with a given id, returning [subcategory, its root] for the
 * first root (in list order) that holds it, or [] when none does.
 */
module Parents {
  import opened Seqs
  import opened Content

  /** The lookup as a value: [matching subcategory, its root] for the first root holding a match, else []. */
  function ParentChain(id: string, categories: seq<Category>): seq<Category>
    decreases |categories|
  {
    if categories == [] then []
    else
      var j := IndexOfKey(categories[0].subCategories, CategoryId, id);
      if j >= 0 then [categories[0].subCategories[j], categories[0]]
      else ParentChain(id, categories[1..])
  }

  /** Subcategory `j` of root `i` has id `id`. */
  ghost predicate MatchAt(categories: seq<Category>, id: string, i: int, j: int)
  {
    0 <= i < |categories| && 0 <= j < |categories[i].subCategories|
    && categories[i].subCategories[j].id == id
  }

  /** (i, j) is the match the scan meets first: no earlier root, and no earlier subcategory of root i, matches. */
  ghost predicate FirstMatch(categories: seq<Category>, id: string, i: int, j: int)
  {
    MatchAt(categories, id, i, j)
    && (forall i', j' :: 0 <= i' < i && 0 <= j' < |categories[i'].subCategories| ==> categories[i'].subCategories[j'].id != id)
    && (forall j' :: 0 <= j' < j ==> categories[i].subCategories[j'].id != id)
  }

  /**
   * The lookup returns [] exactly when no subcategory of any root has the
   * id (root ids themselves are never matched); otherwise it returns the
   * first match met in the scan followed by the root holding it.
   */
  lemma {:induction false} ParentChainSpec(id: string, categories: seq<Category>)
    ensures var r := ParentChain(id, categories);
      && (r == [] <==> forall i, j :: !MatchAt(categories, id, i, j))
      && (r != [] ==> exists i, j :: FirstMatch(categories, id, i, j)
                                    && r == [categories[i].subCategories[j], categories[i]])
    decreases |categories|
  {
    if categories != [] {
      var c := categories[0];
      var j := IndexOfKey(c.subCategories, CategoryId, id);
      if j >= 0 {
        assert FirstMatch(categories, id, 0, j);
        assert MatchAt(categories, id, 0, j);
      } else {
        ParentChainSpec(id, categories[1..]);
        var tail := categories[1..];
        assert forall k :: 0 <= k < |c.subCategories| ==> CategoryId(c.subCategories[k]) != id;
        assert forall k :: 0 <= k < |c.subCategories| ==> c.subCategories[k].id != id;
        if ParentChain(id, tail) != [] {
          var i, j' :| FirstMatch(tail, id, i, j')
            && ParentChain(id, tail) == [tail[i].subCategories[j'], tail[i]];
          assert FirstMatch(categories, id, i + 1, j') by {
            forall i'', j'' | 1 <= i'' < i + 1 && 0 <= j'' < |categories[i''].subCategories|
              ensures categories[i''].subCategories[j''].id != id
            {
              assert categories[i''] == tail[i'' - 1];
            }
          }
        } else {
          forall i, j' | 1 <= i < |categories| ensures !MatchAt(categories, id, i, j') {
            assert categories[i] == tail[i - 1];
            assert !MatchAt(tail, id, i - 1, j');
          }
        }
      }
    }
  }

  /**
   * Only subcategory ids are searched: a root's own id is not found
   * unless some subcategory carries it too.
   */
  lemma RootIdNotMatched(id: string, categories: seq<Category>)
    requires exists c :: c in categories && c.id == id
    requires forall c, s :: c in categories && s in c.subCategories ==> s.id != id
    ensures ParentChain(id, categories) == []
  {
    ParentChainSpec(id, categories);
    forall i, j ensures !MatchAt(categories, id, i, j) {
      if 0 <= i < |categories| && 0 <= j < |categories[i].subCategories| {
        assert categories[i] in categories;
        assert categories[i].subCategories[j] in categories[i].subCategories;
      }
    }
  }

  /**
   * `_findParentCategory(id, categories, [])`: scan the roots in order; in
   * each root with subcategories scan them for the id, push the match and
   * stop; once found, push the root and stop.
   */
  method FindParentCategory(id: string, categories: seq<Category>) returns (parent: seq<Category>)
    ensures parent == ParentChain(id, categories)
  {
    parent := [];
    var i := 0;
    while i < |categories|
      invariant 0 <= i <= |categories|
      invariant parent == [] && ParentChain(id, categories) == ParentChain(id, categories[i..])
    {
      var c := categories[i];
      assert categories[i..][0] == c && categories[i..][1..] == categories[i + 1..];
      if |c.subCategories| > 0 {
        var j := 0;
        while j < |c.subCategories| && c.subCategories[j].id != id
          invariant 0 <= j <= |c.subCategories|
          invariant forall k :: 0 <= k < j ==> c.subCategories[k].id != id
        {
          j := j + 1;
        }
        if j < |c.subCategories| {
          assert IndexOfKey(c.subCategories, CategoryId, id) == j;
          parent := parent + [c.subCategories[j]];
          parent := parent + [c];
          break;
        }
        assert IndexOfKey(c.subCategories, CategoryId, id) == -1;
      }
      i := i + 1;
    }
  }
}
