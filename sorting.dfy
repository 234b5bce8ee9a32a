/**
 * The custom sort applier: a list of categories or playlists is reordered by
 * an explicit list of ids.  Items named by the order come first, in the
 * order's sequence; the items left over follow in their original relative
 * order.  An absent or empty order leaves the list as it is.
 */
module Sorting {
  import opened Seqs

  /**
   * The (front, rest) split the sort produces: for each id of `order` in
   * turn, the first element of the working copy `work` with that key (if
   * any) is moved to `front`; `rest` is the working copy that remains.
   */
  function Pick<T>(work: seq<T>, key: T -> string, order: seq<string>): (seq<T>, seq<T>)
    decreases |order|
  {
    if order == [] then ([], work)
    else
      var i := IndexOfKey(work, key, order[0]);
      if i < 0 then Pick(work, key, order[1..])
      else
        var p := Pick(work[..i] + work[i + 1..], key, order[1..]);
        ([work[i]] + p.0, p.1)
  }

  /** The sorted list: the input itself when the order is empty, else front then rest. */
  function CustomSort<T>(items: seq<T>, key: T -> string, order: seq<string>): (r: seq<T>)
    ensures multiset(r) == multiset(items)
  {
    if |order| < 1 then items
    else
      PickPermutation(items, key, order);
      var p := Pick(items, key, order);
      p.0 + p.1
  }

  /** Nothing is lost or duplicated: front and rest together are a permutation of the input. */
  lemma {:induction false} PickPermutation<T>(work: seq<T>, key: T -> string, order: seq<string>)
    ensures multiset(Pick(work, key, order).0) + multiset(Pick(work, key, order).1) == multiset(work)
    decreases |order|
  {
    if order != [] {
      var i := IndexOfKey(work, key, order[0]);
      if i < 0 {
        PickPermutation(work, key, order[1..]);
      } else {
        var w := work[..i] + work[i + 1..];
        PickPermutation(w, key, order[1..]);
        assert work == work[..i] + [work[i]] + work[i + 1..];
        assert multiset(work) == multiset(w) + multiset{work[i]};
        assert Pick(work, key, order).0 == [work[i]] + Pick(w, key, order[1..]).0;
        assert Pick(work, key, order).1 == Pick(w, key, order[1..]).1;
      }
    }
  }

  /** The leftovers keep their original relative order. */
  lemma {:induction false} PickRestSubseq<T>(work: seq<T>, key: T -> string, order: seq<string>)
    ensures IsSubseq(Pick(work, key, order).1, work)
    decreases |order|
  {
    if order == [] {
      SubseqRefl(work);
    } else {
      var i := IndexOfKey(work, key, order[0]);
      if i < 0 {
        PickRestSubseq(work, key, order[1..]);
      } else {
        var w := work[..i] + work[i + 1..];
        PickRestSubseq(w, key, order[1..]);
        SubseqRemoveAt(work, i);
        SubseqTrans(Pick(w, key, order[1..]).1, w, work);
      }
    }
  }

  /** The keys of the moved items follow the order: they form a subsequence of it. */
  lemma {:induction false} PickFrontFollowsOrder<T>(work: seq<T>, key: T -> string, order: seq<string>)
    ensures IsSubseq(Keys(Pick(work, key, order).0, key), order)
    decreases |order|
  {
    if order != [] {
      var i := IndexOfKey(work, key, order[0]);
      if i < 0 {
        PickFrontFollowsOrder(work, key, order[1..]);
        var ks := Keys(Pick(work, key, order[1..]).0, key);
        assert ks == Keys(Pick(work, key, order).0, key);
        assert ks != [] ==> order[1..] == order[1..];
      } else {
        var w := work[..i] + work[i + 1..];
        PickFrontFollowsOrder(w, key, order[1..]);
        var ks := Keys(Pick(work, key, order).0, key);
        assert ks[0] == order[0];
        assert ks[1..] == Keys(Pick(w, key, order[1..]).0, key);
      }
    }
  }

  /** Removing one element keeps keys unique. */
  lemma UniqueKeysRemoveAt<T>(work: seq<T>, key: T -> string, i: nat)
    requires i < |work| && UniqueKeys(work, key)
    ensures UniqueKeys(work[..i] + work[i + 1..], key)
  {
    var w := work[..i] + work[i + 1..];
    forall a, b | 0 <= a < b < |w|
      ensures key(w[a]) != key(w[b])
    {
      var a' := if a < i then a else a + 1;
      var b' := if b < i then b else b + 1;
      assert w[a] == work[a'] && w[b] == work[b'];
    }
  }

  /** An item whose key the order names is never kept among the leftovers. */
  function Unnamed<T>(key: T -> string, order: seq<string>): T -> bool
  {
    (x: T) => key(x) !in order
  }

  /** When no item carries key `o`, naming `o` changes nothing about which items are unnamed. */
  lemma AbsentKeyUnnamed<T(!new)>(work: seq<T>, key: T -> string, o: string, os: seq<string>)
    requires forall j :: 0 <= j < |work| ==> key(work[j]) != o
    ensures Keep(work, Unnamed(key, os)) == Keep(work, Unnamed(key, [o] + os))
  {
    forall x | x in work ensures Unnamed(key, os)(x) == Unnamed(key, [o] + os)(x) {
      var j :| 0 <= j < |work| && work[j] == x;
    }
    KeepAgree(work, Unnamed(key, os), Unnamed(key, [o] + os));
  }

  /** Removing the only item with key `o` and then dropping the items named by `os` drops those named by `o` and `os`. */
  lemma RemovedKeyUnnamed<T(!new)>(work: seq<T>, key: T -> string, i: nat, os: seq<string>)
    requires i < |work| && UniqueKeys(work, key)
    ensures Keep(work[..i] + work[i + 1..], Unnamed(key, os)) == Keep(work, Unnamed(key, [key(work[i])] + os))
  {
    var o := key(work[i]);
    var left, right := work[..i], work[i + 1..];
    OthersLackKey(work, key, i, left, right);
    AbsentKeyUnnamed(left, key, o, os);
    AbsentKeyUnnamed(right, key, o, os);
    KeepAroundNamed(left, work[i], right, key, o, os);
    assert work == left + [work[i]] + right;
  }

  /** Under unique keys, the items before and after position `i` lack its key. */
  lemma OthersLackKey<T>(work: seq<T>, key: T -> string, i: nat, left: seq<T>, right: seq<T>)
    requires i < |work| && UniqueKeys(work, key)
    requires left == work[..i] && right == work[i + 1..]
    ensures forall j :: 0 <= j < |left| ==> key(left[j]) != key(work[i])
    ensures forall j :: 0 <= j < |right| ==> key(right[j]) != key(work[i])
  {
    forall j | 0 <= j < |right| ensures key(right[j]) != key(work[i]) {
      assert right[j] == work[i + 1 + j];
    }
  }

  /** Dropping a named item in the middle of a list, expressed through `Keep`. */
  lemma KeepAroundNamed<T(!new)>(left: seq<T>, x: T, right: seq<T>, key: T -> string, o: string, os: seq<string>)
    requires key(x) == o
    requires Keep(left, Unnamed(key, os)) == Keep(left, Unnamed(key, [o] + os))
    requires Keep(right, Unnamed(key, os)) == Keep(right, Unnamed(key, [o] + os))
    ensures Keep(left + right, Unnamed(key, os)) == Keep(left + [x] + right, Unnamed(key, [o] + os))
  {
    var named := Unnamed(key, [o] + os);
    KeepAppend(left, right, Unnamed(key, os));
    assert left + [x] + right == left + ([x] + right);
    KeepAppend(left, [x] + right, named);
    KeepAppend([x], right, named);
    assert !named(x);
    assert Keep([x], named) == [];
  }

  /**
   * With unique keys (the catalogue's ids), the leftovers are exactly the
   * items whose key the order does not name, in their original order.
   */
  lemma {:induction false} PickRestUnnamed<T(!new)>(work: seq<T>, key: T -> string, order: seq<string>)
    requires UniqueKeys(work, key)
    ensures Pick(work, key, order).1 == Keep(work, Unnamed(key, order))
    decreases |order|
  {
    if order == [] {
      assert forall x :: x in work ==> Unnamed(key, order)(x);
    } else {
      var o := order[0];
      assert order == [o] + order[1..];
      var i := IndexOfKey(work, key, o);
      if i < 0 {
        PickRestUnnamed(work, key, order[1..]);
        AbsentKeyUnnamed(work, key, o, order[1..]);
      } else {
        UniqueKeysRemoveAt(work, key, i);
        PickRestUnnamed(work[..i] + work[i + 1..], key, order[1..]);
        RemovedKeyUnnamed(work, key, i, order[1..]);
      }
    }
  }

  /**
   * What the sort promises.  With an empty order the list is unchanged.
   * Otherwise the result is a permutation of the input made of a front,
   * whose keys follow the order, and the rest, in original relative order;
   * with unique keys the rest is exactly the items the order does not name,
   * so an item is in the front exactly when the order names it.
   */
  lemma CustomSortSpec<T(!new)>(items: seq<T>, key: T -> string, order: seq<string>)
    ensures |order| == 0 ==> CustomSort(items, key, order) == items
    ensures |order| > 0 ==>
      var p := Pick(items, key, order);
      && CustomSort(items, key, order) == p.0 + p.1
      && IsSubseq(Keys(p.0, key), order)
      && IsSubseq(p.1, items)
      && multiset(p.0) + multiset(p.1) == multiset(items)
      && (UniqueKeys(items, key) ==>
            p.1 == Keep(items, Unnamed(key, order))
            && forall x :: x in p.0 ==> key(x) in order)
  {
    if |order| > 0 {
      var p := Pick(items, key, order);
      PickPermutation(items, key, order);
      PickRestSubseq(items, key, order);
      PickFrontFollowsOrder(items, key, order);
      if UniqueKeys(items, key) {
        PickRestUnnamed(items, key, order);
        forall x | x in p.0 ensures key(x) in order {
          var j :| 0 <= j < |p.0| && p.0[j] == x;
          var ks := Keys(p.0, key);
          assert ks[j] == key(x) && key(x) in ks;
          SubseqMembers(ks, order, key(x));
        }
      }
    }
  }

  /** The scan for the first item with key `id`, or -1 (the inner `forEach` that stops at a match). */
  method FindIndex<T>(xs: seq<T>, key: T -> string, id: string) returns (idx: int)
    ensures idx == IndexOfKey(xs, key, id)
  {
    idx := 0;
    while idx < |xs| && key(xs[idx]) != id
      invariant 0 <= idx <= |xs|
      invariant forall m :: 0 <= m < idx ==> key(xs[m]) != id
    {
      idx := idx + 1;
    }
    if idx == |xs| {
      idx := -1;
    }
  }

  /** One step of the sort: how the split for `order[k..]` unfolds. */
  lemma PickStep<T>(copy: seq<T>, key: T -> string, order: seq<string>, k: nat)
    requires k < |order|
    ensures var i := IndexOfKey(copy, key, order[k]);
      && (i < 0 ==> Pick(copy, key, order[k..]) == Pick(copy, key, order[k + 1..]))
      && (i >= 0 ==>
            var p := Pick(copy[..i] + copy[i + 1..], key, order[k + 1..]);
            Pick(copy, key, order[k..]) == ([copy[i]] + p.0, p.1))
  {
    assert order[k..][0] == order[k] && order[k..][1..] == order[k + 1..];
  }

  /**
   * `_applyCustomSort`: for each id of the order, scan the working copy for
   * the first item with that id, move it to the new list and splice it out
   * of the copy; finally append what is left of the copy.
   */
  method ApplyCustomSort<T>(items: seq<T>, key: T -> string, order: seq<string>) returns (sorted: seq<T>)
    ensures sorted == CustomSort(items, key, order)
  {
    if |order| < 1 {
      return items;
    }
    var copy := items;
    var newArray: seq<T> := [];
    ghost var whole := Pick(items, key, order);
    for k := 0 to |order|
      invariant newArray + Pick(copy, key, order[k..]).0 == whole.0
      invariant Pick(copy, key, order[k..]).1 == whole.1
    {
      var idx := FindIndex(copy, key, order[k]);
      PickStep(copy, key, order, k);
      if idx > -1 {
        var item, rest := copy[idx], copy[..idx] + copy[idx + 1..];
        ghost var p := Pick(rest, key, order[k + 1..]);
        assert newArray + [item] + p.0 == newArray + ([item] + p.0);
        newArray, copy := newArray + [item], rest;
      }
    }
    assert order[|order|..] == [];
    sorted := newArray + copy;
    assert sorted == whole.0 + whole.1;
  }
}
