/**
 * Sequence vocabulary shared by the whole model: an Option type, the
 * subsequence relation, and the handful of array operations the component
 * borrows from JavaScript and lodash (`filter`, `find`, `findIndex`,
 * `indexOf`, `splice`, `join`, `split`), written out with their edge cases.
 */
module Seqs {

  datatype Option<+T> = None | Some(value: T)

  /** `xs` can be obtained from `ys` by deleting elements: same elements, same relative order. */
  ghost predicate IsSubseq<T>(xs: seq<T>, ys: seq<T>)
    decreases |ys|
  {
    if xs == [] then true
    else if ys == [] then false
    else (xs[0] == ys[0] && IsSubseq(xs[1..], ys[1..])) || IsSubseq(xs, ys[1..])
  }

  lemma {:induction false} SubseqRefl<T>(xs: seq<T>)
    ensures IsSubseq(xs, xs)
    decreases |xs|
  {
    if xs != [] {
      SubseqRefl(xs[1..]);
    }
  }

  lemma {:induction false} SubseqTrans<T>(xs: seq<T>, ys: seq<T>, zs: seq<T>)
    requires IsSubseq(xs, ys) && IsSubseq(ys, zs)
    ensures IsSubseq(xs, zs)
    decreases |zs|
  {
    if xs != [] {
      assert ys != [] && zs != [];
      if ys[0] == zs[0] && IsSubseq(ys[1..], zs[1..]) {
        if xs[0] == ys[0] && IsSubseq(xs[1..], ys[1..]) {
          SubseqTrans(xs[1..], ys[1..], zs[1..]);
        } else {
          SubseqTrans(xs, ys[1..], zs[1..]);
        }
      } else {
        SubseqTrans(xs, ys, zs[1..]);
      }
    }
  }

  /** Deleting one element leaves a subsequence (what `splice(i, 1)` does). */
  lemma {:induction false} SubseqRemoveAt<T>(ys: seq<T>, i: nat)
    requires i < |ys|
    ensures IsSubseq(ys[..i] + ys[i + 1..], ys)
    decreases i
  {
    if i == 0 {
      assert ys[..0] + ys[1..] == ys[1..];
      SubseqRefl(ys[1..]);
    } else {
      var xs := ys[..i] + ys[i + 1..];
      assert xs[0] == ys[0];
      assert xs[1..] == ys[1..][..i - 1] + ys[1..][i..];
      SubseqRemoveAt(ys[1..], i - 1);
    }
  }

  /** Every element of a subsequence is an element of the sequence. */
  lemma {:induction false} SubseqMembers<T>(xs: seq<T>, ys: seq<T>, x: T)
    requires IsSubseq(xs, ys) && x in xs
    ensures x in ys
    decreases |ys|
  {
    if xs[0] == ys[0] && IsSubseq(xs[1..], ys[1..]) {
      if x != xs[0] {
        SubseqMembers(xs[1..], ys[1..], x);
      }
    } else {
      SubseqMembers(xs, ys[1..], x);
    }
  }

  /** Growing a prefix of `b` by one element, behind a fixed `a`. */
  lemma AppendSliceStep<T>(a: seq<T>, b: seq<T>, j: nat)
    requires j < |b|
    ensures a + b[..j + 1] == a + b[..j] + [b[j]]
  {
    assert b[..j + 1] == b[..j] + [b[j]];
  }

  /** lodash `filter`: the elements satisfying `p`, in their original order. */
  function Keep<T(!new)>(xs: seq<T>, p: T -> bool): (r: seq<T>)
    ensures forall x :: x in r <==> x in xs && p(x)
    ensures IsSubseq(r, xs)
    ensures (forall x :: x in xs ==> p(x)) ==> r == xs
    ensures |r| <= |xs|
    decreases |xs|
  {
    if xs == [] then []
    else if p(xs[0]) then [xs[0]] + Keep(xs[1..], p)
    else Keep(xs[1..], p)
  }

  /** Filtering distributes over concatenation. */
  lemma {:induction false} KeepAppend<T(!new)>(xs: seq<T>, ys: seq<T>, p: T -> bool)
    ensures Keep(xs + ys, p) == Keep(xs, p) + Keep(ys, p)
    decreases |xs|
  {
    if xs == [] {
      assert xs + ys == ys;
    } else {
      assert (xs + ys)[1..] == xs[1..] + ys;
      KeepAppend(xs[1..], ys, p);
    }
  }

  /** Filtering keeps every copy of a kept value and no copy of a dropped one. */
  lemma {:induction false} KeepMultiset<T(!new)>(xs: seq<T>, p: T -> bool)
    ensures forall x :: multiset(Keep(xs, p))[x] == if p(x) then multiset(xs)[x] else 0
    decreases |xs|
  {
    if xs != [] {
      KeepMultiset(xs[1..], p);
      assert xs == [xs[0]] + xs[1..];
    }
  }

  /** Two predicates that agree on every element of `xs` filter it alike. */
  lemma {:induction false} KeepAgree<T(!new)>(xs: seq<T>, p: T -> bool, q: T -> bool)
    requires forall x :: x in xs ==> p(x) == q(x)
    ensures Keep(xs, p) == Keep(xs, q)
    decreases |xs|
  {
    if xs != [] {
      KeepAgree(xs[1..], p, q);
    }
  }

  /**
   * lodash `findIndex(xs, {Id: id})`: the index of the first element whose
   * key is `id`, or -1 when there is none.
   */
  function IndexOfKey<T>(xs: seq<T>, key: T -> string, id: string): (i: int)
    ensures -1 <= i < |xs|
    ensures 0 <= i ==> key(xs[i]) == id
    ensures forall j :: 0 <= j < |xs| && (i < 0 || j < i) ==> key(xs[j]) != id
    decreases |xs|
  {
    if xs == [] then -1
    else if key(xs[0]) == id then 0
    else
      var k := IndexOfKey(xs[1..], key, id);
      if k < 0 then -1 else k + 1
  }

  /** lodash `find(xs, {Id: id})`: the first element whose key is `id`. */
  function FindByKey<T(!new)>(xs: seq<T>, key: T -> string, id: string): (r: Option<T>)
    ensures r.None? <==> forall x :: x in xs ==> key(x) != id
    ensures r.Some? ==> r.value in xs && key(r.value) == id
  {
    var i := IndexOfKey(xs, key, id);
    if i < 0 then None else Some(xs[i])
  }

  /** Identity key, for `indexOf` over a list of strings. */
  function Self(s: string): string { s }

  /** Where `splice(start, …)` starts: a negative start counts back from the end. */
  function SpliceStart(len: nat, start: int): (s: nat)
    ensures s <= len
    ensures 0 <= start <= len ==> s == start
    ensures start < 0 && len + start >= 0 ==> s == len + start
  {
    if start < 0 then (if len + start < 0 then 0 else len + start)
    else if start > len then len
    else start
  }

  /** The array left behind by `xs.splice(start, deleteCount)`. */
  function Splice<T>(xs: seq<T>, start: int, deleteCount: int): (r: seq<T>)
    ensures |r| <= |xs|
    ensures 0 <= start <= |xs| && deleteCount >= |xs| - start ==> r == xs[..start]
    ensures start < 0 && |xs| + start >= 0 && deleteCount >= -start ==> r == xs[..|xs| + start]
    ensures 0 <= start < |xs| && deleteCount == 1 ==> r == xs[..start] + xs[start + 1..]
  {
    var s := SpliceStart(|xs|, start);
    var d := if deleteCount < 0 then 0 else if deleteCount > |xs| - s then |xs| - s else deleteCount;
    xs[..s] + xs[s + d..]
  }

  /** The array left behind by `xs.splice(start)`: everything from `start` on is removed. */
  function SpliceTail<T>(xs: seq<T>, start: int): (r: seq<T>)
    ensures |r| <= |xs| && r == xs[..|r|]
  {
    xs[..SpliceStart(|xs|, start)]
  }

  /** `parts.join(sep)`. */
  function Join(parts: seq<string>, sep: char): string
    decreases |parts|
  {
    if parts == [] then ""
    else if |parts| == 1 then parts[0]
    else parts[0] + [sep] + Join(parts[1..], sep)
  }

  /** `s.split(sep)`: the pieces between separators; never empty. */
  function Split(s: string, sep: char): (parts: seq<string>)
    ensures |parts| >= 1
    ensures sep !in s ==> parts == [s]
    decreases |s|
  {
    if s == [] then [""]
    else if s[0] == sep then [""] + Split(s[1..], sep)
    else
      var rest := Split(s[1..], sep);
      assert [s[0]] + s[1..] == s;
      [[s[0]] + rest[0]] + rest[1..]
  }

  /** Splitting undoes joining when no part contains the separator. */
  lemma {:induction false} SplitJoin(parts: seq<string>, sep: char)
    requires |parts| >= 1
    requires forall i :: 0 <= i < |parts| ==> sep !in parts[i]
    ensures Split(Join(parts, sep), sep) == parts
    decreases |parts|
  {
    if |parts| > 1 {
      SplitJoin(parts[1..], sep);
      SplitPrefix(parts[0], Join(parts[1..], sep), sep);
      assert parts == [parts[0]] + parts[1..];
    }
  }

  /** A separator-free prefix followed by a separator becomes the first piece. */
  lemma {:induction false} SplitPrefix(a: string, b: string, sep: char)
    requires sep !in a
    ensures Split(a + [sep] + b, sep) == [a] + Split(b, sep)
    decreases |a|
  {
    if a == [] {
      assert a + [sep] + b == [sep] + b;
      assert ([sep] + b)[1..] == b;
    } else {
      assert (a + [sep] + b)[0] == a[0];
      assert (a + [sep] + b)[1..] == a[1..] + [sep] + b;
      SplitPrefix(a[1..], b, sep);
      assert [a[0]] + a[1..] == a;
    }
  }

  /** The keys of `xs`, in order. */
  function Keys<T>(xs: seq<T>, key: T -> string): (ks: seq<string>)
    ensures |ks| == |xs|
    ensures forall i :: 0 <= i < |xs| ==> ks[i] == key(xs[i])
  {
    seq(|xs|, i requires 0 <= i < |xs| => key(xs[i]))
  }

  /** No key occurs twice. */
  ghost predicate UniqueKeys<T>(xs: seq<T>, key: T -> string)
  {
    forall i, j :: 0 <= i < j < |xs| ==> key(xs[i]) != key(xs[j])
  }

  /** No element occurs twice. */
  ghost predicate NoDup<T>(xs: seq<T>)
  {
    forall i, j :: 0 <= i < j < |xs| ==> xs[i] != xs[j]
  }

  /** Removing one entry of a duplicate-free list removes exactly that value and keeps the list duplicate-free. */
  lemma RemoveAtNoDup<T>(xs: seq<T>, i: nat)
    requires NoDup(xs) && i < |xs|
    ensures NoDup(xs[..i] + xs[i + 1..])
    ensures xs[i] !in xs[..i] + xs[i + 1..]
    ensures forall y :: y != xs[i] ==> (y in xs[..i] + xs[i + 1..] <==> y in xs)
  {
    var r := xs[..i] + xs[i + 1..];
    assert xs == xs[..i] + [xs[i]] + xs[i + 1..];
    forall a, b | 0 <= a < b < |r| ensures r[a] != r[b] {
      var a' := if a < i then a else a + 1;
      var b' := if b < i then b else b + 1;
      assert r[a] == xs[a'] && r[b] == xs[b'];
    }
    forall a | 0 <= a < |r| ensures r[a] != xs[i] {
      var a' := if a < i then a else a + 1;
      assert r[a] == xs[a'];
    }
  }
}
