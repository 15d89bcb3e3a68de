/** Python's `dict[str, str]`: an insertion-ordered table with unique keys.
    `d[k] = v` keeps an existing key in its place and appends a new one, and
    `d.update(e)` does that for each pair of `e` in `e`'s order. The pairs are
    kept as a sequence so that the order `d.items()` yields is part of the value. */
module PyDict {
  import opened Wrappers

  type Items = seq<(string, string)>

  /** `list(d.keys())`. */
  function Keys(d: Items): (ks: seq<string>)
  {
    seq(|d|, i requires 0 <= i < |d| => d[i].0)
  }

  /** The keys of a Python dict are pairwise distinct. */
  ghost predicate DistinctKeys(d: Items)
  {
    forall i, j :: 0 <= i < j < |d| ==> d[i].0 != d[j].0
  }

  /** Position of the first pair whose key is `k`. */
  function IndexOf(d: Items, k: string): (i: nat)
    requires k in Keys(d)
    ensures i < |d| && d[i].0 == k
    ensures forall j :: 0 <= j < i ==> d[j].0 != k
  {
    if d[0].0 == k then 0
    else
      assert Keys(d[1..]) == Keys(d)[1..];
      IndexOf(d[1..], k) + 1
  }

  /** `d.get(k)`. */
  function Get(d: Items, k: string): (v: Option<string>)
  {
    if k in Keys(d) then Some(d[IndexOf(d, k)].1) else None
  }

  /** The dict after `d[k] = v`. */
  function WithItem(d: Items, k: string, v: string): (r: Items)
  {
    if k in Keys(d) then d[IndexOf(d, k) := (k, v)] else d + [(k, v)]
  }

  /** The dict after `d.update(e)`: the pairs of `e` are stored one after the other. */
  function Updated(d: Items, e: Items): (r: Items)
  {
    if e == [] then d
    else WithItem(Updated(d, e[..|e| - 1]), e[|e| - 1].0, e[|e| - 1].1)
  }

  /** The keys of `ks` that are not keys of `known`, in `ks`'s order. */
  function NewKeys(known: seq<string>, ks: seq<string>): (r: seq<string>)
  {
    if ks == [] then []
    else NewKeys(known, ks[..|ks| - 1]) + (if ks[|ks| - 1] in known then [] else [ks[|ks| - 1]])
  }

  /** A dict object that the program updates in place. */
  class StrDict {
    var items: Items

    constructor (init: Items)
      ensures items == init
    {
      items := init;
    }

    /** `self.update(extra)`: stores each pair of `extra` in turn. */
    method Update(extra: Items)
      modifies this
      ensures items == Updated(old(items), extra)
    {
      var i := 0;
      while i < |extra|
        invariant 0 <= i <= |extra|
        invariant items == Updated(old(items), extra[..i])
      {
        assert extra[..i + 1][..i] == extra[..i];
        items := WithItem(items, extra[i].0, extra[i].1);
        i := i + 1;
      }
      assert extra[..i] == extra;
    }
  }

  lemma IndexOfUnique(d: Items, k: string, i: nat)
    requires i < |d| && d[i].0 == k
    requires forall j :: 0 <= j < i ==> d[j].0 != k
    ensures k in Keys(d) && IndexOf(d, k) == i
  {
    assert Keys(d)[i] == k;
  }

  lemma FreshKeyFirstAt(d: Items, k: string)
    requires k !in Keys(d)
    ensures forall j :: 0 <= j < |d| ==> d[j].0 != k
  {
    assert forall j :: 0 <= j < |d| ==> Keys(d)[j] == d[j].0;
  }

  /** `d[k] = v` makes `k` map to `v` and leaves every other key's value alone. */
  lemma {:induction false} WithItemGet(d: Items, k: string, v: string, j: string)
    ensures Get(WithItem(d, k, v), j) == if j == k then Some(v) else Get(d, j)
  {
    var d' := WithItem(d, k, v);
    if k in Keys(d) {
      var i := IndexOf(d, k);
      assert Keys(d') == Keys(d);
      if j == k {
        IndexOfUnique(d', k, i);
      } else if j in Keys(d) {
        var t := IndexOf(d, j);
        assert t != i;
        IndexOfUnique(d', j, t);
      } else {
        assert j !in Keys(d');
      }
    } else {
      assert Keys(d') == Keys(d) + [k];
      if j == k {
        FreshKeyFirstAt(d, k);
        IndexOfUnique(d', k, |d|);
      } else if j in Keys(d) {
        IndexOfUnique(d', j, IndexOf(d, j));
      } else {
        assert j !in Keys(d');
      }
    }
  }

  /** `d[k] = v` keeps every key in its place; a new key goes to the end. */
  lemma WithItemKeys(d: Items, k: string, v: string)
    ensures Keys(WithItem(d, k, v)) == if k in Keys(d) then Keys(d) else Keys(d) + [k]
  {
  }

  /** `d[k] = v` keeps the keys distinct. */
  lemma {:induction false} WithItemDistinct(d: Items, k: string, v: string)
    requires DistinctKeys(d)
    ensures DistinctKeys(WithItem(d, k, v))
  {
    var d' := WithItem(d, k, v);
    if k !in Keys(d) {
      forall i, j | 0 <= i < j < |d'| ensures d'[i].0 != d'[j].0 {
        if j == |d| { assert Keys(d)[i] == d'[i].0; }
      }
    }
  }

  /** Storing a key twice keeps only the second value: the shared tables that are
      updated again and again end up as if updated once with the last value. */
  lemma {:induction false} WithItemTwice(d: Items, k: string, v1: string, v2: string)
    ensures WithItem(WithItem(d, k, v1), k, v2) == WithItem(d, k, v2)
  {
    var d1 := WithItem(d, k, v1);
    if k in Keys(d) {
      IndexOfUnique(d1, k, IndexOf(d, k));
    } else {
      FreshKeyFirstAt(d, k);
      IndexOfUnique(d1, k, |d|);
    }
  }

  lemma GetAppend(e: Items, k: string, v: string, j: string)
    requires k !in Keys(e)
    ensures Get(e + [(k, v)], j) == if j == k then Some(v) else Get(e, j)
  {
    assert WithItem(e, k, v) == e + [(k, v)];
    WithItemGet(e, k, v, j);
  }

  lemma LastKeyFresh(e: Items)
    requires DistinctKeys(e) && e != []
    ensures e[|e| - 1].0 !in Keys(e[..|e| - 1])
  {
    var e' := e[..|e| - 1];
    forall t | 0 <= t < |e'| ensures Keys(e')[t] != e[|e| - 1].0 {
      assert e[t].0 != e[|e| - 1].0;
    }
  }

  /** After `d.update(e)` each key of `e` holds `e`'s value and every other key
      holds what it held before. */
  lemma {:induction false} UpdatedGet(d: Items, e: Items, j: string)
    requires DistinctKeys(e)
    ensures Get(Updated(d, e), j) == if j in Keys(e) then Get(e, j) else Get(d, j)
  {
    if e != [] {
      var e', last := e[..|e| - 1], e[|e| - 1];
      assert e == e' + [last];
      assert Keys(e) == Keys(e') + [last.0];
      LastKeyFresh(e);
      UpdatedGet(d, e', j);
      WithItemGet(Updated(d, e'), last.0, last.1, j);
      GetAppend(e', last.0, last.1, j);
    }
  }

  /** After `d.update(e)` the old keys keep their order at the front and the keys
      new to `d` follow in `e`'s order. */
  lemma {:induction false} UpdatedKeys(d: Items, e: Items)
    requires DistinctKeys(e)
    ensures Keys(Updated(d, e)) == Keys(d) + NewKeys(Keys(d), Keys(e))
  {
    if e != [] {
      var e', last := e[..|e| - 1], e[|e| - 1];
      assert Keys(e)[..|e| - 1] == Keys(e');
      assert Keys(e)[|e| - 1] == last.0;
      UpdatedKeys(d, e');
      WithItemKeys(Updated(d, e'), last.0, last.1);
      LastKeyFresh(e);
      NewKeysFrom(Keys(d), Keys(e'));
    }
  }

  lemma {:induction false} NewKeysFrom(known: seq<string>, ks: seq<string>)
    ensures forall x :: x in NewKeys(known, ks) ==> x in ks && x !in known
  {
    if ks != [] {
      NewKeysFrom(known, ks[..|ks| - 1]);
    }
  }

  /** `d.update(e)` keeps the keys distinct. */
  lemma {:induction false} UpdatedDistinct(d: Items, e: Items)
    requires DistinctKeys(d)
    ensures DistinctKeys(Updated(d, e))
  {
    if e != [] {
      UpdatedDistinct(d, e[..|e| - 1]);
      WithItemDistinct(Updated(d, e[..|e| - 1]), e[|e| - 1].0, e[|e| - 1].1);
    }
  }
}
