/** Vocabulary shared by every module: optional values, document ids, the
    truthiness test the handlers apply to request fields, and the "first
    document in natural order that matches a filter" query that every
    `findOne` / `find` of the document store performs. */
module Common {

  datatype Option<+T> = None | Some(value: T) {
    /** The value, or `default` when absent (a schema default). */
    function GetOr(default: T): T {
      match this
      case Some(v) => v
      case None => default
    }
  }

  /** A document id (an ObjectId). Ids are handed out by counters. */
  type Id = nat

  /** JavaScript truthiness of a string field of a request body that may be
      missing: `undefined` and `""` are falsy, every other string is truthy. */
  predicate Truthy(field: Option<string>) {
    field.Some? && field.value != ""
  }

  /** Index of the first document of `docs` (in insertion order) that the
      filter `matches` selects. */
  function FindFirst<T>(docs: seq<T>, matches: T -> bool): (r: Option<nat>)
    ensures r.Some? ==> r.value < |docs| && matches(docs[r.value])
    ensures r.Some? ==> forall j | 0 <= j < r.value :: !matches(docs[j])
    ensures r.None? <==> forall j | 0 <= j < |docs| :: !matches(docs[j])
  {
    if docs == [] then None
    else if matches(docs[0]) then Some(0)
    else match FindFirst(docs[1..], matches)
      case None => None
      case Some(i) => Some(i + 1)
  }

  /** `findOne(filter)`: the first matching document, if any. */
  function FindOne<T>(docs: seq<T>, matches: T -> bool): (r: Option<T>)
    ensures r.Some? ==> r.value in docs && matches(r.value)
    ensures r.None? <==> forall d | d in docs :: !matches(d)
  {
    match FindFirst(docs, matches)
    case None => None
    case Some(i) => Some(docs[i])
  }

  /** `find(filter)`: every matching document, in insertion order. */
  function Filter<T>(docs: seq<T>, keep: T -> bool): (r: seq<T>)
    ensures |r| <= |docs|
    ensures forall d | d in r :: d in docs && keep(d)
    ensures forall d | d in docs && keep(d) :: d in r
  {
    if docs == [] then []
    else if keep(docs[0]) then [docs[0]] + Filter(docs[1..], keep)
    else Filter(docs[1..], keep)
  }

  /** Appending a document never changes an existing first match; it becomes
      the first match only when there was none before. */
  lemma {:induction false} FindOneAppend<T>(docs: seq<T>, d: T, matches: T -> bool)
    ensures FindOne(docs + [d], matches) ==
            if FindOne(docs, matches).Some? then FindOne(docs, matches)
            else if matches(d) then Some(d) else None
  {
    if docs != [] {
      assert (docs + [d])[0] == docs[0];
      assert (docs + [d])[1..] == docs[1..] + [d];
      FindOneAppend(docs[1..], d, matches);
    }
  }

  /** `findOne` looks at the first document, then at the rest. */
  lemma FindOneUnfold<T>(docs: seq<T>, matches: T -> bool)
    requires docs != []
    ensures FindOne(docs, matches) == if matches(docs[0]) then Some(docs[0]) else FindOne(docs[1..], matches)
  {
  }

  /** Removing documents that the filter would never select does not change
      what `findOne` returns. */
  lemma {:induction false} FindOneIgnoresFiltered<T>(docs: seq<T>, keep: T -> bool, matches: T -> bool)
    requires forall d :: matches(d) ==> keep(d)
    ensures FindOne(Filter(docs, keep), matches) == FindOne(docs, matches)
  {
    if docs != [] {
      FindOneIgnoresFiltered(docs[1..], keep, matches);
      FindOneUnfold(docs, matches);
      var rest := Filter(docs[1..], keep);
      if keep(docs[0]) {
        assert Filter(docs, keep) == [docs[0]] + rest;
        assert ([docs[0]] + rest)[1..] == rest;
        FindOneUnfold([docs[0]] + rest, matches);
      } else {
        assert Filter(docs, keep) == rest;
      }
    }
  }

  /** A first match depends only on which positions the filter selects: two
      collections that agree position by position on the filter have their
      first match at the same index. */
  lemma {:induction false} FindFirstPointwise<T, U>(xs: seq<T>, m: T -> bool, ys: seq<U>, n: U -> bool)
    requires |xs| == |ys|
    requires forall k | 0 <= k < |xs| :: m(xs[k]) == n(ys[k])
    ensures FindFirst(xs, m) == FindFirst(ys, n)
  {
    if xs != [] {
      assert m(xs[0]) == n(ys[0]);
      FindFirstPointwise(xs[1..], m, ys[1..], n);
    }
  }

  /** No two documents of `docs` share a key (a unique index on `key`). */
  predicate DistinctKeys<T, K(==)>(docs: seq<T>, key: T -> K) {
    forall i, j | 0 <= i < j < |docs| :: key(docs[i]) != key(docs[j])
  }

  /** The first document's key occurs nowhere in the rest. */
  lemma HeadKeyIsFresh<T, K>(docs: seq<T>, key: T -> K)
    requires docs != [] && DistinctKeys(docs, key)
    ensures forall d | d in docs[1..] :: key(d) != key(docs[0])
  {
    forall d | d in docs[1..] ensures key(d) != key(docs[0]) {
      var j :| 0 <= j < |docs[1..]| && docs[1..][j] == d;
      assert docs[j + 1] == d;
    }
  }

  /** A document whose key is fresh can be put in front of distinct keys. */
  lemma ConsKeepsDistinct<T, K>(x: T, rest: seq<T>, key: T -> K)
    requires DistinctKeys(rest, key)
    requires forall d | d in rest :: key(d) != key(x)
    ensures DistinctKeys([x] + rest, key)
  {
    var r := [x] + rest;
    forall i, j | 0 <= i < j < |r| ensures key(r[i]) != key(r[j]) {
      assert r[j] == rest[j - 1] && r[j] in rest;
      if i > 0 {
        assert r[i] == rest[i - 1];
      }
    }
  }

  /** Under distinct keys, a key names at most one document. */
  lemma DistinctKeysUnique<T, K>(docs: seq<T>, key: T -> K, x: T, y: T)
    requires DistinctKeys(docs, key) && x in docs && y in docs && key(x) == key(y)
    ensures x == y
  {
    var i :| 0 <= i < |docs| && docs[i] == x;
    var j :| 0 <= j < |docs| && docs[j] == y;
    assert i < j ==> key(x) != key(y);
    assert j < i ==> key(y) != key(x);
  }

  /** A document whose key is fresh can be appended to distinct keys. */
  lemma AppendKeepsDistinct<T, K>(docs: seq<T>, x: T, key: T -> K)
    requires DistinctKeys(docs, key)
    requires forall d | d in docs :: key(d) != key(x)
    ensures DistinctKeys(docs + [x], key)
  {
    var r := docs + [x];
    forall i, j | 0 <= i < j < |r| ensures key(r[i]) != key(r[j]) {
      assert r[i] == docs[i] && docs[i] in docs;
    }
  }

  /** Keys that are pairwise distinct stay so in any selection. */
  lemma {:induction false} FilterKeepsDistinct<T, K>(docs: seq<T>, keep: T -> bool, key: T -> K)
    requires DistinctKeys(docs, key)
    ensures DistinctKeys(Filter(docs, keep), key)
  {
    if docs != [] {
      assert DistinctKeys(docs[1..], key) by {
        forall i, j | 0 <= i < j < |docs[1..]| ensures key(docs[1..][i]) != key(docs[1..][j]) {
          assert docs[1..][i] == docs[i + 1] && docs[1..][j] == docs[j + 1];
        }
      }
      FilterKeepsDistinct(docs[1..], keep, key);
      if keep(docs[0]) {
        HeadKeyIsFresh(docs, key);
        ConsKeepsDistinct(docs[0], Filter(docs[1..], keep), key);
      }
    }
  }
}
