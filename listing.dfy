/**
 * The list query: a strict price range, an optional exact brand, newest
 * record first, and a fixed page of 25 records.
 */
module Listing {
  import opened Wrappers
  import opened ObjectIds
  import opened Models

  const PageSize: nat := 25

  /** The filter parameters of the list operation; the page number is passed beside it. */
  datatype Filter = Filter(minPrice: int, maxPrice: int, brand: Option<string>)

  /** `if brand:` in Python: both `None` and the empty string switch the filter off. */
  predicate BrandFilterOn(brand: Option<string>) {
    brand.Some? && brand.value != ""
  }

  /** The document filter: `$gt` the minimum, `$lt` the maximum, and the brand if one is set. */
  predicate Matches(d: Doc, q: Filter) {
    q.minPrice < d.price < q.maxPrice && (BrandFilterOn(q.brand) ==> d.brand == q.brand.value)
  }

  /** A stored document together with its key. */
  datatype Entry = Entry(id: ObjectId, doc: Doc)

  predicate Descending(es: seq<Entry>) {
    forall i, j :: 0 <= i < j < |es| ==> es[i].id > es[j].id
  }

  /**
   * The documents of `cars` with a key below `bound` that match `q`, in
   * descending key order: `find(query).sort("_id", -1)`.
   */
  function MatchingDesc(cars: map<ObjectId, Doc>, q: Filter, bound: nat): (es: seq<Entry>)
    requires bound <= IdLimit
    ensures forall e :: e in es ==> e.id < bound && e.id in cars && cars[e.id] == e.doc && Matches(e.doc, q)
    ensures forall k :: k in cars && k < bound && Matches(cars[k], q) ==> Entry(k, cars[k]) in es
    ensures Descending(es)
  {
    if bound == 0 then []
    else
      var k: ObjectId := bound - 1;
      var rest := MatchingDesc(cars, q, k);
      if k in cars && Matches(cars[k], q) then [Entry(k, cars[k])] + rest else rest
  }

  /** Number of records skipped before page `page`: `(page - 1) * 25`. */
  function Skip(page: int): (n: nat)
    requires page >= 1
    ensures n == (page - 1) * PageSize
  {
    (page - 1) * PageSize
  }

  function Min(a: int, b: int): int {
    if a <= b then a else b
  }

  /** `skip((page - 1) * 25).limit(25)` applied to a result sequence. */
  function Page<T>(s: seq<T>, page: int): (r: seq<T>)
    requires page >= 1
    ensures |r| <= PageSize
    ensures |r| == if Skip(page) < |s| then Min(PageSize, |s| - Skip(page)) else 0
    ensures forall i :: 0 <= i < |r| ==> Skip(page) + i < |s| && r[i] == s[Skip(page) + i]
  {
    var skip := Skip(page);
    if skip >= |s| then [] else s[skip..Min(skip + PageSize, |s|)]
  }

  /** Pages 1 to `n`, one after the other. */
  function Pages<T>(s: seq<T>, n: nat): seq<T> {
    if n == 0 then [] else Pages(s, n - 1) + Page(s, n)
  }

  /** Reading pages 1 to `n` in turn yields the first `25 * n` results, in order. */
  lemma {:induction false} PagesArePrefix<T>(s: seq<T>, n: nat)
    ensures Pages(s, n) == s[..Min(n * PageSize, |s|)]
  {
    if n > 0 {
      PagesArePrefix(s, n - 1);
      var lo := Min((n - 1) * PageSize, |s|);
      var hi := Min(n * PageSize, |s|);
      assert Skip(n) == (n - 1) * PageSize;
      assert Page(s, n) == s[lo..hi];
      assert s[..lo] + s[lo..hi] == s[..hi];
    }
  }

  /** Enough pages together hold every result exactly once, in order. */
  lemma AllPages<T>(s: seq<T>, n: nat)
    requires |s| <= n * PageSize
    ensures Pages(s, n) == s
  {
    PagesArePrefix(s, n);
  }

  /** Two different pages of a sequence without repetitions share no element. */
  lemma PagesDisjoint(es: seq<Entry>, p: int, p': int)
    requires Descending(es)
    requires p >= 1 && p' >= 1 && p != p'
    ensures forall e :: e in Page(es, p) ==> e !in Page(es, p')
  {
    var a, b := Page(es, p), Page(es, p');
    forall e | e in a
      ensures e !in b
    {
      var i :| 0 <= i < |a| && a[i] == e;
      assert e == es[Skip(p) + i];
    }
  }

  /** The entry at position `i` of a sequence is on page `i / 25 + 1`. */
  lemma OnPage<T>(s: seq<T>, i: nat)
    requires i < |s|
    ensures s[i] in Page(s, i / PageSize + 1)
  {
    var p := i / PageSize + 1;
    assert Skip(p) <= i < Skip(p) + PageSize;
    assert Page(s, p)[i - Skip(p)] == s[i];
  }
}
