/** A MongoDB collection as the route handlers use it: records in the order the store returns them. */
module Storage {
  import opened Wrappers

  class Collection<T> {
    var records: seq<T>

    constructor(initial: seq<T>)
      ensures records == initial
    {
      records := initial;
    }

    /** `save()` of a new document: the record is appended; nothing else changes. */
    method Insert(x: T)
      modifies this
      ensures records == old(records) + [x]
    {
      records := records + [x];
    }
  }

  /** `find(filter)`: the records the filter selects, in store order. */
  function Filter<T>(s: seq<T>, p: T -> bool): (r: seq<T>)
    ensures |r| <= |s|
    ensures forall i :: 0 <= i < |r| ==> r[i] in s && p(r[i])
    ensures forall i :: 0 <= i < |s| && p(s[i]) ==> s[i] in r
  {
    if s == [] then []
    else if p(s[0]) then [s[0]] + Filter(s[1..], p)
    else Filter(s[1..], p)
  }

  /** Filters that agree on every stored record select the same records. */
  lemma {:induction false} FilterAgree<T>(s: seq<T>, p: T -> bool, q: T -> bool)
    requires forall i :: 0 <= i < |s| ==> p(s[i]) == q(s[i])
    ensures Filter(s, p) == Filter(s, q)
  {
    if s != [] {
      FilterAgree(s[1..], p, q);
    }
  }

  /** Filtering narrows: a conjunction selects the records of one filter that pass the other. */
  lemma {:induction false} FilterThenFilter<T>(s: seq<T>, p: T -> bool, q: T -> bool)
    ensures Filter(Filter(s, p), q) == Filter(s, x => p(x) && q(x))
  {
    if s != [] {
      FilterThenFilter(s[1..], p, q);
    }
  }

  /** Position of the first record the filter selects. */
  function FindIndex<T>(s: seq<T>, p: T -> bool): (r: Option<nat>)
    ensures r.None? <==> forall i :: 0 <= i < |s| ==> !p(s[i])
    ensures r.Some? ==> r.value < |s| && p(s[r.value]) && forall i :: 0 <= i < r.value ==> !p(s[i])
  {
    if s == [] then None
    else if p(s[0]) then Some(0)
    else match FindIndex(s[1..], p)
      case None => None
      case Some(k) => Some(k + 1)
  }

  /** `findOne(filter)`: the first record the filter selects. */
  function FindFirst<T>(s: seq<T>, p: T -> bool): (r: Option<T>)
    ensures r.None? <==> forall i :: 0 <= i < |s| ==> !p(s[i])
    ensures r.Some? ==> r.value in s && p(r.value)
    ensures r.Some? ==> r.value == s[FindIndex(s, p).value]
  {
    match FindIndex(s, p)
    case None => None
    case Some(k) => Some(s[k])
  }

  /** Every record `find` returns satisfies the filter. */
  lemma FilterMember<T>(s: seq<T>, p: T -> bool, x: T)
    requires x in Filter(s, p)
    ensures p(x) && x in s
  {
    var r := Filter(s, p);
    var i :| 0 <= i < |r| && r[i] == x;
  }

  /** Appending a record no earlier record matches makes it the one found. */
  lemma FindAppended<T>(s: seq<T>, x: T, p: T -> bool)
    requires FindFirst(s, p).None? && p(x)
    ensures FindFirst(s + [x], p) == Some(x)
  {
    var t := s + [x];
    assert p(t[|s|]);
    var k := FindIndex(t, p).value;
    assert k == |s| by {
      assert forall i :: 0 <= i < |s| ==> t[i] == s[i];
    }
  }

  /** `skip(skip).limit(limit)`: at most `limit` records starting at `skip`, clamped to the collection. */
  function Window<T>(s: seq<T>, skip: nat, limit: nat): (r: seq<T>)
    ensures |r| <= limit
    ensures skip >= |s| ==> r == []
    ensures skip < |s| ==> |r| == (if skip + limit <= |s| then limit else |s| - skip)
    ensures forall i :: 0 <= i < |r| ==> r[i] == s[skip + i]
  {
    if skip >= |s| then [] else if skip + limit <= |s| then s[skip..skip + limit] else s[skip..]
  }

  /** `Math.ceil(total / limit)`. */
  function PageCount(total: nat, limit: nat): (r: nat)
    requires limit >= 1
    ensures (r - 1) * limit < total <= r * limit || (total == 0 && r == 0)
  {
    (total + limit - 1) / limit
  }

  /** Consecutive pages of `limit` records tile the collection: record `i` sits on page `i / limit + 1`. */
  lemma RecordOnItsPage<T>(s: seq<T>, limit: nat, i: nat)
    requires limit >= 1 && i < |s|
    ensures var page := i / limit + 1;
      1 <= page <= PageCount(|s|, limit) && Window(s, (page - 1) * limit, limit)[i % limit] == s[i]
  {
    var page := i / limit + 1;
    assert (page - 1) * limit + i % limit == i;
    var n := PageCount(|s|, limit);
    QuotientBelow(i, n, limit);
  }

  /** `i < n * limit` puts `i` on one of the first `n` pages. */
  lemma {:induction false} QuotientBelow(i: nat, n: nat, limit: nat)
    requires limit >= 1 && i < n * limit
    ensures i / limit < n
    decreases n
  {
    assert n >= 1;
    if i >= limit {
      assert (n - 1) * limit == n * limit - limit;
      QuotientBelow(i - limit, n - 1, limit);
      DivSub(i, limit);
    } else {
      DivUnique(i, limit, 0, i);
    }
  }

  /** Euclidean division has one quotient. */
  lemma DivUnique(i: nat, d: nat, q: nat, r: nat)
    requires d >= 1 && i == q * d + r && r < d
    ensures i / d == q
  {
    var q0 := i / d;
    var r0 := i % d;
    assert i == q0 * d + r0 && 0 <= r0 < d;
    var x := q - q0;
    assert x * d == r0 - r by { assert q * d - q0 * d == (q - q0) * d; }
    if x >= 1 {
      assert x * d == d + (x - 1) * d;
      NatProduct(x - 1, d);
    } else if x <= -1 {
      assert (-x) * d == d + (-x - 1) * d;
      NatProduct(-x - 1, d);
    }
  }

  /** A product of naturals is a natural. */
  lemma NatProduct(a: nat, b: nat)
    ensures a * b >= 0
  {
  }

  /** Removing one divisor's worth lowers the quotient by one. */
  lemma DivSub(i: nat, d: nat)
    requires d >= 1 && i >= d
    ensures (i - d) / d == i / d - 1
  {
    var q := (i - d) / d;
    var r := (i - d) % d;
    assert i - d == q * d + r;
    assert i == (q + 1) * d + r;
    DivUnique(i, d, q + 1, r);
  }
}
