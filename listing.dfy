/** What every list handler does after building its filter: keep the matching
    documents, sort them, skip `(page - 1) * limit` of them, take at most `limit`,
    and report `total` and `totalPages = ceil(total / limit)`. */
module Listing {
  import opened Common

  /** The documents of `s` that satisfy `p`, in their original order. */
  function Filter<T(==,!new)>(s: seq<T>, p: T -> bool): (r: seq<T>)
    ensures |r| <= |s|
    ensures forall x :: x in r <==> x in s && p(x)
    ensures forall x :: multiset(r)[x] == if p(x) then multiset(s)[x] else 0
  {
    if s == [] then []
    else
      assert s == [s[0]] + s[1..];
      (if p(s[0]) then [s[0]] else []) + Filter(s[1..], p)
  }

  /** Nothing is kept when nothing satisfies the predicate. */
  lemma {:induction false} FilterNone<T(!new)>(s: seq<T>, p: T -> bool)
    requires forall i :: 0 <= i < |s| ==> !p(s[i])
    ensures Filter(s, p) == []
  {
    if s != [] {
      FilterNone(s[1..], p);
    }
  }

  /** Everything is kept when everything satisfies the predicate. */
  lemma {:induction false} FilterAll<T(!new)>(s: seq<T>, p: T -> bool)
    requires forall i :: 0 <= i < |s| ==> p(s[i])
    ensures Filter(s, p) == s
  {
    if s != [] {
      FilterAll(s[1..], p);
      assert s == [s[0]] + s[1..];
    }
  }

  /** Filtering keeps the documents' order: the matches of a concatenation are the
      matches of its first part followed by the matches of its second. */
  lemma {:induction false} FilterAppend<T(!new)>(a: seq<T>, b: seq<T>, p: T -> bool)
    ensures Filter(a + b, p) == Filter(a, p) + Filter(b, p)
  {
    if a == [] {
      assert a + b == b;
    } else {
      assert (a + b)[1..] == a[1..] + b;
      FilterAppend(a[1..], b, p);
    }
  }

  /** A sort key compared lexicographically: `major`, then `minor`, then `time`.
      A descending sort on a date is an ascending sort on its negation. */
  datatype SortKey = SortKey(major: int, minor: int, time: int)

  predicate KeyLe(a: SortKey, b: SortKey) {
    || a.major < b.major
    || (a.major == b.major && (a.minor < b.minor || (a.minor == b.minor && a.time <= b.time)))
  }

  /** The key of `{ createdAt: -1 }`, newest first. */
  function NewestFirst(createdAt: Time): SortKey {
    SortKey(0, 0, -createdAt)
  }

  predicate Sorted<T>(s: seq<T>, key: T -> SortKey) {
    forall i, j :: 0 <= i < j < |s| ==> KeyLe(key(s[i]), key(s[j]))
  }

  /** Puts `x` in front of the first element whose key is not below its own. */
  function Insert<T(==,!new)>(x: T, s: seq<T>, key: T -> SortKey): (r: seq<T>)
    ensures |r| == |s| + 1
    ensures multiset(r) == multiset(s) + multiset{x}
    ensures forall y :: y in r <==> y == x || y in s
  {
    if s == [] || KeyLe(key(x), key(s[0])) then [x] + s
    else
      assert s == [s[0]] + s[1..];
      [s[0]] + Insert(x, s[1..], key)
  }

  lemma {:induction false} InsertSorted<T(!new)>(x: T, s: seq<T>, key: T -> SortKey)
    requires Sorted(s, key)
    ensures Sorted(Insert(x, s, key), key)
  {
    if s == [] || KeyLe(key(x), key(s[0])) {
      var r := Insert(x, s, key);
      forall i, j | 0 <= i < j < |r| ensures KeyLe(key(r[i]), key(r[j])) {
        if i > 0 {
          assert r[i] == s[i - 1] && r[j] == s[j - 1];
        } else {
          assert r[j] == s[j - 1];
        }
      }
    } else {
      InsertSorted(x, s[1..], key);
      var t := Insert(x, s[1..], key);
      var r := [s[0]] + t;
      assert r == Insert(x, s, key);
      forall i, j | 0 <= i < j < |r| ensures KeyLe(key(r[i]), key(r[j])) {
        if i > 0 {
          assert r[i] == t[i - 1] && r[j] == t[j - 1];
        } else {
          assert r[j] == t[j - 1];
          assert t[j - 1] in t;
          if t[j - 1] != x {
            var m :| 0 <= m < |s[1..]| && s[1..][m] == t[j - 1];
            assert s[m + 1] == t[j - 1];
          }
        }
      }
    }
  }

  /** Insertion sort: the result is ordered by `key` and is a permutation of `s`. */
  function SortBy<T(==,!new)>(s: seq<T>, key: T -> SortKey): (r: seq<T>)
    ensures |r| == |s|
    ensures multiset(r) == multiset(s)
    ensures Sorted(r, key)
  {
    if s == [] then []
    else
      var t := SortBy(s[1..], key);
      InsertSorted(s[0], t, key);
      assert s == [s[0]] + s[1..];
      Insert(s[0], t, key)
  }

  lemma SortedMembers<T(!new)>(s: seq<T>, key: T -> SortKey, x: T)
    ensures x in SortBy(s, key) <==> x in s
  {
    assert x in SortBy(s, key) <==> x in multiset(SortBy(s, key));
  }

  /** The first `n` elements, or all of them when there are fewer: `.limit(n)`. */
  function Take<T>(s: seq<T>, n: nat): (r: seq<T>)
    ensures |r| == if |s| <= n then |s| else n
    ensures r == s[..|r|]
  {
    if |s| <= n then s else s[..n]
  }

  /** `.sort(key).limit(n)`: the first `n` documents in `key` order. It keeps at most
      `n` of the documents, in order, and every document it leaves out sorts no earlier
      than every document it keeps. */
  function Newest<T(==,!new)>(s: seq<T>, key: T -> SortKey, n: nat): (r: seq<T>)
    ensures |r| == if |s| <= n then |s| else n
    ensures Sorted(r, key)
    ensures multiset(r) <= multiset(s)
    ensures forall x, i :: x in multiset(s) - multiset(r) && 0 <= i < |r| ==> KeyLe(key(r[i]), key(x))
  {
    var sorted := SortBy(s, key);
    var r := Take(sorted, n);
    var rest := sorted[|r|..];
    assert sorted == r + rest;
    assert multiset(s) == multiset(r) + multiset(rest);
    forall x, i | x in multiset(s) - multiset(r) && 0 <= i < |r|
      ensures KeyLe(key(r[i]), key(x))
    {
      assert x in multiset(rest);
      var k :| 0 <= k < |rest| && rest[k] == x;
      assert sorted[|r| + k] == x;
    }
    r
  }

  /** How many documents `page` skips: `(page - 1) * limit`. */
  function Skip(page: Pos, limit: Pos): nat {
    (page - 1) * limit
  }

  /** `.skip((page - 1) * limit).limit(limit)` applied to an already sorted sequence. */
  function Paginate<T>(s: seq<T>, page: Pos, limit: Pos): (r: seq<T>)
    ensures |r| <= limit
    ensures Skip(page, limit) >= |s| ==> r == []
    ensures Skip(page, limit) < |s| ==> |r| == if |s| - Skip(page, limit) < limit then |s| - Skip(page, limit) else limit
    ensures forall i :: 0 <= i < |r| ==> Skip(page, limit) + i < |s| && r[i] == s[Skip(page, limit) + i]
  {
    var k := Skip(page, limit);
    if k >= |s| then [] else Take(s[k..], limit)
  }

  /** `Math.ceil(total / limit)`. */
  function TotalPages(total: nat, limit: Pos): nat {
    (total + limit - 1) / limit
  }

  /** The page count is the least number of pages of `limit` documents that hold `total` documents. */
  lemma TotalPagesIsCeiling(total: nat, limit: Pos)
    ensures TotalPages(total, limit) * limit >= total
    ensures (TotalPages(total, limit) - 1) * limit < total || total == 0
    ensures total == 0 <==> TotalPages(total, limit) == 0
  {
    var n := total + limit - 1;
    var q := TotalPages(total, limit);
    assert n == q * limit + n % limit;
    assert 0 <= n % limit < limit;
    assert q * limit > total - 1;
    if total == 0 {
      assert n < limit;
    } else {
      assert q >= 1;
      assert (q - 1) * limit == q * limit - limit;
    }
  }

  /** Every document of the sorted sequence is on exactly the page its index says,
      and that page is within the reported page count. */
  lemma {:induction false} DocumentOnItsPage<T>(s: seq<T>, limit: Pos, k: nat)
    requires k < |s|
    ensures 1 <= k / limit + 1 <= TotalPages(|s|, limit)
    ensures k % limit < |Paginate(s, k / limit + 1, limit)|
    ensures Paginate(s, k / limit + 1, limit)[k % limit] == s[k]
  {
    var page: Pos := k / limit + 1;
    assert k == (k / limit) * limit + k % limit;
    assert Skip(page, limit) == (k / limit) * limit;
    DivMonotone(k + limit, |s| + limit - 1, limit);
    DivStep(k, limit);
  }

  lemma MulCancel(a: int, b: int, c: int)
    requires c > 0 && a * c < b * c
    ensures a < b
  {
    assert (b - a) * c > 0;
  }

  lemma DivMonotone(x: int, y: int, c: int)
    requires c > 0 && 0 <= x <= y
    ensures x / c <= y / c
  {
    var qx, qy := x / c, y / c;
    assert qx * c <= x;
    assert y < (qy + 1) * c;
    MulCancel(qx, qy + 1, c);
  }

  lemma DivUnique(x: int, q: int, c: int)
    requires c > 0 && q * c <= x < (q + 1) * c
    ensures x / c == q
  {
    var d := x / c;
    assert d * c <= x < (d + 1) * c;
    MulCancel(d, q + 1, c);
    MulCancel(q, d + 1, c);
  }

  lemma DivStep(k: int, c: int)
    requires c > 0 && k >= 0
    ensures (k + c) / c == k / c + 1
  {
    var q := k / c;
    assert q * c <= k < (q + 1) * c;
    assert (q + 1) * c == q * c + c;
    assert (q + 2) * c == q * c + 2 * c;
    DivUnique(k + c, q + 1, c);
  }

  /** A page of a sorted sequence is sorted and holds only elements of the sequence. */
  lemma PaginateSorted<T(!new)>(s: seq<T>, page: Pos, limit: Pos, key: T -> SortKey)
    requires Sorted(s, key)
    ensures Sorted(Paginate(s, page, limit), key)
    ensures forall x :: x in Paginate(s, page, limit) ==> x in s
  {
    var r := Paginate(s, page, limit);
    var k := Skip(page, limit);
    forall i, j | 0 <= i < j < |r|
      ensures KeyLe(key(r[i]), key(r[j]))
    {
      assert r[i] == s[k + i] && r[j] == s[k + j];
    }
    forall x | x in r
      ensures x in s
    {
      var i :| 0 <= i < |r| && r[i] == x;
      assert s[k + i] == x;
    }
  }

  /** Every element of a sequence is on some page within the page count. */
  lemma EveryElementOnSomePage<T(!new)>(s: seq<T>, limit: Pos, x: T)
    requires x in s
    ensures exists page: Pos :: page <= TotalPages(|s|, limit) && x in Paginate(s, page, limit)
  {
    var k :| 0 <= k < |s| && s[k] == x;
    DocumentOnItsPage(s, limit, k);
    var page: Pos := k / limit + 1;
    assert Paginate(s, page, limit)[k % limit] == x;
  }

  /** The body of every list response: one page, the page count, the page asked for and the total. */
  datatype ListPage<T> = ListPage(items: seq<T>, totalPages: nat, currentPage: Pos, total: nat)

  /** The full list handler: the documents of `rows` that satisfy `p`, sorted by `key`,
      paginated. */
  function Listed<T(==,!new)>(rows: seq<T>, p: T -> bool, key: T -> SortKey, page: Pos, limit: Pos): (r: ListPage<T>)
    ensures r.total == |Filter(rows, p)| && r.currentPage == page
    ensures r.totalPages == TotalPages(r.total, limit)
    ensures r.items == Paginate(SortBy(Filter(rows, p), key), page, limit)
    ensures |r.items| <= limit
    ensures Sorted(r.items, key)
    ensures forall x :: x in r.items ==> x in rows && p(x)
  {
    var sorted := SortBy(Filter(rows, p), key);
    PaginateSorted(sorted, page, limit, key);
    forall x | x in Paginate(sorted, page, limit)
      ensures x in rows && p(x)
    {
      SortedMembers(Filter(rows, p), key, x);
    }
    ListPage(Paginate(sorted, page, limit), TotalPages(|sorted|, limit), page, |sorted|)
  }

  /** Every matching document is listed on some page within the reported page count,
      whatever page was asked for. */
  lemma ListedComplete<T(!new)>(rows: seq<T>, p: T -> bool, key: T -> SortKey, limit: Pos, x: T)
    requires x in rows && p(x)
    ensures exists page: Pos :: page <= TotalPages(|Filter(rows, p)|, limit) && x in Listed(rows, p, key, page, limit).items
  {
    var sorted := SortBy(Filter(rows, p), key);
    SortedMembers(Filter(rows, p), key, x);
    EveryElementOnSomePage(sorted, limit, x);
    var page: Pos :| page <= TotalPages(|sorted|, limit) && x in Paginate(sorted, page, limit);
    assert x in Listed(rows, p, key, page, limit).items;
  }
}
