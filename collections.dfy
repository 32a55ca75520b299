/** The query semantics the controllers ask of the ORM, over the rows of a
    table: WHERE (Filter), COUNT (Count), SUM (Sum), ORDER BY (SortBy),
    OFFSET/LIMIT with page arithmetic (Paginate), and the reduce-into-an-object
    tallies of the reports (Tally, with MapSum to add the tallies up). Every
    fold runs from the first row to the last, as Array.prototype.reduce does. */
module Collections {

  /** The rows of s that satisfy p, in their original order. */
  function Filter<T(!new)>(s: seq<T>, p: T -> bool): (r: seq<T>)
    ensures |r| <= |s|
    ensures forall i :: 0 <= i < |r| ==> p(r[i])
    ensures forall x :: multiset(r)[x] == if p(x) then multiset(s)[x] else 0
    ensures forall x :: x in r <==> x in s && p(x)
  {
    if s == [] then []
    else
      var rest := Filter(s[..|s| - 1], p);
      assert s == s[..|s| - 1] + [s[|s| - 1]];
      if p(s[|s| - 1]) then rest + [s[|s| - 1]] else rest
  }

  /** The rows of s come in strictly increasing rank: in the order rank
      gives them, each at most once. */
  predicate StrictlyRanked<T>(s: seq<T>, rank: T -> nat) {
    forall i, j :: 0 <= i < j < |s| ==> rank(s[i]) < rank(s[j])
  }

  /** Filtering a list whose rows are ranked by their position keeps them in
      that order, each at most once. */
  lemma {:induction false} FilterRanked<T(!new)>(s: seq<T>, p: T -> bool, rank: T -> nat)
    requires forall i :: 0 <= i < |s| ==> rank(s[i]) == i
    ensures StrictlyRanked(Filter(s, p), rank)
  {
    if s != [] {
      var prefix := s[..|s| - 1];
      FilterRanked(prefix, p, rank);
      forall x | x in Filter(prefix, p) ensures rank(x) < |s| - 1 {
        var i :| 0 <= i < |prefix| && prefix[i] == x;
      }
    }
  }

  /** The number of rows of s that satisfy p. */
  function Count<T(!new)>(s: seq<T>, p: T -> bool): (n: nat)
    ensures n == |Filter(s, p)|
    ensures n <= |s|
  {
    if s == [] then 0
    else Count(s[..|s| - 1], p) + (if p(s[|s| - 1]) then 1 else 0)
  }

  /** The sum of f over the rows of s (0 for no rows). */
  function Sum<T>(s: seq<T>, f: T -> int): int {
    if s == [] then 0 else Sum(s[..|s| - 1], f) + f(s[|s| - 1])
  }

  lemma SumAppend<T>(s: seq<T>, x: T, f: T -> int)
    ensures Sum(s + [x], f) == Sum(s, f) + f(x)
  {
    assert (s + [x])[..|s|] == s;
  }

  lemma CountAppend<T(!new)>(s: seq<T>, x: T, p: T -> bool)
    ensures Count(s + [x], p) == Count(s, p) + (if p(x) then 1 else 0)
  {
    assert (s + [x])[..|s|] == s;
  }

  /** True when the rows of s are in ascending order of key. */
  predicate SortedBy<T>(s: seq<T>, key: T -> int) {
    forall i, j :: 0 <= i < j < |s| ==> key(s[i]) <= key(s[j])
  }

  /** Inserts x after every row whose key is not greater than x's. */
  function Insert<T>(x: T, s: seq<T>, key: T -> int): (r: seq<T>)
    requires SortedBy(s, key)
    ensures |r| == |s| + 1
    ensures r[0] == x || (s != [] && r[0] == s[0])
    ensures SortedBy(r, key)
    ensures multiset(r) == multiset(s) + multiset{x}
  {
    if s == [] then [x]
    else if key(x) < key(s[0]) then [x] + s
    else
      var rest := Insert(x, s[1..], key);
      assert s == [s[0]] + s[1..];
      [s[0]] + rest
  }

  /** ORDER BY key ascending: a sorted permutation of s. The sort is stable;
      SQL leaves the order of rows with equal keys open. */
  function SortBy<T(!new)>(s: seq<T>, key: T -> int): (r: seq<T>)
    ensures |r| == |s|
    ensures SortedBy(r, key)
    ensures multiset(r) == multiset(s)
    ensures forall x :: x in r <==> x in s
  {
    if s == [] then []
    else
      assert s == s[..|s| - 1] + [s[|s| - 1]];
      var r := Insert(s[|s| - 1], SortBy(s[..|s| - 1], key), key);
      SameMembers(r, s);
      r
  }

  /** Two sequences with the same multiset of elements have the same members. */
  lemma SameMembers<T>(a: seq<T>, b: seq<T>)
    requires multiset(a) == multiset(b)
    ensures forall x :: x in a <==> x in b
  {
    forall x ensures x in a <==> x in b {
      assert x in a <==> x in multiset(a);
      assert x in b <==> x in multiset(b);
    }
  }

  /** The pagination block of a list response, with the rows of the page. */
  datatype Page<T> = Page(items: seq<T>, page: int, limit: int, total: nat, totalPages: nat)

  /** Math.ceil(total / limit) for a positive limit. */
  function TotalPages(total: nat, limit: int): (n: nat)
    requires limit > 0
    ensures (n - 1) * limit < total <= n * limit
  {
    var n := (total + limit - 1) / limit;
    assert (total + limit - 1) == n * limit + (total + limit - 1) % limit;
    assert (n - 1) * limit == n * limit - limit;
    n
  }

  /** The number of rows a page skips: (page - 1) * limit. */
  function Skip(page: int, limit: int): (k: int)
    requires page >= 1 && limit > 0
    ensures k >= 0
  {
    assert (page - 1) * limit >= 0 by {
      assert page - 1 >= 0;
    }
    (page - 1) * limit
  }

  /** skip((page - 1) * limit).take(limit) over rows s, with the page count. */
  function Paginate<T>(s: seq<T>, page: int, limit: int): (p: Page<T>)
    requires page >= 1 && limit > 0
    ensures p.page == page && p.limit == limit && p.total == |s|
    ensures p.totalPages == TotalPages(|s|, limit)
    ensures |p.items| <= limit
    ensures |p.items| == if Skip(page, limit) >= |s| then 0
                         else if |s| - Skip(page, limit) < limit then |s| - Skip(page, limit)
                         else limit
    ensures forall i :: 0 <= i < |p.items| ==>
              Skip(page, limit) + i < |s| && p.items[i] == s[Skip(page, limit) + i]
  {
    var skip := Skip(page, limit);
    var from := if skip < |s| then skip else |s|;
    var to := if from + limit < |s| then from + limit else |s|;
    Page(s[from..to], page, limit, |s|, TotalPages(|s|, limit))
  }

  /** A page of a sorted list is sorted, and holds only rows of the list. */
  lemma PageOfSorted<T(!new)>(s: seq<T>, page: int, limit: int, key: T -> int)
    requires page >= 1 && limit > 0
    requires SortedBy(s, key)
    ensures SortedBy(Paginate(s, page, limit).items, key)
    ensures forall x :: x in Paginate(s, page, limit).items ==> x in s
  {
    var items := Paginate(s, page, limit).items;
    var skip := Skip(page, limit);
    forall i, j | 0 <= i < j < |items| ensures key(items[i]) <= key(items[j]) {
      assert items[i] == s[skip + i] && items[j] == s[skip + j];
    }
    forall x | x in items ensures x in s {
      var i :| 0 <= i < |items| && items[i] == x;
      assert x == s[skip + i];
    }
  }

  /** take(n) of a sorted list is sorted and holds only rows of the list. */
  lemma SortedPrefix<T>(s: seq<T>, n: int, key: T -> int)
    requires SortedBy(s, key) && 0 <= n <= |s|
    ensures SortedBy(s[..n], key)
    ensures forall x :: x in s[..n] ==> x in s
  {
    forall x | x in s[..n] ensures x in s {
      var i :| 0 <= i < n && s[..n][i] == x;
      assert s[i] == x;
    }
  }

  /** The predicate "key(x) == k", used to count the rows that fall under one key. */
  function KeyIs<T, K(==)>(key: T -> K, k: K): T -> bool {
    x => key(x) == k
  }

  /** The reduce((acc, x) => { acc[key(x)] = (acc[key(x)] || 0) + 1 }, {}) of the
      reports, and a GROUP BY ... COUNT(*): how many rows fall under each key. */
  function Tally<T, K(==)>(s: seq<T>, key: T -> K): map<K, nat> {
    if s == [] then map[]
    else
      var t := Tally(s[..|s| - 1], key);
      var k := key(s[|s| - 1]);
      t[k := (if k in t then t[k] else 0) + 1]
  }

  /** The tally of key k is the number of rows under k; a key no row has is absent. */
  lemma {:induction false} TallyCounts<T(!new), K(!new)>(s: seq<T>, key: T -> K, k: K)
    ensures k in Tally(s, key) ==> Tally(s, key)[k] == Count(s, KeyIs(key, k)) > 0
    ensures k !in Tally(s, key) ==> Count(s, KeyIs(key, k)) == 0
  {
    if s != [] {
      TallyCounts(s[..|s| - 1], key, k);
    }
  }

  /** The reduce that adds f(x) into acc[key(x)], and a GROUP BY ... SUM(f):
      the total of f over the rows under each key. */
  function GroupSum<T, K(==)>(s: seq<T>, key: T -> K, f: T -> int): map<K, int> {
    if s == [] then map[]
    else
      var t := GroupSum(s[..|s| - 1], key, f);
      var k := key(s[|s| - 1]);
      t[k := (if k in t then t[k] else 0) + f(s[|s| - 1])]
  }

  /** A key has a group exactly when some row falls under it, and the group
      holds the sum of f over those rows. */
  lemma {:induction false} GroupSumIs<T(!new), K(!new)>(s: seq<T>, key: T -> K, f: T -> int, k: K)
    ensures k in GroupSum(s, key, f) <==> Count(s, KeyIs(key, k)) > 0
    ensures k in GroupSum(s, key, f) ==> GroupSum(s, key, f)[k] == Sum(Filter(s, KeyIs(key, k)), f)
  {
    if s != [] {
      GroupSumIs(s[..|s| - 1], key, f, k);
      var last := s[|s| - 1];
      if key(last) == k {
        SumAppend(Filter(s[..|s| - 1], KeyIs(key, k)), last, f);
      }
    }
  }

  /** The sum of the values of a map. */
  ghost function MapSum<K>(m: map<K, int>): int
    decreases |m|
  {
    if m == map[] then 0
    else
      var k :| k in m;
      m[k] + MapSum(m - {k})
  }

  /** MapSum does not depend on the key it starts from. */
  lemma {:induction false} MapSumRemove<K>(m: map<K, int>, k: K)
    requires k in m
    ensures MapSum(m) == m[k] + MapSum(m - {k})
    decreases |m|
  {
    var j :| j in m && MapSum(m) == m[j] + MapSum(m - {j});
    if j != k {
      MapSumRemove(m - {j}, k);
      MapSumRemove(m - {k}, j);
      assert (m - {j}) - {k} == (m - {k}) - {j};
    }
  }

  lemma MapSumUpdate<K>(m: map<K, int>, k: K, v: int)
    ensures MapSum(m[k := v]) == MapSum(m - {k}) + v
    ensures k in m ==> MapSum(m) == MapSum(m - {k}) + m[k]
    ensures k !in m ==> MapSum(m) == MapSum(m - {k})
  {
    MapSumRemove(m[k := v], k);
    assert m[k := v] - {k} == m - {k};
    if k in m {
      MapSumRemove(m, k);
    } else {
      assert m - {k} == m;
    }
  }

  /** Every row is tallied under exactly one key: the tallies add up to the row count. */
  lemma {:induction false} TallyTotal<T(!new), K(!new)>(s: seq<T>, key: T -> K)
    ensures MapSum(Tally(s, key)) == |s|
  {
    if s != [] {
      var t := Tally(s[..|s| - 1], key);
      var k := key(s[|s| - 1]);
      TallyTotal(s[..|s| - 1], key);
      MapSumUpdate(t, k, (if k in t then t[k] else 0) + 1);
    }
  }

  /** Every row lands in exactly one group: the group sums add up to the sum over all rows. */
  lemma {:induction false} GroupSumTotal<T, K(!new)>(s: seq<T>, key: T -> K, f: T -> int)
    ensures MapSum(GroupSum(s, key, f)) == Sum(s, f)
  {
    if s != [] {
      var t := GroupSum(s[..|s| - 1], key, f);
      var k := key(s[|s| - 1]);
      GroupSumTotal(s[..|s| - 1], key, f);
      MapSumUpdate(t, k, (if k in t then t[k] else 0) + f(s[|s| - 1]));
    }
  }

  /** The mean of a total over n rows, 0 when there are none. */
  function Average(total: int, n: nat): (avg: real)
    ensures n == 0 ==> avg == 0.0
    ensures n > 0 ==> avg * (n as real) == total as real
  {
    if n == 0 then 0.0 else (total as real) / (n as real)
  }

  /** The share of done rows out of n, as a percentage, lies between 0 and 100. */
  lemma PercentBounded(done: nat, n: nat)
    requires done <= n
    ensures 0.0 <= Average(done * 100, n) <= 100.0
  {
    if n > 0 {
      var rate := Average(done * 100, n);
      var m := n as real;
      assert rate * m == (done * 100) as real;
      assert (done * 100) as real <= 100.0 * m;
      if rate > 100.0 {
        assert (rate - 100.0) * m > 0.0;
      }
    }
  }
}
