/** The three query stages the models chain together: a filter, `.sort({ key: -1 })`
    and `.skip((page - 1) * limit).limit(limit)`. The sort is modelled as a stable
    insertion sort, which fixes one order among equal keys. Paging follows the
    database's rules: a negative skip is refused, `limit(0)` means no limit, and a
    negative limit returns at most its absolute value of documents. */
module Query {
  import opened Common

  function Filter<T(==,!new)>(s: seq<T>, keep: T -> bool): (r: seq<T>)
    ensures |r| <= |s|
    ensures forall x :: x in r <==> x in s && keep(x)
    ensures multiset(r) <= multiset(s)
    ensures (forall x :: x in s ==> keep(x)) ==> r == s
  {
    if s == [] then []
    else
      var rest := Filter(s[1..], keep);
      assert s == [s[0]] + s[1..];
      if keep(s[0]) then [s[0]] + rest else rest
  }

  /** The elements of `s` that satisfy `keep`, with their multiplicities. */
  lemma {:induction false} FilterMultiset<T(!new)>(s: seq<T>, keep: T -> bool, x: T)
    ensures multiset(Filter(s, keep))[x] == if keep(x) then multiset(s)[x] else 0
  {
    if s != [] {
      FilterMultiset(s[1..], keep, x);
      assert s == [s[0]] + s[1..];
    }
  }

  ghost predicate NewestFirstOrder<T>(s: seq<T>, key: T -> int) {
    forall i, j :: 0 <= i < j < |s| ==> key(s[i]) >= key(s[j])
  }

  /** Places `x` before the first element whose key is not larger. */
  function Insert<T(==,!new)>(x: T, s: seq<T>, key: T -> int): (r: seq<T>)
    requires NewestFirstOrder(s, key)
    ensures NewestFirstOrder(r, key)
    ensures forall y :: y in r <==> y == x || y in s
    ensures multiset(r) == multiset(s) + multiset{x}
    ensures |r| == |s| + 1
  {
    if s == [] || key(x) >= key(s[0]) then
      PrependKeepsOrder(x, s, key);
      [x] + s
    else
      var rest := Insert(x, s[1..], key);
      assert s == [s[0]] + s[1..];
      forall k | 0 <= k < |rest| ensures key(s[0]) >= key(rest[k]) {
        assert rest[k] in rest;
        if rest[k] != x {
          var j :| 0 <= j < |s[1..]| && s[1..][j] == rest[k];
          assert key(s[0]) >= key(s[1 + j]);
        }
      }
      PrependKeepsOrder(s[0], rest, key);
      assert multiset(s) == multiset{s[0]} + multiset(s[1..]);
      assert multiset([s[0]] + rest) == multiset{s[0]} + multiset(rest);
      [s[0]] + rest
  }

  lemma PrependKeepsOrder<T>(h: T, s: seq<T>, key: T -> int)
    requires NewestFirstOrder(s, key)
    requires forall k :: 0 <= k < |s| ==> key(h) >= key(s[k])
    ensures NewestFirstOrder([h] + s, key)
  {
  }

  /** `.sort({ key: -1 })`. */
  function NewestFirst<T(==,!new)>(s: seq<T>, key: T -> int): (r: seq<T>)
    ensures NewestFirstOrder(r, key)
    ensures multiset(r) == multiset(s)
    ensures forall x :: x in r <==> x in s
    ensures |r| == |s|
  {
    if s == [] then []
    else
      assert s == [s[0]] + s[1..];
      Insert(s[0], NewestFirst(s[1..], key), key)
  }

  function Abs(n: int): nat {
    if n < 0 then -n else n
  }

  function Min(a: int, b: int): int {
    if a <= b then a else b
  }

  function Skip(page: int, limit: int): int {
    (page - 1) * limit
  }

  const NegativeSkip := "skip value must be non-negative"

  /** `.skip((page - 1) * limit).limit(limit)`: the window of `s` starting at the skip. */
  function Page<T>(s: seq<T>, page: int, limit: int): (r: Result<seq<T>, string>)
    ensures r.Ok? <==> Skip(page, limit) >= 0
    ensures r.Err? ==> r.error == NegativeSkip
    ensures r.Ok? ==> forall k :: 0 <= k < |r.value| ==> Skip(page, limit) + k < |s| && r.value[k] == s[Skip(page, limit) + k]
    ensures r.Ok? && limit == 0 ==> |r.value| == |s| - Min(Skip(page, limit), |s|)
    ensures r.Ok? && limit != 0 ==> |r.value| == Min(Abs(limit), |s| - Min(Skip(page, limit), |s|))
    ensures r.Ok? ==> forall x :: x in r.value ==> x in s
    ensures page == 1 && (limit == 0 || |s| <= Abs(limit)) ==> r == Ok(s)
  {
    var skip := Skip(page, limit);
    if skip < 0 then Err(NegativeSkip)
    else
      var rest := if skip <= |s| then s[skip..] else [];
      Ok(if limit == 0 || |rest| <= Abs(limit) then rest else rest[..Abs(limit)])
  }

  /** A page of a list in newest-first order is in newest-first order. */
  lemma PageKeepsOrder<T>(s: seq<T>, page: int, limit: int, key: T -> int)
    requires NewestFirstOrder(s, key)
    ensures Page(s, page, limit).Ok? ==> NewestFirstOrder(Page(s, page, limit).value, key)
  {
    var r := Page(s, page, limit);
    if r.Ok? {
      var w, skip := r.value, Skip(page, limit);
      assert forall k :: 0 <= k < |w| ==> 0 <= skip + k < |s| && w[k] == s[skip + k];
      WindowKeepsOrder(s, w, skip, key);
    }
  }

  lemma WindowKeepsOrder<T>(s: seq<T>, w: seq<T>, skip: int, key: T -> int)
    requires NewestFirstOrder(s, key)
    requires forall k :: 0 <= k < |w| ==> 0 <= skip + k < |s| && w[k] == s[skip + k]
    ensures NewestFirstOrder(w, key)
  {
    forall i, j | 0 <= i < j < |w| ensures key(w[i]) >= key(w[j]) {
      assert w[i] == s[skip + i] && w[j] == s[skip + j];
    }
  }
}
