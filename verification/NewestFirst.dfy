/** The stable newest-first order of Python's `sort(key=..., reverse=True)`, and slicing. */
module NewestFirst {

  function Insert<T>(x: T, s: seq<T>, key: T -> int): seq<T> {
    if s == [] || key(s[0]) <= key(x) then [x] + s else [s[0]] + Insert(x, s[1..], key)
  }

  /** Later keys first; equal keys keep their order. */
  function Sort<T>(s: seq<T>, key: T -> int): seq<T> {
    if s == [] then [] else Insert(s[0], Sort(s[1..], key), key)
  }

  /** The elements with key `k`, in order. */
  function WithKey<T>(s: seq<T>, key: T -> int, k: int): seq<T> {
    if s == [] then [] else (if key(s[0]) == k then [s[0]] else []) + WithKey(s[1..], key, k)
  }

  ghost predicate Descending<T>(s: seq<T>, key: T -> int) {
    forall i, j :: 0 <= i < j < |s| ==> key(s[i]) >= key(s[j])
  }

  /** Newest first, with the elements of every key exactly those of `s` and in the order they have there. */
  ghost predicate IsNewestFirst<T>(r: seq<T>, s: seq<T>, key: T -> int) {
    Descending(r, key) && forall k :: WithKey(r, key, k) == WithKey(s, key, k)
  }

  lemma {:induction false} InsertMembers<T>(x: T, s: seq<T>, key: T -> int)
    ensures multiset(Insert(x, s, key)) == multiset{x} + multiset(s)
    ensures forall i :: 0 <= i < |Insert(x, s, key)| ==> Insert(x, s, key)[i] == x || Insert(x, s, key)[i] in s
  {
    if s != [] {
      InsertMembers(x, s[1..], key);
      assert s == [s[0]] + s[1..];
    }
  }

  lemma {:induction false} InsertDescending<T>(x: T, s: seq<T>, key: T -> int)
    requires Descending(s, key)
    ensures Descending(Insert(x, s, key), key)
  {
    if s == [] || key(s[0]) <= key(x) {
      var r := [x] + s;
      assert forall i :: 0 < i < |r| ==> r[i] == s[i - 1];
    } else {
      assert forall i :: 0 <= i < |s[1..]| ==> s[1..][i] == s[i + 1];
      InsertDescending(x, s[1..], key);
      InsertMembers(x, s[1..], key);
      LeadDescends(s[0], Insert(x, s[1..], key), key);
    }
  }

  lemma LeadDescends<T>(y: T, s: seq<T>, key: T -> int)
    requires Descending(s, key) && forall i :: 0 <= i < |s| ==> key(s[i]) <= key(y)
    ensures Descending([y] + s, key)
  {
    assert forall i :: 0 < i < |[y] + s| ==> ([y] + s)[i] == s[i - 1];
  }

  lemma {:induction false} InsertWithKey<T>(x: T, s: seq<T>, key: T -> int, k: int)
    ensures WithKey(Insert(x, s, key), key, k) == (if key(x) == k then [x] else []) + WithKey(s, key, k)
  {
    if s == [] || key(s[0]) <= key(x) {
      WithKeyCons(x, s, key, k);
    } else {
      InsertWithKey(x, s[1..], key, k);
      WithKeyCons(s[0], Insert(x, s[1..], key), key, k);
    }
  }

  lemma WithKeyCons<T>(y: T, s: seq<T>, key: T -> int, k: int)
    ensures WithKey([y] + s, key, k) == if key(y) == k then [y] + WithKey(s, key, k) else WithKey(s, key, k)
  {
    assert ([y] + s)[1..] == s;
  }

  /** `Sort` is a stable newest-first permutation ... */
  lemma {:induction false} SortOk<T>(s: seq<T>, key: T -> int)
    ensures IsNewestFirst(Sort(s, key), s, key)
    ensures multiset(Sort(s, key)) == multiset(s)
  {
    if s != [] {
      SortOk(s[1..], key);
      InsertMembers(s[0], Sort(s[1..], key), key);
      InsertDescending(s[0], Sort(s[1..], key), key);
      forall k ensures WithKey(Sort(s, key), key, k) == WithKey(s, key, k) {
        InsertWithKey(s[0], Sort(s[1..], key), key, k);
      }
      assert s == [s[0]] + s[1..];
    }
  }

  /** ... and there is no other. */
  lemma {:induction false} SortUnique<T>(r: seq<T>, s: seq<T>, key: T -> int)
    requires IsNewestFirst(r, s, key)
    ensures r == Sort(s, key)
  {
    SortOk(s, key);
    SameOrder(r, Sort(s, key), key);
  }

  lemma {:induction false} SameOrder<T>(r: seq<T>, q: seq<T>, key: T -> int)
    requires Descending(r, key) && Descending(q, key)
    requires forall k :: WithKey(r, key, k) == WithKey(q, key, k)
    ensures r == q
    decreases |r|
  {
    HeadHasKey(r, key);
    HeadHasKey(q, key);
    if r != [] && q != [] {
      SameHead(r, q, key);
      assert forall i :: 0 <= i < |r[1..]| ==> r[1..][i] == r[i + 1];
      assert forall i :: 0 <= i < |q[1..]| ==> q[1..][i] == q[i + 1];
      forall m ensures WithKey(r[1..], key, m) == WithKey(q[1..], key, m) {
        TailWithKey(r, key, m);
        TailWithKey(q, key, m);
        assert WithKey(r, key, m) == WithKey(q, key, m);
      }
      SameOrder(r[1..], q[1..], key);
      assert r == [r[0]] + r[1..] && q == [q[0]] + q[1..];
    }
  }

  lemma HeadHasKey<T>(s: seq<T>, key: T -> int)
    ensures s != [] ==> WithKey(s, key, key(s[0])) != []
  {
  }

  lemma TailWithKey<T>(s: seq<T>, key: T -> int, m: int)
    requires s != []
    ensures WithKey(s[1..], key, m) == if key(s[0]) == m then WithKey(s, key, m)[1..] else WithKey(s, key, m)
  {
  }

  lemma SameHead<T>(r: seq<T>, q: seq<T>, key: T -> int)
    requires r != [] && q != [] && Descending(r, key) && Descending(q, key)
    requires forall k :: WithKey(r, key, k) == WithKey(q, key, k)
    ensures r[0] == q[0]
  {
    var k, l := key(r[0]), key(q[0]);
    NoLargerKey(r, key, l);
    NoLargerKey(q, key, k);
    assert WithKey(r, key, k) == WithKey(q, key, k) && WithKey(r, key, l) == WithKey(q, key, l);
    assert WithKey(r, key, k)[0] == r[0] && WithKey(q, key, l)[0] == q[0];
  }

  lemma {:induction false} NoLargerKey<T>(s: seq<T>, key: T -> int, k: int)
    requires s != [] && Descending(s, key)
    ensures key(s[0]) < k ==> WithKey(s, key, k) == []
    decreases |s|
  {
    if |s| > 1 {
      assert forall i :: 0 <= i < |s[1..]| ==> s[1..][i] == s[i + 1];
      NoLargerKey(s[1..], key, k);
    }
  }
}
