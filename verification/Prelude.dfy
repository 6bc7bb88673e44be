/** Small shared vocabulary: optional values and facts about sequences used as index lists. */
module Prelude {

  datatype Option<+T> = None | Some(value: T)

  ghost predicate Distinct<T>(s: seq<T>) {
    forall i, j :: 0 <= i < j < |s| ==> s[i] != s[j]
  }

  function Elements<T>(s: seq<T>): set<T> { set x | x in s }

  /** Python's `s[:n]`: a negative bound counts from the end. */
  function Slice<T>(s: seq<T>, n: int): seq<T> {
    if n >= |s| then s else if n >= 0 then s[..n] else if -n <= |s| then s[..|s| + n] else []
  }

  /** The elements of `s` that lie in `keep`, in their original order. */
  function Retain<T(==, !new)>(s: seq<T>, keep: set<T>): seq<T> {
    if s == [] then []
    else if s[0] in keep then [s[0]] + Retain(s[1..], keep)
    else Retain(s[1..], keep)
  }

  lemma RetainMembers<T(!new)>(s: seq<T>, keep: set<T>)
    ensures forall x :: x in Retain(s, keep) <==> x in s && x in keep
  {
  }

  lemma RetainDistinct<T(!new)>(s: seq<T>, keep: set<T>)
    requires Distinct(s)
    ensures Distinct(Retain(s, keep))
  {
    if s != [] {
      assert forall i :: 0 <= i < |s[1..]| ==> s[1..][i] == s[i + 1];
      RetainDistinct(s[1..], keep);
      RetainMembers(s[1..], keep);
    }
  }

  lemma RetainAll<T(!new)>(s: seq<T>, keep: set<T>)
    requires forall x :: x in s ==> x in keep
    ensures Retain(s, keep) == s
  {
    if s != [] {
      RetainAll(s[1..], keep);
    }
  }

  /** When membership in `keep` is monotone along `s`, retaining drops exactly a prefix. */
  lemma {:induction false} RetainIsSuffix<T(!new)>(s: seq<T>, keep: set<T>) returns (k: nat)
    requires forall i, j :: 0 <= i < j < |s| && s[i] in keep ==> s[j] in keep
    ensures k <= |s| && Retain(s, keep) == s[k..]
    ensures forall i :: 0 <= i < k ==> s[i] !in keep
    ensures forall i :: k <= i < |s| ==> s[i] in keep
  {
    if s == [] {
      k := 0;
    } else if s[0] in keep {
      assert forall x :: x in s ==> x in keep;
      RetainAll(s, keep);
      k := 0;
    } else {
      assert forall i :: 0 <= i < |s[1..]| ==> s[1..][i] == s[i + 1];
      var k' := RetainIsSuffix(s[1..], keep);
      k := k' + 1;
      assert s[1..][k'..] == s[k..];
      forall i | k <= i < |s| ensures s[i] in keep {
        assert s[1..][i - 1] == s[i];
      }
      forall i | 0 <= i < k ensures s[i] !in keep {
        if i > 0 { assert s[1..][i - 1] == s[i]; }
      }
    }
  }

  /** What `time.sleep` raises for a negative length. */
  const BAD_SLEEP := "sleep length must be non-negative"

  lemma SubsetSize<T>(a: set<T>, b: set<T>)
    requires a <= b
    ensures |a| <= |b|
  {
    assert b == a + (b - a);
  }

  function Least(a: real, b: real): real { if a <= b then a else b }

  function Greatest(a: real, b: real): real { if a >= b then a else b }

  function Pow(b: real, k: nat): real { if k == 0 then 1.0 else b * Pow(b, k - 1) }

  function Geometric(a: real, b: real, k: nat): real { a * Pow(b, k) }

  lemma GeometricStep(a: real, b: real, k: nat)
    ensures Geometric(a, b, 0) == a
    ensures Geometric(a, b, k + 1) == Geometric(a, b, k) * b
  {
    var y := Pow(b, k);
    assert a * (b * y) == (a * y) * b;
  }
}
