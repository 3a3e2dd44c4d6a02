/** Small vocabulary shared by the other modules. */
module Prelude {
  datatype Option<+T> = None | Some(value: T)

  /** No value occurs twice. */
  ghost predicate NoDup<T(!new)>(s: seq<T>) {
    forall i, j :: 0 <= i < j < |s| ==> s[i] != s[j]
  }

  /** `keys` lists a set once each, in some order: what a Go `range` over a map yields. */
  ghost predicate Enumerates<T(!new)>(keys: seq<T>, s: set<T>) {
    NoDup(keys) && forall k :: k in keys <==> k in s
  }

  lemma {:induction false} EnumerationSize<T(!new)>(keys: seq<T>, s: set<T>)
    requires Enumerates(keys, s)
    ensures |keys| == |s|
  {
    if keys == [] {
      assert s == {};
    } else {
      var k := keys[|keys| - 1];
      assert k in keys;
      forall x | x in s - {k} ensures x in keys[..|keys| - 1] {
        assert x in keys;
      }
      EnumerationSize(keys[..|keys| - 1], s - {k});
    }
  }

  function Sum(s: seq<nat>): (total: nat) {
    if s == [] then 0 else Sum(s[..|s| - 1]) + s[|s| - 1]
  }

  lemma {:induction false} SumUpdate(s: seq<nat>, i: nat, v: nat)
    requires i < |s|
    ensures Sum(s[i := v]) == Sum(s) - s[i] + v
  {
    var n := |s| - 1;
    if i == n {
      assert s[i := v][..n] == s[..n];
    } else {
      SumUpdate(s[..n], i, v);
      assert s[i := v][..n] == s[..n][i := v];
    }
  }

  lemma {:induction false} ConstantSum(s: seq<nat>, c: nat)
    requires forall i :: 0 <= i < |s| ==> s[i] == c
    ensures Sum(s) == |s| * c
  {
    if s != [] {
      ConstantSum(s[..|s| - 1], c);
    }
  }

  /** A list of distinct numbers below n has at most n members. */
  lemma {:induction false} NoDupBound(s: seq<nat>, n: nat)
    requires NoDup(s) && forall x :: x in s ==> x < n
    ensures |s| <= n
  {
    if s == [] {
    } else if n - 1 in s {
      var i :| 0 <= i < |s| && s[i] == n - 1;
      var rest := s[..i] + s[i + 1..];
      assert forall x :: x in rest ==> x in s && x != n - 1;
      NoDupBound(rest, n - 1);
    } else {
      assert s[0] in s;
      NoDupBound(s, n - 1);
    }
  }
}
