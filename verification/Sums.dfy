/** Sums of the values of a sequence and of a finite map. */
module Sums {

  function Sum(s: seq<nat>): nat {
    if s == [] then 0 else Sum(s[..|s| - 1]) + s[|s| - 1]
  }

  lemma SumStep(s: seq<nat>, i: nat)
    requires i < |s|
    ensures Sum(s[..i + 1]) == Sum(s[..i]) + s[i]
  {
    assert s[..i + 1][..i] == s[..i];
  }

  lemma {:induction false} SumMonotone(s: seq<nat>, i: nat, j: nat)
    requires i <= j <= |s|
    ensures Sum(s[..i]) <= Sum(s[..j])
    decreases j
  {
    if i < j {
      SumStep(s, j - 1);
      SumMonotone(s, i, j - 1);
    }
  }

  lemma {:induction false} SumAppend(s: seq<nat>, t: seq<nat>)
    ensures Sum(s + t) == Sum(s) + Sum(t)
  {
    if t == [] {
      assert s + t == s;
    } else {
      assert (s + t)[..|s + t| - 1] == s + t[..|t| - 1];
      SumAppend(s, t[..|t| - 1]);
    }
  }

  lemma {:induction false} SumPointwise(s: seq<nat>, t: seq<nat>)
    requires |s| == |t|
    requires forall i | 0 <= i < |s| :: s[i] <= t[i]
    ensures Sum(s) <= Sum(t)
    ensures Sum(s) == Sum(t) ==> s == t
  {
    if s != [] {
      var n := |s| - 1;
      SumPointwise(s[..n], t[..n]);
      assert s == s[..n] + [s[n]] && t == t[..n] + [t[n]];
    }
  }

  /** Two sequences with one sum: where one is below the other at some index, it is above at another. */
  lemma SumBalances(s: seq<nat>, t: seq<nat>, j: nat)
    requires |s| == |t| && Sum(s) == Sum(t)
    requires j < |s| && s[j] < t[j]
    ensures exists k :: 0 <= k < |s| && s[k] > t[k]
  {
    if forall k | 0 <= k < |s| :: s[k] <= t[k] {
      SumPointwise(s, t);
      assert false;
    }
  }

  /** The sum of the values of `m`. */
  ghost function SumValues<K>(m: map<K, nat>): nat {
    if m == map[] then 0 else var k :| k in m; m[k] + SumValues(m - {k})
  }

  lemma {:induction false} SumRemove<K>(m: map<K, nat>, k: K)
    requires k in m
    ensures SumValues(m) == m[k] + SumValues(m - {k})
    decreases |m|
  {
    var c :| c in m && SumValues(m) == m[c] + SumValues(m - {c});
    if c != k {
      SumRemove(m - {c}, k);
      SumRemove(m - {k}, c);
      assert m - {c} - {k} == m - {k} - {c};
    }
  }

  lemma SumUpdate<K>(m: map<K, nat>, k: K, v: nat)
    ensures SumValues(m[k := v]) == SumValues(m) - (if k in m then m[k] else 0) + v
  {
    SumRemove(m[k := v], k);
    assert m[k := v] - {k} == m - {k};
    if k in m {
      SumRemove(m, k);
    } else {
      assert m - {k} == m;
    }
  }

  lemma MergeOneByOne<K>(m: map<K, nat>, n: map<K, nat>, k: K)
    requires m.Keys !! n.Keys && k in n
    ensures m.Keys !! (n - {k}).Keys
    ensures k !in m + (n - {k})
    ensures m + n == (m + (n - {k}))[k := n[k]]
  {
    assert (m + n).Keys == (m + (n - {k}))[k := n[k]].Keys;
  }

  lemma {:induction false} SumDisjoint<K>(m: map<K, nat>, n: map<K, nat>)
    requires m.Keys !! n.Keys
    ensures SumValues(m + n) == SumValues(m) + SumValues(n)
    decreases |n|
  {
    if n == map[] {
      assert m + n == m;
    } else {
      var k :| k in n;
      MergeOneByOne(m, n, k);
      SumDisjoint(m, n - {k});
      SumRemove(n, k);
      SumUpdate(m + (n - {k}), k, n[k]);
    }
  }

  lemma {:induction false} SumZero<K>(m: map<K, nat>)
    requires forall k | k in m :: m[k] == 0
    ensures SumValues(m) == 0
    decreases |m|
  {
    if m != map[] {
      var k :| k in m;
      SumRemove(m, k);
      SumZero(m - {k});
    }
  }

  /** The values of `m` at these keys. */
  ghost function ValuesAt<K>(m: map<K, nat>, keys: seq<K>): (s: seq<nat>)
    requires forall i | 0 <= i < |keys| :: keys[i] in m
    ensures |s| == |keys|
  {
    seq(|keys|, i requires 0 <= i < |keys| => m[keys[i]])
  }

  /** Walking the keys of a map in any order, each at most once and none with a positive value left out, adds up
      its values. */
  lemma {:induction false} SumOfWalk<K>(m: map<K, nat>, keys: seq<K>)
    requires forall i | 0 <= i < |keys| :: keys[i] in m
    requires forall i, j | 0 <= i < j < |keys| :: keys[i] != keys[j]
    requires forall k | k in m && m[k] > 0 :: k in keys
    ensures Sum(ValuesAt(m, keys)) == SumValues(m)
    decreases |keys|
  {
    if keys == [] {
      SumZero(m);
    } else {
      var n := |keys| - 1;
      var last := keys[n];
      SumRemove(m, last);
      forall k | k in m - {last} && m[k] > 0 ensures k in keys[..n] {
        assert k in keys;
      }
      SumOfWalk(m - {last}, keys[..n]);
      assert ValuesAt(m, keys)[..n] == ValuesAt(m - {last}, keys[..n]);
    }
  }

  lemma SumSplit<K>(m: map<K, nat>, n: map<K, nat>, rest: map<K, nat>)
    requires n.Keys <= m.Keys && rest == m - n.Keys
    requires forall k | k in n :: n[k] == m[k]
    ensures SumValues(m) == SumValues(rest) + SumValues(n)
  {
    assert m == rest + n;
    SumDisjoint(rest, n);
  }
}
