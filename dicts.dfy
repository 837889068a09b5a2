/** Python dictionaries with string keys whose iteration order matters, as association lists:
    a sequence of (key, value) pairs in insertion order with no key twice. */
module Dicts {
  import opened Results

  function Keys<V>(d: seq<(string, V)>): (ks: seq<string>)
    ensures |ks| == |d|
    ensures forall i {:trigger ks[i]} :: 0 <= i < |d| ==> ks[i] == d[i].0
  {
    seq(|d|, i requires 0 <= i < |d| => d[i].0)
  }

  predicate Distinct<T(==)>(s: seq<T>) {
    forall i, j :: 0 <= i < j < |s| ==> s[i] != s[j]
  }

  /** A Python dict: keys are unique, the order is insertion order. */
  type Dict<V> = d: seq<(string, V)> | Distinct(Keys(d)) witness []

  /** `k in d` and `d[k]`: the value of the first entry with key `k`, if any. */
  function Get<V>(d: seq<(string, V)>, k: string): (r: Option<V>)
    ensures r.Some? <==> k in Keys(d)
    ensures r.Some? ==> (k, r.value) in d
  {
    if |d| == 0 then None
    else if d[0].0 == k then
      assert Keys(d)[0] == k;
      Some(d[0].1)
    else
      assert Keys(d) == [d[0].0] + Keys(d[1..]);
      Get(d[1..], k)
  }

  /** In a dict, the lookup of an entry's key yields that entry's value. */
  lemma {:induction false} GetAt<V>(d: seq<(string, V)>, i: nat)
    requires Distinct(Keys(d)) && i < |d|
    ensures Get(d, d[i].0) == Some(d[i].1)
  {
    if i > 0 {
      assert Keys(d[1..]) == Keys(d)[1..];
      assert d[0].0 == Keys(d)[0] != Keys(d)[i] == d[i].0;
      GetAt(d[1..], i - 1);
    }
  }

  /** `d[k] = v`: an existing key keeps its position and takes the new value; a new key is
      appended at the end. */
  function Put<V>(d: seq<(string, V)>, k: string, v: V): seq<(string, V)>
  {
    if |d| == 0 then [(k, v)]
    else if d[0].0 == k then [(k, v)] + d[1..]
    else [d[0]] + Put(d[1..], k, v)
  }

  lemma DistinctCons<T>(a: T, s: seq<T>)
    ensures Distinct([a] + s) <==> a !in s && Distinct(s)
  {
    if a !in s && Distinct(s) {
      forall i, j | 0 <= i < j < |[a] + s| ensures ([a] + s)[i] != ([a] + s)[j] {
        if i > 0 {
          assert ([a] + s)[i] == s[i - 1];
        }
      }
    }
    if Distinct([a] + s) {
      forall i, j | 0 <= i < j < |s| ensures s[i] != s[j] {
        assert s[i] == ([a] + s)[i + 1] && s[j] == ([a] + s)[j + 1];
      }
      forall j | 0 <= j < |s| ensures s[j] != a {
        assert ([a] + s)[0] == a && ([a] + s)[j + 1] == s[j];
      }
    }
  }

  lemma DistinctSnoc<T>(s: seq<T>, a: T)
    ensures Distinct(s + [a]) <==> a !in s && Distinct(s)
  {
    if a !in s && Distinct(s) {
      forall i, j | 0 <= i < j < |s + [a]| ensures (s + [a])[i] != (s + [a])[j] {
        if j < |s| {
          assert (s + [a])[j] == s[j];
        }
      }
    }
    if Distinct(s + [a]) {
      forall i, j | 0 <= i < j < |s| ensures s[i] != s[j] {
        assert s[i] == (s + [a])[i] && s[j] == (s + [a])[j];
      }
      forall i | 0 <= i < |s| ensures s[i] != a {
        assert (s + [a])[i] == s[i] && (s + [a])[|s|] == a;
      }
    }
  }

  lemma {:induction false} DistinctAppend<T>(a: seq<T>, b: seq<T>)
    ensures Distinct(a + b) <==> Distinct(a) && Distinct(b) && forall x :: x in a ==> x !in b
  {
    if |a| > 0 {
      assert a + b == [a[0]] + (a[1..] + b);
      assert a == [a[0]] + a[1..];
      DistinctAppend(a[1..], b);
      DistinctCons(a[0], a[1..] + b);
      DistinctCons(a[0], a[1..]);
    } else {
      assert a + b == b;
    }
  }

  lemma KeysCons<V>(e: (string, V), d: seq<(string, V)>)
    ensures Keys([e] + d) == [e.0] + Keys(d)
  {
  }

  /** Writing a key adds exactly that key and keeps the keys unique. */
  lemma {:induction false} PutKeys<V>(d: seq<(string, V)>, k: string, v: V)
    ensures forall x :: x in Keys(Put(d, k, v)) <==> x in Keys(d) || x == k
    ensures Distinct(Keys(d)) ==> Distinct(Keys(Put(d, k, v)))
  {
    if |d| == 0 {
      assert Keys(Put(d, k, v)) == [k];
    } else {
      assert d == [d[0]] + d[1..];
      KeysCons(d[0], d[1..]);
      DistinctCons(d[0].0, Keys(d[1..]));
      if d[0].0 == k {
        KeysCons((k, v), d[1..]);
        DistinctCons(k, Keys(d[1..]));
      } else {
        PutKeys(d[1..], k, v);
        KeysCons(d[0], Put(d[1..], k, v));
        DistinctCons(d[0].0, Keys(Put(d[1..], k, v)));
      }
    }
  }

  /** Writing a new key appends it. */
  lemma {:induction false} PutNew<V>(d: seq<(string, V)>, k: string, v: V)
    ensures k !in Keys(d) ==> Put(d, k, v) == d + [(k, v)]
  {
    if |d| > 0 && k !in Keys(d) {
      assert d == [d[0]] + d[1..];
      KeysCons(d[0], d[1..]);
      PutNew(d[1..], k, v);
    }
  }

  /** `dict(pairs)`: the keys in the order of their first occurrence, each with the value of its
      last occurrence. On pairs whose keys are already distinct it is the identity. */
  function FromPairs<V>(pairs: seq<(string, V)>): (r: Dict<V>)
    ensures forall x :: x in Keys(r) <==> x in Keys(pairs)
    ensures Distinct(Keys(pairs)) ==> r == pairs
    decreases |pairs|
  {
    if |pairs| == 0 then []
    else
      var n := |pairs| - 1;
      var front := pairs[..n];
      assert Keys(pairs) == Keys(front) + [pairs[n].0] by {
        assert Keys(pairs)[n] == pairs[n].0;
      }
      DistinctSnoc(Keys(front), pairs[n].0);
      assert pairs == front + [pairs[n]];
      var r := FromPairs(front);
      PutKeys(r, pairs[n].0, pairs[n].1);
      PutNew(r, pairs[n].0, pairs[n].1);
      Put(r, pairs[n].0, pairs[n].1)
  }
}
