/** `DataSet`: a dict from string keys to opaque data values, with ordered bulk reads and writes. */
module DataSets {
  import opened Results
  import opened Dicts

  /** The `KeyError` raised by `self[key]` on an absent key. */
  datatype KeyError = KeyNotFound(key: string)

  /** The mapping `set_all(keys, data)` leaves behind: `zip` stops at the shorter of the two
      sequences and the pairs are written from left to right. */
  function ZipWrite<D>(m: map<string, D>, keys: seq<string>, data: seq<D>): map<string, D>
    decreases |keys|
  {
    if |keys| == 0 || |data| == 0 then m
    else ZipWrite(m[keys[0] := data[0]], keys[1..], data[1..])
  }

  function Min(a: nat, b: nat): nat {
    if a < b then a else b
  }

  class DataSet<D> {
    var entries: map<string, D>

    constructor (entries: map<string, D>)
      ensures this.entries == entries
    {
      this.entries := entries;
    }

    /** `get_all`: the values of the requested keys in request order; the first absent key
        raises `KeyError` with that key. */
    function GetAll(keys: seq<string>): (r: Result<seq<D>, KeyError>)
      reads this
      ensures r.Ok? <==> forall i :: 0 <= i < |keys| ==> keys[i] in entries
      ensures r.Ok? ==> |r.value| == |keys| && forall i :: 0 <= i < |keys| ==> r.value[i] == entries[keys[i]]
      ensures r.Err? ==> exists i :: 0 <= i < |keys| && keys[i] !in entries && r.error == KeyNotFound(keys[i])
                                     && forall j :: 0 <= j < i ==> keys[j] in entries
    {
      if |keys| == 0 then Ok([])
      else if keys[0] !in entries then Err(KeyNotFound(keys[0]))
      else
        match GetAll(keys[1..])
        case Ok(rest) => Ok([entries[keys[0]]] + rest)
        case Err(e) =>
          assert forall i :: 1 <= i < |keys| ==> keys[i] == keys[1..][i - 1];
          Err(e)
    }

    /** `set_all`: writes `self[key] = d` for each pair of `zip(keys, data)`. */
    method SetAll(keys: seq<string>, data: seq<D>)
      modifies this
      ensures entries == ZipWrite(old(entries), keys, data)
    {
      var n := Min(|keys|, |data|);
      var i := 0;
      while i < n
        invariant 0 <= i <= n
        invariant ZipWrite(entries, keys[i..], data[i..]) == ZipWrite(old(entries), keys, data)
      {
        assert keys[i..][1..] == keys[i + 1..] && data[i..][1..] == data[i + 1..];
        entries := entries[keys[i] := data[i]];
        i := i + 1;
      }
    }

    /** `copy`: a new DataSet object holding the same key-to-value mapping. Being fresh, it is a
        different object, so writes to it leave this one untouched. */
    method Copy() returns (c: DataSet<D>)
      ensures fresh(c) && c.entries == entries
    {
      c := new DataSet(entries);
    }
  }

  /** `zip` ignores everything past the shorter sequence. */
  lemma {:induction false} ZipWriteTruncates<D>(m: map<string, D>, keys: seq<string>, data: seq<D>)
    ensures var n := Min(|keys|, |data|);
            ZipWrite(m, keys, data) == ZipWrite(m, keys[..n], data[..n])
    decreases |keys|
  {
    var n := Min(|keys|, |data|);
    if n > 0 {
      assert keys[..n][1..] == keys[1..][..n - 1];
      assert data[..n][1..] == data[1..][..n - 1];
      ZipWriteTruncates(m[keys[0] := data[0]], keys[1..], data[1..]);
    }
  }

  /** The written keys are exactly the first min(|keys|, |data|) keys. */
  lemma {:induction false} ZipWriteKeys<D>(m: map<string, D>, keys: seq<string>, data: seq<D>)
    ensures ZipWrite(m, keys, data).Keys == m.Keys + set i | 0 <= i < Min(|keys|, |data|) :: keys[i]
    decreases |keys|
  {
    var n := Min(|keys|, |data|);
    if n > 0 {
      ZipWriteKeys(m[keys[0] := data[0]], keys[1..], data[1..]);
      var rest := set i | 0 <= i < n - 1 :: keys[1..][i];
      var all := set i | 0 <= i < n :: keys[i];
      assert all == {keys[0]} + rest by {
        forall x | x in all ensures x in {keys[0]} + rest {
          var i :| 0 <= i < n && keys[i] == x;
          if i > 0 { assert keys[1..][i - 1] == x; }
        }
        forall x | x in rest ensures x in all {
          var i :| 0 <= i < n - 1 && keys[1..][i] == x;
          assert keys[i + 1] == x;
        }
      }
    }
  }

  /** A key outside the written prefix keeps its old presence and value. */
  lemma {:induction false} ZipWriteFrame<D>(m: map<string, D>, keys: seq<string>, data: seq<D>, k: string)
    requires forall i :: 0 <= i < Min(|keys|, |data|) ==> keys[i] != k
    ensures k in ZipWrite(m, keys, data) <==> k in m
    ensures k in m ==> ZipWrite(m, keys, data)[k] == m[k]
    decreases |keys|
  {
    if |keys| > 0 && |data| > 0 {
      ZipWriteFrame(m[keys[0] := data[0]], keys[1..], data[1..], k);
    }
  }

  /** When a key repeats, the value written last (the later pair) is the one kept. */
  lemma {:induction false} ZipWriteLastWins<D>(m: map<string, D>, keys: seq<string>, data: seq<D>, i: nat)
    requires i < Min(|keys|, |data|)
    requires forall j :: i < j < Min(|keys|, |data|) ==> keys[j] != keys[i]
    ensures keys[i] in ZipWrite(m, keys, data) && ZipWrite(m, keys, data)[keys[i]] == data[i]
    decreases |keys|
  {
    if i == 0 {
      ZipWriteFrame(m[keys[0] := data[0]], keys[1..], data[1..], keys[0]);
    } else {
      ZipWriteLastWins(m[keys[0] := data[0]], keys[1..], data[1..], i - 1);
    }
  }

  /** Round trip: with distinct keys and one value per key, reading the written keys back gives
      the written values. */
  lemma SetAllThenGetAll<D>(ds: DataSet<D>, m: map<string, D>, keys: seq<string>, data: seq<D>)
    requires Distinct(keys) && |keys| == |data|
    requires ds.entries == ZipWrite(m, keys, data)
    ensures ds.GetAll(keys) == Ok(data)
  {
    forall i | 0 <= i < |keys| ensures keys[i] in ds.entries && ds.entries[keys[i]] == data[i] {
      ZipWriteLastWins(m, keys, data, i);
    }
    assert ds.GetAll(keys).value == data;
  }

  /** `set_all(["a", "b"], [v])` writes "a" and does not write "b". */
  lemma SetAllDropsSurplusKey<D>(m: map<string, D>, v: D)
    ensures ZipWrite(m, ["a", "b"], [v]) == m["a" := v]
  {
  }
}
