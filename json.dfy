/**
 * JSON / YAML values as both generations see them: `System.Text.Json.Nodes`
 * in the C# port and the dicts and lists `yaml.safe_load` yields in Python.
 * Objects keep their keys in insertion order (a `JsonObject` and a Python
 * `dict` both do), so an object is a sequence of key/value pairs.
 */
module Json {
  import opened Wrappers

  datatype Json =
    | JNull
    | JBool(b: bool)
    | JNumber(n: int)
    | JString(s: string)
    | JArray(items: seq<Json>)
    | JObject(fields: Dict<Json>)

  /** An insertion-ordered dictionary with string keys. */
  type Dict<V> = seq<(string, V)>

  predicate HasKey<V>(d: Dict<V>, k: string)
  {
    exists i :: 0 <= i < |d| && d[i].0 == k
  }

  /** Keys are unique, as in every dictionary of both runtimes. */
  predicate DistinctKeys<V>(d: Dict<V>)
  {
    forall i, j :: 0 <= i < j < |d| ==> d[i].0 != d[j].0
  }

  /** `d.get(k)` / `obj[k]`: the value stored under `k`, if any. */
  function Get<V>(d: Dict<V>, k: string): (r: Option<V>)
    ensures r.Some? <==> HasKey(d, k)
    ensures r.Some? ==> (k, r.value) in d
  {
    if |d| == 0 then None
    else if d[0].0 == k then Some(d[0].1)
    else
      assert forall i :: 1 <= i < |d| ==> d[i] == d[1..][i - 1];
      Get(d[1..], k)
  }

  /** `d[k] = v`: overwrite in place when `k` is present, append otherwise. */
  function Set<V>(d: Dict<V>, k: string, v: V): (r: Dict<V>)
  {
    if |d| == 0 then [(k, v)]
    else if d[0].0 == k then [(k, v)] + d[1..]
    else [d[0]] + Set(d[1..], k, v)
  }

  /** `{**d, **e}`, `d | e` and `d.update(e)`: every entry of `e` is set into `d`, in order. */
  function Merge<V>(d: Dict<V>, e: Dict<V>): Dict<V>
    decreases |e|
  {
    if |e| == 0 then d else Merge(Set(d, e[0].0, e[0].1), e[1..])
  }

  /** `d.pop(k)` after `k in d`: the dictionary without key `k`. */
  function Remove<V>(d: Dict<V>, k: string): (r: Dict<V>)
    ensures !HasKey(r, k)
    ensures forall i :: 0 <= i < |r| ==> r[i] in d && r[i].0 != k
    ensures forall i :: 0 <= i < |d| && d[i].0 != k ==> d[i] in r
  {
    if |d| == 0 then []
    else if d[0].0 == k then Remove(d[1..], k)
    else [d[0]] + Remove(d[1..], k)
  }

  /** Python truthiness of a YAML value. */
  predicate Truthy(j: Json)
  {
    match j
    case JNull => false
    case JBool(b) => b
    case JNumber(n) => n != 0
    case JString(s) => s != ""
    case JArray(items) => |items| > 0
    case JObject(fields) => |fields| > 0
  }

  lemma {:induction false} GetSet<V>(d: Dict<V>, k: string, v: V, x: string)
    ensures Get(Set(d, k, v), x) == if x == k then Some(v) else Get(d, x)
  {
    if |d| > 0 && d[0].0 != k {
      GetSet(d[1..], k, v, x);
    }
  }

  /** `d[k] = v` has the keys of `d` and `k`, keeps keys unique, and appends when `k` is new. */
  lemma SetKeys<V>(d: Dict<V>, k: string, v: V)
    ensures forall x :: HasKey(Set(d, k, v), x) <==> HasKey(d, x) || x == k
    ensures DistinctKeys(d) ==> DistinctKeys(Set(d, k, v))
    ensures !HasKey(d, k) ==> Set(d, k, v) == d + [(k, v)]
  {
    forall x ensures HasKey(Set(d, k, v), x) <==> HasKey(d, x) || x == k {
      GetSet(d, k, v, x);
    }
    if DistinctKeys(d) {
      SetDistinct(d, k, v);
    }
    if !HasKey(d, k) {
      SetAbsent(d, k, v);
    }
  }

  lemma {:induction false} SetDistinct<V>(d: Dict<V>, k: string, v: V)
    requires DistinctKeys(d)
    ensures DistinctKeys(Set(d, k, v))
  {
    var r := Set(d, k, v);
    if |d| > 0 && d[0].0 != k {
      var tail := Set(d[1..], k, v);
      assert DistinctKeys(d[1..]) by {
        assert forall i :: 1 <= i < |d| ==> d[i] == d[1..][i - 1];
      }
      SetDistinct(d[1..], k, v);
      assert !HasKey(d[1..], d[0].0) by {
        assert forall i :: 1 <= i < |d| ==> d[i] == d[1..][i - 1];
      }
      GetSet(d[1..], k, v, d[0].0);
      assert r == [d[0]] + tail;
      forall i, j | 0 <= i < j < |r| ensures r[i].0 != r[j].0 {
        if i == 0 {
          assert r[j] == tail[j - 1];
        } else {
          assert r[i] == tail[i - 1] && r[j] == tail[j - 1];
        }
      }
    } else if |d| > 0 {
      forall i, j | 0 <= i < j < |r| ensures r[i].0 != r[j].0 {
        assert r[i].0 == d[i].0 && r[j].0 == d[j].0;
      }
    }
  }

  /** Dropping the last entry keeps keys unique, and the dropped key is not among the rest. */
  lemma DistinctInit<V>(d: Dict<V>)
    requires DistinctKeys(d) && |d| > 0
    ensures DistinctKeys(d[..|d| - 1]) && !HasKey(d[..|d| - 1], d[|d| - 1].0)
  {
    var init := d[..|d| - 1];
    assert forall i :: 0 <= i < |init| ==> init[i] == d[i];
  }

  lemma {:induction false} SetAbsent<V>(d: Dict<V>, k: string, v: V)
    requires !HasKey(d, k)
    ensures Set(d, k, v) == d + [(k, v)]
  {
    if |d| > 0 {
      assert !HasKey(d[1..], k) by {
        assert forall i :: 1 <= i < |d| ==> d[i] == d[1..][i - 1];
      }
      SetAbsent(d[1..], k, v);
      assert d == [d[0]] + d[1..];
    }
  }

  /** Merging a dictionary with unique keys: the later dictionary wins key by key. */
  lemma {:induction false} GetMerge<V>(d: Dict<V>, e: Dict<V>, x: string)
    requires DistinctKeys(e)
    ensures Get(Merge(d, e), x) == if HasKey(e, x) then Get(e, x) else Get(d, x)
    decreases |e|
  {
    if |e| > 0 {
      assert DistinctKeys(e[1..]);
      GetMerge(Set(d, e[0].0, e[0].1), e[1..], x);
      GetSet(d, e[0].0, e[0].1, x);
      assert forall i :: 1 <= i < |e| ==> e[i] == e[1..][i - 1];
      if x == e[0].0 {
        assert !HasKey(e[1..], x);
      } else {
        assert HasKey(e, x) <==> HasKey(e[1..], x);
      }
    }
  }

  /** Merging keeps every key of both dictionaries and no other. */
  lemma {:induction false} MergeKeys<V>(d: Dict<V>, e: Dict<V>)
    ensures forall x :: HasKey(Merge(d, e), x) <==> HasKey(d, x) || HasKey(e, x)
    ensures DistinctKeys(d) ==> DistinctKeys(Merge(d, e))
    decreases |e|
  {
    if |e| > 0 {
      SetKeys(d, e[0].0, e[0].1);
      MergeKeys(Set(d, e[0].0, e[0].1), e[1..]);
      assert forall i :: 1 <= i < |e| ==> e[i] == e[1..][i - 1];
      assert forall x :: HasKey(e, x) <==> x == e[0].0 || HasKey(e[1..], x);
    }
  }

  /** Overwriting keeps every existing key at its position. */
  lemma {:induction false} SetPositions<V>(d: Dict<V>, k: string, v: V)
    ensures |Set(d, k, v)| >= |d|
    ensures forall i :: 0 <= i < |d| ==> Set(d, k, v)[i].0 == d[i].0
  {
    if |d| > 0 && d[0].0 != k {
      SetPositions(d[1..], k, v);
    }
  }

  /** Merging keeps every key of the first dictionary at its position. */
  lemma {:induction false} MergePositions<V>(d: Dict<V>, e: Dict<V>)
    ensures |Merge(d, e)| >= |d|
    ensures forall i :: 0 <= i < |d| ==> Merge(d, e)[i].0 == d[i].0
    decreases |e|
  {
    if |e| > 0 {
      SetPositions(d, e[0].0, e[0].1);
      MergePositions(Set(d, e[0].0, e[0].1), e[1..]);
    }
  }

  /** In a dictionary with unique keys, looking up the key at a position finds that entry. */
  lemma {:induction false} GetAt<V>(d: Dict<V>, i: nat)
    requires DistinctKeys(d) && i < |d|
    ensures Get(d, d[i].0) == Some(d[i].1)
  {
    if i > 0 {
      assert DistinctKeys(d[1..]);
      GetAt(d[1..], i - 1);
    }
  }

  /** Every key of `d` is one of `ks`. */
  predicate OnlyKeys<V>(d: Dict<V>, ks: set<string>)
  {
    forall i :: 0 <= i < |d| ==> d[i].0 in ks
  }

  /** Popping a key leaves every other key's value where it was. */
  lemma {:induction false} GetRemove<V>(d: Dict<V>, k: string, x: string)
    ensures Get(Remove(d, k), x) == if x == k then None else Get(d, x)
  {
    if |d| > 0 {
      GetRemove(d[1..], k, x);
      if d[0].0 != k {
        var r := [d[0]] + Remove(d[1..], k);
        assert r[0] == d[0] && r[1..] == Remove(d[1..], k);
      }
    }
  }

  /** What is left after popping `k` has only keys in `ks` exactly when `d` has only keys in `ks` and `k`. */
  lemma {:induction false} RemoveOnlyKeys<V>(d: Dict<V>, k: string, ks: set<string>)
    ensures OnlyKeys(Remove(d, k), ks) <==> OnlyKeys(d, ks + {k})
  {
    if |d| > 0 {
      RemoveOnlyKeys(d[1..], k, ks);
      assert OnlyKeys(d, ks + {k}) <==> d[0].0 in ks + {k} && OnlyKeys(d[1..], ks + {k}) by {
        assert forall i :: 1 <= i < |d| ==> d[i] == d[1..][i - 1];
      }
      if d[0].0 != k {
        var r := [d[0]] + Remove(d[1..], k);
        assert OnlyKeys(r, ks) <==> d[0].0 in ks && OnlyKeys(Remove(d[1..], k), ks) by {
          assert r[0] == d[0];
          assert forall i :: 1 <= i < |r| ==> r[i] == Remove(d[1..], k)[i - 1];
          assert forall i :: 0 <= i < |Remove(d[1..], k)| ==> Remove(d[1..], k)[i] == r[i + 1];
        }
      }
    }
  }

  /** Only keys from the empty set: the dictionary is empty. */
  lemma OnlyNoKeys<V>(d: Dict<V>)
    ensures OnlyKeys(d, {}) <==> |d| == 0
  {
    if |d| > 0 {
      assert d[0].0 !in {};
    }
  }
}
