/** Option and Result, the shapes used for the source's None returns, raised
    errors and `{"success": False, "error": ...}` dictionaries. */
module Basics {

  datatype Option<+T> = None | Some(value: T)

  datatype Result<+T, +E> = Ok(value: T) | Err(error: E)
}

/** A Python dict as an association list kept in insertion order.  Lookup finds
    the first entry with the key; `Put` overwrites an existing key in place and
    appends a new one, which is how assignment `d[k] = v` behaves. */
module Dicts {
  import opened Basics

  type Dict<V> = seq<(string, V)>

  /** `d.get(k)`, or None when the key is missing. */
  function Get<V>(d: Dict<V>, k: string): Option<V>
  {
    if d == [] then None
    else if d[0].0 == k then Some(d[0].1)
    else Get(d[1..], k)
  }

  predicate Has<V>(d: Dict<V>, k: string)
  {
    Get(d, k).Some?
  }

  /** `d.get(k, dflt)` */
  function GetOr<V>(d: Dict<V>, k: string, dflt: V): V
  {
    match Get(d, k)
    case Some(v) => v
    case None => dflt
  }

  function Keys<V>(d: Dict<V>): (ks: seq<string>)
    ensures |ks| == |d|
    ensures forall i :: 0 <= i < |d| ==> ks[i] == d[i].0
  {
    if d == [] then [] else [d[0].0] + Keys(d[1..])
  }

  /** The keys of a real Python dict are pairwise distinct. */
  predicate DistinctKeys<V>(d: Dict<V>)
  {
    forall i, j :: 0 <= i < j < |d| ==> d[i].0 != d[j].0
  }

  lemma {:induction false} GetSome<V>(d: Dict<V>, k: string)
    ensures Get(d, k).Some? <==> exists i :: 0 <= i < |d| && d[i].0 == k
  {
    if d != [] && d[0].0 != k {
      GetSome(d[1..], k);
      if Get(d, k).Some? {
        var i :| 0 <= i < |d[1..]| && d[1..][i].0 == k;
        assert d[i + 1].0 == k;
      }
      if exists i :: 0 <= i < |d| && d[i].0 == k {
        var i :| 0 <= i < |d| && d[i].0 == k;
        assert d[1..][i - 1].0 == k;
      }
    }
  }

  /** In a dict, the entry at position i is what lookup of its key finds. */
  lemma {:induction false} GetAt<V>(d: Dict<V>, i: nat)
    requires DistinctKeys(d) && i < |d|
    ensures Get(d, d[i].0) == Some(d[i].1)
  {
    if i > 0 {
      assert d[0].0 != d[i].0;
      GetAt(d[1..], i - 1);
    }
  }

  /** Lookup in a list extended at the end. */
  lemma {:induction false} GetAppend<V>(d: Dict<V>, k: string, v: V, key: string)
    ensures Get(d + [(k, v)], key) == if Has(d, key) then Get(d, key) else if k == key then Some(v) else None
  {
    if d != [] {
      assert (d + [(k, v)])[1..] == d[1..] + [(k, v)];
      GetAppend(d[1..], k, v, key);
    }
  }

  /** `d[k] = v` */
  function Put<V>(d: Dict<V>, k: string, v: V): (r: Dict<V>)
    ensures Get(r, k) == Some(v)
    ensures forall key :: key != k ==> Get(r, key) == Get(d, key)
  {
    if d == [] then [(k, v)]
    else if d[0].0 == k then [(k, v)] + d[1..]
    else
      var r := [d[0]] + Put(d[1..], k, v);
      assert r[1..] == Put(d[1..], k, v);
      r
  }

  /** Assignment keeps the order of the keys and appends a new one. */
  lemma {:induction false} PutKeys<V>(d: Dict<V>, k: string, v: V)
    ensures Keys(Put(d, k, v)) == if Has(d, k) then Keys(d) else Keys(d) + [k]
  {
    if d != [] && d[0].0 != k {
      PutKeys(d[1..], k, v);
      assert Put(d, k, v)[1..] == Put(d[1..], k, v);
    }
  }

  /** The dict filled by `for k in keys: d[k] = f(k)`, after the first n keys;
      its keys are distinct as in any dict. */
  function PutEach<V>(f: string -> V, keys: seq<string>, n: nat): (r: Dict<V>)
    requires n <= |keys|
    ensures DistinctKeys(r)
  {
    if n == 0 then []
    else
      var before := PutEach(f, keys, n - 1);
      PutDistinct(before, keys[n - 1], f(keys[n - 1]));
      Put(before, keys[n - 1], f(keys[n - 1]))
  }

  /** Looking a key up in that dict finds its own value, if it was listed. */
  lemma {:induction false} PutEachGet<V>(f: string -> V, keys: seq<string>, n: nat, q: string)
    requires n <= |keys|
    ensures Get(PutEach(f, keys, n), q) == if exists i :: 0 <= i < n && keys[i] == q then Some(f(q)) else None
  {
    if n > 0 {
      PutEachGet(f, keys, n - 1, q);
      if q != keys[n - 1] && exists i :: 0 <= i < n && keys[i] == q {
        var i :| 0 <= i < n && keys[i] == q;
        assert i < n - 1;
      }
    }
  }

  /** Assignment keeps the keys of a dict distinct. */
  lemma {:induction false} PutDistinct<V>(d: Dict<V>, k: string, v: V)
    requires DistinctKeys(d)
    ensures DistinctKeys(Put(d, k, v))
  {
    var r := Put(d, k, v);
    PutKeys(d, k, v);
    if Has(d, k) {
      forall i, j | 0 <= i < j < |r| ensures r[i].0 != r[j].0 {
        assert Keys(r)[i] == Keys(d)[i] && Keys(r)[j] == Keys(d)[j];
      }
    } else {
      PutFresh(d, k, v);
      GetSome(d, k);
      forall i, j | 0 <= i < j < |r| ensures r[i].0 != r[j].0 {
        if j == |d| {
          assert r[i] == d[i];
        } else {
          assert r[i] == d[i] && r[j] == d[j];
        }
      }
    }
  }

  /** Assigning a key that is not there yet appends it. */
  lemma {:induction false} PutFresh<V>(d: Dict<V>, k: string, v: V)
    requires !Has(d, k)
    ensures Put(d, k, v) == d + [(k, v)]
  {
    if d != [] {
      PutFresh(d[1..], k, v);
    }
  }

  /** `sum(d.values())` */
  function SumValues(d: Dict<real>): real
  {
    if d == [] then 0.0 else d[0].1 + SumValues(d[1..])
  }

  lemma {:induction false} SumValuesAppend(d: Dict<real>, k: string, v: real)
    ensures SumValues(d + [(k, v)]) == SumValues(d) + v
  {
    if d != [] {
      assert (d + [(k, v)])[1..] == d[1..] + [(k, v)];
      SumValuesAppend(d[1..], k, v);
    }
  }
}
