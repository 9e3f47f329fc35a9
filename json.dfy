/**
  JSON-like values as the host handles them after `json.loads`, and the
  operations of Python's `dict` that the core uses. A dict is an
  insertion-ordered list of entries: reading takes the entry stored under
  the key, writing replaces an existing entry where it stands or appends a
  new one, exactly as CPython's dict keeps its order.
*/
module Json {
  import opened Wrappers

  /** A decoded JSON value; numbers are restricted to integers. */
  datatype Json =
    | Null
    | Bool(b: bool)
    | Int(i: int)
    | Str(s: string)
    | Arr(elems: seq<Json>)
    | Obj(fields: seq<(string, Json)>)

  /** Python truthiness of a value (`if v:`). */
  predicate Truthy(v: Json) {
    match v
    case Null => false
    case Bool(b) => b
    case Int(i) => i != 0
    case Str(s) => s != ""
    case Arr(e) => e != []
    case Obj(f) => f != []
  }

  /** The keys of a dict, in insertion order. */
  function Keys<K, V>(d: seq<(K, V)>): (ks: seq<K>)
    ensures |ks| == |d|
    ensures forall i :: 0 <= i < |d| ==> ks[i] == d[i].0
  {
    seq(|d|, i requires 0 <= i < |d| => d[i].0)
  }

  /** `d.values()`, in insertion order. */
  function Values<K, V>(d: seq<(K, V)>): (vs: seq<V>)
    ensures |vs| == |d|
    ensures forall i :: 0 <= i < |d| ==> vs[i] == d[i].1
  {
    seq(|d|, i requires 0 <= i < |d| => d[i].1)
  }

  /** A Python dict never holds a key twice. */
  predicate UniqueKeys<K(==), V>(d: seq<(K, V)>) {
    forall i, j :: 0 <= i < j < |d| ==> d[i].0 != d[j].0
  }

  /** `k in d` */
  predicate HasKey<K(==), V>(d: seq<(K, V)>, k: K) {
    k in Keys(d)
  }

  /** Where `k` sits in the dict: its first (in a dict, its only) entry. */
  function IndexOf<K(==), V>(d: seq<(K, V)>, k: K): (i: nat)
    requires HasKey(d, k)
    ensures i < |d| && d[i].0 == k
    ensures forall j :: 0 <= j < i ==> d[j].0 != k
  {
    if d[0].0 == k then 0
    else
      assert Keys(d) == [d[0].0] + Keys(d[1..]);
      1 + IndexOf(d[1..], k)
  }

  /** `d.get(k)`: the value stored under `k`, or `None`. */
  function Get<K(==), V>(d: seq<(K, V)>, k: K): (r: Option<V>)
    ensures r.None? <==> !HasKey(d, k)
    ensures r.Some? ==> (k, r.value) in d
  {
    if HasKey(d, k) then Some(d[IndexOf(d, k)].1) else None
  }

  /** `d.get(k, default)` */
  function GetOr<K(==), V>(d: seq<(K, V)>, k: K, default: V): V {
    match Get(d, k)
    case Some(v) => v
    case None => default
  }

  /** In a dict, reading the key of an entry gives that entry's value. */
  lemma GetEntry<K, V>(d: seq<(K, V)>, i: nat)
    requires UniqueKeys(d) && i < |d|
    ensures Get(d, d[i].0) == Some(d[i].1)
  {
    assert Keys(d)[i] == d[i].0;
  }

  /** `d[k] = v`: overwrites in place when `k` is present, appends otherwise. */
  function Put<K(==), V>(d: seq<(K, V)>, k: K, v: V): (r: seq<(K, V)>)
    ensures Keys(r) == if HasKey(d, k) then Keys(d) else Keys(d) + [k]
  {
    if HasKey(d, k) then d[IndexOf(d, k) := (k, v)] else d + [(k, v)]
  }

  /** Writing `k` changes what `k` reads and nothing else. */
  lemma PutGet<K, V>(d: seq<(K, V)>, k: K, v: V, k': K)
    ensures Get(Put(d, k, v), k') == if k' == k then Some(v) else Get(d, k')
  {
    var r := Put(d, k, v);
    assert HasKey(r, k') <==> HasKey(d, k') || k' == k;
    if HasKey(d, k) && HasKey(d, k') {
      var i, j := IndexOf(d, k), IndexOf(d, k');
      assert IndexOf(r, k') == j by {
        assert r[j].0 == k';
        forall m | 0 <= m < j ensures r[m].0 != k' { assert r[m].0 == d[m].0; }
        var n := IndexOf(r, k');
        assert n <= j;
        assert r[n].0 == d[n].0;
      }
    } else if HasKey(d, k') {
      var j := IndexOf(d, k');
      assert IndexOf(r, k') == j by {
        var n := IndexOf(r, k');
        assert r[j].0 == k';
        assert n <= j && r[n] == d[n];
      }
    } else if k' == k {
      assert IndexOf(r, k) == |d| by {
        var n := IndexOf(r, k);
      }
    }
  }

  /** Writing into a dict keeps its keys distinct. */
  lemma PutUnique<K, V>(d: seq<(K, V)>, k: K, v: V)
    requires UniqueKeys(d)
    ensures UniqueKeys(Put(d, k, v))
  {
    var r := Put(d, k, v);
    forall i, j | 0 <= i < j < |r| ensures r[i].0 != r[j].0 {
      assert Keys(r)[i] == r[i].0 && Keys(r)[j] == r[j].0;
      if !HasKey(d, k) && j == |d| {
        assert Keys(d)[i] == Keys(r)[i];
      } else {
        assert Keys(d)[i] == Keys(r)[i] && Keys(d)[j] == Keys(r)[j];
      }
    }
  }

  /** Reading the key of the first entry that carries it gives that entry's value. */
  lemma GetAt<K, V>(d: seq<(K, V)>, i: nat)
    requires i < |d| && forall j :: 0 <= j < i ==> d[j].0 != d[i].0
    ensures Get(d, d[i].0) == Some(d[i].1)
  {
    assert Keys(d)[i] == d[i].0;
    var n := IndexOf(d, d[i].0);
  }

  /** Reading each key of a three-entry dict. */
  lemma GetThree<K, V>(d: seq<(K, V)>, a: K, b: K, c: K)
    requires |d| == 3 && d[0].0 == a && d[1].0 == b && d[2].0 == c
    requires a != b && a != c && b != c
    ensures Get(d, a) == Some(d[0].1) && Get(d, b) == Some(d[1].1) && Get(d, c) == Some(d[2].1)
  {
    GetAt(d, 0);
    GetAt(d, 1);
    GetAt(d, 2);
  }

  /** Reading each key of a four-entry dict. */
  lemma GetFour<K, V>(d: seq<(K, V)>, a: K, b: K, c: K, e: K)
    requires |d| == 4 && d[0].0 == a && d[1].0 == b && d[2].0 == c && d[3].0 == e
    requires a != b && a != c && a != e && b != c && b != e && c != e
    ensures Get(d, a) == Some(d[0].1) && Get(d, b) == Some(d[1].1)
    ensures Get(d, c) == Some(d[2].1) && Get(d, e) == Some(d[3].1)
  {
    GetAt(d, 0);
    GetAt(d, 1);
    GetAt(d, 2);
    GetAt(d, 3);
  }

  /** Every entry after a write was there before or is the written one. */
  lemma PutEntries<K, V>(d: seq<(K, V)>, k: K, v: V)
    ensures forall e :: e in Put(d, k, v) ==> e in d || e == (k, v)
  {
    if HasKey(d, k) {
      var i := IndexOf(d, k);
      forall e | e in Put(d, k, v) ensures e in d || e == (k, v) {
        var j :| 0 <= j < |Put(d, k, v)| && Put(d, k, v)[j] == e;
        if j != i {
          assert e == d[j];
        }
      }
    }
  }

  /** In a dict, every entry is what its key reads. */
  lemma GetEntries<K, V>(d: seq<(K, V)>)
    requires UniqueKeys(d)
    ensures forall i :: 0 <= i < |d| ==> Get(d, d[i].0) == Some(d[i].1)
  {
    forall i | 0 <= i < |d| ensures Get(d, d[i].0) == Some(d[i].1) {
      GetEntry(d, i);
    }
  }
}
