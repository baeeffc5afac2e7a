/**
 * Python's `dict` as an association list that remembers insertion order.
 * `Get` is subscript lookup, `Put` is item assignment: assigning to a key
 * that is already present replaces its value and keeps its position, a new
 * key goes to the end.
 */
module OrderedDict {
  import opened Wrappers

  function Keys<V>(d: seq<(string, V)>): (ks: seq<string>)
    ensures |ks| == |d|
    ensures forall i :: 0 <= i < |d| ==> ks[i] == d[i].0
  {
    seq(|d|, i requires 0 <= i < |d| => d[i].0)
  }

  /** No key occurs twice: what every Python dict satisfies. */
  predicate NoDupKeys<V>(d: seq<(string, V)>)
  {
    forall i, j :: 0 <= i < j < |d| ==> d[i].0 != d[j].0
  }

  /** `d[k]`, or None when `k not in d`. */
  function Get<V>(d: seq<(string, V)>, k: string): (r: Option<V>)
    ensures r.Some? <==> k in Keys(d)
  {
    if d == [] then None
    else if d[0].0 == k then Some(d[0].1)
    else
      assert Keys(d) == [d[0].0] + Keys(d[1..]);
      Get(d[1..], k)
  }

  lemma {:induction false} GetAt<V>(d: seq<(string, V)>, i: nat)
    requires NoDupKeys(d) && i < |d|
    ensures Get(d, d[i].0) == Some(d[i].1)
  {
    if i > 0 {
      assert d[0].0 != d[i].0;
      assert d[1..][i - 1] == d[i];
      GetAt(d[1..], i - 1);
    }
  }

  /** The position of the first entry with key `k`, or `|d|` when there is none. */
  function Find<V>(d: seq<(string, V)>, k: string): (i: nat)
    ensures i <= |d|
    ensures forall j :: 0 <= j < i ==> d[j].0 != k
    ensures i < |d| ==> d[i].0 == k
  {
    if d == [] || d[0].0 == k then 0
    else
      var i := Find(d[1..], k);
      assert forall j :: 0 < j <= i ==> d[j] == d[1..][j - 1];
      1 + i
  }

  /** `d[k] = v`. */
  function Put<V>(d: seq<(string, V)>, k: string, v: V): (r: seq<(string, V)>)
    ensures Keys(r) == if k in Keys(d) then Keys(d) else Keys(d) + [k]
    ensures k !in Keys(d) ==> r == d + [(k, v)]
    ensures forall i :: 0 <= i < |d| && d[i].0 != k ==> r[i] == d[i]
  {
    var i := Find(d, k);
    if i < |d| then
      var r := d[i := (k, v)];
      assert Keys(d)[i] == k;
      assert Keys(r) == Keys(d) by {
        assert forall j :: 0 <= j < |d| ==> r[j].0 == d[j].0;
      }
      r
    else
      var r := d + [(k, v)];
      assert Keys(r) == Keys(d) + [k] by {
        assert forall j :: 0 <= j < |d| ==> r[j] == d[j];
      }
      assert k !in Keys(d) by {
        assert forall j :: 0 <= j < |d| ==> Keys(d)[j] != k;
      }
      r
  }

  /** Past a different first key, assignment works on the rest. */
  lemma PutCons<V>(d: seq<(string, V)>, k: string, v: V)
    requires d != [] && d[0].0 != k
    ensures Put(d, k, v) == [d[0]] + Put(d[1..], k, v)
  {
    var i := Find(d[1..], k);
    assert Find(d, k) == 1 + i;
    if i == |d| - 1 {
      assert d + [(k, v)] == [d[0]] + (d[1..] + [(k, v)]);
    } else {
      assert d[1 + i := (k, v)] == [d[0]] + d[1..][i := (k, v)];
    }
  }

  /** After `d[k] = v`, `d[k]` is `v` and every other key reads as before. */
  lemma {:induction false} PutGet<V>(d: seq<(string, V)>, k: string, v: V, k': string)
    ensures Get(Put(d, k, v), k') == if k' == k then Some(v) else Get(d, k')
    decreases |d|
  {
    if d == [] {
      assert Put(d, k, v) == [(k, v)];
    } else if d[0].0 != k {
      PutCons(d, k, v);
      var r := Put(d, k, v);
      assert r[0] == d[0] && r[1..] == Put(d[1..], k, v);
      PutGet(d[1..], k, v, k');
    } else {
      var r := Put(d, k, v);
      assert r == d[0 := (k, v)];
      assert r[0] == (k, v) && r[1..] == d[1..];
    }
  }

  lemma PutKeepsNoDup<V>(d: seq<(string, V)>, k: string, v: V)
    requires NoDupKeys(d)
    ensures NoDupKeys(Put(d, k, v))
  {
    var r := Put(d, k, v);
    forall i, j | 0 <= i < j < |r| ensures r[i].0 != r[j].0 {
      assert Keys(r)[i] == r[i].0 && Keys(r)[j] == r[j].0;
    }
  }

  /** The dict after assigning every pair of `kvs` in order. */
  function PutAll<V>(d: seq<(string, V)>, kvs: seq<(string, V)>): (r: seq<(string, V)>)
    decreases |kvs|
  {
    if kvs == [] then d
    else
      var n := |kvs| - 1;
      Put(PutAll(d, kvs[..n]), kvs[n].0, kvs[n].1)
  }

  /** Assigning never moves a key that is already there, and never drops one. */
  lemma {:induction false} PutAllKeepsPrefix<V>(d: seq<(string, V)>, kvs: seq<(string, V)>)
    ensures |d| <= |PutAll(d, kvs)|
    ensures Keys(PutAll(d, kvs))[..|d|] == Keys(d)
    ensures forall i :: 0 <= i < |d| && d[i].0 !in Keys(kvs) ==> PutAll(d, kvs)[i] == d[i]
    decreases |kvs|
  {
    if kvs != [] {
      var n := |kvs| - 1;
      PutAllKeepsPrefix(d, kvs[..n]);
      var m := PutAll(d, kvs[..n]);
      forall i | 0 <= i < |d| && d[i].0 !in Keys(kvs)
        ensures PutAll(d, kvs)[i] == d[i]
      {
        assert Keys(kvs[..n]) == Keys(kvs)[..n];
        assert d[i].0 !in Keys(kvs[..n]);
        assert Keys(m)[i] == d[i].0;
      }
    }
  }

  /** Lookup after assigning a dict's pairs: the assigned value wins, other keys are untouched. */
  lemma {:induction false} PutAllGet<V>(d: seq<(string, V)>, kvs: seq<(string, V)>, k: string)
    requires NoDupKeys(kvs)
    ensures Get(PutAll(d, kvs), k) == if k in Keys(kvs) then Get(kvs, k) else Get(d, k)
    decreases |kvs|
  {
    if kvs != [] {
      var n := |kvs| - 1;
      var init := kvs[..n];
      assert NoDupKeys(init);
      assert Keys(init) == Keys(kvs)[..n];
      assert Keys(kvs) == Keys(init) + [kvs[n].0];
      PutAllGet(d, init, k);
      PutGet(PutAll(d, init), kvs[n].0, kvs[n].1, k);
      if k == kvs[n].0 {
        GetAt(kvs, n);
      } else if k in Keys(init) {
        var i :| 0 <= i < n && Keys(init)[i] == k;
        GetAt(init, i);
        GetAt(kvs, i);
      }
    }
  }

  lemma {:induction false} PutAllKeepsNoDup<V>(d: seq<(string, V)>, kvs: seq<(string, V)>)
    requires NoDupKeys(d)
    ensures NoDupKeys(PutAll(d, kvs))
    decreases |kvs|
  {
    if kvs != [] {
      var n := |kvs| - 1;
      PutAllKeepsNoDup(d, kvs[..n]);
      PutKeepsNoDup(PutAll(d, kvs[..n]), kvs[n].0, kvs[n].1);
    }
  }

  /** Assigning pairs whose keys are all new appends them, in their order. */
  lemma {:induction false} PutAllFresh<V>(d: seq<(string, V)>, kvs: seq<(string, V)>)
    requires NoDupKeys(kvs)
    requires forall i :: 0 <= i < |kvs| ==> kvs[i].0 !in Keys(d)
    ensures PutAll(d, kvs) == d + kvs
    decreases |kvs|
  {
    if kvs != [] {
      var n := |kvs| - 1;
      var init := kvs[..n];
      assert NoDupKeys(init);
      PutAllFresh(d, init);
      var k := kvs[n].0;
      var m := d + init;
      forall j | 0 <= j < |m| ensures Keys(m)[j] != k {
        if j < |d| {
          assert m[j] == d[j] && Keys(d)[j] == d[j].0;
        } else {
          assert m[j] == kvs[j - |d|];
        }
      }
      assert m + [kvs[n]] == d + kvs;
    }
  }

  /** Lookup in a concatenation: the first part's entry wins. */
  lemma {:induction false} GetAppend<V>(d: seq<(string, V)>, e: seq<(string, V)>, k: string)
    ensures Get(d + e, k) == if k in Keys(d) then Get(d, k) else Get(e, k)
    decreases |d|
  {
    if d != [] {
      assert (d + e)[1..] == d[1..] + e;
      assert Keys(d) == [d[0].0] + Keys(d[1..]);
      GetAppend(d[1..], e, k);
    } else {
      assert d + e == e;
    }
  }
}
