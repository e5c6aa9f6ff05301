/** Python dictionaries keyed by strings: insertion-ordered, `d[k] = v` keeps the
    position of an existing key, `d.update(e)` assigns e's entries in e's order. */
module ODicts {

  datatype ODict<V> = ODict(keys: seq<string>, vals: map<string, V>)

  /** Keys are listed once each, and exactly the keys of the mapping are listed. */
  ghost predicate Wf<V>(d: ODict<V>)
  {
    && (forall i, j :: 0 <= i < j < |d.keys| ==> d.keys[i] != d.keys[j])
    && (forall k :: k in d.vals <==> k in d.keys)
  }

  function Empty<V>(): (d: ODict<V>)
    ensures Wf(d)
  {
    ODict([], map[])
  }

  /** `d[k] = v`. */
  function Set<V>(d: ODict<V>, k: string, v: V): (r: ODict<V>)
    requires Wf(d)
    ensures Wf(r)
    ensures r.keys == AddKey(d.keys, k)
    ensures r.vals == d.vals[k := v]
  {
    if k in d.vals then ODict(d.keys, d.vals[k := v]) else ODict(d.keys + [k], d.vals[k := v])
  }

  /** `d.update(e)`: e's keys not yet in `d` are appended in e's order, and e's
      values win on every shared key. */
  function Update<V>(d: ODict<V>, e: ODict<V>): (r: ODict<V>)
    requires Wf(d) && Wf(e)
    ensures Wf(r)
    ensures r.keys == AddKeys(d.keys, e.keys)
    ensures forall k :: k in r.vals <==> k in d.vals || k in e.vals
    ensures forall k :: k in e.vals ==> r.vals[k] == e.vals[k]
    ensures forall k :: k in d.vals && k !in e.vals ==> r.vals[k] == d.vals[k]
  {
    AddKeysMembers(d.keys, e.keys);
    AddKeysDistinct(d.keys, e.keys);
    ODict(AddKeys(d.keys, e.keys), d.vals + e.vals)
  }

  /** `list(d.values())`. */
  function Values<V>(d: ODict<V>): (vs: seq<V>)
    requires Wf(d)
    ensures |vs| == |d.keys|
    ensures forall i :: 0 <= i < |d.keys| ==> vs[i] == d.vals[d.keys[i]]
  {
    seq(|d.keys|, i requires 0 <= i < |d.keys| => d.vals[d.keys[i]])
  }

  /** Key list after a fresh assignment of `k`: unchanged if present, appended otherwise. */
  function AddKey(ks: seq<string>, k: string): seq<string>
  {
    if k in ks then ks else ks + [k]
  }

  /** Key list after assigning the keys of `more` in order. */
  function AddKeys(ks: seq<string>, more: seq<string>): seq<string>
    decreases |more|
  {
    if |more| == 0 then ks else AddKey(AddKeys(ks, more[..|more| - 1]), more[|more| - 1])
  }

  /** The distinct elements of `s` in order of first appearance. */
  function Dedup(s: seq<string>): seq<string>
  {
    AddKeys([], s)
  }

  lemma {:induction false} AddKeysMembers(ks: seq<string>, more: seq<string>)
    ensures forall x :: x in AddKeys(ks, more) <==> x in ks || x in more
    decreases |more|
  {
    if |more| > 0 {
      AddKeysMembers(ks, more[..|more| - 1]);
      assert more == more[..|more| - 1] + [more[|more| - 1]];
    }
  }

  lemma {:induction false} AddKeysDistinct(ks: seq<string>, more: seq<string>)
    requires forall i, j :: 0 <= i < j < |ks| ==> ks[i] != ks[j]
    ensures forall i, j :: 0 <= i < j < |AddKeys(ks, more)| ==> AddKeys(ks, more)[i] != AddKeys(ks, more)[j]
    decreases |more|
  {
    if |more| > 0 {
      AddKeysDistinct(ks, more[..|more| - 1]);
    }
  }

  /** Adding a list's keys then another's is adding their concatenation. */
  lemma {:induction false} AddKeysConcat(ks: seq<string>, a: seq<string>, b: seq<string>)
    ensures AddKeys(AddKeys(ks, a), b) == AddKeys(ks, a + b)
    decreases |b|
  {
    if |b| == 0 {
      assert a + b == a;
    } else {
      AddKeysConcat(ks, a, b[..|b| - 1]);
      assert (a + b)[..|a + b| - 1] == a + b[..|b| - 1];
    }
  }

  /** Adding the deduplicated keys of `a` is the same as adding `a` itself. */
  lemma {:induction false} AddKeysDedup(ks: seq<string>, a: seq<string>)
    ensures AddKeys(ks, Dedup(a)) == AddKeys(ks, a)
    decreases |a|
  {
    if |a| > 0 {
      var init, x := a[..|a| - 1], a[|a| - 1];
      AddKeysDedup(ks, init);
      AddKeysMembers([], init);
      AddKeysMembers(ks, init);
      if x in Dedup(init) {
        assert Dedup(a) == Dedup(init);
      } else {
        assert Dedup(a) == Dedup(init) + [x];
        assert (Dedup(init) + [x])[..|Dedup(init) + [x]| - 1] == Dedup(init);
      }
    }
  }

  /** Adding keys that are all present already changes nothing. */
  lemma {:induction false} AddKeysPresent(ks: seq<string>, more: seq<string>)
    requires forall x :: x in more ==> x in ks
    ensures AddKeys(ks, more) == ks
    decreases |more|
  {
    if |more| > 0 {
      AddKeysPresent(ks, more[..|more| - 1]);
    }
  }

  /** Updating with entries the dict already holds changes nothing. */
  lemma UpdateSubsumed<V>(d: ODict<V>, e: ODict<V>)
    requires Wf(d) && Wf(e)
    requires forall k :: k in e.vals ==> k in d.vals && d.vals[k] == e.vals[k]
    ensures Update(d, e) == d
  {
    AddKeysPresent(d.keys, e.keys);
    assert d.vals + e.vals == d.vals;
  }
}
