/**
  Python dictionaries keyed by strings, as ordered association lists.

  Python dicts remember insertion order: `keys()` lists keys in the order
  they were first inserted, assigning to an existing key replaces its value
  in place, and `d.update(e)` (as well as `{**d, **e}`) assigns e's entries
  one by one, so a key present in `e` takes e's value.  Reading is `Get`,
  which returns the value of the LAST entry for a key (so a list that was
  built by assignments reads like the dict it models), `None` when absent.
 */
module Dict {

  import opened Base

  type Dict<V> = seq<(string, V)>

  /** `d.get(k)`: the value of the last entry for `k`. */
  function Get<V>(d: Dict<V>, k: string): Option<V> {
    if |d| == 0 then None
    else if d[|d| - 1].0 == k then Some(d[|d| - 1].1)
    else Get(d[..|d| - 1], k)
  }

  /** `k in d`. */
  predicate HasKey<V>(d: Dict<V>, k: string) {
    Get(d, k).Some?
  }

  /** `d.get(k, default)`. */
  function GetOr<V>(d: Dict<V>, k: string, default: V): V {
    Get(d, k).GetOr(default)
  }

  /** `list(d.keys())`: every key once, in order of first insertion. */
  function Keys<V>(d: Dict<V>): seq<string> {
    if |d| == 0 then []
    else
      var ks := Keys(d[..|d| - 1]);
      if d[|d| - 1].0 in ks then ks else ks + [d[|d| - 1].0]
  }

  /** Every entry for `k` rewritten to carry `v`. */
  function Replace<V>(d: Dict<V>, k: string, v: V): (r: Dict<V>)
    ensures |r| == |d|
    ensures forall i :: 0 <= i < |d| ==> r[i].0 == d[i].0
    ensures forall i :: 0 <= i < |d| ==> r[i] == (if d[i].0 == k then (k, v) else d[i])
  {
    seq(|d|, i requires 0 <= i < |d| => if d[i].0 == k then (k, v) else d[i])
  }

  /** `d[k] = v`: replace in place when present, append otherwise. */
  function Set<V>(d: Dict<V>, k: string, v: V): Dict<V> {
    if HasKey(d, k) then Replace(d, k, v) else d + [(k, v)]
  }

  /** `d.update(e)`, equivalently `{**d, **e}`: e's entries assigned in order. */
  function Update<V>(d: Dict<V>, e: Dict<V>): Dict<V>
    decreases |e|
  {
    if |e| == 0 then d else Update(Set(d, e[0].0, e[0].1), e[1..])
  }

  /** `d.setdefault(k, v)` as far as the dict is concerned. */
  function SetDefault<V>(d: Dict<V>, k: string, v: V): Dict<V> {
    if HasKey(d, k) then d else Set(d, k, v)
  }

  /** `d.pop(k, None)` as far as the dict is concerned. */
  function Remove<V>(d: Dict<V>, k: string): Dict<V> {
    if |d| == 0 then []
    else if d[0].0 == k then Remove(d[1..], k)
    else [d[0]] + Remove(d[1..], k)
  }

  /** A dict literal whose keys are pairwise distinct. */
  predicate DistinctKeys<V>(d: Dict<V>) {
    forall i, j :: 0 <= i < j < |d| ==> d[i].0 != d[j].0
  }

  // ---------------------------------------------------------------------
  // Lemmas.

  lemma {:induction false} KeysMembership<V>(d: Dict<V>, k: string)
    ensures k in Keys(d) <==> HasKey(d, k)
  {
    if |d| > 0 {
      KeysMembership(d[..|d| - 1], k);
    }
  }

  /** Reading a replaced dict. */
  lemma {:induction false} GetReplace<V>(d: Dict<V>, k: string, v: V, j: string)
    ensures Get(Replace(d, k, v), j) == if j == k && HasKey(d, k) then Some(v) else Get(d, j)
  {
    if |d| > 0 {
      var r := Replace(d, k, v);
      assert r[..|r| - 1] == Replace(d[..|d| - 1], k, v);
      GetReplace(d[..|d| - 1], k, v, j);
    }
  }

  lemma {:induction false} KeysReplace<V>(d: Dict<V>, k: string, v: V)
    ensures Keys(Replace(d, k, v)) == Keys(d)
  {
    if |d| > 0 {
      var r := Replace(d, k, v);
      assert r[..|r| - 1] == Replace(d[..|d| - 1], k, v);
      KeysReplace(d[..|d| - 1], k, v);
    }
  }

  /** After `d[k] = v`, `k` reads `v` and every other key reads as before. */
  lemma GetSet<V>(d: Dict<V>, k: string, v: V, j: string)
    ensures Get(Set(d, k, v), j) == if j == k then Some(v) else Get(d, j)
  {
    if HasKey(d, k) {
      GetReplace(d, k, v, j);
    } else {
      assert (d + [(k, v)])[..|d|] == d;
    }
  }

  /** Assigning an existing key keeps the key order; a new key goes last. */
  lemma KeysSet<V>(d: Dict<V>, k: string, v: V)
    ensures Keys(Set(d, k, v)) == if HasKey(d, k) then Keys(d) else Keys(d) + [k]
  {
    if HasKey(d, k) {
      KeysReplace(d, k, v);
    } else {
      assert (d + [(k, v)])[..|d|] == d;
      KeysMembership(d, k);
    }
  }

  /** `{**d, **e}`: keys of `e` read e's value, the others read d's. */
  lemma {:induction false} GetUpdate<V>(d: Dict<V>, e: Dict<V>, j: string)
    ensures Get(Update(d, e), j) == if HasKey(e, j) then Get(e, j) else Get(d, j)
    decreases |e|
  {
    if |e| > 0 {
      var d' := Set(d, e[0].0, e[0].1);
      GetUpdate(d', e[1..], j);
      GetSet(d, e[0].0, e[0].1, j);
      GetAfterFirst(e, j);
    }
  }

  /** Reading `e` from the front: the last entry for `j` is in the tail unless
      the head is the only one. */
  lemma {:induction false} GetAfterFirst<V>(e: Dict<V>, j: string)
    requires |e| > 0
    ensures Get(e, j) == if HasKey(e[1..], j) then Get(e[1..], j)
                         else if e[0].0 == j then Some(e[0].1) else None
    decreases |e|
  {
    if |e| > 1 {
      assert e[1..][..|e[1..]| - 1] == e[..|e| - 1][1..];
      GetAfterFirst(e[..|e| - 1], j);
    }
  }

  /** Every key of `{**d, **e}` is a key of `d` or of `e`, and conversely. */
  lemma UpdateHasKey<V>(d: Dict<V>, e: Dict<V>, j: string)
    ensures HasKey(Update(d, e), j) <==> HasKey(d, j) || HasKey(e, j)
  {
    GetUpdate(d, e, j);
  }

  /** `d.pop(k)` removes `k` and leaves every other key as it was. */
  lemma {:induction false} GetRemove<V>(d: Dict<V>, k: string, j: string)
    ensures Get(Remove(d, k), j) == if j == k then None else Get(d, j)
    decreases |d|
  {
    if |d| > 0 {
      GetRemove(d[1..], k, j);
      GetAfterFirst(d, j);
      var r := Remove(d, k);
      if d[0].0 != k {
        assert r[1..] == Remove(d[1..], k);
        GetAfterFirst(r, j);
      }
    }
  }

  /** Popping a key just appended pops every entry for it. */
  lemma {:induction false} RemoveAppended<V>(d: Dict<V>, k: string, v: V)
    ensures Remove(d + [(k, v)], k) == Remove(d, k)
    decreases |d|
  {
    if |d| > 0 {
      assert (d + [(k, v)])[1..] == d[1..] + [(k, v)];
      RemoveAppended(d[1..], k, v);
    }
  }

  /** `setdefault` writes only an absent key. */
  lemma GetSetDefault<V>(d: Dict<V>, k: string, v: V, j: string)
    ensures Get(SetDefault(d, k, v), j) == if j == k && !HasKey(d, k) then Some(v) else Get(d, j)
  {
    if !HasKey(d, k) {
      GetSet(d, k, v, j);
    }
  }

  /** The keys listing never repeats a key. */
  lemma {:induction false} KeysDistinct<V>(d: Dict<V>)
    ensures forall i, j :: 0 <= i < j < |Keys(d)| ==> Keys(d)[i] != Keys(d)[j]
  {
    if |d| > 0 {
      KeysDistinct(d[..|d| - 1]);
    }
  }

  /** For a literal with distinct keys the key listing is the literal's own
      key column. */
  lemma {:induction false} KeysOfDistinct<V>(d: Dict<V>)
    requires DistinctKeys(d)
    ensures Keys(d) == seq(|d|, i requires 0 <= i < |d| => d[i].0)
  {
    if |d| > 0 {
      var p := d[..|d| - 1];
      KeysOfDistinct(p);
      KeysMembership(p, d[|d| - 1].0);
      AbsentKey(p, d[|d| - 1].0);
    }
  }

  /** A key carried by no entry is absent. */
  lemma {:induction false} AbsentKey<V>(d: Dict<V>, k: string)
    requires forall i :: 0 <= i < |d| ==> d[i].0 != k
    ensures !HasKey(d, k)
  {
    if |d| > 0 {
      AbsentKey(d[..|d| - 1], k);
    }
  }

  /** In a literal with distinct keys each entry reads as written. */
  lemma {:induction false} GetOfDistinct<V>(d: Dict<V>, i: nat)
    requires DistinctKeys(d) && i < |d|
    ensures Get(d, d[i].0) == Some(d[i].1)
  {
    if i < |d| - 1 {
      GetOfDistinct(d[..|d| - 1], i);
    }
  }

  /** Every entry of a literal with distinct keys reads as written, and the
      key listing is the literal's key column. */
  lemma LiteralReads<V>(d: Dict<V>)
    requires DistinctKeys(d)
    ensures forall i :: 0 <= i < |d| ==> Get(d, d[i].0) == Some(d[i].1)
    ensures Keys(d) == seq(|d|, i requires 0 <= i < |d| => d[i].0)
  {
    forall i | 0 <= i < |d|
      ensures Get(d, d[i].0) == Some(d[i].1)
    {
      GetOfDistinct(d, i);
    }
    KeysOfDistinct(d);
  }

  /** A present key reads the value of one of its entries. */
  lemma {:induction false} GetEntry<V>(d: Dict<V>, k: string) returns (i: nat)
    requires HasKey(d, k)
    ensures i < |d| && d[i].0 == k && Get(d, k) == Some(d[i].1)
  {
    if d[|d| - 1].0 == k {
      i := |d| - 1;
    } else {
      i := GetEntry(d[..|d| - 1], k);
    }
  }
}
