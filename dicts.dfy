/**
 * A Python `dict[str, str]` as the sequence of its (key, value) entries in
 * insertion order: keyword-argument maps and XML attribute maps.
 */
module Dicts {
  import opened Results

  type Dict = seq<(string, string)>

  /** No key occurs twice, as in every Python dict. */
  predicate KeysDistinct(d: Dict) {
    forall i, j :: 0 <= i < j < |d| ==> d[i].0 != d[j].0
  }

  /** `k in d` */
  predicate Has(d: Dict, k: string) {
    exists i :: 0 <= i < |d| && d[i].0 == k
  }

  /** `d.get(k)`: the value under the first entry for `k`. */
  function Get(d: Dict, k: string): (r: Option<string>)
    ensures r.Some? <==> Has(d, k)
    ensures r.Some? ==> exists i :: 0 <= i < |d| && d[i] == (k, r.value)
  {
    if d == [] then None
    else if d[0].0 == k then Some(d[0].1)
    else
      var r := Get(d[1..], k);
      assert forall i :: 0 < i < |d| ==> d[i] == d[1..][i - 1];
      r
  }

  /** With distinct keys, the entry at position `i` is what Get finds. */
  lemma {:induction false} GetAt(d: Dict, i: nat)
    requires KeysDistinct(d) && i < |d|
    ensures Get(d, d[i].0) == Some(d[i].1)
  {
    if i > 0 {
      GetAt(d[1..], i - 1);
    }
  }

  /**
   * `d[k] = v`: replaces the value of an existing key where it stands,
   * and otherwise appends a new entry at the end.
   */
  function Assign(d: Dict, k: string, v: string): (r: Dict)
    ensures Has(d, k) ==> |r| == |d|
    ensures !Has(d, k) ==> r == d + [(k, v)]
  {
    if d == [] then [(k, v)]
    else if d[0].0 == k then [(k, v)] + d[1..]
    else
      assert !Has(d, k) ==> !Has(d[1..], k) by {
        if Has(d[1..], k) {
          var i :| 0 <= i < |d[1..]| && d[1..][i].0 == k;
          assert d[i + 1].0 == k;
        }
      }
      [d[0]] + Assign(d[1..], k, v)
  }

  lemma {:induction false} AssignGet(d: Dict, k: string, v: string, k': string)
    ensures Get(Assign(d, k, v), k') == if k' == k then Some(v) else Get(d, k')
  {
    if d != [] && d[0].0 != k {
      AssignGet(d[1..], k, v, k');
    }
  }

  lemma {:induction false} AssignKeysDistinct(d: Dict, k: string, v: string)
    requires KeysDistinct(d)
    ensures KeysDistinct(Assign(d, k, v))
  {
    if d != [] && d[0].0 != k {
      AssignKeysDistinct(d[1..], k, v);
      var r := Assign(d, k, v);
      forall j | 0 < j < |r| ensures r[j].0 != d[0].0 {
        AssignGet(d[1..], k, v, r[j].0);
        GetAt(Assign(d[1..], k, v), j - 1);
      }
    }
  }

  /** Assigning the same value twice is the same as assigning it once. */
  lemma {:induction false} AssignIdempotent(d: Dict, k: string, v: string)
    ensures Assign(Assign(d, k, v), k, v) == Assign(d, k, v)
  {
    if d != [] && d[0].0 != k {
      AssignIdempotent(d[1..], k, v);
    }
  }

  /** `del d[k]`: drops the entry for `k`. */
  function Delete(d: Dict, k: string): (r: Dict)
    ensures |r| <= |d|
  {
    if d == [] then []
    else if d[0].0 == k then Delete(d[1..], k)
    else [d[0]] + Delete(d[1..], k)
  }

  lemma {:induction false} DeleteGet(d: Dict, k: string, k': string)
    ensures Get(Delete(d, k), k') == if k' == k then None else Get(d, k')
  {
    if d != [] {
      DeleteGet(d[1..], k, k');
    }
  }

  lemma {:induction false} DeleteKeysDistinct(d: Dict, k: string)
    requires KeysDistinct(d)
    ensures KeysDistinct(Delete(d, k))
  {
    if d != [] {
      DeleteKeysDistinct(d[1..], k);
      if d[0].0 != k {
        var r := Delete(d, k);
        forall j | 0 < j < |r| ensures r[j].0 != d[0].0 {
          GetAt(r[1..], j - 1);
          DeleteGet(d[1..], k, r[j].0);
        }
      }
    }
  }

  /** With distinct keys, deleting a present key removes exactly one entry. */
  lemma {:induction false} DeleteCount(d: Dict, k: string)
    requires KeysDistinct(d) && Has(d, k)
    ensures |Delete(d, k)| == |d| - 1
  {
    if d[0].0 == k {
      assert !Has(d[1..], k);
      DeleteAbsent(d[1..], k);
    } else {
      var i :| 0 <= i < |d| && d[i].0 == k;
      assert d[1..][i - 1].0 == k;
      DeleteCount(d[1..], k);
    }
  }

  /** Deleting a key that is not there changes nothing. */
  lemma {:induction false} DeleteAbsent(d: Dict, k: string)
    requires !Has(d, k)
    ensures Delete(d, k) == d
  {
    if d != [] {
      assert forall i :: 0 <= i < |d[1..]| ==> d[1..][i] == d[i + 1];
      DeleteAbsent(d[1..], k);
    }
  }

  /** `d.update(e)`: assigns the entries of `e` one after the other. */
  function Update(d: Dict, e: Dict): Dict
    decreases |e|
  {
    if e == [] then d else Update(Assign(d, e[0].0, e[0].1), e[1..])
  }

  /** After an update, the keys of `e` carry `e`'s values and all other keys keep theirs. */
  lemma {:induction false} UpdateGet(d: Dict, e: Dict, k: string)
    requires KeysDistinct(e)
    ensures Get(Update(d, e), k) == if Has(e, k) then Get(e, k) else Get(d, k)
    decreases |e|
  {
    if e != [] {
      UpdateGet(Assign(d, e[0].0, e[0].1), e[1..], k);
      AssignGet(d, e[0].0, e[0].1, k);
      if k == e[0].0 {
        assert !Has(e[1..], k);
      } else if Has(e, k) {
        var i :| 0 <= i < |e| && e[i].0 == k;
        assert e[1..][i - 1].0 == k;
      }
    }
  }

  lemma {:induction false} UpdateKeysDistinct(d: Dict, e: Dict)
    requires KeysDistinct(d)
    ensures KeysDistinct(Update(d, e))
    decreases |e|
  {
    if e != [] {
      AssignKeysDistinct(d, e[0].0, e[0].1);
      UpdateKeysDistinct(Assign(d, e[0].0, e[0].1), e[1..]);
    }
  }
}
