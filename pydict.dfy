/**
 * A Python `dict` from strings to strings. Python dicts remember insertion
 * order (which `str(d)` shows), so the model is the list of entries in that
 * order; assigning to a key that is present replaces its value in place.
 */
module PyDict {
  import opened Wrappers

  type Dict = seq<(string, string)>

  /** `d.get(k)`, with `None` for a missing key. */
  function Get(d: Dict, k: string): Option<string>
    decreases |d|
  {
    if |d| == 0 then None
    else if d[0].0 == k then Some(d[0].1)
    else Get(d[1..], k)
  }

  /** A value found for a key is one the dict holds under that key. */
  lemma {:induction false} GetFound(d: Dict, k: string)
    ensures Get(d, k).Some? ==> (k, Get(d, k).value) in d
    decreases |d|
  {
    if |d| > 0 && d[0].0 != k {
      GetFound(d[1..], k);
    }
  }

  /** A key is missing exactly when no entry carries it. */
  lemma {:induction false} GetNone(d: Dict, k: string)
    ensures Get(d, k).None? <==> forall i :: 0 <= i < |d| ==> d[i].0 != k
    decreases |d|
  {
    if |d| > 0 {
      GetNone(d[1..], k);
      assert forall i :: 1 <= i < |d| ==> d[i] == d[1..][i - 1];
    }
  }

  /** `d.get(k, default)` */
  function GetOr(d: Dict, k: string, default: string): string
  {
    match Get(d, k)
    case Some(v) => v
    case None => default
  }

  /** `d.keys()` as a set: exactly the keys `Get` finds. */
  function Keys(d: Dict): (r: set<string>)
    ensures forall k :: k in r <==> Get(d, k).Some?
    decreases |d|
  {
    if |d| == 0 then {} else {d[0].0} + Keys(d[1..])
  }

  /** `d[k] = v` */
  function Put(d: Dict, k: string, v: string): (r: Dict)
    ensures Get(r, k) == Some(v)
    ensures forall k' :: k' != k ==> Get(r, k') == Get(d, k')
    ensures Keys(r) == Keys(d) + {k}
    ensures |r| == if k in Keys(d) then |d| else |d| + 1
    decreases |d|
  {
    if |d| == 0 then [(k, v)]
    else if d[0].0 == k then [(k, v)] + d[1..]
    else [d[0]] + Put(d[1..], k, v)
  }

  /** Assigning a key that is not yet present appends the entry at the end. */
  lemma PutNew(d: Dict, k: string, v: string)
    requires k !in Keys(d)
    ensures Put(d, k, v) == d + [(k, v)]
  {
    GetNone(d, k);
    PutAbsent(d, k, v);
  }

  /** The same, with the missing key stated entry by entry. */
  lemma {:induction false} PutAbsent(d: Dict, k: string, v: string)
    requires forall i :: 0 <= i < |d| ==> d[i].0 != k
    ensures Put(d, k, v) == d + [(k, v)]
    decreases |d|
  {
    if |d| > 0 {
      assert forall i :: 0 <= i < |d| - 1 ==> d[1..][i] == d[i + 1];
      PutAbsent(d[1..], k, v);
      assert [d[0]] + (d[1..] + [(k, v)]) == d + [(k, v)];
    }
  }

  /** No key occurs twice, as in every Python dict. */
  predicate UniqueKeys(d: Dict) {
    forall i, j :: 0 <= i < j < |d| ==> d[i].0 != d[j].0
  }

  /** The key of every entry is in the key set. */
  lemma KeyAt(d: Dict, j: int)
    requires 0 <= j < |d|
    ensures d[j].0 in Keys(d)
  {
    GetNone(d, d[j].0);
  }

  /** `d[k] = v` keeps every key unique: an existing key is overwritten in place. */
  lemma {:induction false} PutUnique(d: Dict, k: string, v: string)
    requires UniqueKeys(d)
    ensures UniqueKeys(Put(d, k, v))
    decreases |d|
  {
    if |d| > 0 && d[0].0 != k {
      var rest := Put(d[1..], k, v);
      assert UniqueKeys(d[1..]) by {
        assert forall i :: 0 <= i < |d| - 1 ==> d[1..][i] == d[i + 1];
      }
      PutUnique(d[1..], k, v);
      assert d[0].0 !in Keys(d[1..]) by {
        GetNone(d[1..], d[0].0);
        assert forall i :: 0 <= i < |d| - 1 ==> d[1..][i] == d[i + 1];
      }
      forall j | 0 <= j < |rest|
        ensures d[0].0 != rest[j].0
      {
        KeyAt(rest, j);
      }
      assert Put(d, k, v) == [d[0]] + rest;
    }
  }
}
