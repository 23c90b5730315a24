/**
 * `URLSearchParams`: an ordered list of key/value pairs. Percent-encoding
 * is not modelled: keys and values are stored and serialised as they are.
 */
module Query {
  import opened Wrappers
  import opened Lists

  type Params = seq<(string, string)>

  /** `params.get(key)`: the value of the first pair with that key. */
  function Get(ps: Params, key: string): Option<string> {
    if |ps| == 0 then None
    else if ps[0].0 == key then Some(ps[0].1)
    else Get(ps[1..], key)
  }

  /** `Get` finds nothing exactly when no pair has the key, and otherwise the value
      of the first pair that has it. */
  lemma {:induction false} GetFindsFirst(ps: Params, key: string)
    ensures Get(ps, key).None? <==> forall i :: 0 <= i < |ps| ==> ps[i].0 != key
    ensures Get(ps, key).Some? ==>
              exists i :: 0 <= i < |ps| && ps[i] == (key, Get(ps, key).value)
                          && forall j :: 0 <= j < i ==> ps[j].0 != key
  {
    if |ps| > 0 && ps[0].0 != key {
      var r := Get(ps[1..], key);
      GetFindsFirst(ps[1..], key);
      assert forall i :: 1 <= i < |ps| ==> ps[i] == ps[1..][i - 1];
      if r.Some? {
        var i :| 0 <= i < |ps[1..]| && ps[1..][i] == (key, r.value)
                 && forall j :: 0 <= j < i ==> ps[1..][j].0 != key;
        assert ps[i + 1] == (key, r.value);
        assert forall j :: 1 <= j < i + 1 ==> ps[j].0 == ps[1..][j - 1].0;
      }
    } else if |ps| > 0 {
      assert ps[0] == (key, Get(ps, key).value);
    }
  }

  /** Pairs with other keys in front do not affect `Get`. */
  lemma {:induction false} GetSkipsPrefix(ps: Params, key: string, n: nat)
    requires n <= |ps|
    requires forall j :: 0 <= j < n ==> ps[j].0 != key
    ensures Get(ps, key) == Get(ps[n..], key)
  {
    if n > 0 {
      GetSkipsPrefix(ps[1..], key, n - 1);
      assert ps[1..][n - 1..] == ps[n..];
    }
  }

  function KeyIsNot(key: string): ((string, string)) -> bool {
    (q: (string, string)) => q.0 != key
  }

  /** `params.delete(key)`: drops every pair with that key, keeping the rest in order. */
  function Delete(ps: Params, key: string): (r: Params)
    ensures forall i :: 0 <= i < |r| ==> r[i].0 != key
    ensures forall i :: 0 <= i < |ps| && ps[i].0 != key ==> ps[i] in r
    ensures IsSubsequence(r, ps)
    ensures forall q :: multiset(r)[q] == if q.0 == key then 0 else multiset(ps)[q]
  {
    FilterCounts(ps, KeyIsNot(key));
    Filter(ps, KeyIsNot(key))
  }

  /** Deleting one key leaves what `Get` finds for every other key unchanged. */
  lemma {:induction false} GetAfterDelete(ps: Params, key: string, other: string)
    requires other != key
    ensures Get(Delete(ps, key), other) == Get(ps, other)
  {
    if |ps| > 0 {
      GetAfterDelete(ps[1..], key, other);
      var rest := Delete(ps[1..], key);
      if ps[0].0 != key {
        assert Delete(ps, key) == [ps[0]] + rest;
        assert ([ps[0]] + rest)[1..] == rest;
      } else {
        assert Delete(ps, key) == rest;
      }
    }
  }

  function Pair(q: (string, string)): (s: string)
    ensures |s| > 0
  {
    q.0 + "=" + q.1
  }

  /** `params.toString()`: `k=v` pairs joined by `&`. */
  function Serialize(ps: Params): (s: string)
    ensures s == "" <==> |ps| == 0
    ensures |ps| == 1 ==> s == Pair(ps[0])
  {
    if |ps| == 0 then ""
    else if |ps| == 1 then Pair(ps[0])
    else Pair(ps[0]) + "&" + Serialize(ps[1..])
  }

  /** Serialising two non-empty lists one after the other joins their texts with
      one `&`: every pair appears as `k=v`, in order, separated by `&`. */
  lemma {:induction false} SerializeConcat(ps: Params, qs: Params)
    requires |ps| > 0 && |qs| > 0
    ensures Serialize(ps + qs) == Serialize(ps) + "&" + Serialize(qs)
    decreases |ps|
  {
    assert (ps + qs)[0] == ps[0];
    assert (ps + qs)[1..] == ps[1..] + qs;
    if |ps| > 1 {
      SerializeConcat(ps[1..], qs);
    }
  }
}
