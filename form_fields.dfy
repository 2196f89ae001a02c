/**
 * The state both forms keep (a flat mapping from input name to the string
 * typed into it) and the request body they send (an ordered list of
 * key/value pairs, the content of a URLSearchParams buffer before it is
 * URL-encoded).
 */
module FormFields {

  datatype Option<T> = None | Some(value: T)

  /** Current value of each input of a form, keyed by the input's `name`. */
  type Fields = map<string, string>

  /** An ordered request body: the pairs appended to the parameter buffer. */
  type Pairs = seq<(string, string)>

  /** No string occurs twice. */
  predicate Distinct(keys: seq<string>) {
    forall i, j :: 0 <= i < j < |keys| ==> keys[i] != keys[j]
  }

  /** No key occurs twice among the pairs. */
  predicate DistinctKeys(pairs: Pairs) {
    forall i, j :: 0 <= i < j < |pairs| ==> pairs[i].0 != pairs[j].0
  }

  /** The state a form mounts with, and returns to after a successful submit. */
  function Blank(keys: set<string>): (r: Fields)
    ensures r.Keys == keys
    ensures forall k :: k in r ==> r[k] == ""
  {
    map k | k in keys :: ""
  }

  /**
   * `{ ...formData, [name]: value }`: the entry `name` now holds `value`;
   * every other entry is as it was, and no key other than `name` appears.
   */
  function SetField(fields: Fields, name: string, value: string): (r: Fields)
    ensures r.Keys == fields.Keys + {name}
    ensures r[name] == value
    ensures forall k :: k in fields && k != name ==> r[k] == fields[k]
  {
    fields[name := value]
  }

  /** The first value recorded for `key`, as URLSearchParams.get answers it. */
  function Get(pairs: Pairs, key: string): Option<string> {
    if pairs == [] then None
    else if pairs[0].0 == key then Some(pairs[0].1)
    else Get(pairs[1..], key)
  }

  /** The pairs (k, value of k) for the keys of `order`, in that order. */
  function Serialize(fields: Fields, order: seq<string>): (r: Pairs)
    requires forall k :: k in order ==> k in fields
    ensures |r| == |order|
    ensures forall i :: 0 <= i < |r| ==> r[i].0 == order[i] && r[i].1 == fields[order[i]]
  {
    if order == [] then []
    else [(order[0], fields[order[0]])] + Serialize(fields, order[1..])
  }

  /** With distinct keys, looking up the key of any pair finds that pair's value. */
  lemma {:induction false} GetAt(pairs: Pairs, i: nat)
    requires i < |pairs|
    requires DistinctKeys(pairs)
    ensures Get(pairs, pairs[i].0) == Some(pairs[i].1)
  {
    if i > 0 {
      assert pairs[0].0 != pairs[i].0;
      GetAt(pairs[1..], i - 1);
    }
  }

  /** A key that no pair carries is not found. */
  lemma {:induction false} GetAbsent(pairs: Pairs, key: string)
    requires forall i :: 0 <= i < |pairs| ==> pairs[i].0 != key
    ensures Get(pairs, key) == None
  {
    if pairs != [] {
      assert forall i :: 0 <= i < |pairs[1..]| ==> pairs[1..][i] == pairs[i + 1];
      GetAbsent(pairs[1..], key);
    }
  }

  /** Looking past pairs that carry other keys. */
  lemma {:induction false} GetSkip(front: Pairs, rest: Pairs, key: string)
    requires forall i :: 0 <= i < |front| ==> front[i].0 != key
    ensures Get(front + rest, key) == Get(rest, key)
  {
    if front == [] {
      assert front + rest == rest;
    } else {
      assert (front + rest)[0].0 == front[0].0 != key;
      assert (front + rest)[1..] == front[1..] + rest;
      GetSkip(front[1..], rest, key);
    }
  }

  /**
   * Decoding a serialized form gives back exactly the serialized fields:
   * each key of `order` maps to its field's value and no other key is found.
   */
  lemma {:induction false} SerializeRoundTrip(fields: Fields, order: seq<string>)
    requires forall k :: k in order ==> k in fields
    requires Distinct(order)
    ensures forall k :: Get(Serialize(fields, order), k) == if k in order then Some(fields[k]) else None
  {
    var p := Serialize(fields, order);
    assert DistinctKeys(p);
    forall k
      ensures Get(p, k) == if k in order then Some(fields[k]) else None
    {
      if k in order {
        var i :| 0 <= i < |order| && order[i] == k;
        GetAt(p, i);
      } else {
        GetAbsent(p, k);
      }
    }
  }
}
