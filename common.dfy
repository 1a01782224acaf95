/** Option and Result values used for lookups that may miss and operations that may raise. */
module Common {

  datatype Option<+T> = None | Some(value: T)

  /** The exceptions the modelled code can raise and that the model keeps as values. */
  datatype Error =
    | KeyError(key: string)     // a dictionary lookup on a missing key
    | IndexError                // an index past the end of a list
    | TypeError                 // JavaScript: a property read on `undefined`

  datatype Result<+T> = Ok(value: T) | Err(error: Error)

  /**
   * `d[key]` on a dictionary kept as its list of (key, value) entries in
   * insertion order: the value of the first entry with that key, or None
   * where Python raises KeyError.
   */
  function Lookup<V>(d: seq<(string, V)>, key: string): (r: Option<V>)
    ensures r.Some? ==> exists i :: 0 <= i < |d| && d[i] == (key, r.value)
                                   && forall j :: 0 <= j < i ==> d[j].0 != key
    ensures r.None? ==> forall i :: 0 <= i < |d| ==> d[i].0 != key
  {
    if |d| == 0 then None
    else if d[0].0 == key then Some(d[0].1)
    else
      var r := Lookup(d[1..], key);
      assert forall i :: 1 <= i < |d| ==> d[i] == d[1..][i - 1];
      r
  }

  /** A Python dictionary never holds a key twice. */
  predicate UniqueKeys<V>(d: seq<(string, V)>) {
    forall i, j :: 0 <= i < j < |d| ==> d[i].0 != d[j].0
  }

  /** With unique keys, looking up the key of entry `i` finds entry `i`. */
  lemma LookupEntry<V>(d: seq<(string, V)>, i: nat)
    requires UniqueKeys(d) && i < |d|
    ensures Lookup(d, d[i].0) == Some(d[i].1)
  {
  }
}
