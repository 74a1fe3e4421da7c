/** The optional value used for nullable handles and undefined dictionary entries. */
module Wrappers {

  datatype Option<+T> = None | Some(value: T)

  /** Looks a key up the way a JavaScript object does: an absent key reads as undefined. */
  function Get<K, V>(m: map<K, V>, k: K): (r: Option<V>)
    ensures r.None? <==> k !in m
    ensures r.Some? ==> r.value == m[k]
  {
    if k in m then Some(m[k]) else None
  }
}
