/**
 * The store's key space: string keys mapped to string values, each with an
 * optional expiry deadline (in whole seconds on the store's clock). An entry
 * reads as absent once the clock is past its deadline; at the deadline itself
 * it is still there.
 */
module Keyspace {
  import opened Options

  datatype Expiry = Persistent | ExpiresAt(deadline: int)

  datatype Entry = Entry(value: string, expiry: Expiry)

  type KV = map<string, Entry>

  /** An entry is live until the clock passes its deadline. */
  predicate Live(e: Entry, now: int) {
    e.expiry.Persistent? || now <= e.expiry.deadline
  }

  /** The value a read of `key` sees at time `now`. */
  function Lookup(kv: KV, key: string, now: int): (r: Option<string>)
    ensures r.Some? <==> key in kv && Live(kv[key], now)
    ensures r.Some? ==> r.value == kv[key].value
  {
    if key in kv && Live(kv[key], now) then Some(kv[key].value) else None
  }
}
