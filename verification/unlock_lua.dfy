/**
 * The compare-and-delete script that releases a lock: KEYS[1] is the lock
 * name, KEYS[2] the owner token. The store runs it atomically, so the read
 * and the delete cannot be separated by another client's command.
 */
module UnlockLua {
  import opened Options
  import opened Protocol
  import opened Keyspace
  import Scripts

  /** The script text, byte for byte, so that its hash is the one the store caches. */
  const Source: string :=
    "\n\tlocal key     = KEYS[1]\n\tlocal content = KEYS[2]\n\tlocal value = redis.call('get', key)\n"
    + "\tif value == content then\n\t    return redis.call('del', key);\n\tend\n\treturn 0\n"

  /** The process-wide descriptor: two keys, the source above. */
  const Descriptor: Scripts.Script := Scripts.NewScript(2, Source)

  /** The error Lua raises when `redis.call` is handed a nil key (no KEYS[1]). */
  const NilKeyError := "ERR " + "Lua redis() command arguments must be strings or integers"

  /**
   * One run of the script against the key space. With no KEYS[1] the GET
   * call fails; with no KEYS[2] the content is nil, which never equals the
   * stored value. DEL of a key just read as live deletes exactly one key.
   */
  function CompareAndDelete(keys: seq<string>, kv: KV, now: int): (r: (Response, KV))
    ensures |keys| == 0 ==> r == (Err(ServerError(NilKeyError)), kv)
    ensures |keys| > 0 ==> r.0 == Ok(Int(1)) || r.0 == Ok(Int(0))
    ensures r.0 == Ok(Int(1)) <==> |keys| >= 2 && Lookup(kv, keys[0], now) == Some(keys[1])
    ensures r.0 == Ok(Int(1)) ==> r.1 == kv - {keys[0]} && keys[0] in kv
    ensures r.0 != Ok(Int(1)) ==> r.1 == kv
  {
    if |keys| == 0 then (Err(ServerError(NilKeyError)), kv)
    else
      var value := Lookup(kv, keys[0], now);
      var content: Option<string> := if |keys| >= 2 then Some(keys[1]) else None;
      if value.Some? && content == value then (Ok(Int(1)), kv - {keys[0]})
      else (Ok(Int(0)), kv)
  }
}
