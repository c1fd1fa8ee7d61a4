/**
 * Concrete runs of the lock on a reliable connection: the sequence TestLock
 * performs (with its one-second pauses and its GET/TTL observations), and a
 * stale release after a lease has run out.
 */
module LockScenarios {
  import opened Protocol
  import opened Options
  import opened Keyspace
  import opened Store
  import opened Lock
  import UnlockLua

  /** What a `get` of `key` answers. */
  function GetReply(srv: Server, key: string): Response {
    match Lookup(srv.kv, key, srv.now)
    case Some(v) => Ok(Str(v))
    case None => Ok(Nil)
  }

  /** What TestLock's `get` and `ttl` calls read on a connection. */
  function Observe(c: Conn, key: string): (Response, Response) {
    (GetReply(c.server, key), Ok(Int(Ttl(c.server, key))))
  }

  /** The test's lower-case `get` and `ttl` commands read exactly what Observe says, and change nothing. */
  lemma ObserveReads(c: Conn, key: string)
    ensures Execute(c.server, Command("get", [AStr(key)])) == (Observe(c, key).0, c.server)
    ensures Execute(c.server, Command("ttl", [AStr(key)])) == (Observe(c, key).1, c.server)
  {
    var g := Upper("get");
    assert g[0] == 'G' && g[1] == 'E' && g[2] == 'T';
    assert g == "GET";
    var t := Upper("ttl");
    assert t[0] == 'T' && t[1] == 'T' && t[2] == 'L';
    assert t == "TTL";
  }

  /** A reliable tryLock on a free key, in closed form. */
  lemma AcquireFree(srv: Server, key: string, val: string)
    requires Lookup(srv.kv, key, srv.now).None?
    ensures TryLock(Conn(srv, []), key, val)
            == Attempt(true, None, Conn(srv.(kv := srv.kv[key := LeaseEntry(val, srv.now)]), []))
  {
    TryLockFree(Conn(srv, []), key, val);
  }

  /** A reliable tryLock on a live key, in closed form. */
  lemma AcquireHeld(srv: Server, key: string, val: string)
    requires Lookup(srv.kv, key, srv.now).Some?
    ensures TryLock(Conn(srv, []), key, val) == Attempt(false, None, Conn(srv, []))
  {
    TryLockHeld(Conn(srv, []), key, val);
  }

  /** A reliable unlock, in closed form. */
  lemma ReleaseReliable(srv: Server, key: string, val: string)
    requires NoCollision(srv, UnlockLua.Descriptor)
    ensures var owner := Lookup(srv.kv, key, srv.now) == Some(val);
            UnlockScript(Conn(srv, []), key, val)
            == Released(owner, Conn(Server(if owner then srv.kv - {key} else srv.kv,
                                           srv.scripts[UnlockLua.Descriptor.Hash() := UnlockLua.Source],
                                           srv.now), []))
  {
    UnlockReliable(Conn(srv, []), key, val);
  }

  /**
   * The first half of TestLock: on a free key, tryLock(val) wins; a second
   * later the read sees val with 29 seconds left; tryLock(other) loses and the
   * store is unchanged; a second later 28 seconds are left.
   */
  lemma AcquireThenContend(srv: Server, key: string, val: string, other: string)
    requires Lookup(srv.kv, key, srv.now).None?
    ensures var r1 := TryLock(Conn(srv, []), key, val);
            var c1 := Sleep(r1.conn, 1);
            var r2 := TryLock(c1, key, other);
            var c2 := Sleep(r2.conn, 1);
            && r1 == Attempt(true, None, r1.conn)
            && Observe(c1, key) == (Ok(Str(val)), Ok(Int(29)))
            && r2 == Attempt(false, None, r2.conn)
            && Observe(c2, key) == (Ok(Str(val)), Ok(Int(28)))
            && c2 == Conn(Server(srv.kv[key := LeaseEntry(val, srv.now)], srv.scripts, srv.now + 2), [])
  {
    var held := srv.kv[key := LeaseEntry(val, srv.now)];
    var r1 := TryLock(Conn(srv, []), key, val);
    AcquireFree(srv, key, val);
    assert r1 == Attempt(true, None, Conn(Server(held, srv.scripts, srv.now), []));
    var c1 := Sleep(r1.conn, 1);
    assert c1 == Conn(Server(held, srv.scripts, srv.now + 1), []);
    var r2 := TryLock(c1, key, other);
    AcquireHeld(c1.server, key, other);
    assert r2 == Attempt(false, None, c1);
  }

  /**
   * The second half of TestLock: with key holding val and `left` seconds to
   * go, unlocking with another token reports false and a second later the
   * entry is still there; unlocking with val reports true and a second later
   * the key is gone.
   */
  lemma ImpostorThenOwnerRelease(srv: Server, key: string, val: string, impostor: string, left: int)
    requires impostor != val && left > 2
    requires key in srv.kv && srv.kv[key] == Entry(val, ExpiresAt(srv.now + left))
    requires NoCollision(srv, UnlockLua.Descriptor)
    ensures var u1 := UnlockScript(Conn(srv, []), key, impostor);
            var c3 := Sleep(u1.conn, 1);
            var u2 := UnlockScript(c3, key, val);
            var c4 := Sleep(u2.conn, 1);
            && u1 == Released(false, u1.conn)
            && Observe(c3, key) == (Ok(Str(val)), Ok(Int(left - 1)))
            && u2 == Released(true, u2.conn)
            && Observe(c4, key) == (Ok(Nil), Ok(Int(-2)))
  {
    var cached := srv.scripts[UnlockLua.Descriptor.Hash() := UnlockLua.Source];
    var u1 := UnlockScript(Conn(srv, []), key, impostor);
    ReleaseReliable(srv, key, impostor);
    assert u1 == Released(false, Conn(Server(srv.kv, cached, srv.now), []));
    var c3 := Sleep(u1.conn, 1);
    assert c3 == Conn(Server(srv.kv, cached, srv.now + 1), []);
    var u2 := UnlockScript(c3, key, val);
    ReleaseReliable(c3.server, key, val);
    assert u2 == Released(true, Conn(Server(srv.kv - {key}, cached, srv.now + 1), []));
  }

  /**
   * The TestLock sequence for any key, owner token `val`, contender `other`
   * and impostor token: one second between steps, reliable connection.
   */
  lemma TestLockSequence(kv: KV, scripts: map<string, string>, start: int,
                         key: string, val: string, other: string, impostor: string)
    requires impostor != val
    requires Lookup(kv, key, start).None?
    requires NoCollision(Server(kv, scripts, start), UnlockLua.Descriptor)
    ensures var c0 := Conn(Server(kv, scripts, start), []);
            var r1 := TryLock(c0, key, val);
            var c1 := Sleep(r1.conn, 1);
            var r2 := TryLock(c1, key, other);
            var c2 := Sleep(r2.conn, 1);
            var u1 := UnlockScript(c2, key, impostor);
            var c3 := Sleep(u1.conn, 1);
            var u2 := UnlockScript(c3, key, val);
            var c4 := Sleep(u2.conn, 1);
            && r1 == Attempt(true, None, r1.conn)
            && Observe(c1, key) == (Ok(Str(val)), Ok(Int(29)))
            && r2 == Attempt(false, None, r2.conn)
            && Observe(c2, key) == (Ok(Str(val)), Ok(Int(28)))
            && u1 == Released(false, u1.conn)
            && Observe(c3, key) == (Ok(Str(val)), Ok(Int(27)))
            && u2 == Released(true, u2.conn)
            && Observe(c4, key) == (Ok(Nil), Ok(Int(-2)))
  {
    var srv := Server(kv, scripts, start);
    var held := kv[key := LeaseEntry(val, start)];
    AcquireThenContend(srv, key, val, other);
    var r1 := TryLock(Conn(srv, []), key, val);
    var r2 := TryLock(Sleep(r1.conn, 1), key, other);
    var c2 := Sleep(r2.conn, 1);
    assert c2 == Conn(Server(held, scripts, start + 2), []);
    ImpostorThenOwnerRelease(c2.server, key, val, impostor, 28);
  }

  /**
   * TestLock on a reliable connection whose store has "lock_key" free:
   * tryLock(lock_val) wins; tryLock(lock_valss) loses; unlocking with
   * lock_valxx reports false and the entry survives; unlocking with lock_val
   * reports true and the key is gone. The reads between the steps, one
   * second apart, see the value with 29, 28 and 27 seconds left, then nothing.
   */
  lemma TestLock(kv: KV, scripts: map<string, string>, start: int)
    requires Lookup(kv, "lock_key", start).None?
    requires NoCollision(Server(kv, scripts, start), UnlockLua.Descriptor)
    ensures var key, val := "lock_key", "lock_val";
            var c0 := Conn(Server(kv, scripts, start), []);
            var r1 := TryLock(c0, key, val);
            var c1 := Sleep(r1.conn, 1);
            var r2 := TryLock(c1, key, val + "ss");
            var c2 := Sleep(r2.conn, 1);
            var u1 := UnlockScript(c2, key, val + "xx");
            var c3 := Sleep(u1.conn, 1);
            var u2 := UnlockScript(c3, key, val);
            var c4 := Sleep(u2.conn, 1);
            && r1 == Attempt(true, None, r1.conn)
            && Observe(c1, key) == (Ok(Str(val)), Ok(Int(29)))
            && r2 == Attempt(false, None, r2.conn)
            && Observe(c2, key) == (Ok(Str(val)), Ok(Int(28)))
            && u1 == Released(false, u1.conn)
            && Observe(c3, key) == (Ok(Str(val)), Ok(Int(27)))
            && u2 == Released(true, u2.conn)
            && Observe(c4, key) == (Ok(Nil), Ok(Int(-2)))
  {
    assert |"lock_val" + "xx"| != |"lock_val"|;
    TestLockSequence(kv, scripts, start, "lock_key", "lock_val", "lock_val" + "ss", "lock_val" + "xx");
  }

  /**
   * A stale release: A's lease runs out, B acquires, and A's late release
   * reports false and leaves B's entry in place.
   */
  lemma StaleUnlockRejected(kv: KV, scripts: map<string, string>, start: int, key: string, a: string, b: string, pause: nat)
    requires a != b && pause > LeaseSeconds
    requires Lookup(kv, key, start).None?
    requires NoCollision(Server(kv, scripts, start), UnlockLua.Descriptor)
    ensures var c0 := Conn(Server(kv, scripts, start), []);
            var ra := TryLock(c0, key, a);
            var rb := TryLock(Sleep(ra.conn, pause), key, b);
            var ua := UnlockScript(rb.conn, key, a);
            && ra.ok && rb.ok
            && ua == Released(false, ua.conn)
            && key in ua.conn.server.kv
            && ua.conn.server.kv[key] == Entry(b, ExpiresAt(start + pause + LeaseSeconds))
  {
    var srv := Server(kv, scripts, start);
    var held := kv[key := LeaseEntry(a, start)];
    var ra := TryLock(Conn(srv, []), key, a);
    AcquireFree(srv, key, a);
    assert ra.conn == Conn(Server(held, scripts, start), []);
    var c1 := Sleep(ra.conn, pause);
    assert c1 == Conn(Server(held, scripts, start + pause), []);
    var taken := held[key := LeaseEntry(b, start + pause)];
    var rb := TryLock(c1, key, b);
    AcquireFree(c1.server, key, b);
    assert rb == Attempt(true, None, Conn(Server(taken, scripts, start + pause), []));
    assert Lookup(taken, key, start + pause) == Some(b);
    ReleaseReliable(rb.conn.server, key, a);
    var ua := UnlockScript(rb.conn, key, a);
    assert ua.conn.server.kv == taken;
  }

  /** Releasing with the owner's token frees the key at once: a second client then wins. */
  lemma ReleaseThenReacquire(kv: KV, scripts: map<string, string>, start: int, key: string, a: string, b: string)
    requires Lookup(kv, key, start).None?
    requires NoCollision(Server(kv, scripts, start), UnlockLua.Descriptor)
    ensures var c0 := Conn(Server(kv, scripts, start), []);
            var ra := TryLock(c0, key, a);
            var ua := UnlockScript(ra.conn, key, a);
            var rb := TryLock(ua.conn, key, b);
            ra.ok && ua == Released(true, ua.conn) && rb.ok
  {
    var c0 := Conn(Server(kv, scripts, start), []);
    var ra := TryLock(c0, key, a);
    TryLockFree(c0, key, a);
    UnlockReliable(ra.conn, key, a);
    var ua := UnlockScript(ra.conn, key, a);
    TryLockFree(ua.conn, key, b);
  }
}
