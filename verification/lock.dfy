/**
 * The compare-and-delete lock. Acquiring is one conditional write
 * (SET key value EX 30 NX); releasing runs the unlock script through
 * Scripts.Do so that the ownership check and the delete happen as one step
 * on the store.
 */
module Lock {
  import opened Options
  import opened Protocol
  import opened Keyspace
  import opened Scripts
  import opened Store
  import opened CacheProtocol
  import UnlockLua
  import Decimal

  /** The lease every acquisition attaches, in seconds. */
  const LeaseSeconds := 30

  function SetNxCommand(key: string, value: string): Command {
    Command("SET", [AStr(key), AStr(value), AStr("EX"), AInt(LeaseSeconds), AStr("NX")])
  }

  /** tryLock's `(ok, err)` and the connection after the call. */
  datatype Attempt = Attempt(ok: bool, err: Option<Error>, conn: Conn)

  /**
   * tryLock: a string reply means the write happened; the nil reply of a
   * refused NX write (ErrNil) is contention, reported as (false, nil); any
   * other error is reported as (false, err).
   */
  function TryLock(c: Conn, key: string, value: string): (r: Attempt)
    ensures r.ok ==> r.err == None
    ensures r.err.Some? ==> !r.ok && r.err != Some(ErrNil)
  {
    var (resp, next) := RoundTrip(c, SetNxCommand(key, value));
    match StringOf(resp)
    case Success(_) => Attempt(true, None, next)
    case Failure(ErrNil) => Attempt(false, None, next)
    case Failure(e) => Attempt(false, Some(e), next)
  }

  /** The entry a successful acquisition at time `now` writes. */
  function LeaseEntry(value: string, now: int): Entry {
    Entry(value, ExpiresAt(now + LeaseSeconds))
  }

  /** The store writes the lease only when no live entry holds the key, and otherwise answers nil. */
  lemma ExecuteSetNx(srv: Server, key: string, value: string)
    ensures Lookup(srv.kv, key, srv.now).None? ==>
              Execute(srv, SetNxCommand(key, value))
              == (Ok(Str("OK")), srv.(kv := srv.kv[key := LeaseEntry(value, srv.now)]))
    ensures Lookup(srv.kv, key, srv.now).Some? ==> Execute(srv, SetNxCommand(key, value)) == (Ok(Nil), srv)
  {
    UpperOfCaps("SET");
    UpperOfCaps("EX");
    UpperOfCaps("NX");
    Decimal.ParseFormat(LeaseSeconds);
  }

  /** On a free (absent or expired) key a delivered tryLock wins and stores the value with a 30-second lease. */
  lemma TryLockFree(c: Conn, key: string, value: string)
    requires NextFault(c).Deliver? && Lookup(c.server.kv, key, c.server.now).None?
    ensures TryLock(c, key, value).ok && TryLock(c, key, value).err == None
    ensures TryLock(c, key, value).conn.server
            == c.server.(kv := c.server.kv[key := LeaseEntry(value, c.server.now)])
  {
    ExecuteSetNx(c.server, key, value);
  }

  /** On a live key a delivered tryLock reports (false, nil) and the store is untouched. */
  lemma TryLockHeld(c: Conn, key: string, value: string)
    requires NextFault(c).Deliver? && Lookup(c.server.kv, key, c.server.now).Some?
    ensures !TryLock(c, key, value).ok && TryLock(c, key, value).err == None
    ensures TryLock(c, key, value).conn.server == c.server
  {
    ExecuteSetNx(c.server, key, value);
  }

  /** A transport failure is reported as (false, err), never as contention. */
  lemma TryLockTransportError(c: Conn, key: string, value: string)
    requires !NextFault(c).Deliver?
    ensures TryLock(c, key, value) == Attempt(false, Some(TransportError(NextFault(c).msg)), TryLock(c, key, value).conn)
  {
  }

  /**
   * Whatever the connection does, tryLock either leaves the key space alone or
   * writes exactly the lease entry under a key that was free; it wins only in
   * the second case. Every entry it writes carries an expiry.
   */
  lemma TryLockFrame(c: Conn, key: string, value: string)
    ensures var r := TryLock(c, key, value);
            && r.conn.server.now == c.server.now
            && r.conn.server.scripts == c.server.scripts
            && (r.conn.server.kv == c.server.kv
                || (Lookup(c.server.kv, key, c.server.now).None?
                    && r.conn.server.kv == c.server.kv[key := LeaseEntry(value, c.server.now)]))
    ensures TryLock(c, key, value).ok ==>
              && Lookup(c.server.kv, key, c.server.now).None?
              && TryLock(c, key, value).conn.server.kv == c.server.kv[key := LeaseEntry(value, c.server.now)]
  {
    ExecuteSetNx(c.server, key, value);
  }

  /** Two acquisitions of one key, the second at most a lease after the first, cannot both win. */
  lemma NoDoubleAcquire(c: Conn, key: string, v1: string, v2: string, pause: nat)
    requires pause <= LeaseSeconds
    ensures var first := TryLock(c, key, v1);
            !(first.ok && TryLock(Sleep(first.conn, pause), key, v2).ok)
  {
    var first := TryLock(c, key, v1);
    TryLockFrame(c, key, v1);
    var c2 := Sleep(first.conn, pause);
    TryLockFrame(c2, key, v2);
    if first.ok {
      assert Lookup(c2.server.kv, key, c2.server.now) == Some(v1);
    }
  }

  datatype FatalReason = CallFailed(error: Error) | NotInt64

  /**
   * UnlockScript's outcome: released or not, or a fatal stop (the source
   * calls log.Fatal), with the connection after the call in every case.
   */
  datatype Release = Released(ok: bool, conn: Conn) | Fatal(reason: FatalReason, conn: Conn)

  /**
   * How UnlockScript reads the script's answer: a call error is fatal, an
   * integer reply releases exactly when it is 1, any other reply is fatal
   * ("not int64") rather than "not the owner".
   */
  function Interpret(resp: Response, c: Conn): (r: Release)
    ensures r.conn == c
    ensures (r.Released? && r.ok) <==> resp == Ok(Int(1))
    ensures r.Released? <==> resp.Ok? && resp.reply.Int?
    ensures resp.Err? ==> r.Fatal? && r.reason == CallFailed(resp.error)
    ensures resp.Ok? && !resp.reply.Int? ==> r.Fatal? && r.reason == NotInt64
  {
    match resp
    case Err(e) => Fatal(CallFailed(e), c)
    case Ok(Int(n)) => Released(n == 1, c)
    case Ok(_) => Fatal(NotInt64, c)
  }

  function UnlockArgs(key: string, value: string): seq<Arg> {
    [AStr(key), AStr(value)]
  }

  /**
   * Safe release, whatever the connection does: the key space is either
   * untouched, or the key is deleted and it held `value` at that moment. A
   * reported release always comes with the delete; a reported refusal with
   * no change.
   */
  function UnlockScript(c: Conn, key: string, value: string): (r: Release)
    ensures r.conn.server.now == c.server.now
    ensures r.conn.server.kv == c.server.kv
            || (Lookup(c.server.kv, key, c.server.now) == Some(value) && r.conn.server.kv == c.server.kv - {key})
    ensures r.Released? && r.ok ==>
              Lookup(c.server.kv, key, c.server.now) == Some(value) && r.conn.server.kv == c.server.kv - {key}
    ensures r.Released? && !r.ok ==>
              Lookup(c.server.kv, key, c.server.now) != Some(value) && r.conn.server.kv == c.server.kv
  {
    UnlockDoFrame(c, key, value);
    UnlockOutcomes(c, key, value);
    var inv := Do(UnlockLua.Descriptor, RoundTrip, c, UnlockArgs(key, value));
    Interpret(inv.response, inv.conn)
  }

  /** The store reads the unlock call as KEYS = [key, value] with no ARGV, whatever the identifier. */
  lemma UnlockCallParses(spec: string, key: string, value: string)
    ensures ParseEval(Args(UnlockLua.Descriptor, spec, UnlockArgs(key, value)))
            == Success(EvalCall(spec, [key, value], []))
  {
    ParseEvalArgs(UnlockLua.Descriptor, spec, UnlockArgs(key, value));
    assert Texts(UnlockArgs(key, value)[..2]) == [key, value];
  }

  /** What one execution of either unlock command can do to the key space, and when it answers NOSCRIPT. */
  lemma UnlockStepFrame(srv: Server, key: string, value: string, bySha: bool)
    ensures var cmd := if bySha then EvalShaCommand(UnlockLua.Descriptor, UnlockArgs(key, value))
                       else EvalCommand(UnlockLua.Descriptor, UnlockArgs(key, value));
            var after := Execute(srv, cmd).1;
            && after.now == srv.now
            && (after.kv == srv.kv
                || (Lookup(srv.kv, key, srv.now) == Some(value) && after.kv == srv.kv - {key}))
            && (IsNoScript(Execute(srv, cmd).0) ==> after == srv)
  {
    var d := UnlockLua.Descriptor;
    var spec := if bySha then d.hash else d.src;
    UnlockCallParses(spec, key, value);
    ExecuteEvalSha(srv, Args(d, spec, UnlockArgs(key, value)));
    ExecuteEval(srv, Args(d, spec, UnlockArgs(key, value)));
  }

  /** Whatever the connection does, one unlock run deletes the key only when it held `value`. */
  lemma UnlockDoFrame(c: Conn, key: string, value: string)
    ensures var inv := Do(UnlockLua.Descriptor, RoundTrip, c, UnlockArgs(key, value));
            && inv.conn.server.now == c.server.now
            && (inv.conn.server.kv == c.server.kv
                || (Lookup(c.server.kv, key, c.server.now) == Some(value)
                    && inv.conn.server.kv == c.server.kv - {key}))
  {
    var d := UnlockLua.Descriptor;
    var a := UnlockArgs(key, value);
    var first := RoundTrip(c, EvalShaCommand(d, a));
    UnlockStepFrame(c.server, key, value, true);
    UnlockStepFrame(first.1.server, key, value, false);
    var inv := Do(d, RoundTrip, c, a);
    assert |inv.sent| == 2 ==> first.1.server == c.server;
  }

  /** The reply of an unlock run tells whether it deleted: 1 with the delete, 0 without. */
  lemma UnlockOutcomes(c: Conn, key: string, value: string)
    ensures var inv := Do(UnlockLua.Descriptor, RoundTrip, c, UnlockArgs(key, value));
            && (inv.response == Ok(Int(1)) ==>
                  Lookup(c.server.kv, key, c.server.now) == Some(value) && inv.conn.server.kv == c.server.kv - {key})
            && (inv.response.Ok? && inv.response.reply.Int? && inv.response != Ok(Int(1)) ==>
                  Lookup(c.server.kv, key, c.server.now) != Some(value) && inv.conn.server.kv == c.server.kv)
  {
    var d := UnlockLua.Descriptor;
    var a := UnlockArgs(key, value);
    var first := RoundTrip(c, EvalShaCommand(d, a));
    UnlockStepFrame(c.server, key, value, true);
    UnlockCallParses(d.hash, key, value);
    UnlockCallParses(d.src, key, value);
    ExecuteEvalSha(c.server, Args(d, d.hash, a));
    ExecuteEval(first.1.server, Args(d, d.src, a));
  }

  /**
   * On a reliable connection (and with no foreign script under the unlock
   * script's hash) UnlockScript never stops: it releases exactly when the key
   * holds `value`, deleting the key then and changing nothing otherwise, and
   * it leaves the script cached.
   */
  lemma UnlockReliable(c: Conn, key: string, value: string)
    requires Reliable(c) && NoCollision(c.server, UnlockLua.Descriptor)
    ensures var r := UnlockScript(c, key, value);
            && r.Released?
            && (r.ok <==> Lookup(c.server.kv, key, c.server.now) == Some(value))
            && (r.ok ==> r.conn.server.kv == c.server.kv - {key})
            && (!r.ok ==> r.conn.server.kv == c.server.kv)
            && r.conn.server.scripts == c.server.scripts[UnlockLua.Descriptor.Hash() := UnlockLua.Source]
            && r.conn.server.now == c.server.now
            && Reliable(r.conn)
  {
    var d := UnlockLua.Descriptor;
    var a := UnlockArgs(key, value);
    DoActsAsEval(d, c, a);
    UnlockCallParses(d.src, key, value);
    ExecuteEval(c.server, Args(d, d.src, a));
  }
}
