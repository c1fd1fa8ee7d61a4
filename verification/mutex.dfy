/**
 * Mutual exclusion over interleavings. Clients are named by their owner
 * tokens; the store serialises their commands, so an interleaving is a
 * sequence of atomic store steps: an acquisition attempt (one SET), the
 * first round trip of a release (EVALSHA), its fallback round trip (EVAL,
 * only after a NOSCRIPT answer, and with any other steps in between), or
 * the clock moving on. A client waiting for its fallback is busy and sends
 * nothing else. Each client remembers the lease deadline it believes it
 * holds, read off the store's clock; a client "holds" the lock while that
 * deadline lies ahead. Transport faults are whatever the connection's fault
 * oracle says.
 */
module Mutex {
  import opened Options
  import opened Protocol
  import opened Keyspace
  import opened Scripts
  import opened Store
  import opened Lock
  import UnlockLua

  datatype Op = Acquire(owner: string) | Release(owner: string) | Fallback(owner: string) | Tick(secs: nat)

  /**
   * The store behind the shared connection, each client's believed lease
   * deadline, and the clients whose release waits for its EVAL fallback.
   */
  datatype World = World(conn: Conn, held: map<string, int>, pending: set<string>)

  /** The two commands of `owner`'s release. */
  function ReleaseBySha(key: string, owner: string): Command {
    EvalShaCommand(UnlockLua.Descriptor, UnlockArgs(key, owner))
  }

  function ReleaseBySource(key: string, owner: string): Command {
    EvalCommand(UnlockLua.Descriptor, UnlockArgs(key, owner))
  }

  function Step(key: string, w: World, op: Op): World {
    match op
    case Acquire(o) =>
      if o in w.pending then w
      else
        var r := TryLock(w.conn, key, o);
        w.(conn := r.conn, held := if r.ok then w.held[o := w.conn.server.now + LeaseSeconds] else w.held)
    case Release(o) =>
      if o in w.pending then w
      else
        var (reply, c) := RoundTrip(w.conn, ReleaseBySha(key, o));
        World(c, w.held - {o}, if IsNoScript(reply) then w.pending + {o} else w.pending)
    case Fallback(o) =>
      if o !in w.pending then w
      else World(RoundTrip(w.conn, ReleaseBySource(key, o)).1, w.held, w.pending - {o})
    case Tick(secs) =>
      w.(conn := Sleep(w.conn, secs))
  }

  function Run(key: string, w: World, ops: seq<Op>): World
    decreases |ops|
  {
    if |ops| == 0 then w else Run(key, Step(key, w, ops[0]), ops[1..])
  }

  /**
   * A release with nothing in between its round trips is UnlockScript: the
   * EVALSHA step, followed by the fallback step exactly when it left the
   * client waiting, ends on the connection UnlockScript ends on.
   */
  lemma ReleaseUninterrupted(key: string, w: World, o: string)
    requires o !in w.pending
    ensures var w1 := Step(key, w, Release(o));
            var w2 := if o in w1.pending then Step(key, w1, Fallback(o)) else w1;
            && w2.conn == UnlockScript(w.conn, key, o).conn
            && w2.held == w.held - {o}
            && w2.pending == w.pending
  {
    var inv := Do(UnlockLua.Descriptor, RoundTrip, w.conn, UnlockArgs(key, o));
    assert inv.sent[0] == ReleaseBySha(key, o);
    assert |inv.sent| == 2 ==> inv.sent[1] == ReleaseBySource(key, o);
  }

  /** `owner` believes it holds the lock and its lease has not run out. */
  predicate Holds(w: World, owner: string) {
    owner in w.held && w.conn.server.now < w.held[owner]
  }

  /** Whoever holds the lock is the one whose token the store keeps, with the same deadline. */
  ghost predicate Inv(key: string, w: World) {
    && (forall o :: o in w.pending ==> o !in w.held)
    && (forall o :: Holds(w, o) ==>
          key in w.conn.server.kv && w.conn.server.kv[key] == Entry(o, ExpiresAt(w.held[o])))
  }

  /** One release round trip, whatever the connection does, deletes the key only when it held `o`. */
  lemma ReleaseRoundTripFrame(c: Conn, key: string, o: string, bySha: bool)
    ensures var c' := RoundTrip(c, if bySha then ReleaseBySha(key, o) else ReleaseBySource(key, o)).1;
            && c'.server.now == c.server.now
            && (c'.server.kv == c.server.kv
                || (Lookup(c.server.kv, key, c.server.now) == Some(o) && c'.server.kv == c.server.kv - {key}))
  {
    UnlockStepFrame(c.server, key, o, bySha);
  }

  /** A release round trip by a client that holds nothing keeps every holder's entry. */
  lemma ReleaseKeepsHolders(key: string, w: World, w': World, o: string, bySha: bool)
    requires Inv(key, w)
    requires w'.conn == RoundTrip(w.conn, if bySha then ReleaseBySha(key, o) else ReleaseBySource(key, o)).1
    requires o !in w'.held && forall h :: h in w'.held ==> h in w.held && w'.held[h] == w.held[h]
    ensures forall h :: Holds(w', h) ==>
              key in w'.conn.server.kv && w'.conn.server.kv[key] == Entry(h, ExpiresAt(w'.held[h]))
  {
    ReleaseRoundTripFrame(w.conn, key, o, bySha);
    forall h | Holds(w', h)
      ensures key in w'.conn.server.kv && w'.conn.server.kv[key] == Entry(h, ExpiresAt(w'.held[h]))
    {
      assert Holds(w, h) && h != o;
    }
  }

  lemma {:induction false} StepKeepsInv(key: string, w: World, op: Op)
    requires Inv(key, w)
    ensures Inv(key, Step(key, w, op))
  {
    var w' := Step(key, w, op);
    match op
    case Acquire(o) =>
      if o !in w.pending {
        TryLockFrame(w.conn, key, o);
        forall h | Holds(w', h)
          ensures key in w'.conn.server.kv && w'.conn.server.kv[key] == Entry(h, ExpiresAt(w'.held[h]))
        {
          if h != o || w'.held == w.held {
            assert Holds(w, h);
          }
        }
      }
    case Release(o) =>
      if o !in w.pending {
        ReleaseKeepsHolders(key, w, w', o, true);
      }
    case Fallback(o) =>
      if o in w.pending {
        ReleaseKeepsHolders(key, w, w', o, false);
      }
    case Tick(secs) =>
      forall h | Holds(w', h)
        ensures key in w'.conn.server.kv && w'.conn.server.kv[key] == Entry(h, ExpiresAt(w'.held[h]))
      {
        assert Holds(w, h);
      }
  }

  lemma {:induction false} RunKeepsInv(key: string, w: World, ops: seq<Op>)
    requires Inv(key, w)
    ensures Inv(key, Run(key, w, ops))
    decreases |ops|
  {
    if |ops| > 0 {
      StepKeepsInv(key, w, ops[0]);
      RunKeepsInv(key, Step(key, w, ops[0]), ops[1..]);
    }
  }

  /**
   * From a state where nobody believes they hold the lock and no release is
   * half done, after any interleaving of acquisitions, release round trips
   * and clock ticks, at most one
   * client holds it, and the store keeps that client's token.
   */
  lemma MutualExclusion(key: string, start: Conn, ops: seq<Op>, o1: string, o2: string)
    ensures var w := Run(key, World(start, map[], {}), ops);
            Holds(w, o1) && Holds(w, o2) ==> o1 == o2
    ensures var w := Run(key, World(start, map[], {}), ops);
            Holds(w, o1) ==> Lookup(w.conn.server.kv, key, w.conn.server.now) == Some(o1)
  {
    RunKeepsInv(key, World(start, map[], {}), ops);
  }
}
