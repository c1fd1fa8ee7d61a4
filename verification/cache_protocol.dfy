/**
 * The invocation protocol of Scripts run against the abstract store: the
 * argument vector the client lays out is read back by the store as the
 * intended script identifier, KEYS and ARGV; the EVALSHA-then-EVAL fallback
 * is invisible in the outcome; and once the fallback or a Load has run, the
 * script is cached so that hash-only calls no longer miss.
 */
module CacheProtocol {
  import opened Options
  import opened Protocol
  import opened Scripts
  import opened Store
  import Decimal

  /** With a fixed key count, the store splits the caller's values into exactly that many KEYS and the rest as ARGV. */
  lemma ParseEvalArgs(s: Script, spec: string, keysAndArgs: seq<Arg>)
    requires 0 <= s.keyCount <= |keysAndArgs|
    ensures ParseEval(Args(s, spec, keysAndArgs))
            == Success(EvalCall(spec, Texts(keysAndArgs[..s.keyCount]), Texts(keysAndArgs[s.keyCount..])))
  {
    var a := Args(s, spec, keysAndArgs);
    var k := s.keyCount;
    Decimal.ParseFormat(k);
    assert a[2..2 + k] == keysAndArgs[..k];
    assert a[2 + k..] == keysAndArgs[k..];
  }

  /** A fixed key count larger than the values supplied is refused before anything runs. */
  lemma ParseEvalArgsTooFew(s: Script, spec: string, keysAndArgs: seq<Arg>)
    requires s.keyCount > |keysAndArgs|
    ensures ParseEval(Args(s, spec, keysAndArgs)) == Failure(ServerError(TooManyKeys))
  {
    Decimal.ParseFormat(s.keyCount);
  }

  /** With a negative key count, the caller's first value is read as the count and the rest split by it. */
  lemma ParseEvalCallerCount(s: Script, spec: string, keysAndArgs: seq<Arg>, n: int)
    requires s.keyCount < 0 && |keysAndArgs| >= 1
    requires Decimal.ParseInt(Text(keysAndArgs[0])) == Some(n) && 0 <= n <= |keysAndArgs| - 1
    ensures ParseEval(Args(s, spec, keysAndArgs))
            == Success(EvalCall(spec, Texts(keysAndArgs[1..1 + n]), Texts(keysAndArgs[1 + n..])))
  {
    var a := Args(s, spec, keysAndArgs);
    assert a[1] == keysAndArgs[0];
    assert a[2..2 + n] == keysAndArgs[1..1 + n];
    assert a[2 + n..] == keysAndArgs[1 + n..];
  }

  /** The hash and the source attempts carry the same count, keys and arguments. */
  lemma ParseEvalIgnoresSpec(s: Script, a: string, b: string, keysAndArgs: seq<Arg>)
    requires |Args(s, a, keysAndArgs)| >= 2
    ensures ParseEval(Args(s, a, keysAndArgs)).Success? == ParseEval(Args(s, b, keysAndArgs)).Success?
    ensures ParseEval(Args(s, a, keysAndArgs)).Failure? ==>
              ParseEval(Args(s, a, keysAndArgs)) == ParseEval(Args(s, b, keysAndArgs))
    ensures ParseEval(Args(s, a, keysAndArgs)).Success? ==>
              ParseEval(Args(s, b, keysAndArgs)).value == ParseEval(Args(s, a, keysAndArgs)).value.(spec := b)
  {
    var x := Args(s, a, keysAndArgs);
    var y := Args(s, b, keysAndArgs);
    assert x[1..] == y[1..];
    assert x[1] == y[1];
    assert x[2..] == y[2..];
  }

  lemma ExecuteEvalSha(srv: Server, args: seq<Arg>)
    ensures Execute(srv, Command("EVALSHA", args))
            == if |args| < 2 then (Err(WrongArity("evalsha")), srv) else ExecEvalSha(srv, args)
  {
    UpperOfCaps("EVALSHA");
  }

  lemma ExecuteEval(srv: Server, args: seq<Arg>)
    ensures Execute(srv, Command("EVAL", args))
            == if |args| < 2 then (Err(WrongArity("eval")), srv) else ExecEval(srv, args)
  {
    UpperOfCaps("EVAL");
  }

  /** Every error the store can answer to EVALSHA with a cached hash is something other than NOSCRIPT. */
  lemma CachedNeverMisses(srv: Server, s: Script, keysAndArgs: seq<Arg>)
    requires s.Hash() in srv.scripts
    ensures !IsNoScript(Execute(srv, SendHash(s, keysAndArgs)).0)
  {
    var args := Args(s, s.hash, keysAndArgs);
    ExecuteEvalSha(srv, args);

  }

  /**
   * The fallback is invisible: on a reliable connection, and when the cache
   * holds no other script under this hash, Do answers and changes the store
   * exactly as a single EVAL of the source would. (Only the arity error of a
   * vector too short to hold a count names the command, so that case is
   * excluded.)
   */
  lemma DoActsAsEval(s: Script, c: Conn, keysAndArgs: seq<Arg>)
    requires WellFormed(s) && Reliable(c) && NoCollision(c.server, s)
    requires s.keyCount >= 0 || |keysAndArgs| > 0
    ensures Do(s, RoundTrip, c, keysAndArgs).response == Execute(c.server, EvalCommand(s, keysAndArgs)).0
    ensures Do(s, RoundTrip, c, keysAndArgs).conn.server == Execute(c.server, EvalCommand(s, keysAndArgs)).1
    ensures Reliable(Do(s, RoundTrip, c, keysAndArgs).conn)
  {
    var sha := Args(s, s.hash, keysAndArgs);
    var src := Args(s, s.src, keysAndArgs);
    ExecuteEvalSha(c.server, sha);
    ExecuteEval(c.server, src);
    var first := RoundTrip(c, EvalShaCommand(s, keysAndArgs));
    assert Reliable(first.1);
    if |sha| >= 2 {
      ParseEvalIgnoresSpec(s, s.hash, s.src, keysAndArgs);
      match ParseEval(sha)
      case Failure(e) =>
      case Success(call) =>
        var callSrc := call.(spec := s.src);
        assert ParseEval(src) == Success(callSrc);
        if s.hash in c.server.scripts {
          assert c.server.scripts[s.hash := s.src] == c.server.scripts;
          assert c.server.(scripts := c.server.scripts[s.hash := s.src]) == c.server;
          assert first.0 == RunScript(c.server, s.src, call).0;
          assert RunScript(c.server, s.src, call) == RunScript(c.server, s.src, callSrc);
        } else {
          assert first == (Err(ServerError(NoScriptMessage)), Conn(c.server, RestFaults(c)));
          assert NoScriptPrefix <= NoScriptMessage;
          ExecuteEval(first.1.server, src);
        }
    }
  }

  /**
   * A miss on a reliable connection: Do falls back to EVAL, answers what EVAL
   * answers, and leaves the source cached under the descriptor's hash.
   */
  lemma CacheMissFallsBack(s: Script, c: Conn, keysAndArgs: seq<Arg>)
    requires WellFormed(s) && Reliable(c) && s.Hash() !in c.server.scripts
    requires |Args(s, s.hash, keysAndArgs)| >= 2 && ParseEval(Args(s, s.hash, keysAndArgs)).Success?
    ensures |Do(s, RoundTrip, c, keysAndArgs).sent| == 2
    ensures Do(s, RoundTrip, c, keysAndArgs).conn.server.scripts == c.server.scripts[s.Hash() := s.src]
    ensures Do(s, RoundTrip, c, keysAndArgs).response == Execute(c.server, EvalCommand(s, keysAndArgs)).0
  {
    var sha := Args(s, s.hash, keysAndArgs);
    ExecuteEvalSha(c.server, sha);
    ExecuteEval(c.server, Args(s, s.src, keysAndArgs));
    ParseEvalIgnoresSpec(s, s.hash, s.src, keysAndArgs);
    assert NoScriptPrefix <= NoScriptMessage;
    DoActsAsEval(s, c, keysAndArgs);
  }

  /** After a fallback on a reliable connection the script is cached, so the next EVALSHA cannot miss. */
  lemma FallbackCaches(s: Script, c: Conn, keysAndArgs: seq<Arg>)
    requires WellFormed(s) && Reliable(c)
    requires |Do(s, RoundTrip, c, keysAndArgs).sent| == 2
    ensures Do(s, RoundTrip, c, keysAndArgs).conn.server.scripts == c.server.scripts[s.Hash() := s.src]
    ensures !IsNoScript(Execute(Do(s, RoundTrip, c, keysAndArgs).conn.server, SendHash(s, keysAndArgs)).0)
  {
    var sha := Args(s, s.hash, keysAndArgs);
    ExecuteEvalSha(c.server, sha);
    assert |sha| >= 2 && ParseEval(sha).Success?;
    CacheMissFallsBack(s, c, keysAndArgs);
    CachedNeverMisses(Do(s, RoundTrip, c, keysAndArgs).conn.server, s, keysAndArgs);
  }

  lemma ExecuteLoad(srv: Server, s: Script)
    ensures Execute(srv, LoadCommand(s)) == (Ok(Str(Sha1Hex(s.src))), srv.(scripts := srv.scripts[Sha1Hex(s.src) := s.src]))
  {
    UpperOfCaps("SCRIPT");
    UpperOfCaps("LOAD");
  }

  /**
   * A delivered Load reports no error, caches the source under the hash and
   * touches nothing else; afterwards no EVALSHA of the script misses,
   * whatever keys and arguments it carries.
   */
  lemma LoadCaches(s: Script, c: Conn, keysAndArgs: seq<Arg>)
    requires WellFormed(s) && NextFault(c).Deliver?
    ensures Load(s, RoundTrip, c).0 == None
    ensures Load(s, RoundTrip, c).1.server == c.server.(scripts := c.server.scripts[s.Hash() := s.src])
    ensures !IsNoScript(Execute(Load(s, RoundTrip, c).1.server, SendHash(s, keysAndArgs)).0)
  {
    ExecuteLoad(c.server, s);
    CachedNeverMisses(Load(s, RoundTrip, c).1.server, s, keysAndArgs);
  }

  /** A Load whose request is lost reports the transport error and leaves the store as it was. */
  lemma LoadLost(s: Script, c: Conn)
    requires NextFault(c).DropRequest?
    ensures Load(s, RoundTrip, c).0 == Some(TransportError(NextFault(c).msg))
    ensures Load(s, RoundTrip, c).1.server == c.server
  {
  }
}
