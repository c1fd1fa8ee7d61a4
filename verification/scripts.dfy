/**
 * The script descriptor and its invocation protocol.
 *
 * A descriptor is the immutable triple (key count, source, hash). `Do` first
 * asks the store to run the script by hash (EVALSHA) and, only when the store
 * answers with a "NOSCRIPT " error, asks again with the full source (EVAL).
 * The connection is abstract: a state `S` and a step function answering one
 * command; the store model instantiates it.
 */
module Scripts {
  import opened Options
  import opened Protocol

  datatype Script = Script(keyCount: int, src: string, hash: string) {
    /** The hash computed when the descriptor was built: for a descriptor NewScript made, the digest of its source. */
    function Hash(): (h: string)
      ensures WellFormed(this) ==> h == Sha1Hex(src) && |h| == 40
    {
      hash
    }
  }

  predicate IsLowerHex(c: char) {
    '0' <= c <= '9' || 'a' <= c <= 'f'
  }

  function HexDigit(d: nat): (c: char)
    requires d < 16
    ensures IsLowerHex(c)
  {
    if d < 10 then ('0' as int + d) as char else ('a' as int + d - 10) as char
  }

  /** The size of a 160-bit digest. */
  const DigestSpace: nat := 0x1_0000_0000_0000_0000_0000_0000_0000_0000_0000_0000

  /** A polynomial checksum of the source, reduced to 160 bits. */
  function Checksum(s: string): (n: nat)
    ensures n < DigestSpace
    decreases |s|
  {
    if |s| == 0 then 0 else (Checksum(s[..|s| - 1]) * 31 + s[|s| - 1] as nat) % DigestSpace
  }

  /** The `count` lowest hex digits of `n`, most significant first. */
  function HexDigits(n: nat, count: nat): (h: string)
    ensures |h| == count
    ensures forall i :: 0 <= i < |h| ==> IsLowerHex(h[i])
  {
    if count == 0 then [] else HexDigits(n / 16, count - 1) + [HexDigit(n % 16)]
  }

  /**
   * Stand-in for the lower-case hex rendering of the SHA-1 digest of the
   * source: deterministic, and of the same shape (20 bytes, 40 hex digits).
   * Nothing in the model relies on it being collision-free.
   */
  function Sha1Hex(src: string): (h: string)
    ensures |h| == 40
    ensures forall i :: 0 <= i < |h| ==> IsLowerHex(h[i])
  {
    HexDigits(Checksum(src), 40)
  }

  /** A descriptor as NewScript builds it: its hash is the digest of its source. */
  predicate WellFormed(s: Script) {
    s.hash == Sha1Hex(s.src)
  }

  function NewScript(keyCount: int, src: string): (s: Script)
    ensures WellFormed(s)
    ensures s.keyCount == keyCount && s.src == src
  {
    Script(keyCount, src, Sha1Hex(src))
  }

  /** Two descriptors built from the same source carry the same hash. */
  lemma NewScriptDeterministic(k1: int, k2: int, src1: string, src2: string)
    requires src1 == src2
    ensures NewScript(k1, src1).Hash() == NewScript(k2, src2).Hash()
    ensures |NewScript(k1, src1).Hash()| == 40
  {
  }

  /**
   * The argument vector of EVAL / EVALSHA: the script identifier, then the key
   * count when the descriptor fixes one, then the caller's keys and arguments.
   * With a negative count the caller's first element stands as the count.
   */
  function Args(s: Script, spec: string, keysAndArgs: seq<Arg>): (r: seq<Arg>)
    ensures s.keyCount < 0 ==> |r| == 1 + |keysAndArgs| && r[1..] == keysAndArgs
    ensures s.keyCount >= 0 ==> |r| == 2 + |keysAndArgs| && r[1] == AInt(s.keyCount) && r[2..] == keysAndArgs
    ensures r[0] == AStr(spec)
  {
    if s.keyCount < 0 then [AStr(spec)] + keysAndArgs
    else [AStr(spec), AInt(s.keyCount)] + keysAndArgs
  }

  const NoScriptPrefix := "NOSCRIPT "

  /** The one reply that makes Do fall back: a store error whose text starts with "NOSCRIPT ". */
  predicate IsNoScript(resp: Response) {
    resp.Err? && resp.error.ServerError? && NoScriptPrefix <= resp.error.msg
  }

  /** A store error in the usual "ERR ..." form is never a cache miss. */
  lemma ErrReplyIsNotNoScript(rest: string)
    ensures !IsNoScript(Err(ServerError("ERR " + rest)))
  {
    assert ("ERR " + rest)[0] != NoScriptPrefix[0];
  }

  function EvalShaCommand(s: Script, keysAndArgs: seq<Arg>): Command {
    Command("EVALSHA", Args(s, s.hash, keysAndArgs))
  }

  function EvalCommand(s: Script, keysAndArgs: seq<Arg>): Command {
    Command("EVAL", Args(s, s.src, keysAndArgs))
  }

  /** What Do returns (reply or error), the connection after it, and the commands it sent. */
  datatype Invocation<S> = Invocation(response: Response, conn: S, sent: seq<Command>)

  function Do<S>(s: Script, step: (S, Command) -> (Response, S), conn: S, keysAndArgs: seq<Arg>): (r: Invocation<S>)
    ensures 1 <= |r.sent| <= 2
    ensures r.sent[0] == Command("EVALSHA", Args(s, s.Hash(), keysAndArgs))
    ensures |r.sent| == 2 <==> IsNoScript(step(conn, r.sent[0]).0)
    ensures |r.sent| == 1 ==> (r.response, r.conn) == step(conn, r.sent[0])
    ensures |r.sent| == 2 ==>
              && r.sent[1] == Command("EVAL", Args(s, s.src, keysAndArgs))
              && r.sent[1].args[1..] == r.sent[0].args[1..]
              && (r.response, r.conn) == step(step(conn, r.sent[0]).1, r.sent[1])
  {
    var first := EvalShaCommand(s, keysAndArgs);
    var (v, c) := step(conn, first);
    if IsNoScript(v) then
      var second := EvalCommand(s, keysAndArgs);
      var (v', c') := step(c, second);
      Invocation(v', c', [first, second])
    else
      Invocation(v, c, [first])
  }

  /** Any outcome of the hash attempt other than a NOSCRIPT error is returned as it came. */
  lemma DoPassesThrough<S>(s: Script, step: (S, Command) -> (Response, S), conn: S, keysAndArgs: seq<Arg>)
    requires !IsNoScript(step(conn, EvalShaCommand(s, keysAndArgs)).0)
    ensures Do(s, step, conn, keysAndArgs).response == step(conn, EvalShaCommand(s, keysAndArgs)).0
    ensures Do(s, step, conn, keysAndArgs).sent == [EvalShaCommand(s, keysAndArgs)]
  {
  }

  /** A transport failure is never taken for a cache miss, whatever its text says. */
  lemma TransportErrorNeverFallsBack(msg: string)
    ensures !IsNoScript(Err(TransportError(msg)))
  {
  }

  /** The pipelined command SendHash queues: EVALSHA naming the script by its hash. */
  function SendHash(s: Script, keysAndArgs: seq<Arg>): (cmd: Command)
    ensures cmd.name == "EVALSHA" && cmd.args == Args(s, s.Hash(), keysAndArgs)
    ensures cmd.args[0] == AStr(s.Hash())
  {
    EvalShaCommand(s, keysAndArgs)
  }

  /** The pipelined command Send queues: EVAL carrying the full source. */
  function Send(s: Script, keysAndArgs: seq<Arg>): (cmd: Command)
    ensures cmd.name == "EVAL" && cmd.args == Args(s, s.src, keysAndArgs)
    ensures cmd.args[0] == AStr(s.src)
  {
    EvalCommand(s, keysAndArgs)
  }

  /** SendHash queues exactly the command Do tries first. */
  lemma SendHashIsDoFirstAttempt<S>(s: Script, step: (S, Command) -> (Response, S), conn: S, keysAndArgs: seq<Arg>)
    ensures SendHash(s, keysAndArgs) == Do(s, step, conn, keysAndArgs).sent[0]
  {
  }

  /** Send queues exactly the command Do falls back to, with the same keys and arguments. */
  lemma SendIsDoFallback<S>(s: Script, step: (S, Command) -> (Response, S), conn: S, keysAndArgs: seq<Arg>)
    requires IsNoScript(step(conn, SendHash(s, keysAndArgs)).0)
    ensures Send(s, keysAndArgs) == Do(s, step, conn, keysAndArgs).sent[1]
    ensures Send(s, keysAndArgs).args[1..] == SendHash(s, keysAndArgs).args[1..]
  {
  }

  function LoadCommand(s: Script): Command {
    Command("SCRIPT", [AStr("LOAD"), AStr(s.src)])
  }

  /** Load sends SCRIPT LOAD with the source; the reply is dropped and only the error is kept. */
  function Load<S>(s: Script, step: (S, Command) -> (Response, S), conn: S): (r: (Option<Error>, S))
    ensures r.1 == step(conn, Command("SCRIPT", [AStr("LOAD"), AStr(s.src)])).1
    ensures r.0.None? <==> step(conn, Command("SCRIPT", [AStr("LOAD"), AStr(s.src)])).0.Ok?
    ensures r.0.Some? ==> Err(r.0.value) == step(conn, Command("SCRIPT", [AStr("LOAD"), AStr(s.src)])).0
  {
    var (v, c) := step(conn, LoadCommand(s));
    match v
    case Ok(_) => (None, c)
    case Err(e) => (Some(e), c)
  }
}
