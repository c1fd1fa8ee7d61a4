/**
 * An abstract store answering the commands the core sends: SET (plain, and
 * with EX n NX), GET, TTL, EVAL, EVALSHA and SCRIPT LOAD. It executes one
 * command at a time, so every command is atomic. Scripts are cached under
 * the digest of their source. A connection adds a transport-fault oracle:
 * each round trip consumes one fault, which either delivers, loses the
 * request (the store never sees it) or loses the reply (the store executed
 * the command but the client gets an error).
 */
module Store {
  import opened Options
  import opened Protocol
  import opened Keyspace
  import opened Scripts
  import Decimal
  import UnlockLua

  datatype Server = Server(kv: KV, scripts: map<string, string>, now: int)

  /** The parsed EVAL / EVALSHA request: script identifier, KEYS and ARGV. */
  datatype EvalCall = EvalCall(spec: string, keys: seq<string>, argv: seq<string>)

  const NoScriptMessage := "NOSCRIPT No matching script. Please use EVAL."
  const NotAnInteger := "ERR " + "value is not an integer or out of range"
  const TooManyKeys := "ERR " + "Number of keys can't be greater than number of args"
  const NegativeKeys := "ERR " + "Number of keys can't be negative"
  const UnmodelledScript := "ERR " + "script is not the unlock script"
  const InvalidExpire := "ERR " + "invalid expire time in 'set' command"

  function WrongArity(command: string): (e: Error)
    ensures !IsNoScript(Err(e))
  {
    ErrReplyIsNotNoScript("wrong number of arguments for '" + command + "' command");
    ServerError("ERR " + "wrong number of arguments for '" + command + "' command")
  }

  /** Reads `spec numkeys key... arg...`; the count is checked before anything runs. */
  function ParseEval(args: seq<Arg>): (r: Result<EvalCall, Error>)
    requires |args| >= 2
    ensures r.Success? ==> r.value.spec == Text(args[0])
    ensures r.Success? ==> Texts(args[2..]) == r.value.keys + r.value.argv
    ensures r.Failure? ==> r.error.ServerError? && !IsNoScript(Err(r.error))
  {
    ErrReplyIsNotNoScript("value is not an integer or out of range");
    ErrReplyIsNotNoScript("Number of keys can't be greater than number of args");
    ErrReplyIsNotNoScript("Number of keys can't be negative");
    match Decimal.ParseInt(Text(args[1]))
    case None => Failure(ServerError(NotAnInteger))
    case Some(n) =>
      if n > |args| - 2 then Failure(ServerError(TooManyKeys))
      else if n < 0 then Failure(ServerError(NegativeKeys))
      else Success(EvalCall(Text(args[0]), Texts(args[2..2 + n]), Texts(args[2 + n..])))
  }

  /** Runs a script source; only the unlock script is interpreted. */
  function RunScript(srv: Server, src: string, call: EvalCall): (r: (Response, Server))
    ensures r.1.scripts == srv.scripts && r.1.now == srv.now
    ensures !IsNoScript(r.0)
  {
    if src == UnlockLua.Source then
      assert UnlockLua.NilKeyError[0] != NoScriptPrefix[0];
      var (resp, kv) := UnlockLua.CompareAndDelete(call.keys, srv.kv, srv.now);
      (resp, srv.(kv := kv))
    else
      assert UnmodelledScript[0] != NoScriptPrefix[0];
      (Err(ServerError(UnmodelledScript)), srv)
  }

  /** EVAL caches the source under its digest, then runs it. */
  function ExecEval(srv: Server, args: seq<Arg>): (r: (Response, Server))
    requires |args| >= 2
  {
    match ParseEval(args)
    case Failure(e) => (Err(e), srv)
    case Success(call) =>
      var cached := srv.(scripts := srv.scripts[Sha1Hex(call.spec) := call.spec]);
      RunScript(cached, call.spec, call)
  }

  /** EVALSHA runs the cached source named by the hash, or answers NOSCRIPT. */
  function ExecEvalSha(srv: Server, args: seq<Arg>): (r: (Response, Server))
    requires |args| >= 2
  {
    match ParseEval(args)
    case Failure(e) => (Err(e), srv)
    case Success(call) =>
      if call.spec in srv.scripts then RunScript(srv, srv.scripts[call.spec], call)
      else (Err(ServerError(NoScriptMessage)), srv)
  }

  /** SET key value, or SET key value EX seconds NX (write only when no live entry exists). */
  function ExecSet(srv: Server, args: seq<Arg>): (r: (Response, Server))
    requires |args| >= 2
  {
    var key := Text(args[0]);
    var value := Text(args[1]);
    if |args| == 2 then
      (Ok(Str("OK")), srv.(kv := srv.kv[key := Entry(value, Persistent)]))
    else if |args| == 5 && Upper(Text(args[2])) == "EX" && Upper(Text(args[4])) == "NX" then
      match Decimal.ParseInt(Text(args[3]))
      case None => (Err(ServerError(NotAnInteger)), srv)
      case Some(secs) =>
        if secs <= 0 then (Err(ServerError(InvalidExpire)), srv)
        else if Lookup(srv.kv, key, srv.now).Some? then (Ok(Nil), srv)
        else (Ok(Str("OK")), srv.(kv := srv.kv[key := Entry(value, ExpiresAt(srv.now + secs))]))
    else (Err(ServerError("ERR syntax error")), srv)
  }

  /** TTL: -2 for an absent key, -1 for a key without expiry, else the seconds left. */
  function Ttl(srv: Server, key: string): (r: int)
    ensures r == -2 <==> Lookup(srv.kv, key, srv.now).None?
    ensures r >= 0 ==> srv.kv[key].expiry == ExpiresAt(srv.now + r)
  {
    if Lookup(srv.kv, key, srv.now).None? then -2
    else match srv.kv[key].expiry
      case Persistent => -1
      case ExpiresAt(d) => d - srv.now
  }

  /** One command, executed atomically. Command names are case-insensitive. */
  function Execute(srv: Server, cmd: Command): (r: (Response, Server))
    ensures r.1.now == srv.now
    ensures srv.scripts.Keys <= r.1.scripts.Keys
  {
    var name := Upper(cmd.name);
    var args := cmd.args;
    if name == "SET" then
      if |args| < 2 then (Err(WrongArity("set")), srv) else ExecSet(srv, args)
    else if name == "GET" then
      if |args| != 1 then (Err(WrongArity("get")), srv)
      else match Lookup(srv.kv, Text(args[0]), srv.now)
        case Some(v) => (Ok(Str(v)), srv)
        case None => (Ok(Nil), srv)
    else if name == "TTL" then
      if |args| != 1 then (Err(WrongArity("ttl")), srv)
      else (Ok(Int(Ttl(srv, Text(args[0])))), srv)
    else if name == "EVAL" then
      if |args| < 2 then (Err(WrongArity("eval")), srv) else ExecEval(srv, args)
    else if name == "EVALSHA" then
      if |args| < 2 then (Err(WrongArity("evalsha")), srv) else ExecEvalSha(srv, args)
    else if name == "SCRIPT" then
      if |args| == 2 && Upper(Text(args[0])) == "LOAD" then
        var src := Text(args[1]);
        (Ok(Str(Sha1Hex(src))), srv.(scripts := srv.scripts[Sha1Hex(src) := src]))
      else (Err(ServerError("ERR unknown subcommand")), srv)
    else (Err(ServerError("ERR unknown command '" + cmd.name + "'")), srv)
  }

  datatype Fault = Deliver | DropRequest(msg: string) | DropReply(msg: string)

  /** A connection: the store behind it and the fate of each coming round trip (none left: deliver). */
  datatype Conn = Conn(server: Server, faults: seq<Fault>)

  predicate Reliable(c: Conn) {
    forall i :: 0 <= i < |c.faults| ==> c.faults[i].Deliver?
  }

  function NextFault(c: Conn): Fault {
    if |c.faults| == 0 then Deliver else c.faults[0]
  }

  function RestFaults(c: Conn): seq<Fault> {
    if |c.faults| == 0 then [] else c.faults[1..]
  }

  /** `Conn.Do`: send one command and wait for its reply. */
  function RoundTrip(c: Conn, cmd: Command): (r: (Response, Conn))
    ensures r.1.faults == RestFaults(c)
    ensures NextFault(c).Deliver? ==> r == (Execute(c.server, cmd).0, Conn(Execute(c.server, cmd).1, RestFaults(c)))
    ensures !NextFault(c).Deliver? ==> r.0 == Err(TransportError(NextFault(c).msg))
    ensures NextFault(c).DropRequest? ==> r.1.server == c.server
    ensures NextFault(c).DropReply? ==> r.1.server == Execute(c.server, cmd).1
  {
    match NextFault(c)
    case Deliver =>
      var (v, srv) := Execute(c.server, cmd);
      (v, Conn(srv, RestFaults(c)))
    case DropRequest(msg) => (Err(TransportError(msg)), Conn(c.server, RestFaults(c)))
    case DropReply(msg) => (Err(TransportError(msg)), Conn(Execute(c.server, cmd).1, RestFaults(c)))
  }

  /** The store's clock moves on; entries whose deadline it passes read as absent. */
  function Sleep(c: Conn, secs: nat): (r: Conn)
    ensures r.server.kv == c.server.kv && r.server.scripts == c.server.scripts
    ensures r.server.now == c.server.now + secs && r.faults == c.faults
  {
    c.(server := c.server.(now := c.server.now + secs))
  }

  /** The cache holds no other script under this descriptor's hash. */
  predicate NoCollision(srv: Server, s: Script) {
    s.hash in srv.scripts ==> srv.scripts[s.hash] == s.src
  }
}
