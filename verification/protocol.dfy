/**
 * What travels between the client and the store: command arguments, replies
 * and the errors a call can end with, plus the client-side conversion of a
 * reply to a string (redigo's `redis.String`).
 */
module Protocol {
  import opened Options
  import Decimal

  /** A command argument as the source passes it: a Go string or a Go int. */
  datatype Arg = AStr(s: string) | AInt(n: int)

  /** The bulk string the client writes for an argument (ints in decimal). */
  function Text(a: Arg): string {
    match a
    case AStr(s) => s
    case AInt(n) => Decimal.FormatInt(n)
  }

  /** The texts of a run of arguments, in order. */
  function Texts(args: seq<Arg>): (ts: seq<string>)
    ensures |ts| == |args|
    ensures forall i :: 0 <= i < |args| ==> ts[i] == Text(args[i])
  {
    seq(|args|, i requires 0 <= i < |args| => Text(args[i]))
  }

  /** One request: a command name and its arguments. */
  datatype Command = Command(name: string, args: seq<Arg>)

  /** The reply shapes the store can send back. */
  datatype Reply = Int(n: int) | Str(s: string) | Nil | Arr(elems: seq<Reply>)

  /**
   * Errors a call can end with. ServerError is redigo's `redis.Error` (an error
   * reply from the store); TransportError is any failure of the connection;
   * ErrNil and UnexpectedType are produced on the client side by reply
   * conversion.
   */
  datatype Error =
    | ServerError(msg: string)
    | TransportError(msg: string)
    | ErrNil
    | UnexpectedType(msg: string)

  /** The outcome of one round trip: a reply, or an error. */
  datatype Response = Ok(reply: Reply) | Err(error: Error)

  function UpperChar(c: char): char {
    if 'a' <= c <= 'z' then (c as int - 32) as char else c
  }

  /** ASCII upper case; the store matches command and option names case-insensitively. */
  function Upper(s: string): (u: string)
    ensures |u| == |s|
    ensures forall i :: 0 <= i < |s| ==> u[i] == UpperChar(s[i])
  {
    seq(|s|, i requires 0 <= i < |s| => UpperChar(s[i]))
  }

  /** A text without lower-case ASCII letters is its own upper case. */
  lemma UpperOfCaps(s: string)
    requires forall i :: 0 <= i < |s| ==> !('a' <= s[i] <= 'z')
    ensures Upper(s) == s
  {
  }

  /**
   * redigo's `redis.String(reply, err)`: a call error passes through, a string
   * reply converts, a nil reply becomes ErrNil, any other shape is an
   * unexpected-type error.
   */
  function StringOf(resp: Response): (r: Result<string, Error>)
    ensures r.Success? <==> resp.Ok? && resp.reply.Str?
    ensures r.Success? ==> r.value == resp.reply.s
    ensures resp.Err? ==> r == Failure(resp.error)
    ensures resp.Ok? && r.Failure? ==> (r.error == ErrNil <==> resp.reply.Nil?)
  {
    match resp
    case Err(e) => Failure(e)
    case Ok(Str(s)) => Success(s)
    case Ok(Nil) => Failure(ErrNil)
    case Ok(_) => Failure(UnexpectedType("redigo: unexpected type for String"))
  }
}
