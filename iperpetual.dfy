/**
 * Inverse-perpetual product line: the client handle, the shape of what the
 * package's transport helpers return, and the error values of the
 * active-order operations.
 *
 * The package's helpers `Get[T]` and `Post[T]` are not part of this model;
 * they appear as oracles. The active-order endpoints use a helper that
 * returns the decoded value together with an error (`Reply`), the position
 * endpoints one that returns the decoded value together with a success flag
 * (`OkReply`).
 */
module InversePerpetual {
  import opened Wrappers
  import opened Transport

  /** The inverse-perpetual client: a handle on the shared transport. */
  datatype Client = Client(c: Conn)

  /** What the active-order helper returns: the value the transport decoded
      (whatever it holds, also on failure) and the error it reported. */
  datatype Reply<T> = Reply(value: T, err: Option<Fault>)

  /** The active-order helper for one payload type, as an oracle. */
  type ErrExchange<!P, T> = (Client, Request<P>) -> Reply<T>

  /** What the position helper returns: the decoded value and a success flag. */
  datatype OkReply<T> = OkReply(value: T, ok: bool)

  /** The position helper for one payload type, as an oracle. */
  type OkExchange<!P, T> = (Client, Request<P>) -> OkReply<T>

  /** The errors the active-order operations return: a transport error passed
      through unchanged, or the cardinality error created locally. */
  datatype Error = TransportError(fault: Fault) | ResultLen {

    /** The error's text; the cardinality error has a fixed one. */
    function Message(): (m: string)
      ensures ResultLen? ==> m == "query order result len != 1"
      ensures TransportError? ==> m == fault.reason
    {
      match this
      case TransportError(f) => f.reason
      case ResultLen => "query order result len != 1"
    }
  }

  /** A transport error seen as an error of this package: the same value,
      never the cardinality error. */
  function Lift(e: Option<Fault>): (r: Option<Error>)
    ensures r == None <==> e == None
    ensures e != None ==> r == Some(TransportError(e.value))
  {
    match e
    case None => None
    case Some(f) => Some(TransportError(f))
  }
}
