/**
 * The interface of the shared transport collaborator. Its behaviour (signing,
 * HTTP dispatch, parameter encoding, envelope decoding) is not modelled: each
 * product line receives the transport as a function-typed oracle built on the
 * types declared here.
 */
module Transport {

  /** The HTTP verb of a transport call. */
  datatype Verb = GET | POST

  /** One call handed to the transport: verb, relative path and parameter object. */
  datatype Request<P> = Request(verb: Verb, path: string, param: P)

  /** An error reported by the transport, opaque beyond its message. */
  datatype Fault = Fault(reason: string)

  /** Handle on the shared transport client; its contents are not modelled. */
  type Conn
}
