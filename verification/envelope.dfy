/** The JSON-RPC envelope as the client sees it: the values it puts into a
    request's "params", the request itself, and what comes back from the
    server. Marshalling, HTTP and the server are not modelled: a send is
    answered by a `Reply` that the caller supplies. */
module Envelope {
  import opened Wrappers
  import Methods

  /** The JSON values the client sends. Go's nil slice marshals as `null`. */
  datatype Value =
    | Null
    | Str(s: string)
    | Num(n: int)
    | Bool(b: bool)
    | Strs(items: seq<string>)
    | Object(fields: map<string, Value>)

  /** One JSON-RPC 2.0 request: `{"jsonrpc": "2.0", "id": id, "method":
      Methods.Name(rpc), "params": params}`. An empty `params` stands for a
      request that carries no "params" member at all; no request of the client
      sends an empty object. */
  datatype Request = Request(id: int, rpc: Methods.Method, params: map<string, Value>)

  /** The shapes the client relies on when it reads a "result" object: the
      transaction and query handles are numbers, the comet handle and the query
      results are (already rendered) strings. */
  predicate WellTyped(m: map<string, Value>)
  {
    && ("th" in m ==> m["th"].Num?)
    && ("qh" in m ==> m["qh"].Num?)
    && ("handle" in m ==> m["handle"].Str?)
    && ("results" in m ==> m["results"].Str?)
  }

  /** The decoded "result" member of a response. */
  type ResultMap = m: map<string, Value> | WellTyped(m) witness map[]

  /** A response body: either it could not be decoded, or its "result". */
  datatype Body = Undecodable(err: string) | Decoded(result: ResultMap)
  {
    /** The decoding error, if any. */
    function Error(): (e: Option<string>)
      ensures e.Some? <==> Undecodable?
    {
      if Undecodable? then Some(err) else None
    }
  }

  /** What a POST returns: a transport error, or a delivered body. */
  datatype Reply = TransportError(err: string) | Delivered(body: Body)
  {
    /** The error the send reports. */
    function Error(): (e: Option<string>)
      ensures e.Some? <==> TransportError?
    {
      if TransportError? then Some(err) else None
    }

    /** The body a caller gets to decode; a failed send has nothing to decode. */
    function Body(): (b: Body)
      ensures Delivered? ==> b == body
      ensures TransportError? ==> b.Undecodable? && b.err == err
    {
      if TransportError? then Undecodable(err) else body
    }
  }
}
