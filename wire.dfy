/**
 * Values that cross the boundary between the easylark client and the
 * network: JSON documents, the HTTP requests the client would put on the
 * wire, the abstract outcome of a round trip, and the response envelope
 * every endpoint wraps its answer in.
 *
 * The HTTP transport and the JSON codec are not modelled: a round trip is
 * an input of type `Reply<T>` that says how far the exchange got and, when
 * the body could be decoded, what it decoded to.
 */
module Wire {

  datatype Option<+T> = None | Some(value: T)

  datatype Result<+T, +E> = Ok(value: T) | Err(error: E)

  /** A JSON value as the Go encoder would produce it from the maps,
      slices, strings and ints the library builds. */
  datatype Json =
    | Null
    | Bool(b: bool)
    | Int(i: int)
    | Str(s: string)
    | Arr(items: seq<Json>)
    | Obj(fields: map<string, Json>)

  /** The JSON encoding of a Go `[]string`. */
  function Strings(ss: seq<string>): (j: Json)
    ensures j.Arr? && |j.items| == |ss|
    ensures forall i :: 0 <= i < |ss| ==> j.items[i] == Str(ss[i])
  {
    if ss == [] then Arr([]) else Arr(Strings(ss[..|ss| - 1]).items + [Str(ss[|ss| - 1])])
  }

  datatype Header = Header(name: string, value: string)

  /** What a request carries: nothing, a JSON document, or a multipart form
      with one file part (its encoding and boundary are the library's). */
  datatype Body =
    | NoBody
    | JsonBody(json: Json)
    | MultipartBody(field: string, fileName: string, bytes: seq<bv8>)

  /** A request descriptor: what the client would send, instead of sending it. */
  datatype Request = Request(verb: string, url: string, headers: seq<Header>, body: Body)

  /** The value of header `name` in `hs`; Go's `Header.Set` keeps one value
      per name, and the model only ever sets each name once. */
  function HeaderValue(hs: seq<Header>, name: string): Option<string>
  {
    if hs == [] then None
    else if hs[0].name == name then Some(hs[0].value)
    else HeaderValue(hs[1..], name)
  }

  /** How far the response body got through the JSON decoder. */
  datatype Decoding<+T> = Malformed(cause: string) | Decoded(value: T)

  /** The abstract outcome of one HTTP round trip, in the order the client
      meets the failures: the request could not be built (`http.NewRequest`
      refused the method or URL), sending failed (including the client-wide
      timeout), reading the body failed, or a body was received. */
  datatype Reply<+T> =
    | Unbuildable(cause: string)
    | SendFailed(cause: string)
    | ReadFailed(cause: string)
    | Received(decoding: Decoding<T>)

  /** The `{code, msg, data}` envelope of every API response. */
  datatype Envelope<+D> = Envelope(code: int, msg: string, data: D)
}
