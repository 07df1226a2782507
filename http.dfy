/**
 * The part of the host HTTP framework (tide / http-types) that the upgrade
 * handler uses: header lookup and insertion by case-insensitive name, a
 * request carrying the application state, a response with a status code and
 * headers, and the framework's error value.
 */
module Http {
  import opened Wrappers
  import Ascii

  /** Headers keyed by the lower-cased header name (`HeaderName` folds names
      when it is made); each name holds the one value that
      `HeaderValues::as_str` yields. */
  type Headers = h: map<string, string> | forall k :: k in h ==> Ascii.Lower(k) == k
    witness map[]

  /** The key a header name is stored under: header names are case-insensitive. */
  function Key(name: string): (k: string)
    ensures |k| == |name|
    ensures Ascii.Lower(k) == k
  {
    Ascii.LowerIdempotent(name);
    Ascii.Lower(name)
  }

  /** `req.header(name)`: the value stored under the name, if any. */
  function Header(h: Headers, name: string): Option<string>
  {
    if Key(name) in h then Some(h[Key(name)]) else None
  }

  /** `insert_header(name, value)`: replaces whatever the name held. */
  function Insert(h: Headers, name: string, value: string): (r: Headers)
    ensures r.Keys == h.Keys + {Key(name)}
    ensures Header(r, name) == Some(value)
    ensures forall other :: Key(other) != Key(name) ==> Header(r, other) == Header(h, other)
  {
    h[Key(name) := value]
  }

  /** Status codes the handler produces. */
  const SWITCHING_PROTOCOLS: nat := 101
  const UPGRADE_REQUIRED: nat := 426
  const INTERNAL_SERVER_ERROR: nat := 500

  /** The standard header names `CONNECTION` and `UPGRADE` (already lower-case). */
  const CONNECTION: string := "connection"
  const UPGRADE: string := "upgrade"

  /** `tide::Request<S>`: headers plus the application state `S`. */
  datatype Request<S> = Request(headers: Headers, state: S)

  /** `tide::Response`: a status code and headers; no body is ever set here. */
  datatype Response = Response(status: nat, headers: Headers)
  {
    /** `response.insert_header(name, value)`. */
    function InsertHeader(name: string, value: string): Response
    {
      Response(status, Insert(headers, name, value))
    }
  }

  /** `Response::new(status)`: no headers yet. */
  function NewResponse(status: nat): Response
  {
    Response(status, map[])
  }

  /** `tide::Error`; `format_err!` makes one with status 500 and the given message. */
  datatype Error = Error(status: nat, message: string)

  function FormatErr(message: string): Error
  {
    Error(INTERNAL_SERVER_ERROR, message)
  }
}
