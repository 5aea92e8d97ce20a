/**
 * The parts of the HTTP server that decide something: which browser origins
 * may call the API, and how a thrown error becomes a JSON response.
 */
module Server {
  import opened Wrappers
  import opened Strings
  import opened Js
  import opened Common

  const DefaultOrigin: string := "http://localhost:4200"

  /** `getAllowedOrigins()`: CLIENT_ORIGIN (or the default) split on commas,
      each piece trimmed, the empty ones dropped. */
  function AllowedOrigins(vars: Vars): (origins: seq<string>)
    ensures forall i :: 0 <= i < |origins| ==> origins[i] != "" && Trim(origins[i]) == origins[i] && ',' !in origins[i]
  {
    Pieces(EnvOr(vars, "CLIENT_ORIGIN", DefaultOrigin), ',')
  }

  /** Exactly the non-blank comma-separated entries are allowed, trimmed; an
      unset or empty CLIENT_ORIGIN allows only the default. */
  lemma AllowedOriginsAreListed(vars: Vars, o: string)
    ensures o in AllowedOrigins(vars) <==>
              o != "" && exists p :: p in Split(EnvOr(vars, "CLIENT_ORIGIN", DefaultOrigin), ',') && Trim(p) == o
    ensures !("CLIENT_ORIGIN" in vars && vars["CLIENT_ORIGIN"] != "") ==> AllowedOrigins(vars) == [DefaultOrigin]
  {
    PiecesListed(EnvOr(vars, "CLIENT_ORIGIN", DefaultOrigin), ',', o);
    if !("CLIENT_ORIGIN" in vars && vars["CLIENT_ORIGIN"] != "") {
      DefaultOriginPieces();
    }
  }

  lemma DefaultOriginPieces()
    ensures Pieces(DefaultOrigin, ',') == [DefaultOrigin]
  {
    assert ',' !in DefaultOrigin;
    SinglePiece(DefaultOrigin);
  }

  /** A single unpadded entry without commas is the whole list. */
  lemma SinglePiece(s: string)
    requires |s| > 0 && ',' !in s && !IsSpace(s[0]) && !IsSpace(s[|s| - 1])
    ensures Pieces(s, ',') == [s]
  {
    SplitWithoutSeparator(s, ',');
    TrimUnpadded(s);
    assert TrimAll([s]) == [s];
    assert NonEmpty([s]) == [s] + NonEmpty([]);
  }

  /** The CORS origin callback: a request without an Origin header (`""`) and a
      listed origin are allowed; any other origin is refused with 403. */
  function CorsOrigin(allowed: seq<string>, origin: string): (r: Outcome<bool>)
    ensures r.Ok? <==> origin == "" || origin in allowed
    ensures r.Ok? ==> r.value
    ensures r.Err? ==> r.error == Http(403, "CORS blocked for origin: " + origin)
  {
    if origin == "" then Ok(true)
    else if origin in allowed then Ok(true)
    else Err(Http(403, "CORS blocked for origin: " + origin))
  }

  /** A JSON error response: status, `message`, and `details` when present. */
  datatype Response = Response(status: int, message: string, details: Option<JsValue>)

  /** The error-handling middleware: the error's `statusCode`, else 500; a
      status of 500 or more is answered with a generic 500 that hides message
      and details. Of the errors modelled here only an HttpError carries a
      status code; the body parser's own errors, which carry 400 or 413, come
      from the HTTP layer and are not modelled. */
  function ErrorResponse(e: Error): (r: Response)
    ensures r.status >= 500 ==> r == Response(500, "Server error", None)
    ensures !e.HttpError? ==> r == Response(500, "Server error", None)
    ensures e.HttpError? && e.status != 0 && e.status < 500 ==>
              && r.status == e.status
              && r.message == (if e.message != "" then e.message else "Request failed")
              && (r.details.Some? <==> Truthy(e.details))
              && (r.details.Some? ==> r.details.value == e.details)
  {
    var statusCode := if e.HttpError? && e.status != 0 then e.status else 500;
    if statusCode >= 500 then Response(500, "Server error", None)
    else Response(statusCode, if Message(e) != "" then Message(e) else "Request failed",
                  if e.HttpError? && Truthy(e.details) then Some(e.details) else None)
  }

  /** The catch-all for unmatched routes. */
  const NotFound: Response := Response(404, "Not found", None)

  /** The catch-all answers exactly as the error handler would for a thrown
      404 "Not found", and a client error never leaks as a server error. */
  lemma ErrorResponseShapes(status: int, message: string)
    ensures ErrorResponse(Http(404, "Not found")) == NotFound
    ensures 0 < status < 500 ==> ErrorResponse(Http(status, message)).status == status
    ensures status >= 500 ==> ErrorResponse(Http(status, message)) == Response(500, "Server error", None)
  {
  }
}
