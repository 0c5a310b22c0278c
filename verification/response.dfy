/**
 * Registry errors and the immutable response builder. Every builder
 * operation returns a new value and leaves its receiver as it was; the two
 * operations that copy headers entry by entry (`withHeaders`, `toResponse`)
 * are methods whose loops set one header at a time.
 */
module Responses {
  import opened Wrappers
  import opened Streams
  import opened Text
  import opened Digests

  /** A `Headers` object: header name to value; setting a name replaces its value. */
  type Headers = map<string, string>

  const VersionHeader: string := "Docker-Distribution-API-Version"
  const ApiVersion: string := "registry/2.0"
  const ContentTypeHeader: string := "Content-Type"
  const JsonContentType: string := "application/json; charset=utf-8"
  const AuthenticateHeader: string := "WWW-Authenticate"
  const ContentLengthHeader: string := "Content-Length"
  const DigestHeaderName: string := "Docker-Content-Digest"
  const LocationHeader: string := "Location"

  /** `Docker-Content-Digest`, present exactly when the object has a SHA-256 checksum. */
  function DigestHeader(sha256: Option<seq<byte>>): (h: Headers)
    ensures DigestHeaderName in h <==> sha256.Some?
    ensures h.Keys <= {DigestHeaderName}
    ensures sha256.Some? ==> h[DigestHeaderName] == HexToDigest(sha256.value)
  {
    if sha256.Some? then map[DigestHeaderName := HexToDigest(sha256.value)] else map[]
  }

  /** One element of the `errors` array of the JSON error envelope. */
  datatype ErrorEntry = ErrorEntry(code: string, message: string, detail: Option<string>)

  /**
   * A response body: none, raw bytes, the `{name, tags}` document, or the
   * `{errors: [...]}` envelope. The JSON documents are kept as values.
   */
  datatype Body =
    | Null
    | Bytes(bytes: seq<byte>)
    | TagList(name: string, tags: seq<string>)
    | ErrorList(errors: seq<ErrorEntry>)

  datatype Response = Response(status: int, headers: Headers, body: Body)

  /** A registry error. Status -1 stands for "no specific status" and is sent as 400. */
  datatype APIError = APIError(status: int, code: string, message: string, detail: Option<string>) {

    /** A copy of this error carrying `d` as its detail. */
    function WithDetail(d: string): (e: APIError)
      ensures e.status == status && e.code == code && e.message == message
      ensures e.detail == Some(d)
    {
      APIError(status, code, message, Some(d))
    }

    /** The element this error contributes to an error envelope. */
    function Entry(): ErrorEntry
    {
      ErrorEntry(code, message, detail)
    }

    /** The error as an HTTP response: a builder holding just this error, rendered. */
    method ToResponse() returns (r: Response)
      ensures r.status == (if status == -1 then 400 else status)
      ensures r.headers.Keys == {VersionHeader, ContentTypeHeader} + (if status == 401 then {AuthenticateHeader} else {})
      ensures status == 401 ==> r.headers[AuthenticateHeader] == "Basic"
      ensures r.headers[VersionHeader] == ApiVersion && r.headers[ContentTypeHeader] == JsonContentType
      ensures r.body == ErrorList([ErrorEntry(code, message, detail)])
    {
      var mapped := if status == -1 then 400 else status;
      var headers: Headers := if status == 401 then map[AuthenticateHeader := "Basic"] else map[];
      var builder := Builder(mapped, Null, headers, Some([this]));
      r := builder.ToResponse();
    }
  }

  const ErrBlobUnknown := APIError(404, "BLOB_UNKNOWN", "blob unknown to registry", None)
  const ErrBlobUploadInvalid := APIError(-1, "BLOB_UPLOAD_INVALID", "blob upload invalid", None)
  const ErrBlobUploadUnknown := APIError(-1, "BLOB_UPLOAD_UNKNOWN", "blob upload unknown to registry", None)
  const ErrDigestInvalid := APIError(-1, "DIGEST_INVALID", "provided digest did not match uploaded content", None)
  const ErrManifestBlobUnknown := APIError(-1, "MANIFEST_BLOB_UNKNOWN", "manifest references a manifest or blob unknown to registry", None)
  const ErrManifestInvalid := APIError(400, "MANIFEST_INVALID", "manifest invalid", None)
  const ErrManifestUnknown := APIError(-1, "MANIFEST_UNKNOWN", "manifest unknown to registry", None)
  const ErrNameInvalid := APIError(-1, "NAME_INVALID", "invalid repository name", None)
  const ErrNameUnknown := APIError(-1, "NAME_UNKNOWN", "repository name not known to registry", None)
  const ErrSizeInvalid := APIError(416, "SIZE_INVALID", "provided length did not match content length", None)
  const ErrUnauthorized := APIError(401, "UNAUTHORIZED", "authentication required", None)
  const ErrDenied := APIError(-1, "DENIED", "requested access to the resource is denied", None)
  const ErrUnsupported := APIError(-1, "UNSUPPORTED", "the operation is unsupported", None)
  const ErrTooManyRequests := APIError(-1, "TOOMANYREQUESTS", "too many requests", None)

  /**
   * The `for ... of` loop that `set`s every entry of `from` on a header set:
   * names of `from` take its values, every other name keeps its own.
   */
  method SetEach(into: Headers, from: Headers) returns (r: Headers)
    ensures r.Keys == into.Keys + from.Keys
    ensures forall k :: k in from ==> r[k] == from[k]
    ensures forall k :: k in into && k !in from ==> r[k] == into[k]
  {
    r := into;
    var todo := from.Keys;
    while todo != {}
      invariant todo <= from.Keys
      invariant r.Keys == into.Keys + (from.Keys - todo)
      invariant forall k :: k in from && k !in todo ==> r[k] == from[k]
      invariant forall k :: k in into && k !in from ==> r[k] == into[k]
      invariant forall k :: k in todo && k in into ==> r[k] == into[k]
      decreases todo
    {
      var k :| k in todo;
      r := r[k := from[k]];
      todo := todo - {k};
    }
  }

  /**
   * A response under construction: status, body (`Null` when unset), headers
   * (empty when unset) and the list of errors, which is absent until the
   * first error is added.
   */
  datatype Builder = Builder(status: int, body: Body, headers: Headers, errors: Option<seq<APIError>>) {

    function WithBody(b: Body): (r: Builder)
      ensures r.body == b
      ensures r.status == status && r.headers == headers && r.errors == errors
    {
      Builder(status, b, headers, errors)
    }

    /** Old headers, overridden by `extra` where both name the same header. */
    method WithHeaders(extra: Headers) returns (r: Builder)
      ensures r.status == status && r.body == body && r.errors == errors
      ensures r.headers.Keys == headers.Keys + extra.Keys
      ensures forall k :: k in extra ==> r.headers[k] == extra[k]
      ensures forall k :: k in headers && k !in extra ==> r.headers[k] == headers[k]
    {
      var merged := SetEach(map[], headers);
      merged := SetEach(merged, extra);
      r := Builder(status, body, merged, errors);
    }

    /** The error list with `e` at its end (`[e]` when there was none). */
    function WithError(e: APIError): (r: Builder)
      ensures r.status == status && r.body == body && r.headers == headers
      ensures r.errors.Some? && |r.errors.value| > 0
      ensures r.errors.value[|r.errors.value| - 1] == e
      ensures r.errors.value[..|r.errors.value| - 1] == errors.GetOr([])
    {
      Builder(status, body, headers, Some(if errors.Some? then errors.value + [e] else [e]))
    }

    /**
     * The HTTP response: the protocol-version header first, then the
     * builder's headers (which may replace it); with errors present, the
     * body is the error envelope and the content type is JSON.
     */
    method ToResponse() returns (r: Response)
      ensures r.status == status
      ensures r.headers.Keys == {VersionHeader} + headers.Keys + (if errors.Some? then {ContentTypeHeader} else {})
      ensures VersionHeader !in headers ==> r.headers[VersionHeader] == ApiVersion
      ensures forall k :: k in headers && !(errors.Some? && k == ContentTypeHeader) ==> r.headers[k] == headers[k]
      ensures errors.Some? ==> r.headers[ContentTypeHeader] == JsonContentType
      ensures errors.None? ==> r.body == body
      ensures errors.Some? ==> r.body.ErrorList? && |r.body.errors| == |errors.value|
      ensures errors.Some? ==> forall i :: 0 <= i < |errors.value| ==>
                r.body.errors[i] == ErrorEntry(errors.value[i].code, errors.value[i].message, errors.value[i].detail)
    {
      var h: Headers := map[VersionHeader := ApiVersion];
      h := SetEach(h, headers);
      var b := body;
      if errors.Some? {
        var es := errors.value;
        b := ErrorList(seq(|es|, i requires 0 <= i < |es| => es[i].Entry()));
        h := h[ContentTypeHeader := JsonContentType];
      }
      r := Response(status, h, b);
    }
  }

  const Ok := Builder(200, Null, map[], None)
  const Created := Builder(201, Null, map[], None)
  const Accepted := Builder(202, Null, map[], None)

  /**
   * What a route handler produces: a finished response, an error, a builder,
   * or a rejected promise (an exception escaping the handler).
   */
  datatype AnyResponse =
    | AsResponse(response: Response)
    | AsError(error: APIError)
    | AsBuilder(builder: Builder)
    | Rejected
}
