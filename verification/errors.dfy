/**
 * Ready-made error responses. Each is a finished `Response` carrying the
 * protocol-version header, the JSON content type and the `{errors}`
 * envelope; headers a caller passes are spread last and so win.
 */
module Errors {
  import opened Wrappers
  import opened Streams
  import opened Text
  import opened Responses

  /** The headers every response of this module carries when the caller adds none. */
  function DefaultHeaders(): (h: Headers)
    ensures h.Keys == {VersionHeader, ContentTypeHeader}
    ensures h[VersionHeader] == ApiVersion && h[ContentTypeHeader] == JsonContentType
  {
    map[VersionHeader := ApiVersion, ContentTypeHeader := JsonContentType]
  }

  function MakeResponse(code: int, errors: seq<ErrorEntry>, headers: Headers): (r: Response)
    ensures r.status == code && r.body == ErrorList(errors)
    ensures r.headers.Keys == {VersionHeader, ContentTypeHeader} + headers.Keys
    ensures forall k :: k in headers ==> r.headers[k] == headers[k]
    ensures VersionHeader !in headers ==> r.headers[VersionHeader] == ApiVersion
    ensures ContentTypeHeader !in headers ==> r.headers[ContentTypeHeader] == JsonContentType
  {
    Response(code, DefaultHeaders() + headers, ErrorList(errors))
  }

  function NotImplemented(): (r: Response)
    ensures r.status == 405 && r.headers == DefaultHeaders()
    ensures r.body.ErrorList? && |r.body.errors| == 1 && r.body.errors[0].code == "UNSUPPORTED"
    ensures r.body.errors[0].detail.None?
  {
    MakeResponse(405, [ErrorEntry("UNSUPPORTED", "The operation is not supported", None)], map[])
  }

  function Unauthorized(): (r: Response)
    ensures r.status == 401
    ensures r.headers.Keys == {VersionHeader, ContentTypeHeader, AuthenticateHeader}
    ensures r.headers[AuthenticateHeader] == "Basic"
    ensures r.headers[VersionHeader] == ApiVersion && r.headers[ContentTypeHeader] == JsonContentType
    ensures r.body.ErrorList? && |r.body.errors| == 1 && r.body.errors[0].code == "UNAUTHORIZED"
  {
    MakeResponse(401, [ErrorEntry("UNAUTHORIZED", "authentication required", None)], map[AuthenticateHeader := "Basic"])
  }

  function NameNotFound(): (r: Response)
    ensures r.status == 404 && r.headers == DefaultHeaders()
    ensures r.body.ErrorList? && |r.body.errors| == 1 && r.body.errors[0].code == "NAME_UNKNOWN"
  {
    MakeResponse(404, [ErrorEntry("NAME_UNKNOWN", "repository name is not known to registry", None)], map[])
  }

  function BlobNotFound(): (r: Response)
    ensures r.status == 404 && r.headers == DefaultHeaders()
    ensures r.body.ErrorList? && |r.body.errors| == 1 && r.body.errors[0].code == "BLOB_UNKNOWN"
  {
    MakeResponse(404, [ErrorEntry("BLOB_UNKNOWN", "blob unknown to registry", None)], map[])
  }

  /**
   * The envelope `makeResponse` writes is the one a builder holding the
   * same errors renders, apart from `detail`, which these entries never set.
   */
  method MakeResponseAgreesWithBuilder(code: int, errors: seq<APIError>) returns (viaBuilder: Response, direct: Response)
    requires forall i :: 0 <= i < |errors| ==> errors[i].detail.None?
    ensures viaBuilder == direct
    ensures direct == MakeResponse(code, seq(|errors|, i requires 0 <= i < |errors| => ErrorEntry(errors[i].code, errors[i].message, None)), map[])
  {
    var entries := seq(|errors|, i requires 0 <= i < |errors| => ErrorEntry(errors[i].code, errors[i].message, None));
    direct := MakeResponse(code, entries, map[]);
    viaBuilder := Builder(code, Null, map[], Some(errors)).ToResponse();
    assert viaBuilder.body == direct.body;
    assert viaBuilder.headers == direct.headers;
  }
}
