/**
 * Blob routes: existence checks and downloads by digest, and the chunked
 * upload session. The session keeps no server-side record: its state (the
 * multipart upload identifier and the receipts of the parts uploaded so far)
 * travels to the client inside the `Location` URL and comes back as the
 * `_state` query parameter of the next request.
 */
module Blobs {
  import opened Wrappers
  import opened Streams
  import opened Text
  import opened Digests
  import opened Responses
  import Errors
  import opened ObjectStore

  const UploadUuidHeader: string := "Docker-Upload-UUID"
  const RangeHeader: string := "Range"
  const ContentRangeHeader: string := "Content-Range"

  /** Where the blob `digest` of repository `name` is stored: the repository's blob folder, then the digest. */
  function BlobPath(name: string, digest: string): (key: string)
    ensures StartsWith(key, name + "/blobs/")
    ensures key[|name + "/blobs/"|..] == digest
  {
    name + "/blobs/" + digest
  }

  /** Within one repository, different digests are stored under different keys. */
  lemma BlobPathInjective(name: string, d1: string, d2: string)
    requires BlobPath(name, d1) == BlobPath(name, d2)
    ensures d1 == d2
  {
    var n := |name| + |"/blobs/"|;
    assert d1 == BlobPath(name, d1)[n..];
    assert d2 == BlobPath(name, d2)[n..];
  }

  /** The session state carried in the client's URL. */
  datatype UploadState = UploadState(uploadId: UploadId, parts: seq<UploadedPart>)

  /**
   * What `JSON.parse` makes of the `_state` text: it throws, or it yields a
   * JSON value, which the unchecked cast either happens to make a state or
   * does not.
   */
  datatype ParsedState = Unparsable | NotAState | State(st: UploadState)

  /**
   * How the state is written into the URL (JSON, then URI-escaped) and read
   * back from the query string. Only the round trip matters to the protocol.
   */
  datatype StateCodec = StateCodec(encode: UploadState -> string, decode: string -> ParsedState)

  ghost predicate RoundTrips(codec: StateCodec)
  {
    forall s :: codec.decode(codec.encode(s)) == State(s)
  }

  /**
   * The `_state` parameter as the handler reads it. An absent parameter is
   * parsed as the text "undefined", on which `JSON.parse` throws.
   */
  function DecodeState(codec: StateCodec, stateParam: Option<string>): ParsedState
  {
    if stateParam.Some? then codec.decode(stateParam.value) else Unparsable
  }

  /** The handler reads back exactly the state whose token it handed out. */
  lemma DecodeStateOfToken(codec: StateCodec, st: UploadState)
    requires RoundTrips(codec)
    ensures DecodeState(codec, Some(codec.encode(st))) == State(st)
  {
  }

  /** The URL up to the token, so a client can cut the token out of `Location`. */
  function UploadLocationPrefix(name: string, sessionId: string): string
  {
    "/v2/" + name + "/blobs/uploads/" + sessionId + "?_state="
  }

  /** The token a client sends back: the text after `?_state=` in `Location`. */
  function TokenOf(location: string, name: string, sessionId: string): string
  {
    SliceFrom(location, |UploadLocationPrefix(name, sessionId)|)
  }

  /**
   * The continuation URL `/v2/{name}/blobs/uploads/{session}?_state={token}`:
   * the session's upload URL, from which the token can be read back whole.
   */
  function UploadLocation(name: string, sessionId: string, token: string): (location: string)
    ensures StartsWith(location, UploadLocationPrefix(name, sessionId))
    ensures TokenOf(location, name, sessionId) == token
  {
    UploadLocationPrefix(name, sessionId) + token
  }

  /** The 200 answer for a stored object: its size and, if known, its digest. */
  predicate FoundResponse(b: Builder, obj: StoredObject, body: Body)
  {
    && b.status == 200 && b.body == body && b.errors.None?
    && b.headers.Keys == {ContentLengthHeader} + (if obj.sha256.Some? then {DigestHeaderName} else {})
    && b.headers[ContentLengthHeader] == Decimal(|obj.body|)
    && (obj.sha256.Some? ==> b.headers[DigestHeaderName] == HexToDigest(obj.sha256.value))
  }

  method HeadBlob(bucket: Bucket, name: string, digest: string) returns (r: AnyResponse)
    ensures BlobPath(name, digest) !in bucket.objects ==>
              r == AsError(ErrBlobUnknown.WithDetail("missing digest '" + digest + "' for " + name))
    ensures BlobPath(name, digest) in bucket.objects ==>
              r.AsBuilder? && FoundResponse(r.builder, bucket.objects[BlobPath(name, digest)], Null)
  {
    var path := BlobPath(name, digest);
    var res := bucket.Head(path);
    if res.None? {
      r := AsError(ErrBlobUnknown.WithDetail("missing digest '" + digest + "' for " + name));
      return;
    }
    var info := res.value;
    var b := Ok.WithHeaders(map[ContentLengthHeader := Decimal(info.size)] + DigestHeader(info.sha256));
    r := AsBuilder(b);
  }

  method GetBlob(bucket: Bucket, name: string, digest: string) returns (r: AnyResponse)
    ensures BlobPath(name, digest) !in bucket.objects ==>
              r == AsError(ErrBlobUnknown.WithDetail("missing digest '" + digest + "' for " + name))
    ensures BlobPath(name, digest) in bucket.objects ==>
              var obj := bucket.objects[BlobPath(name, digest)];
              r.AsBuilder? && FoundResponse(r.builder, obj, Bytes(obj.body))
  {
    var path := BlobPath(name, digest);
    var res := bucket.Get(path);
    if res.None? {
      r := AsError(ErrBlobUnknown.WithDetail("missing digest '" + digest + "' for " + name));
      return;
    }
    var obj := res.value;
    var b := Ok.WithBody(Bytes(obj.body)).WithHeaders(map[ContentLengthHeader := Decimal(|obj.body|)] + DigestHeader(obj.sha256));
    r := AsBuilder(b);
  }

  /**
   * The headers of the answer to an upload's first request: the session id,
   * a `Location` the token can be read back from, and an empty range.
   */
  function InitiateHeaders(name: string, sessionId: string, token: string): (h: Headers)
    ensures h.Keys == {UploadUuidHeader, LocationHeader, ContentRangeHeader, RangeHeader, ContentLengthHeader}
    ensures h[UploadUuidHeader] == sessionId && TokenOf(h[LocationHeader], name, sessionId) == token
    ensures h[ContentRangeHeader] == "0-0" && h[RangeHeader] == "0-0" && h[ContentLengthHeader] == "0"
  {
    map[UploadUuidHeader := sessionId,
        LocationHeader := UploadLocation(name, sessionId, token),
        ContentRangeHeader := "0-0",
        RangeHeader := "0-0",
        ContentLengthHeader := "0"]
  }

  /**
   * POST: opens a multipart upload under the session id (a fresh UUID, given
   * here as a parameter) and hands the client a state with no parts yet.
   */
  method InitiateBlobUpload(bucket: Bucket, codec: StateCodec, name: string, sessionId: string)
    returns (r: AnyResponse, ghost state: UploadState)
    requires bucket.Valid()
    modifies bucket
    ensures bucket.Valid()
    ensures state.parts == [] && state.uploadId !in old(bucket.uploads)
    ensures bucket.uploads == old(bucket.uploads)[state.uploadId := MultipartUpload(sessionId, map[])]
    ensures bucket.objects == old(bucket.objects)
    ensures r == AsBuilder(Builder(202, Null, InitiateHeaders(name, sessionId, codec.encode(state)), None))
  {
    var uploadId := bucket.CreateMultipartUpload(sessionId);
    var st := UploadState(uploadId, []);
    state := st;
    var headers: Headers := map[];
    headers := headers[UploadUuidHeader := sessionId];
    headers := headers[LocationHeader := UploadLocation(name, sessionId, codec.encode(st))];
    headers := headers[ContentRangeHeader := "0-0"];
    headers := headers[RangeHeader := "0-0"];
    headers := headers[ContentLengthHeader := "0"];
    var b := Accepted.WithHeaders(headers);
    r := AsBuilder(b);
  }

  /**
   * The headers of the answer to a chunk: the session id, a `Location` the
   * new token can be read back from, and a `Range` that covers this chunk
   * only: `0-` followed by its size, which reads back as that size.
   */
  function ChunkHeaders(name: string, sessionId: string, token: string, bodySize: nat): (h: Headers)
    ensures h.Keys == {UploadUuidHeader, LocationHeader, RangeHeader}
    ensures h[UploadUuidHeader] == sessionId && TokenOf(h[LocationHeader], name, sessionId) == token
    ensures StartsWith(h[RangeHeader], "0-") && ParseDecimal(h[RangeHeader][2..]) == Some(bodySize)
  {
    DecimalRoundTrip(bodySize);
    var range := "0-" + Decimal(bodySize);
    assert range[2..] == Decimal(bodySize);
    map[UploadUuidHeader := sessionId,
        LocationHeader := UploadLocation(name, sessionId, token),
        RangeHeader := range]
  }

  /** A chunk request that reaches the backend and is stored. */
  predicate ChunkAccepted(uploads: map<UploadId, MultipartUpload>, codec: StateCodec, sessionId: string,
                          stateParam: Option<string>, body: Option<seq<seq<byte>>>)
  {
    && DecodeState(codec, stateParam).State?
    && body.Some?
    && Resumable(uploads, DecodeState(codec, stateParam).st.uploadId, sessionId)
  }

  /** The read loop: the bytes of a body, counted chunk by chunk as a reader returns them. */
  method CountBytes(pieces: seq<seq<byte>>) returns (bodySize: nat)
    ensures bodySize == |Flatten(pieces)|
  {
    bodySize := 0;
    var i := 0;
    while i < |pieces|
      invariant 0 <= i <= |pieces|
      invariant bodySize == TotalLength(pieces[..i])
    {
      assert pieces[..i + 1][..i] == pieces[..i];
      bodySize := bodySize + |pieces[i]|;
      i := i + 1;
    }
    assert pieces[..i] == pieces;
  }

  /**
   * PATCH: uploads the request body as part number `parts.length + 1` of the
   * session's multipart upload and appends its receipt to the state. The
   * body arrives as a stream (the chunks a reader returns); its size is
   * counted as it is read.
   */
  method ChunkedBlobUpload(bucket: Bucket, codec: StateCodec, name: string, sessionId: string,
                           stateParam: Option<string>, body: Option<seq<seq<byte>>>)
    returns (r: AnyResponse, ghost next: UploadState)
    requires bucket.Valid()
    modifies bucket
    ensures bucket.Valid() && bucket.objects == old(bucket.objects)
    ensures DecodeState(codec, stateParam).Unparsable? ==> r == Rejected && bucket.uploads == old(bucket.uploads)
    ensures !DecodeState(codec, stateParam).Unparsable? && body.None? ==>
              r == AsResponse(Errors.NotImplemented()) && bucket.uploads == old(bucket.uploads)
    ensures DecodeState(codec, stateParam).NotAState? && body.Some? ==> r == Rejected && bucket.uploads == old(bucket.uploads)
    ensures DecodeState(codec, stateParam).State? && body.Some? && !ChunkAccepted(old(bucket.uploads), codec, sessionId, stateParam, body) ==>
              r == Rejected && bucket.uploads == old(bucket.uploads)
    ensures ChunkAccepted(old(bucket.uploads), codec, sessionId, stateParam, body) ==>
              var st := DecodeState(codec, stateParam).st;
              var n := |st.parts| + 1;
              var bytes := Flatten(body.value);
              && next.uploadId == st.uploadId
              && |next.parts| == n && next.parts[..n - 1] == st.parts && next.parts[n - 1].partNumber == n
              && bucket.uploads == old(bucket.uploads)[st.uploadId :=
                   MultipartUpload(sessionId, old(bucket.uploads)[st.uploadId].parts[n := StoredPart(next.parts[n - 1].etag, bytes)])]
              && r == AsBuilder(Builder(202, Null, ChunkHeaders(name, sessionId, codec.encode(next), |bytes|), None))
  {
    next := UploadState(0, []);
    var decoded := DecodeState(codec, stateParam);
    if decoded.Unparsable? {
      r := Rejected;
      return;
    }
    if body.None? {
      r := AsResponse(Errors.NotImplemented());
      return;
    }
    if decoded.NotAState? {
      r := Rejected;
      return;
    }
    var state := decoded.st;
    var pieces := body.value;
    var res := bucket.UploadPart(sessionId, state.uploadId, |state.parts| + 1, Flatten(pieces));

    var bodySize := CountBytes(pieces);
    if res.None? {
      r := Rejected;
      return;
    }
    state := UploadState(state.uploadId, state.parts + [res.value]);
    next := state;
    var headers: Headers := map[];
    headers := headers[UploadUuidHeader := sessionId];
    headers := headers[LocationHeader := UploadLocation(name, sessionId, codec.encode(state))];
    headers := headers[RangeHeader := "0-" + Decimal(bodySize)];
    assert headers == ChunkHeaders(name, sessionId, codec.encode(state), bodySize);
    var b := Accepted.WithHeaders(headers);
    r := AsBuilder(b);
  }

  /**
   * The checksum recorded for a completed blob: the client's digest without
   * its first 7 characters, read as hex. It exists exactly when a digest was
   * sent and that rest is hex text, and it is the hash that text spells.
   */
  function ClientChecksum(digest: Option<string>): (c: Option<seq<byte>>)
    ensures c.Some? <==> digest.Some? && IsHexText(SliceFrom(digest.value, |Sha256Prefix|))
    ensures c.Some? ==> Hex(c.value) == SliceFrom(digest.value, |Sha256Prefix|)
  {
    if digest.None? then None
    else
      var rest := SliceFrom(digest.value, |Sha256Prefix|);
      if DecodeHex(rest).Some? then HexOfDecodeHex(rest); DecodeHex(rest) else None
  }

  /** When a `sha256:` digest is accepted as a checksum, the blob's digest header later repeats it exactly. */
  lemma ClientChecksumEchoesDigest(digest: string)
    requires StartsWith(digest, Sha256Prefix) && ClientChecksum(Some(digest)).Some?
    ensures HexToDigest(ClientChecksum(Some(digest)).value) == digest
  {
    assert DigestBytes(digest) == ClientChecksum(Some(digest));
    DigestBytesExact(digest);
  }

  /** The session's upload exists for this session id and every receipt in the state matches a stored part. */
  predicate Completable(uploads: map<UploadId, MultipartUpload>, state: UploadState, sessionId: string)
  {
    Resumable(uploads, state.uploadId, sessionId) && PartsPresent(uploads[state.uploadId], state.parts)
  }

  /**
   * The second half of PUT: the completed object at the session key is
   * copied to `{name}/blobs/{digest}` with the client's digest as checksum,
   * and the session key is deleted. A missing or non-hex digest rejects
   * and leaves the session object where it is.
   */
  method MoveToDigest(bucket: Bucket, name: string, sessionId: string, digest: Option<string>)
    returns (r: AnyResponse)
    requires bucket.Valid() && sessionId in bucket.objects
    modifies bucket
    ensures bucket.Valid() && bucket.uploads == old(bucket.uploads)
    ensures ClientChecksum(digest).None? ==> r == Rejected && bucket.objects == old(bucket.objects)
    ensures ClientChecksum(digest).Some? ==>
              var path := BlobPath(name, digest.value);
              && bucket.objects == old(bucket.objects)[path := StoredObject(old(bucket.objects)[sessionId].body, ClientChecksum(digest), None)] - {sessionId}
              && r == AsBuilder(Builder(201, Null, map[LocationHeader := "/v2/" + path], None))
  {
    var path := BlobPath(name, if digest.Some? then digest.value else "undefined");
    var obj := bucket.Get(sessionId);
    if digest.None? {
      r := Rejected;
      return;
    }
    var checksum := DecodeHex(SliceFrom(digest.value, |Sha256Prefix|));
    if checksum.None? {
      r := Rejected;
      return;
    }
    var _ := bucket.Put(path, obj.value.body, checksum, None);
    bucket.Delete(sessionId);
    var b := Created.WithHeaders(map[LocationHeader := "/v2/" + path]);
    r := AsBuilder(b);
  }

  /**
   * PUT: completes the multipart upload with the state's part list, copies
   * the assembled object to `{name}/blobs/{digest}` with the client's digest
   * as its checksum, and deletes the session's own object. The request body
   * is not read, and the content is not checked against the digest.
   */
  method CompleteBlobUpload(bucket: Bucket, codec: StateCodec, name: string, sessionId: string,
                            stateParam: Option<string>, digest: Option<string>)
    returns (r: AnyResponse)
    requires bucket.Valid()
    modifies bucket
    ensures bucket.Valid()
    ensures !DecodeState(codec, stateParam).State? ==>
              r == Rejected && bucket.objects == old(bucket.objects) && bucket.uploads == old(bucket.uploads)
    ensures DecodeState(codec, stateParam).State? && !Completable(old(bucket.uploads), DecodeState(codec, stateParam).st, sessionId) ==>
              r == Rejected && bucket.objects == old(bucket.objects) && bucket.uploads == old(bucket.uploads)
    ensures DecodeState(codec, stateParam).State? && Completable(old(bucket.uploads), DecodeState(codec, stateParam).st, sessionId) ==>
              var st := DecodeState(codec, stateParam).st;
              var assembled := Assemble(old(bucket.uploads)[st.uploadId], st.parts);
              && bucket.uploads == old(bucket.uploads) - {st.uploadId}
              && (ClientChecksum(digest).None? ==>
                    r == Rejected && bucket.objects == old(bucket.objects)[sessionId := StoredObject(assembled, None, None)])
              && (ClientChecksum(digest).Some? ==>
                    var path := BlobPath(name, digest.value);
                    && bucket.objects == (old(bucket.objects)[sessionId := StoredObject(assembled, None, None)]
                                            [path := StoredObject(assembled, ClientChecksum(digest), None)]) - {sessionId}
                    && r == AsBuilder(Builder(201, Null, map[LocationHeader := "/v2/" + path], None)))
  {
    var decoded := DecodeState(codec, stateParam);
    if !decoded.State? {
      r := Rejected;
      return;
    }
    var state := decoded.st;
    var ok := bucket.Complete(sessionId, state.uploadId, state.parts);
    if !ok {
      r := Rejected;
      return;
    }
    r := MoveToDigest(bucket, name, sessionId, digest);
  }
}
