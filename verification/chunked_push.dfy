/**
 * A client pushing one blob through the chunked upload session: open the
 * session, send each chunk with the token the previous answer's `Location`
 * carried, then complete it with the blob's digest. The session state lives
 * only in those tokens, so this is where the three blob handlers are shown
 * to fit together: the stored blob is the chunks in the order sent, filed
 * under the digest, and pulling it back echoes that digest.
 */
module ChunkedPush {
  import opened Wrappers
  import opened Streams
  import opened Text
  import opened Digests
  import opened Responses
  import opened ObjectStore
  import opened Blobs

  /**
   * The receipts are numbered 1, 2, ... in order, and part number j + 1 of
   * the upload holds chunk j under receipt j's etag.
   */
  ghost predicate PartsNumbered(upload: MultipartUpload, listed: seq<UploadedPart>, chunks: seq<seq<byte>>)
  {
    && |listed| == |chunks|
    && forall j :: 0 <= j < |listed| ==>
         && listed[j].partNumber == j + 1
         && j + 1 in upload.parts
         && upload.parts[j + 1] == StoredPart(listed[j].etag, chunks[j])
  }

  /** Storing the next chunk as the next part number, with its receipt appended, keeps the numbering. */
  lemma PartsNumberedExtend(upload: MultipartUpload, listed: seq<UploadedPart>, chunks: seq<seq<byte>>, etag: ETag, chunk: seq<byte>)
    requires PartsNumbered(upload, listed, chunks)
    ensures PartsNumbered(MultipartUpload(upload.key, upload.parts[|listed| + 1 := StoredPart(etag, chunk)]),
                          listed + [UploadedPart(|listed| + 1, etag)], chunks + [chunk])
  {
    var listed' := listed + [UploadedPart(|listed| + 1, etag)];
    var chunks' := chunks + [chunk];
    var upload' := MultipartUpload(upload.key, upload.parts[|listed| + 1 := StoredPart(etag, chunk)]);
    forall j | 0 <= j < |listed'|
      ensures listed'[j].partNumber == j + 1
      ensures j + 1 in upload'.parts && upload'.parts[j + 1] == StoredPart(listed'[j].etag, chunks'[j])
    {
      if j < |listed| {
        assert listed'[j] == listed[j] && chunks'[j] == chunks[j];
        assert upload'.parts[j + 1] == upload.parts[j + 1];
      } else {
        assert listed'[j] == UploadedPart(|listed| + 1, etag) && chunks'[j] == chunk;
      }
    }
    assert PartsNumbered(upload', listed', chunks');
  }

  /** Numbered parts assemble to their chunks, in order. */
  lemma {:induction false} AssembleNumbered(upload: MultipartUpload, listed: seq<UploadedPart>, chunks: seq<seq<byte>>)
    requires PartsNumbered(upload, listed, chunks)
    ensures PartsPresent(upload, listed)
    ensures Assemble(upload, listed) == Flatten(chunks)
    decreases |listed|
  {
    if listed != [] {
      var n := |listed|;
      AssembleNumbered(upload, listed[..n - 1], chunks[..n - 1]);
    }
  }

  /**
   * One PATCH with `chunk` as a one-piece stream and the current token; the
   * chunk becomes the next numbered part and the answer's `Location`
   * carries the token for the state that now lists it.
   */
  method SendChunk(bucket: Bucket, codec: StateCodec, name: string, sessionId: string,
                   token: string, ghost st: UploadState, ghost sent: seq<seq<byte>>, chunk: seq<byte>)
    returns (nextToken: string, ghost next: UploadState)
    requires bucket.Valid() && RoundTrips(codec)
    requires token == codec.encode(st) && Resumable(bucket.uploads, st.uploadId, sessionId)
    requires PartsNumbered(bucket.uploads[st.uploadId], st.parts, sent)
    modifies bucket
    ensures bucket.Valid() && bucket.objects == old(bucket.objects)
    ensures bucket.uploads - {st.uploadId} == old(bucket.uploads) - {st.uploadId}
    ensures next.uploadId == st.uploadId && nextToken == codec.encode(next)
    ensures Resumable(bucket.uploads, st.uploadId, sessionId)
    ensures PartsNumbered(bucket.uploads[st.uploadId], next.parts, sent + [chunk])
  {
    assert codec.decode(codec.encode(st)) == State(st);
    ghost var upload := bucket.uploads[st.uploadId];
    var answer;
    answer, next := ChunkedBlobUpload(bucket, codec, name, sessionId, Some(token), Some([chunk]));
    assert next.parts == st.parts + [UploadedPart(|st.parts| + 1, next.parts[|st.parts|].etag)];
    PartsNumberedExtend(upload, st.parts, sent, next.parts[|st.parts|].etag, chunk);
    nextToken := TokenOf(answer.builder.headers[LocationHeader], name, sessionId);
  }

  /** Writing the session key, then another key, then deleting the session key, is deleting it and writing the other. */
  lemma MoveKey(m: map<string, StoredObject>, session: string, key: string, staged: StoredObject, moved: StoredObject)
    requires session != key
    ensures m[session := staged][key := moved] - {session} == (m - {session})[key := moved]
  {
  }

  /** One PATCH per chunk, in order, each with the token the previous answer carried. */
  method SendChunks(bucket: Bucket, codec: StateCodec, name: string, sessionId: string,
                    token: string, ghost st: UploadState, chunks: seq<seq<byte>>)
    returns (lastToken: string, ghost last: UploadState)
    requires bucket.Valid() && RoundTrips(codec)
    requires token == codec.encode(st) && Resumable(bucket.uploads, st.uploadId, sessionId)
    requires PartsNumbered(bucket.uploads[st.uploadId], st.parts, [])
    modifies bucket
    ensures bucket.Valid() && bucket.objects == old(bucket.objects)
    ensures bucket.uploads - {st.uploadId} == old(bucket.uploads) - {st.uploadId}
    ensures last.uploadId == st.uploadId && lastToken == codec.encode(last)
    ensures Resumable(bucket.uploads, st.uploadId, sessionId)
    ensures PartsNumbered(bucket.uploads[st.uploadId], last.parts, chunks)
  {
    lastToken, last := token, st;
    var i := 0;
    while i < |chunks|
      invariant 0 <= i <= |chunks|
      invariant bucket.Valid()
      invariant bucket.objects == old(bucket.objects)
      invariant bucket.uploads - {st.uploadId} == old(bucket.uploads) - {st.uploadId}
      invariant last.uploadId == st.uploadId && lastToken == codec.encode(last)
      invariant Resumable(bucket.uploads, st.uploadId, sessionId)
      invariant PartsNumbered(bucket.uploads[st.uploadId], last.parts, chunks[..i])
    {
      assert chunks[..i + 1] == chunks[..i] + [chunks[i]];
      lastToken, last := SendChunk(bucket, codec, name, sessionId, lastToken, last, chunks[..i], chunks[i]);
      i := i + 1;
    }
    assert chunks[..i] == chunks;
  }

  /**
   * Initiate, one PATCH per chunk, then PUT with `sha256:<hex of hash>`,
   * then GET the blob by that digest. `sessionId` is the UUID the server
   * drew; it has no slash, so it never collides with a blob key.
   */
  method PushInChunks(bucket: Bucket, codec: StateCodec, name: string, sessionId: string,
                      chunks: seq<seq<byte>>, hash: seq<byte>)
    returns (completed: AnyResponse, pulled: AnyResponse)
    requires bucket.Valid() && RoundTrips(codec)
    requires forall i :: 0 <= i < |sessionId| ==> sessionId[i] != '/'
    modifies bucket
    ensures bucket.Valid()
    ensures bucket.uploads == old(bucket.uploads)
    ensures bucket.objects == (old(bucket.objects) - {sessionId})
                                [BlobPath(name, HexToDigest(hash)) := StoredObject(Flatten(chunks), Some(hash), None)]
    ensures completed == AsBuilder(Builder(201, Null, map[LocationHeader := "/v2/" + BlobPath(name, HexToDigest(hash))], None))
    ensures pulled.AsBuilder? && pulled.builder.body == Bytes(Flatten(chunks))
    ensures DigestHeaderName in pulled.builder.headers && pulled.builder.headers[DigestHeaderName] == HexToDigest(hash)
  {
    ghost var objects0, uploads0 := bucket.objects, bucket.uploads;
    var started;
    ghost var st;
    started, st := InitiateBlobUpload(bucket, codec, name, sessionId);
    var token := TokenOf(started.builder.headers[LocationHeader], name, sessionId);
    ghost var id := st.uploadId;
    token, st := SendChunks(bucket, codec, name, sessionId, token, st, chunks);
    assert bucket.objects == objects0;
    assert bucket.uploads - {id} == uploads0 && id !in uploads0;

    assert codec.decode(codec.encode(st)) == State(st);
    AssembleNumbered(bucket.uploads[id], st.parts, chunks);
    var digest := HexToDigest(hash);
    DigestRoundTrip(hash);
    assert ClientChecksum(Some(digest)) == Some(hash);
    ghost var path := BlobPath(name, digest);
    assert path[|name|] == '/';
    completed := CompleteBlobUpload(bucket, codec, name, sessionId, Some(token), Some(digest));
    MoveKey(objects0, sessionId, path, StoredObject(Flatten(chunks), None, None), StoredObject(Flatten(chunks), Some(hash), None));
    pulled := GetBlob(bucket, name, digest);
  }
}
