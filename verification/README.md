# A verified model of the container-registry upload and commit engine

This project models the core of a small OCI / Docker distribution registry that runs as a
serverless worker over an object-store bucket. The model has three parts:

- **Blob push sessions.** A session is opened, fed chunk by chunk, and completed under the blob's
  digest. The server keeps no session record. The state travels to the client inside the
  `Location` URL, and each request sends it back as `_state`.
- **Manifest push and pull.** Each pushed manifest is written twice: once under its tag and once
  under its own `sha256:` digest. A manifest can be pulled by either key.
- **Supporting pieces.** The digest text format, the immutable response builder with its registry
  errors, and the ready-made error responses.

Layout, one module per source file plus two shared ones:

| file | module | models |
|---|---|---|
| `wrappers.dfy` | `Wrappers` | The optional value, for request and stored fields that may be absent. |
| `streams.dfy` | `Streams` | Bytes, and a body as the chunks its reader returns. |
| `text.dfy` | `Text` | The JavaScript string and number operations the handlers rely on: `startsWith`, `slice`, `lastIndexOf`, `Number.toString`, the default `Array.sort` order. |
| `digest.dfy` | `Digests` | `hexToDigest`, and the decoder that inverts it. |
| `response.dfy` | `Responses` | `APIError`, the `ERR_*` constants, `ResponseBuilder`, `OK`/`CREATED`/`ACCEPTED`, `AnyResponse`, and the header names and `Docker-Content-Digest` header both route files set. |
| `errors.dfy` | `Errors` | `makeResponse`, and the four error responses built from it. |
| `store.dfy` | `ObjectStore` | The bucket the handlers call, as a class. It holds a map of objects and a map of multipart uploads. |
| `blob.dfy` | `Blobs` | The blob routes. |
| `manifest.dfy` | `Manifests` | The manifest routes. |
| `chunked_push.dfy` | `ChunkedPush` | A client pushing one blob through a whole session. Proves that the three blob handlers fit together. |

How the model is built:

- **Builders.** The builder and the errors are immutable values (datatypes). `withHeaders` and
  `ResponseBuilder.toResponse` copy headers one `set` at a time, so they are methods with a loop
  (`Responses.SetEach`).
- **Handlers.** The route handlers are module-level methods of `Blobs` and `Manifests` that take the
  bucket as a parameter and declare `modifies bucket`. The bucket calls they make (`head`, `get`,
  `put`, `delete`, `list` and the multipart calls) are methods of the `ObjectStore.Bucket` class.
- **What a handler produces** is one of four things:
  - a `Response`;
  - an `APIError`;
  - a `ResponseBuilder`;
  - `Rejected`, meaning the handler's promise rejects. This happens, for example, when
    `JSON.parse` throws, or when the bucket refuses an unknown upload.
- **External behaviour is passed in.** Three things come from outside the model:
  - SHA-256 is a function parameter.
  - The `_state` codec (`JSON.stringify` followed by `encodeURIComponent`, and the reverse) is a
    parameter pair. `Blobs.RoundTrips` states that decoding undoes encoding. Reading a token has
    three outcomes (`Blobs.ParsedState`): `JSON.parse` throws, it yields a value that is not an
    upload state (the cast checks nothing), or it yields a state.
  - The session UUID is a parameter.

## Model

| member | source | states |
|---|---|---|
| Text.LastIndexOf | src/routes/manifest.ts:23 | The result is -1 or a position of the searched character, and no later position holds it. |
| Text.Decimal | src/routes/blob.ts:32 | `size.toString()` is a non-empty run of decimal digits with no leading zero. |
| Text.DecimalRoundTrip | src/routes/blob.ts:32 | Parsing the printed `Content-Length` gives the size back. |
| Text.DecimalInjective | src/routes/manifest.ts:50 | Different sizes print differently. |
| Text.StartsWithConcat | src/routes/manifest.ts:24 | `startsWith` holds exactly when the text is the prefix followed by something. |
| Text.SliceFrom | src/routes/blob.ts:140 | `slice(7)` on a text of length at least 7 is the rest after its first 7 characters; on a shorter text it is empty. |
| Streams.Flatten | src/routes/blob.ts:103-111 | The bytes of a body are as many as its chunks hold together, and a one-chunk body is that chunk. |
| Text.LexLeTotal | src/routes/manifest.ts:25 | Any two tags are comparable under the default sort order. |
| Text.LexLeReflexive | src/routes/manifest.ts:25 | Every tag is ordered before-or-equal to itself. |
| Text.LexLeTransitive | src/routes/manifest.ts:25 | The default sort order is transitive. |
| Text.LexLeAntisymmetric | src/routes/manifest.ts:25 | Two tags ordered both ways are equal. |
| Text.Insert | src/routes/manifest.ts:25 | Inserting into a sorted list keeps it sorted and adds exactly that one element. |
| Text.Sort | src/routes/manifest.ts:25 | `sort()` returns an ascending permutation of its input. |
| Text.SortedHeadLeast | src/routes/manifest.ts:25 | In a sorted list, the first element is at most every element. |
| Text.SortedSameHead | src/routes/manifest.ts:25 | Two sorted permutations of one multiset start with the same element. |
| Text.SortedUnique | src/routes/manifest.ts:25 | There is only one sorted arrangement of a multiset of tags, so the listing is determined by the stored keys. |
| Digests.NibbleChar | src/util/digest.ts:5 | Every value below 16 is written as one lowercase hex digit. |
| Digests.ByteHex | src/util/digest.ts:5 | Every byte is written as exactly two lowercase hex digits, high nibble first, which read back as the byte. |
| Digests.Hex | src/util/digest.ts:4-6 | The hex text has two characters per byte, all of them lowercase hex digits. |
| Digests.HexToDigest | src/util/digest.ts:3-8 | The digest starts with `sha256:`. It is 7 + 2n characters long for n bytes, and everything after the prefix is lowercase hex. |
| Digests.HexAt | src/util/digest.ts:5 | Byte i is written at offsets 2i and 2i+1 of the hex text, as its high and low nibble. |
| Digests.DigestCharAt | src/util/digest.ts:5 | Byte i appears at offsets 7+2i and 8+2i of the digest, high nibble first, zero-padded. |
| Digests.NibbleRoundTrip | src/util/digest.ts:5 | Reading a written hex digit gives its value back. |
| Digests.ByteHexRoundTrip | src/util/digest.ts:5 | Reading back the two-digit form of a byte gives the byte. |
| Digests.PairByteHex | src/util/digest.ts:5 | Every pair of lowercase hex digits is the two-digit form of the byte it reads as. |
| Digests.DecodeHexOfHex | src/util/digest.ts:4-6 | Decoding the hex text recovers the bytes. |
| Digests.HexOfDecodeHex | src/util/digest.ts:4-6 | Every text the decoder accepts is exactly the hex form of what it returns. |
| Digests.DecodeHex | src/routes/blob.ts:140 | The `sha256` text handed to `put` is read as a checksum exactly when it is an even number of lowercase hex digits, and then yields half as many bytes. |
| Digests.DigestRoundTrip | src/util/digest.ts:3-8 | Decoding the hex pairs after the prefix recovers the hash. |
| Digests.DigestBytesExact | src/util/digest.ts:3-8 | A digest string that decodes is exactly the digest of its bytes. |
| Digests.HexToDigestInjective | src/util/digest.ts:3-8 | Different hashes give different digest strings. |
| Responses.APIError.WithDetail | src/util/response.ts:16-18 | Status, code and message are kept, and only the detail is replaced. |
| Responses.APIError.ToResponse | src/util/response.ts:20-24 | Status -1 is sent as 400 and any other status as itself. `WWW-Authenticate: Basic` is added exactly when the status is 401. The body is the one-element error envelope. |
| Responses.SetEach | src/util/response.ts:61-64 | After the loop of `set` calls, names from the new set take its values and every other name keeps its old value. |
| Responses.Builder.WithBody | src/util/response.ts:55-57 | Only the body changes. |
| Responses.Builder.WithHeaders | src/util/response.ts:59-66 | Old headers are overridden by new ones on a name clash, and old-only names are kept. Status, body and errors are unchanged. |
| Responses.Builder.WithError | src/util/response.ts:68-70 | The error is appended at the end of the list, or becomes `[error]` when there was none. Nothing else changes. |
| Responses.Builder.ToResponse | src/util/response.ts:72-97 | The version header is set first and builder headers may override it. With errors present, the body is the envelope of their code, message and detail in list order, and the content type is JSON. Otherwise the body is the builder's. |
| Errors.MakeResponse | src/util/errors.ts:41-52 | The status is kept, the body is the error list unchanged, and the version and JSON content-type headers are present. Caller headers are spread last and win. |
| Errors.DefaultHeaders | src/util/errors.ts:46-50 | The default headers are exactly the API version and the JSON content type. |
| Errors.NotImplemented | src/util/errors.ts:13-18 | 405, default headers, one `UNSUPPORTED` error with no detail. |
| Errors.Unauthorized | src/util/errors.ts:20-25 | 401, one `UNAUTHORIZED` error, and `WWW-Authenticate: Basic` beside the default headers. |
| Errors.NameNotFound | src/util/errors.ts:27-32 | 404, default headers, one `NAME_UNKNOWN` error. |
| Errors.BlobNotFound | src/util/errors.ts:34-39 | 404, default headers, one `BLOB_UNKNOWN` error. |
| Errors.MakeResponseAgreesWithBuilder | src/util/errors.ts:41-52 | `makeResponse` renders the same response as a builder holding the same errors with no detail. |
| ObjectStore.Bucket.Head | src/routes/blob.ts:18 | Returns information exactly when the key exists: its size, checksum and content type. |
| ObjectStore.Bucket.Get | src/routes/blob.ts:42 | Returns the stored object exactly when the key exists. |
| ObjectStore.Bucket.Put | src/routes/blob.ts:139-141 | The key now maps to the given bytes and metadata, and nothing else changes. |
| ObjectStore.Bucket.Delete | src/routes/blob.ts:142 | Only the key is removed, and removing an absent key is not an error. |
| ObjectStore.Bucket.List | src/routes/manifest.ts:16-18 | Lists exactly the keys with the prefix, each once. |
| ObjectStore.Bucket.CreateMultipartUpload | src/routes/blob.ts:69 | A fresh upload id, bound to the key, with no parts. |
| ObjectStore.Bucket.UploadPart | src/routes/blob.ts:96-101 | Fails exactly when the upload is unknown or belongs to another key. Otherwise the bytes become that part number, under the etag the receipt carries. |
| ObjectStore.Bucket.Complete | src/routes/blob.ts:133-134 | Succeeds exactly when the upload exists for the key and every listed receipt matches. The key then holds the listed parts' bytes in list order, and the upload is gone. |
| Blobs.BlobPath | src/routes/blob.ts:7-9 | The key is the repository's `/blobs/` folder followed by the digest, which reads back from the key whole. |
| Blobs.BlobPathInjective | src/routes/blob.ts:7-9 | Within a repository, different digests give different keys. |
| Blobs.DecodeStateOfToken | src/routes/blob.ts:88 | Parsing the `_state` token the previous answer carried gives back that answer's upload state. |
| Blobs.UploadLocation | src/routes/blob.ts:76 | `Location` is the session's upload URL followed by `?_state=`, and the token reads back from it whole. |
| Responses.DigestHeader | src/routes/blob.ts:25-28 | `Docker-Content-Digest` is present exactly when a checksum is recorded, and it is `hexToDigest` of that checksum. |
| Blobs.HeadBlob | src/routes/blob.ts:13-35 | A missing blob gives `BLOB_UNKNOWN` with the detail. Otherwise the answer is 200 with `Content-Length` equal to the size, and the digest header exactly when a checksum is known. |
| Blobs.GetBlob | src/routes/blob.ts:37-60 | Same as `HeadBlob`, and the body is the stored bytes. |
| Blobs.InitiateHeaders | src/routes/blob.ts:73-79 | Exactly the five headers: the session id, a `Location` the token reads back from, `Content-Range` and `Range` `0-0`, and `Content-Length` 0. |
| Blobs.InitiateBlobUpload | src/routes/blob.ts:65-82 | A fresh multipart upload under the session id, a state with no parts, and 202 with the UUID, a `Location` carrying the state, ranges `0-0` and length 0. No object changes. |
| Blobs.ChunkHeaders | src/routes/blob.ts:117-121 | Exactly three headers: the session id, a `Location` the new token reads back from, and a `Range` of `0-` followed by text that parses back to this chunk's size. |
| Blobs.CountBytes | src/routes/blob.ts:103-111 | The read loop's count equals the number of bytes in the body. |
| Blobs.ChunkedBlobUpload | src/routes/blob.ts:86-124 | A `_state` on which `JSON.parse` throws rejects. Any parsed `_state`, whether or not it is an upload state, gets 405 when the body is missing, before any bucket call. With a body, a parsed value that is not a state rejects with nothing stored. The chunk becomes part `parts.length + 1` and its receipt is appended with earlier ones unchanged. `Range` is `0-` plus this chunk's counted size. Objects never change. |
| Blobs.ClientChecksum | src/routes/blob.ts:140 | A checksum exists exactly when a digest was sent and its text after the first 7 characters is hex; it is the hash whose hex form is that text. |
| Blobs.ClientChecksumEchoesDigest | src/routes/blob.ts:140 | A `sha256:` digest accepted as a checksum is echoed back unchanged by the digest header. |
| Blobs.MoveToDigest | src/routes/blob.ts:137-148 | The session object is copied to `{name}/blobs/{digest}` with the digest after its first 7 characters as checksum, and the session key is deleted; the answer is 201 with `Location`. A missing or non-hex digest rejects and changes nothing. |
| Blobs.CompleteBlobUpload | src/routes/blob.ts:128-149 | The parts in state order become the object at `{name}/blobs/{digest}`. Its checksum is the digest after its first 7 characters. The session key is gone. The answer is 201 with `Location` `/v2/{name}/blobs/{digest}`. The paths that reject are listed separately, together with what each leaves behind: a `_state` that does not parse, or parses to something other than an upload state, rejects with nothing changed. |
| Manifests.ManifestPath | src/routes/manifest.ts:6-8 | The key is the repository's `/manifests/` folder followed by the reference, which reads back from the key whole. |
| Manifests.ManifestPathInjective | src/routes/manifest.ts:6-8 | Different references of one repository are different keys. |
| Manifests.TagOf | src/routes/manifest.ts:23 | The listed tag is the key's suffix after its last slash, and contains no slash. |
| Manifests.TagOfManifestPath | src/routes/manifest.ts:6-8 | A slash-free reference is listed as itself. |
| Manifests.Segments | src/routes/manifest.ts:23 | One segment per listed key, in key order: segment i is the last path segment of key i. |
| Manifests.KeepTags | src/routes/manifest.ts:24 | Every segment not starting with `sha256` is kept as often as it occurs, and every other segment is dropped. |
| Manifests.Tags | src/routes/manifest.ts:22-25 | The tags are sorted, none starts with `sha256`, and as a multiset they are the filtered last segments. |
| Manifests.SegmentsMembers | src/routes/manifest.ts:23 | A segment occurs exactly when some listed key ends in it. |
| Manifests.KeepTagsMembers | src/routes/manifest.ts:24 | A name survives the filter exactly when it was present and does not start with `sha256`. |
| Manifests.TagsMembers | src/routes/manifest.ts:25 | Sorting neither adds nor drops a tag. |
| Manifests.TagsExactly | src/routes/manifest.ts:22-25 | A tag is listed if and only if some listed key ends in it and it does not start with `sha256`. |
| Manifests.ListedTagsSound | src/routes/manifest.ts:16-25 | Every listed tag is the last segment of some key under the prefix and does not start with `sha256`. |
| Manifests.ListedTagsComplete | src/routes/manifest.ts:16-25 | Every key under the prefix whose last segment does not start with `sha256` has that segment listed. |
| Manifests.ListedTags | src/routes/manifest.ts:16-25 | Over a complete listing of the keys under the prefix, a tag is listed if and only if some such key ends in it and it does not start with `sha256`. |
| Manifests.ListTags | src/routes/manifest.ts:11-27 | Answers 200 with `{name, tags}`. The tags are sorted, and a tag is listed if and only if some manifest key of the repository ends in it and it does not start with `sha256`. The listing names each key once, so each key contributes its tag once. |
| Manifests.TagFilterExample | src/routes/manifest.ts:20-26 | A repository holding the tag `latest` and one manifest filed under its `sha256:` digest lists exactly `["latest"]`. |
| Manifests.HeadManifest | src/routes/manifest.ts:31-54 | A missing manifest gives `BLOB_UNKNOWN` "missing manifest name:ref". Otherwise 200 with size, stored content type, and digest exactly when known. |
| Manifests.GetManifest | src/routes/manifest.ts:58-82 | Same as `HeadManifest`, and the body is the stored bytes. |
| Manifests.ManifestObject | src/routes/manifest.ts:108-119 | Both copies hold the body with its hash as checksum, and the request's content type, or the Docker v2 manifest type when the request has none. |
| Manifests.PutManifest | src/routes/manifest.ts:87-128 | With no body: `MANIFEST_INVALID` and nothing written. Otherwise the same object is written under the reference and under `sha256:<hex>`, with the body's hash and the request's content type (or the Docker v2 manifest type). The answer is 201 with `Location` and the digest. |
| Manifests.DeleteManifest | src/routes/manifest.ts:130-138 | Removes only the reference's key, and answers 202. |
| Manifests.PushThenUntag | src/routes/manifest.ts:87-138 | After pushing to a tag and deleting the tag, the tag key is gone. The manifest still pulls by digest, with the same bytes and digest header. |
| ChunkedPush.PartsNumberedExtend | src/routes/blob.ts:101-114 | Storing the next chunk as part `length + 1` and appending its receipt keeps the parts numbered 1..k in order. |
| ChunkedPush.AssembleNumbered | src/routes/blob.ts:133-134 | Parts numbered in order assemble to the chunks concatenated. |
| ChunkedPush.SendChunk | src/routes/blob.ts:86-124 | One PATCH with the current token adds the chunk as the next numbered part, and returns the token for the new state. |
| ChunkedPush.SendChunks | src/routes/blob.ts:86-124 | PATCHing each chunk in order with the previous answer's token leaves parts 1..k holding the k chunks, numbered in order, and changes no object. |
| ChunkedPush.PushInChunks | src/routes/blob.ts:65-149 | Initiate, then one PATCH per chunk, then complete with `sha256:<hex>`. The blob key then holds the chunks concatenated with the hash as checksum, and no upload is left open. Pulling it returns those bytes and echoes the digest. |

## Left out

- **SHA-256** (`crypto.DigestStream`) is a function parameter. Its 32-byte result length is not assumed, and nothing depends on it.
- **Streams** (`tee`, `pipeTo`, readers) are not modelled. A body is the sequence of chunks its reader returns, and the bytes stored are their concatenation.
- **`JSON.stringify`, `encodeURIComponent` and `JSON.parse`** are a codec parameter. The model covers their round trip, not their text.
- Blobs.ChunkedBlobUpload: a parsed `_state` that is not an upload state is modelled as rejecting with nothing stored when a body is present. That is what happens when reading `uploadId` or `parts.length` throws (`null`, or an object without `parts`). Some malformed values get further in the source: a string `parts` stores a part and then fails at `push`, and an array `parts` holding non-receipts is stored and answered with 202. The model does not follow those values.
- Blobs.CompleteBlobUpload: a parsed `_state` that is not an upload state is modelled as a refused `complete`, which rejects with nothing changed. The model does not follow what R2 does with such a part list.
- **`crypto.randomUUID`** is a parameter. Its freshness is not modelled.
- **Header names** are compared exactly. The case-insensitivity of `Headers` is not modelled, and the source spells each name the same way everywhere.
- **The bucket** is a map with counters:
  - R2's network failures, atomicity and consistency are not modelled.
  - The 1000-key page limit of `list` and its cursor are not modelled, so `ObjectStore.Bucket.List` returns every matching key.
  - Part-number and part-size limits are not modelled.
  - R2's own comparison of a supplied checksum against the written bytes is not modelled. The bucket records the checksum it is given.
- **Invalid checksums.** `Blobs.CompleteBlobUpload` records the client's digest text as hex. Text that is not lowercase hex pairs is treated as a rejected `put`, and the session object is left in place.
- **Sort order.** `Text.LexLe` orders strings by character, whereas JavaScript compares UTF-16 code units. The two orders differ only for characters outside the Basic Multilingual Plane.
- Console logging is left out.
- Concurrency between requests that share a token is left out.
- The auth middleware, the version endpoint, the router, the entry-point conversion of `APIError` and builders into responses, and the unrouted `push.ts` prototype are not part of this model.
- `ListTags` and `DeleteManifest` are modelled although `src/routes/index.ts` does not route them.
- **Features the code does not have, so the model does not either:**
  - `Content-Range` offset checks, and any shape check of the parsed `_state` value;
  - digest verification on completion (the registry protocol asks for it; the code stores the client's digest as given);
  - the monolithic single-request push, and `SIZE_INVALID`;
  - upload abort and blob deletion;
  - a `MANIFEST_UNKNOWN` answer.
- **Quirks the code has, and the model keeps:**
  - Head and Get of a manifest answer `BLOB_UNKNOWN`.
  - A manifest stored without a content type is served with `Content-Type: undefined`.
  - `Range` after a chunk covers that chunk alone, not the cumulative offset.
  - `CompleteBlobUpload` ignores the request body.
  - A missing `digest` query parameter makes completion reject after the multipart upload has been completed.
