/**
 * The object-store bucket the handlers call (`env.dataBucket`): objects by
 * key, each with its bytes, an optional SHA-256 checksum and an optional
 * content type, plus the multipart uploads in progress, each bound to the
 * key it will complete into and holding its parts by part number.
 */
module ObjectStore {
  import opened Wrappers
  import opened Streams
  import opened Text

  type UploadId = nat
  type ETag = nat

  datatype StoredObject = StoredObject(body: seq<byte>, sha256: Option<seq<byte>>, contentType: Option<string>)

  /** What `head` reports: size and metadata, no body. */
  datatype ObjectInfo = ObjectInfo(size: nat, sha256: Option<seq<byte>>, contentType: Option<string>)

  /** The receipt `uploadPart` returns; completing an upload lists these. */
  datatype UploadedPart = UploadedPart(partNumber: nat, etag: ETag)

  datatype StoredPart = StoredPart(etag: ETag, bytes: seq<byte>)

  datatype MultipartUpload = MultipartUpload(key: string, parts: map<nat, StoredPart>)

  /** Every listed part was uploaded and its receipt matches what the upload holds. */
  predicate PartsPresent(upload: MultipartUpload, listed: seq<UploadedPart>)
  {
    forall i :: 0 <= i < |listed| ==>
      listed[i].partNumber in upload.parts && upload.parts[listed[i].partNumber].etag == listed[i].etag
  }

  /** The object a completed upload assembles: the listed parts' bytes, in list order. */
  function Assemble(upload: MultipartUpload, listed: seq<UploadedPart>): seq<byte>
    requires PartsPresent(upload, listed)
  {
    if listed == [] then []
    else Assemble(upload, listed[..|listed| - 1]) + upload.parts[listed[|listed| - 1].partNumber].bytes
  }

  /** An upload `id` exists and was created for `key`, so `key` and `id` resume it. */
  predicate Resumable(uploads: map<UploadId, MultipartUpload>, id: UploadId, key: string)
  {
    id in uploads && uploads[id].key == key
  }

  class Bucket {
    var objects: map<string, StoredObject>
    var uploads: map<UploadId, MultipartUpload>
    var nextUploadId: UploadId
    var nextETag: ETag

    /** Upload identifiers are handed out from a counter, so a new one is never in use. */
    ghost predicate Valid()
      reads this
    {
      forall id :: id in uploads ==> id < nextUploadId
    }

    constructor ()
      ensures Valid() && objects == map[] && uploads == map[]
    {
      objects := map[];
      uploads := map[];
      nextUploadId := 0;
      nextETag := 0;
    }

    method Head(key: string) returns (info: Option<ObjectInfo>)
      ensures info.Some? <==> key in objects
      ensures info.Some? ==> info.value == ObjectInfo(|objects[key].body|, objects[key].sha256, objects[key].contentType)
    {
      if key in objects {
        var obj := objects[key];
        info := Some(ObjectInfo(|obj.body|, obj.sha256, obj.contentType));
      } else {
        info := None;
      }
    }

    method Get(key: string) returns (obj: Option<StoredObject>)
      ensures obj.Some? <==> key in objects
      ensures obj.Some? ==> obj.value == objects[key]
    {
      obj := if key in objects then Some(objects[key]) else None;
    }

    method Put(key: string, body: seq<byte>, sha256: Option<seq<byte>>, contentType: Option<string>) returns (obj: StoredObject)
      requires Valid()
      modifies this
      ensures Valid()
      ensures obj == StoredObject(body, sha256, contentType)
      ensures objects == old(objects)[key := obj]
      ensures uploads == old(uploads)
    {
      obj := StoredObject(body, sha256, contentType);
      objects := objects[key := obj];
    }

    /** Removes `key` if present; deleting an absent key is not an error. */
    method Delete(key: string)
      requires Valid()
      modifies this
      ensures Valid()
      ensures objects == old(objects) - {key}
      ensures uploads == old(uploads)
    {
      objects := objects - {key};
    }

    /** The keys that start with `prefix`, each once. */
    method List(prefix: string) returns (keys: seq<string>)
      ensures forall k :: k in keys <==> k in objects && StartsWith(k, prefix)
      ensures forall i, j :: 0 <= i < j < |keys| ==> keys[i] != keys[j]
    {
      keys := [];
      var todo := objects.Keys;
      while todo != {}
        invariant todo <= objects.Keys
        invariant forall k :: k in keys <==> k in objects && k !in todo && StartsWith(k, prefix)
        invariant forall i, j :: 0 <= i < j < |keys| ==> keys[i] != keys[j]
        decreases todo
      {
        var k :| k in todo;
        if StartsWith(k, prefix) {
          keys := keys + [k];
        }
        todo := todo - {k};
      }
    }

    method CreateMultipartUpload(key: string) returns (id: UploadId)
      requires Valid()
      modifies this
      ensures Valid()
      ensures id !in old(uploads)
      ensures uploads == old(uploads)[id := MultipartUpload(key, map[])]
      ensures objects == old(objects)
    {
      id := nextUploadId;
      uploads := uploads[id := MultipartUpload(key, map[])];
      nextUploadId := nextUploadId + 1;
    }

    /**
     * Stores `bytes` as part `partNumber` of upload `id` (replacing a part
     * with that number) and returns its receipt; an unknown upload, or one
     * created for another key, is an error.
     */
    method UploadPart(key: string, id: UploadId, partNumber: nat, bytes: seq<byte>) returns (part: Option<UploadedPart>)
      requires Valid()
      modifies this
      ensures Valid()
      ensures part.Some? <==> Resumable(old(uploads), id, key)
      ensures part.Some? ==> part.value.partNumber == partNumber
      ensures part.Some? ==> uploads == old(uploads)[id := MultipartUpload(key, old(uploads)[id].parts[partNumber := StoredPart(part.value.etag, bytes)])]
      ensures part.None? ==> uploads == old(uploads)
      ensures objects == old(objects)
    {
      if Resumable(uploads, id, key) {
        var etag := nextETag;
        nextETag := nextETag + 1;
        uploads := uploads[id := MultipartUpload(key, uploads[id].parts[partNumber := StoredPart(etag, bytes)])];
        part := Some(UploadedPart(partNumber, etag));
      } else {
        part := None;
      }
    }

    /**
     * Completes upload `id`: the listed parts, in list order, become the
     * object at the upload's key and the upload is gone. Fails, changing
     * nothing, when the upload is unknown or a listed part does not match.
     */
    method Complete(key: string, id: UploadId, listed: seq<UploadedPart>) returns (ok: bool)
      requires Valid()
      modifies this
      ensures Valid()
      ensures ok <==> Resumable(old(uploads), id, key) && PartsPresent(old(uploads)[id], listed)
      ensures ok ==> objects == old(objects)[key := StoredObject(Assemble(old(uploads)[id], listed), None, None)]
      ensures ok ==> uploads == old(uploads) - {id}
      ensures !ok ==> objects == old(objects) && uploads == old(uploads)
    {
      ok := Resumable(uploads, id, key) && PartsPresent(uploads[id], listed);
      if ok {
        objects := objects[key := StoredObject(Assemble(uploads[id], listed), None, None)];
        uploads := uploads - {id};
      }
    }
  }
}
