/**
 * Manifest routes. A pushed manifest is written twice, under the reference
 * the client pushed to and under its own digest, so it can be pulled either
 * way; deleting removes only the reference. The tag list is derived from
 * the stored manifest keys.
 */
module Manifests {
  import opened Wrappers
  import opened Streams
  import opened Text
  import opened Digests
  import opened Responses
  import opened ObjectStore

  const DefaultManifestType: string := "application/vnd.docker.distribution.manifest.v2+json"

  /** Tags starting with this are digest-keyed copies and are not listed. */
  const DigestTagPrefix: string := "sha256"

  /** Where manifest `ref` of repository `name` is stored; `ref` "" gives the listing prefix. */
  function ManifestPath(name: string, ref: string): (key: string)
    ensures StartsWith(key, name + "/manifests/")
    ensures key[|name + "/manifests/"|..] == ref
  {
    name + "/manifests/" + ref
  }

  /** Different references of one repository are different keys. */
  lemma ManifestPathInjective(name: string, ref1: string, ref2: string)
    requires ref1 != ref2
    ensures ManifestPath(name, ref1) != ManifestPath(name, ref2)
  {
    var n := |name| + |"/manifests/"|;
    assert ManifestPath(name, ref1)[n..] == ref1;
    assert ManifestPath(name, ref2)[n..] == ref2;
  }

  // ---------------------------------------------------------------------
  // Tag listing: last path segment of every listed key, digest-like
  // entries dropped, the rest sorted.

  /** `key.substring(key.lastIndexOf("/") + 1)`. */
  function TagOf(key: string): (t: string)
    ensures forall i :: 0 <= i < |t| ==> t[i] != '/'
    ensures |t| <= |key| && t == key[|key| - |t|..]
    ensures |t| < |key| ==> key[|key| - |t| - 1] == '/'
  {
    key[LastIndexOf(key, '/') + 1..]
  }

  /** A reference without a slash is listed as itself. */
  lemma TagOfManifestPath(name: string, ref: string)
    requires forall i :: 0 <= i < |ref| ==> ref[i] != '/'
    ensures TagOf(ManifestPath(name, ref)) == ref
  {
    var key := ManifestPath(name, ref);
    var t := TagOf(key);
    var slash := |name| + |"/manifests"|;
    assert key[slash] == '/';
    assert key[slash + 1..] == ref;
  }

  /** The `map` step: one segment per key, in key order. */
  function Segments(keys: seq<string>): (r: seq<string>)
    ensures |r| == |keys|
    ensures forall i :: 0 <= i < |keys| ==> r[i] == TagOf(keys[i])
  {
    seq(|keys|, i requires 0 <= i < |keys| => TagOf(keys[i]))
  }

  /** The `filter` step: everything not starting with `sha256`, in order. */
  function KeepTags(names: seq<string>): (r: seq<string>)
    ensures forall t :: multiset(r)[t] == if StartsWith(t, DigestTagPrefix) then 0 else multiset(names)[t]
  {
    if names == [] then []
    else
      assert names == [names[0]] + names[1..];
      (if StartsWith(names[0], DigestTagPrefix) then [] else [names[0]]) + KeepTags(names[1..])
  }

  /** The `tags` field of the listing. */
  function Tags(keys: seq<string>): (tags: seq<string>)
    ensures Sorted(tags)
    ensures forall t :: t in tags ==> !StartsWith(t, DigestTagPrefix)
    ensures multiset(tags) == multiset(KeepTags(Segments(keys)))
  {
    var kept := KeepTags(Segments(keys));
    assert forall t :: t in kept ==> !StartsWith(t, DigestTagPrefix) by {
      forall t | t in kept ensures !StartsWith(t, DigestTagPrefix) {
        assert multiset(kept)[t] > 0;
      }
    }
    var tags := Sort(kept);
    assert forall t :: t in tags ==> t in kept by {
      forall t | t in tags ensures t in kept { assert t in multiset(tags); }
    }
    tags
  }

  /** The `map` step: a segment occurs exactly when some key ends in it. */
  lemma SegmentsMembers(keys: seq<string>, t: string)
    ensures t in Segments(keys) <==> exists i :: 0 <= i < |keys| && TagOf(keys[i]) == t
  {
    var segs := Segments(keys);
    if t in segs {
      var i :| 0 <= i < |segs| && segs[i] == t;
      assert TagOf(keys[i]) == t;
    }
    if exists i :: 0 <= i < |keys| && TagOf(keys[i]) == t {
      var i :| 0 <= i < |keys| && TagOf(keys[i]) == t;
      assert segs[i] == t;
    }
  }

  /** The `filter` step: a name survives exactly when it was there and does not start with `sha256`. */
  lemma KeepTagsMembers(names: seq<string>, t: string)
    ensures t in KeepTags(names) <==> t in names && !StartsWith(t, DigestTagPrefix)
  {
    assert t in KeepTags(names) <==> multiset(KeepTags(names))[t] > 0;
    assert t in names <==> multiset(names)[t] > 0;
  }

  /** The `sort` step: sorting neither adds nor drops a tag. */
  lemma TagsMembers(keys: seq<string>, t: string)
    ensures t in Tags(keys) <==> t in KeepTags(Segments(keys))
  {
    assert t in Tags(keys) <==> multiset(Tags(keys))[t] > 0;
    assert t in KeepTags(Segments(keys)) <==> multiset(KeepTags(Segments(keys)))[t] > 0;
  }

  /** A tag is listed exactly when some listed key ends in it and it does not start with `sha256`. */
  lemma TagsExactly(keys: seq<string>, t: string)
    ensures t in Tags(keys) <==> (exists i :: 0 <= i < |keys| && TagOf(keys[i]) == t) && !StartsWith(t, DigestTagPrefix)
  {
    TagsMembers(keys, t);
    KeepTagsMembers(Segments(keys), t);
    SegmentsMembers(keys, t);
  }

  /** A key of the listing is one of the listed keys, at some index. */
  lemma ListedKeyAt(objects: map<string, StoredObject>, prefix: string, keys: seq<string>, k: string)
    requires forall k :: k in keys <==> k in objects && StartsWith(k, prefix)
    requires k in objects && StartsWith(k, prefix)
    ensures exists i :: 0 <= i < |keys| && keys[i] == k
  {
    assert k in keys;
  }

  /** Every listed tag comes from a key of the listing and does not start with `sha256`. */
  lemma ListedTagsSound(objects: map<string, StoredObject>, prefix: string, keys: seq<string>, t: string)
    requires forall k :: k in keys <==> k in objects && StartsWith(k, prefix)
    ensures t in Tags(keys) ==> exists k :: k in objects && StartsWith(k, prefix) && TagOf(k) == t
    ensures t in Tags(keys) ==> !StartsWith(t, DigestTagPrefix)
  {
    TagsExactly(keys, t);
    if t in Tags(keys) {
      var i :| 0 <= i < |keys| && TagOf(keys[i]) == t;
      assert keys[i] in keys;
    }
  }

  /** Every key of the listing whose tag does not start with `sha256` has its tag listed. */
  lemma ListedTagsComplete(objects: map<string, StoredObject>, prefix: string, keys: seq<string>, k: string)
    requires forall k :: k in keys <==> k in objects && StartsWith(k, prefix)
    requires k in objects && StartsWith(k, prefix) && !StartsWith(TagOf(k), DigestTagPrefix)
    ensures TagOf(k) in Tags(keys)
  {
    ListedKeyAt(objects, prefix, keys, k);
    TagsExactly(keys, TagOf(k));
  }

  /** Over a complete listing of the keys under `prefix`, `Tags` holds exactly the non-digest last segments. */
  lemma ListedTags(objects: map<string, StoredObject>, prefix: string, keys: seq<string>)
    requires forall k :: k in keys <==> k in objects && StartsWith(k, prefix)
    ensures forall t :: t in Tags(keys) <==>
              && (exists k :: k in objects && StartsWith(k, prefix) && TagOf(k) == t)
              && !StartsWith(t, DigestTagPrefix)
  {
    forall t | t in Tags(keys)
      ensures (exists k :: k in objects && StartsWith(k, prefix) && TagOf(k) == t) && !StartsWith(t, DigestTagPrefix)
    {
      ListedTagsSound(objects, prefix, keys, t);
    }
    forall k | k in objects && StartsWith(k, prefix) && !StartsWith(TagOf(k), DigestTagPrefix)
      ensures TagOf(k) in Tags(keys)
    {
      ListedTagsComplete(objects, prefix, keys, k);
    }
  }

  /**
   * GET tags: answers 200 with `{name, tags}`, where a tag is listed exactly
   * when some manifest key of the repository ends in it and it does not
   * start with `sha256`, in ascending order.
   */
  method ListTags(bucket: Bucket, name: string) returns (r: AnyResponse, ghost listed: seq<string>)
    ensures forall k :: k in listed <==> k in bucket.objects && StartsWith(k, ManifestPath(name, ""))
    ensures forall i, j :: 0 <= i < j < |listed| ==> listed[i] != listed[j]
    ensures r == AsBuilder(Builder(200, TagList(name, Tags(listed)), map[], None))
    ensures r.AsBuilder? && r.builder.body.TagList? && r.builder.body.name == name && Sorted(r.builder.body.tags)
    ensures forall t :: t in r.builder.body.tags <==>
              && (exists k :: k in bucket.objects && StartsWith(k, ManifestPath(name, "")) && TagOf(k) == t)
              && !StartsWith(t, DigestTagPrefix)
  {
    var path := ManifestPath(name, "");
    var keys := bucket.List(path);
    listed := keys;
    r := AsBuilder(Ok.WithBody(TagList(name, Tags(keys))));
    ListedTags(bucket.objects, path, keys);
  }

  /** In a list without repeats, an index holding `a` or `b` is where `a` or `b` was found. */
  lemma IndexOfPair(s: seq<string>, a: string, b: string, i: nat, j: nat, m: nat)
    requires forall k :: k in s <==> k == a || k == b
    requires forall i, j :: 0 <= i < j < |s| ==> s[i] != s[j]
    requires i < |s| && s[i] == a && j < |s| && s[j] == b
    ensures m < |s| ==> m == i || m == j
  {
    if m < |s| {
      assert s[m] in s;
    }
  }

  /** A list of two distinct values, each once, is one of their two orders. */
  lemma DistinctPair(s: seq<string>, a: string, b: string)
    requires a != b
    requires forall k :: k in s <==> k == a || k == b
    requires forall i, j :: 0 <= i < j < |s| ==> s[i] != s[j]
    ensures s == [a, b] || s == [b, a]
  {
    assert a in s && b in s;
    var i :| 0 <= i < |s| && s[i] == a;
    var j :| 0 <= j < |s| && s[j] == b;
    IndexOfPair(s, a, b, i, j, 0);
    IndexOfPair(s, a, b, i, j, 1);
    IndexOfPair(s, a, b, i, j, 2);
  }

  /** Filtering a tag and a digest-like name, in either order, keeps the tag alone. */
  lemma KeepTagsOfPair(names: seq<string>, tag: string, digest: string)
    requires names == [tag, digest] || names == [digest, tag]
    requires !StartsWith(tag, DigestTagPrefix) && StartsWith(digest, DigestTagPrefix)
    ensures KeepTags(names) == [tag]
  {
    assert KeepTags([]) == [];
    if names == [tag, digest] {
      assert names[1..] == [digest] && [digest][1..] == [];
      assert KeepTags([digest]) == [];
    } else {
      assert names[1..] == [tag] && [tag][1..] == [];
      assert KeepTags([tag]) == [tag];
    }
  }

  /** A list holding one copy of `t` and nothing else is `[t]`. */
  lemma SingleTag(s: seq<string>, t: string)
    requires multiset(s) == multiset([t])
    ensures s == [t]
  {
    assert |s| == |multiset(s)| == 1;
    assert s[0] in multiset(s);
  }

  /** The last segments of two keys, in the keys' order. */
  lemma SegmentsOfPair(keys: seq<string>, x: string, y: string)
    requires keys == [x, y] || keys == [y, x]
    ensures Segments(keys) == [TagOf(x), TagOf(y)] || Segments(keys) == [TagOf(y), TagOf(x)]
  {
    if keys == [x, y] {
      assert Segments(keys) == [TagOf(x), TagOf(y)];
    } else {
      assert Segments(keys) == [TagOf(y), TagOf(x)];
    }
  }

  /** Listing a tag key and a digest key, in either order, gives the one tag. */
  lemma TagsOfPair(keys: seq<string>, x: string, y: string, tag: string, digest: string)
    requires keys == [x, y] || keys == [y, x]
    requires TagOf(x) == tag && !StartsWith(tag, DigestTagPrefix)
    requires TagOf(y) == digest && StartsWith(digest, DigestTagPrefix)
    ensures Tags(keys) == [tag]
  {
    SegmentsOfPair(keys, x, y);
    KeepTagsOfPair(Segments(keys), tag, digest);
    SingleTag(Tags(keys), tag);
  }

  /**
   * The filtering example: a repository holding `latest` and one manifest
   * filed under its digest lists only `latest`, once.
   */
  lemma TagFilterExample(keys: seq<string>)
    requires forall k :: k in keys <==> k == ManifestPath("app", "latest") || k == ManifestPath("app", "sha256:abc")
    requires forall i, j :: 0 <= i < j < |keys| ==> keys[i] != keys[j]
    ensures Tags(keys) == ["latest"]
  {
    TagOfManifestPath("app", "latest");
    TagOfManifestPath("app", "sha256:abc");
    ManifestPathInjective("app", "latest", "sha256:abc");
    DistinctPair(keys, ManifestPath("app", "latest"), ManifestPath("app", "sha256:abc"));
    TagsOfPair(keys, ManifestPath("app", "latest"), ManifestPath("app", "sha256:abc"), "latest", "sha256:abc");
  }

  // ---------------------------------------------------------------------
  // Pull, push and delete.

  /**
   * The 200 answer for a stored manifest: size, content type and, if
   * known, digest. A missing content type is sent as the text "undefined".
   */
  predicate ManifestFound(b: Builder, obj: StoredObject, body: Body)
  {
    && b.status == 200 && b.body == body && b.errors.None?
    && b.headers.Keys == {ContentLengthHeader, ContentTypeHeader} + (if obj.sha256.Some? then {DigestHeaderName} else {})
    && b.headers[ContentLengthHeader] == Decimal(|obj.body|)
    && b.headers[ContentTypeHeader] == obj.contentType.GetOr("undefined")
    && (obj.sha256.Some? ==> b.headers[DigestHeaderName] == HexToDigest(obj.sha256.value))
  }

  method HeadManifest(bucket: Bucket, name: string, ref: string) returns (r: AnyResponse)
    ensures ManifestPath(name, ref) !in bucket.objects ==>
              r == AsError(ErrBlobUnknown.WithDetail("missing manifest " + name + ":" + ref))
    ensures ManifestPath(name, ref) in bucket.objects ==>
              r.AsBuilder? && ManifestFound(r.builder, bucket.objects[ManifestPath(name, ref)], Null)
  {
    var path := ManifestPath(name, ref);
    var res := bucket.Head(path);
    if res.None? {
      r := AsError(ErrBlobUnknown.WithDetail("missing manifest " + name + ":" + ref));
      return;
    }
    var info := res.value;
    var headers := map[ContentLengthHeader := Decimal(info.size),
                       ContentTypeHeader := info.contentType.GetOr("undefined")] + DigestHeader(info.sha256);
    var b := Ok.WithHeaders(headers);
    r := AsBuilder(b);
  }

  method GetManifest(bucket: Bucket, name: string, ref: string) returns (r: AnyResponse)
    ensures ManifestPath(name, ref) !in bucket.objects ==>
              r == AsError(ErrBlobUnknown.WithDetail("missing manifest " + name + ":" + ref))
    ensures ManifestPath(name, ref) in bucket.objects ==>
              var obj := bucket.objects[ManifestPath(name, ref)];
              r.AsBuilder? && ManifestFound(r.builder, obj, Bytes(obj.body))
  {
    var path := ManifestPath(name, ref);
    var res := bucket.Get(path);
    if res.None? {
      r := AsError(ErrBlobUnknown.WithDetail("missing manifest " + name + ":" + ref));
      return;
    }
    var obj := res.value;
    var headers := map[ContentLengthHeader := Decimal(|obj.body|),
                       ContentTypeHeader := obj.contentType.GetOr("undefined")] + DigestHeader(obj.sha256);
    var b := Ok.WithHeaders(headers);
    r := AsBuilder(b.WithBody(Bytes(obj.body)));
  }

  /**
   * The object both manifest keys receive for a pushed body: the body, its
   * hash as checksum, and the request's content type or, without one, the
   * Docker v2 manifest type.
   */
  function ManifestObject(sha256: seq<byte> -> seq<byte>, body: seq<byte>, contentType: Option<string>): (obj: StoredObject)
    ensures obj.body == body && obj.sha256 == Some(sha256(body)) && obj.contentType.Some?
    ensures contentType.Some? ==> obj.contentType == contentType
    ensures contentType.None? ==> obj.contentType == Some(DefaultManifestType)
  {
    StoredObject(body, Some(sha256(body)), Some(contentType.GetOr(DefaultManifestType)))
  }

  /**
   * PUT: stores the body under `{name}/manifests/{ref}` and under
   * `{name}/manifests/sha256:<hex>`, both with the body's SHA-256 (computed
   * by `sha256`, the hash the runtime provides) and the request's content
   * type, or the Docker v2 manifest type when the request has none.
   */
  method PutManifest(bucket: Bucket, sha256: seq<byte> -> seq<byte>, name: string, ref: string,
                     contentType: Option<string>, body: Option<seq<byte>>)
    returns (r: AnyResponse)
    requires bucket.Valid()
    modifies bucket
    ensures bucket.Valid() && bucket.uploads == old(bucket.uploads)
    ensures body.None? ==>
              r == AsError(ErrManifestInvalid.WithDetail("missing body for " + name + ":" + ref))
              && bucket.objects == old(bucket.objects)
    ensures body.Some? ==>
              var obj := ManifestObject(sha256, body.value, contentType);
              var digestPath := ManifestPath(name, HexToDigest(sha256(body.value)));
              && bucket.objects == old(bucket.objects)[ManifestPath(name, ref) := obj][digestPath := obj]
              && ManifestPath(name, ref) in bucket.objects && bucket.objects[ManifestPath(name, ref)] == obj
              && digestPath in bucket.objects && bucket.objects[digestPath] == obj
              && r == AsBuilder(Builder(201, Null,
                                        map[LocationHeader := "/v2/" + ManifestPath(name, ref),
                                            DigestHeaderName := HexToDigest(sha256(body.value))],
                                        None))
  {
    var path := ManifestPath(name, ref);
    if body.None? {
      r := AsError(ErrManifestInvalid.WithDetail("missing body for " + name + ":" + ref));
      return;
    }
    var bytes := body.value;
    var digest := sha256(bytes);
    var digestStr := HexToDigest(digest);
    var _ := bucket.Put(path, bytes, Some(digest), Some(contentType.GetOr(DefaultManifestType)));
    var obj := bucket.Put(ManifestPath(name, digestStr), bytes, Some(digest), Some(contentType.GetOr(DefaultManifestType)));
    var b := Created.WithHeaders(map[LocationHeader := "/v2/" + path, DigestHeaderName := HexToDigest(obj.sha256.value)]);
    r := AsBuilder(b);
  }

  /** DELETE: removes the reference's key only; the digest-keyed copy stays. */
  method DeleteManifest(bucket: Bucket, name: string, ref: string) returns (r: AnyResponse)
    requires bucket.Valid()
    modifies bucket
    ensures bucket.Valid() && bucket.uploads == old(bucket.uploads)
    ensures bucket.objects == old(bucket.objects) - {ManifestPath(name, ref)}
    ensures r == AsBuilder(Accepted)
  {
    bucket.Delete(ManifestPath(name, ref));
    r := AsBuilder(Accepted);
  }

  /**
   * Pushing a manifest to a tag and then deleting that tag leaves the
   * manifest pullable by its digest, with the same bytes.
   */
  method PushThenUntag(bucket: Bucket, sha256: seq<byte> -> seq<byte>, name: string, tag: string, body: seq<byte>)
    returns (pulled: AnyResponse)
    requires bucket.Valid()
    requires !StartsWith(tag, Sha256Prefix)
    modifies bucket
    ensures bucket.Valid()
    ensures ManifestPath(name, tag) !in bucket.objects
    ensures pulled.AsBuilder? && pulled.builder.body == Bytes(body)
    ensures DigestHeaderName in pulled.builder.headers && pulled.builder.headers[DigestHeaderName] == HexToDigest(sha256(body))
  {
    var digestStr := HexToDigest(sha256(body));
    assert tag != digestStr;
    ManifestPathInjective(name, tag, digestStr);
    var _ := PutManifest(bucket, sha256, name, tag, None, Some(body));
    var _ := DeleteManifest(bucket, name, tag);
    pulled := GetManifest(bucket, name, digestStr);
  }
}
