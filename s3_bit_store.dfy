/**
 * The S3 asset store of DSpace (S3BitStoreService): bitstreams are kept as
 * objects of one bucket of an S3-compatible store, under a key derived from
 * the bitstream's internal id and an optional subfolder.
 *
 * The AWS client is replaced by `ObjectStore`, an in-memory map of buckets,
 * and every client call takes the fault it raises (if any) as a parameter,
 * so the model never touches a network.  A missing bucket or key answers
 * with status 404, as the store does.
 */
module S3BitStore {
  import opened Common

  /** Checksum algorithm reported with every ETag. */
  const CSA := "MD5"

  /** Prefix of the bucket name derived from the UI hostname when none is configured. */
  const DEFAULT_BUCKET_PREFIX := "dspace-asset-"

  /** HTTP status of a missing bucket or key. */
  const SC_NOT_FOUND := 404

  /** Keys of the attribute map that `About` fills in. */
  const SIZE_BYTES := "size_bytes"
  const CHECKSUM := "checksum"
  const CHECKSUM_ALGORITHM := "checksum_algorithm"
  const MODIFIED := "modified"

  // ---------------------------------------------------------------------
  // The remote store
  // ---------------------------------------------------------------------

  /** What the store keeps under one key: the bytes, the ETag it computed and the upload time. */
  datatype S3Object = S3Object(content: seq<byte>, eTag: string, lastModified: int)

  /** Bucket name -> (key -> object). */
  type Buckets = map<string, map<string, S3Object>>

  /** A fault raised by the AWS client. */
  datatype ClientFault =
    | S3ServiceError(statusCode: int)  // AmazonS3Exception: the store answered with an error status
    | ClientError                      // any other AmazonClientException (endpoint unreachable, ...)

  /** What an IOException thrown by the asset store wraps. */
  datatype Cause = Remote(fault: ClientFault) | LocalIO

  datatype IOException = IOException(cause: Cause)

  /** The object stored under `key` in `bucket`, if any. */
  function ObjectAt(w: Buckets, bucket: string, key: string): Option<S3Object>
  {
    if bucket in w && key in w[bucket] then Some(w[bucket][key]) else None
  }

  /** The fault a request addressed to `bucket` raises: the injected one, else NoSuchBucket. */
  function BucketFault(w: Buckets, bucket: string, injected: Option<ClientFault>): Option<ClientFault>
  {
    if injected.Some? then injected
    else if bucket !in w then Some(S3ServiceError(SC_NOT_FOUND))
    else None
  }

  /** The fault a request addressed to one object raises: the injected one, else NoSuchBucket or NoSuchKey. */
  function ObjectFault(w: Buckets, bucket: string, key: string, injected: Option<ClientFault>): Option<ClientFault>
  {
    if injected.Some? then injected
    else if ObjectAt(w, bucket, key).None? then Some(S3ServiceError(SC_NOT_FOUND))
    else None
  }

  /** The store after a successful putObject: `key` holds `obj`, every other key of every bucket is as before. */
  function Stored(w: Buckets, bucket: string, key: string, obj: S3Object): (w': Buckets)
    requires bucket in w
    ensures w'.Keys == w.Keys
    ensures forall b, k :: ObjectAt(w', b, k) == if b == bucket && k == key then Some(obj) else ObjectAt(w, b, k)
  {
    w[bucket := w[bucket][key := obj]]
  }

  /** The store after a successful deleteObject: `key` holds nothing, every other key is as before. */
  function Deleted(w: Buckets, bucket: string, key: string): (w': Buckets)
    requires bucket in w
    ensures w'.Keys == w.Keys
    ensures forall b, k :: ObjectAt(w', b, k) == if b == bucket && k == key then None else ObjectAt(w, b, k)
  {
    w[bucket := w[bucket] - {key}]
  }

  // ---------------------------------------------------------------------
  // Pure helpers of the asset store
  // ---------------------------------------------------------------------

  /**
   * getFullKey: the object key of internal id `id`.  An empty subfolder
   * (null or "") leaves the id as it is; otherwise the key is the subfolder,
   * a slash and the id.
   */
  function FullKey(subfolder: string, id: string): (key: string)
    ensures subfolder == "" ==> key == id
    ensures subfolder != "" ==>
      && |key| == |subfolder| + 1 + |id|
      && key[..|subfolder|] == subfolder
      && key[|subfolder|] == '/'
      && key[|subfolder| + 1..] == id
  {
    if subfolder != "" then subfolder + "/" + id else id
  }

  /** Two different internal ids never share an object key. */
  lemma FullKeyInjective(subfolder: string, id1: string, id2: string)
    requires id1 != id2
    ensures FullKey(subfolder, id1) != FullKey(subfolder, id2)
  {
    // the suffix after the subfolder and its slash recovers the id (FullKey's ensures)
  }

  /** The bucket `init` uses: the configured one, or "dspace-asset-" followed by the UI hostname. */
  function DefaultBucketName(configured: string, hostname: string): (name: string)
    ensures configured != "" ==> name == configured
    ensures configured == "" ==>
      && |name| == |DEFAULT_BUCKET_PREFIX| + |hostname|
      && name[..|DEFAULT_BUCKET_PREFIX|] == DEFAULT_BUCKET_PREFIX
      && name[|DEFAULT_BUCKET_PREFIX|..] == hostname
    ensures name != ""
  {
    if configured == "" then DEFAULT_BUCKET_PREFIX + hostname else configured
  }

  /** The ASCII part of Java's Character.isWhitespace. */
  predicate IsWhitespace(c: char)
  {
    c == ' ' || ('\t' <= c <= '\r') || ('\U{1C}' <= c <= '\U{1F}')
  }

  /** StringUtils.isBlank: empty (or null) or whitespace only. */
  predicate IsBlank(s: string)
  {
    forall i :: 0 <= i < |s| ==> IsWhitespace(s[i])
  }

  // ---------------------------------------------------------------------
  // Technical metadata
  // ---------------------------------------------------------------------

  /** A value of the caller's attribute map; `Millis` is the decimal text of a timestamp. */
  datatype AttrValue = Null | Long(n: int) | Text(s: string) | Millis(t: int)

  /** What getObjectMetadata reports about an object. */
  datatype ObjectMetadata = ObjectMetadata(contentLength: int, eTag: string, lastModified: int)

  function MetadataOf(obj: S3Object): ObjectMetadata
  {
    ObjectMetadata(|obj.content|, obj.eTag, obj.lastModified)
  }

  /** Whether `about` overwrites entry `k` of a map that had the keys of `attrs`. */
  predicate Refreshed(attrs: map<string, AttrValue>, k: string)
  {
    k == SIZE_BYTES || k == CHECKSUM || k == MODIFIED || (k == CHECKSUM_ALGORITHM && CHECKSUM in attrs)
  }

  /**
   * The caller's attribute map after `about` found the object: only the
   * keys the caller asked for are overwritten, a requested checksum also
   * brings its algorithm, and every other entry is left as it was.
   */
  function AboutAttrs(attrs: map<string, AttrValue>, meta: ObjectMetadata): (r: map<string, AttrValue>)
    ensures r.Keys == attrs.Keys + (if CHECKSUM in attrs then {CHECKSUM_ALGORITHM} else {})
    ensures SIZE_BYTES in attrs ==> r[SIZE_BYTES] == Long(meta.contentLength)
    ensures CHECKSUM in attrs ==> r[CHECKSUM] == Text(meta.eTag) && r[CHECKSUM_ALGORITHM] == Text(CSA)
    ensures MODIFIED in attrs ==> r[MODIFIED] == Millis(meta.lastModified)
    ensures forall k :: k in attrs && !Refreshed(attrs, k) ==> r[k] == attrs[k]
  {
    var withSize := if SIZE_BYTES in attrs then attrs[SIZE_BYTES := Long(meta.contentLength)] else attrs;
    var withChecksum :=
      if CHECKSUM in withSize then withSize[CHECKSUM := Text(meta.eTag)][CHECKSUM_ALGORITHM := Text(CSA)]
      else withSize;
    if MODIFIED in withChecksum then withChecksum[MODIFIED := Millis(meta.lastModified)] else withChecksum
  }

  // ---------------------------------------------------------------------
  // Objects the asset store works on
  // ---------------------------------------------------------------------

  /** The remote store as the client reaches it through the configured endpoint. */
  class ObjectStore {
    var buckets: Buckets
  }

  /** The local file system holding put's scratch files. */
  class LocalFiles {
    var files: map<string, seq<byte>>
  }

  /** The bitstream record of the content model; put fills in its size and checksum. */
  class Bitstream {
    var internalId: string
    var sizeBytes: int
    var checksum: string
    var checksumAlgorithm: string
  }

  /** The caller's attribute map that `about` updates in place. */
  class AttributeMap {
    var entries: map<string, AttrValue>
  }

  // ---------------------------------------------------------------------
  // The asset store
  // ---------------------------------------------------------------------

  class S3BitStoreService {
    /** Bucket holding all assets; "" stands for both null and empty. */
    var bucketName: string
    /** Optional subfolder within the bucket; "" stands for both null and empty. */
    var subfolder: string
    var awsRegionName: string
    /** The region set on the client, if any. */
    var region: Option<string>
    /** The client; null until `Init`. */
    var s3Client: ObjectStore?

    constructor ()
      ensures bucketName == "" && subfolder == "" && awsRegionName == ""
      ensures region == None && s3Client == null
    {
      bucketName, subfolder, awsRegionName := "", "", "";
      region, s3Client := None, null;
    }

    method SetBucketName(name: string)
      modifies this`bucketName
      ensures bucketName == name
    {
      bucketName := name;
    }

    method SetSubfolder(folder: string)
      modifies this`subfolder
      ensures subfolder == folder
    {
      subfolder := folder;
    }

    method SetAwsRegionName(name: string)
      modifies this`awsRegionName
      ensures awsRegionName == name
    {
      awsRegionName := name;
    }

    /** The object the store holds for internal id `id`. */
    function StoredObject(id: string): Option<S3Object>
      reads this, s3Client
      requires s3Client != null
    {
      ObjectAt(s3Client.buckets, bucketName, FullKey(subfolder, id))
    }

    /**
     * init: connect the client to `remote`, fix the bucket name (deriving it
     * from `hostname` when none is configured), create the bucket if it is
     * absent, and set the region when the configured name is one the client
     * knows.  An unknown region is ignored.  `existsFault` and `createFault`
     * are the faults of the existence check and of the creation request.
     */
    method Init(remote: ObjectStore, hostname: string, knownRegions: set<string>,
                existsFault: Option<ClientFault>, createFault: Option<ClientFault>)
      returns (r: Result<(), IOException>)
      modifies this`s3Client, this`bucketName, this`region, remote
      ensures s3Client == remote
      ensures bucketName == DefaultBucketName(old(bucketName), hostname)
      ensures r.Success? <==> existsFault.None? && (bucketName in old(remote.buckets) || createFault.None?)
      ensures r.Success? ==> bucketName in remote.buckets
      ensures remote.buckets ==
        if r.Success? && bucketName !in old(remote.buckets) then old(remote.buckets)[bucketName := map[]]
        else old(remote.buckets)
      ensures r.Failure? ==>
        r.error == IOException(Remote(if existsFault.Some? then existsFault.value else createFault.value))
      ensures region ==
        if r.Success? && !IsBlank(awsRegionName) && awsRegionName in knownRegions then Some(awsRegionName)
        else old(region)
    {
      s3Client := remote;
      if bucketName == "" {
        bucketName := DEFAULT_BUCKET_PREFIX + hostname;
      }
      if existsFault.Some? {
        return Failure(IOException(Remote(existsFault.value)));
      }
      if bucketName !in remote.buckets {
        if createFault.Some? {
          return Failure(IOException(Remote(createFault.value)));
        }
        remote.buckets := remote.buckets[bucketName := map[]];
      }
      if !IsBlank(awsRegionName) && awsRegionName in knownRegions {
        region := Some(awsRegionName);
      }
      r := Success(());
    }

    /**
     * get: the bytes stored for `b`; a missing object or a client fault is an
     * IOException.  getObject answers a missing key with an error status and
     * never with null, so the null branch of the source is unreachable.
     */
    method Get(b: Bitstream, fault: Option<ClientFault>) returns (r: Result<seq<byte>, IOException>)
      requires s3Client != null
      ensures r.Success? <==> fault.None? && StoredObject(b.internalId).Some?
      ensures r.Success? ==> r.value == StoredObject(b.internalId).value.content
      ensures r.Failure? ==>
        r.error == IOException(Remote(ObjectFault(s3Client.buckets, bucketName, FullKey(subfolder, b.internalId), fault).value))
    {
      var key := FullKey(subfolder, b.internalId);
      var f := ObjectFault(s3Client.buckets, bucketName, key, fault);
      if f.Some? {
        return Failure(IOException(Remote(f.value)));
      }
      r := Success(s3Client.buckets[bucketName][key].content);
    }

    /**
     * put: stage `input` in the fresh scratch file `scratch`, upload the
     * staged bytes under the bitstream's key, and only then record size,
     * ETag and algorithm on `b`.  `copyFails` says whether copying the input
     * stream fails; `eTag` and `now` are what the store reports for the
     * upload.  The scratch file is gone when put returns, on every path.
     */
    method Put(b: Bitstream, input: seq<byte>, fs: LocalFiles, scratch: string, copyFails: bool,
               eTag: string, now: int, fault: Option<ClientFault>)
      returns (r: Result<(), IOException>)
      requires s3Client != null
      requires scratch !in fs.files
      modifies s3Client, b`sizeBytes, b`checksum, b`checksumAlgorithm, fs
      ensures fs.files == old(fs.files)
      ensures r.Success? <==> !copyFails && fault.None? && bucketName in old(s3Client.buckets)
      ensures r.Success? ==>
        s3Client.buckets == Stored(old(s3Client.buckets), bucketName, FullKey(subfolder, b.internalId), S3Object(input, eTag, now))
      ensures r.Success? ==> b.sizeBytes == |input| && b.checksum == eTag && b.checksumAlgorithm == CSA
      ensures r.Failure? ==> s3Client.buckets == old(s3Client.buckets)
      ensures r.Failure? ==>
        b.sizeBytes == old(b.sizeBytes) && b.checksum == old(b.checksum) && b.checksumAlgorithm == old(b.checksumAlgorithm)
      ensures r.Failure? ==>
        r.error.cause == if copyFails then LocalIO else Remote(BucketFault(old(s3Client.buckets), bucketName, fault).value)
    {
      var key := FullKey(subfolder, b.internalId);
      fs.files := fs.files[scratch := []];
      if copyFails {
        r := Failure(IOException(LocalIO));
      } else {
        fs.files := fs.files[scratch := input];
        var staged := fs.files[scratch];
        var contentLength := |staged|;
        var f := BucketFault(s3Client.buckets, bucketName, fault);
        if f.Some? {
          r := Failure(IOException(Remote(f.value)));
        } else {
          s3Client.buckets := Stored(s3Client.buckets, bucketName, key, S3Object(staged, eTag, now));
          b.sizeBytes := contentLength;
          b.checksum := eTag;
          b.checksumAlgorithm := CSA;
          fs.files := fs.files - {scratch};
          r := Success(());
        }
      }
      if scratch in fs.files {
        fs.files := fs.files - {scratch};
      }
      assert fs.files == old(fs.files);
    }

    /**
     * about: when the object exists, refresh the requested entries of `attrs`
     * in place and return that same map.  A store error (404 or any other
     * status) yields null; any other client fault is an IOException.
     */
    method About(b: Bitstream, attrs: AttributeMap, fault: Option<ClientFault>)
      returns (r: Result<AttributeMap?, IOException>)
      requires s3Client != null
      modifies attrs
      ensures r == Success(attrs) <==> fault.None? && StoredObject(b.internalId).Some?
      ensures r == Success(attrs) ==>
        attrs.entries == AboutAttrs(old(attrs.entries), MetadataOf(StoredObject(b.internalId).value))
      ensures r == Success(null) <==>
        (fault.None? && StoredObject(b.internalId).None?) || (fault.Some? && fault.value.S3ServiceError?)
      ensures r.Failure? <==> fault == Some(ClientError)
      ensures r.Failure? ==> r.error == IOException(Remote(ClientError))
      ensures r != Success(attrs) ==> attrs.entries == old(attrs.entries)
    {
      var key := FullKey(subfolder, b.internalId);
      var f := ObjectFault(s3Client.buckets, bucketName, key, fault);
      if f.Some? {
        if f.value.S3ServiceError? {
          return Success(null);
        }
        return Failure(IOException(Remote(f.value)));
      }
      var meta := MetadataOf(s3Client.buckets[bucketName][key]);
      if SIZE_BYTES in attrs.entries {
        attrs.entries := attrs.entries[SIZE_BYTES := Long(meta.contentLength)];
      }
      if CHECKSUM in attrs.entries {
        attrs.entries := attrs.entries[CHECKSUM := Text(meta.eTag)];
        attrs.entries := attrs.entries[CHECKSUM_ALGORITHM := Text(CSA)];
      }
      if MODIFIED in attrs.entries {
        attrs.entries := attrs.entries[MODIFIED := Millis(meta.lastModified)];
      }
      r := Success(attrs);
    }

    /** remove: delete the bitstream's object; deleting an absent key succeeds. */
    method Remove(b: Bitstream, fault: Option<ClientFault>) returns (r: Result<(), IOException>)
      requires s3Client != null
      modifies s3Client
      ensures r.Success? <==> fault.None? && bucketName in old(s3Client.buckets)
      ensures r.Success? ==>
        s3Client.buckets == Deleted(old(s3Client.buckets), bucketName, FullKey(subfolder, b.internalId))
      ensures r.Failure? ==> s3Client.buckets == old(s3Client.buckets)
      ensures r.Failure? ==>
        r.error == IOException(Remote(BucketFault(old(s3Client.buckets), bucketName, fault).value))
    {
      var key := FullKey(subfolder, b.internalId);
      var f := BucketFault(s3Client.buckets, bucketName, fault);
      if f.Some? {
        return Failure(IOException(Remote(f.value)));
      }
      s3Client.buckets := Deleted(s3Client.buckets, bucketName, key);
      r := Success(());
    }
  }

  // ---------------------------------------------------------------------
  // Consequences of one key per internal id
  // ---------------------------------------------------------------------

  /** A successful put or remove, as the store sees it. */
  datatype StoreOp = PutOp(id: string, obj: S3Object) | RemoveOp(id: string)

  function ApplyOp(w: Buckets, bucket: string, subfolder: string, op: StoreOp): (w': Buckets)
    requires bucket in w
    ensures w'.Keys == w.Keys
  {
    match op
    case PutOp(id, obj) => Stored(w, bucket, FullKey(subfolder, id), obj)
    case RemoveOp(id) => Deleted(w, bucket, FullKey(subfolder, id))
  }

  /** The store after the successful operations `ops`, in order. */
  function Replay(w: Buckets, bucket: string, subfolder: string, ops: seq<StoreOp>): (w': Buckets)
    requires bucket in w
    ensures w'.Keys == w.Keys
    decreases |ops|
  {
    if ops == [] then w
    else Replay(ApplyOp(w, bucket, subfolder, ops[0]), bucket, subfolder, ops[1..])
  }

  /** What id `id` holds after `ops`: the object of its last put, nothing after a later remove, else `initial`. */
  function Latest(ops: seq<StoreOp>, id: string, initial: Option<S3Object>): Option<S3Object>
    decreases |ops|
  {
    if ops == [] then initial
    else
      var last := ops[|ops| - 1];
      if last.id == id then (if last.PutOp? then Some(last.obj) else None)
      else Latest(ops[..|ops| - 1], id, initial)
  }

  lemma {:induction false} ReplaySnoc(w: Buckets, bucket: string, subfolder: string, ops: seq<StoreOp>, op: StoreOp)
    requires bucket in w
    ensures Replay(w, bucket, subfolder, ops + [op]) == ApplyOp(Replay(w, bucket, subfolder, ops), bucket, subfolder, op)
    decreases |ops|
  {
    if ops == [] {
      assert [op][1..] == [];
    } else {
      assert (ops + [op])[0] == ops[0];
      assert (ops + [op])[1..] == ops[1..] + [op];
      ReplaySnoc(ApplyOp(w, bucket, subfolder, ops[0]), bucket, subfolder, ops[1..], op);
    }
  }

  /**
   * After any sequence of successful puts and removes, a bitstream's key
   * holds exactly what the last put or remove of that bitstream left there:
   * the last write wins and operations on other bitstreams never interfere.
   */
  lemma {:induction false} ReplayLatest(w: Buckets, bucket: string, subfolder: string, ops: seq<StoreOp>, id: string)
    requires bucket in w
    ensures ObjectAt(Replay(w, bucket, subfolder, ops), bucket, FullKey(subfolder, id))
         == Latest(ops, id, ObjectAt(w, bucket, FullKey(subfolder, id)))
    decreases |ops|
  {
    if ops != [] {
      var prefix, last := ops[..|ops| - 1], ops[|ops| - 1];
      assert ops == prefix + [last];
      ReplaySnoc(w, bucket, subfolder, prefix, last);
      ReplayLatest(w, bucket, subfolder, prefix, id);
      if last.id != id {
        FullKeyInjective(subfolder, last.id, id);
      }
    }
  }

  // ---------------------------------------------------------------------
  // Client scenarios: what callers can prove from the contracts alone
  // ---------------------------------------------------------------------

  /** A successful put followed by a get of the same bitstream yields exactly the bytes put. */
  method PutThenGet(store: S3BitStoreService, b: Bitstream, fs: LocalFiles, input: seq<byte>,
                    scratch: string, eTag: string, now: int)
    returns (put: Result<(), IOException>, got: Result<seq<byte>, IOException>)
    requires store.s3Client != null
    requires scratch !in fs.files
    modifies store.s3Client, b`sizeBytes, b`checksum, b`checksumAlgorithm, fs
    ensures put.Success? <==> store.bucketName in old(store.s3Client.buckets)
    ensures put.Success? ==> got == Success(input)
  {
    put := store.Put(b, input, fs, scratch, false, eTag, now, None);
    got := store.Get(b, None);
  }

  /** After a successful put, `about` reports the size and checksum that put recorded on the bitstream. */
  method PutThenAbout(store: S3BitStoreService, b: Bitstream, fs: LocalFiles, input: seq<byte>,
                      scratch: string, eTag: string, now: int, attrs: AttributeMap)
    returns (put: Result<(), IOException>, about: Result<AttributeMap?, IOException>)
    requires store.s3Client != null
    requires scratch !in fs.files
    requires SIZE_BYTES in attrs.entries && CHECKSUM in attrs.entries
    modifies store.s3Client, b`sizeBytes, b`checksum, b`checksumAlgorithm, fs, attrs
    ensures put.Success? ==> about == Success(attrs)
    ensures put.Success? ==>
      && SIZE_BYTES in attrs.entries && CHECKSUM in attrs.entries && CHECKSUM_ALGORITHM in attrs.entries
      && attrs.entries[SIZE_BYTES] == Long(b.sizeBytes)
      && attrs.entries[CHECKSUM] == Text(b.checksum)
      && attrs.entries[CHECKSUM_ALGORITHM] == Text(b.checksumAlgorithm)
  {
    put := store.Put(b, input, fs, scratch, false, eTag, now, None);
    about := store.About(b, attrs, None);
  }

  /** After a successful remove, `about` on the same bitstream returns null and leaves the map alone. */
  method RemoveThenAbout(store: S3BitStoreService, b: Bitstream, attrs: AttributeMap)
    returns (removed: Result<(), IOException>, about: Result<AttributeMap?, IOException>)
    requires store.s3Client != null
    modifies store.s3Client, attrs
    ensures removed.Success? ==> about == Success(null) && attrs.entries == old(attrs.entries)
  {
    removed := store.Remove(b, None);
    about := store.About(b, attrs, None);
  }
}
