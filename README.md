# DSpace S3 asset store and Role crosswalk, modelled in Dafny

This project models two parts of DSpace:

- **The S3 asset store** (`S3BitStoreService`). It keeps every bitstream as one object in a bucket
  of an S3-compatible store. The object's key is the bitstream's internal id, behind an optional
  subfolder. `init` names the bucket, deriving the name from the UI hostname when none is
  configured, and creates it if it is absent. `put` stages the upload in a scratch file and,
  after the upload succeeds, records size, ETag and "MD5" on the bitstream. `get` returns the
  stored bytes. `about` refreshes the entries the caller asked for in the caller's attribute map.
  `remove` deletes the object.
- **The Role crosswalk** (`RoleCrosswalk`). It exports the groups and people of a site, community or
  collection through the "DSPACE-ROLES" packager plugins, and restores them the same way. The model
  covers its gating, dispatch and error wrapping.

Files:

- `common.dfy`: module `Common`, with `byte`, `Option` and `Result`.
- `s3_bit_store.dfy`: module `S3BitStore`.
  - The AWS client becomes `ObjectStore`, a class whose `buckets` field maps bucket names to
    key→object maps.
  - Every client call takes the fault it raises as a parameter. `S3ServiceError(status)` stands for
    an `AmazonS3Exception`. `ClientError` stands for any other `AmazonClientException`.
  - A missing bucket or key answers with status 404, as the store does.
  - The service is a class holding `bucketName`, `subfolder`, the region name, the region set on the
    client, and `s3Client`. `s3Client` is null until `Init`, so the store moves from uninitialised to
    ready.
  - `Bitstream`, the caller's attribute map (`AttributeMap`) and the local file system
    (`LocalFiles`) are classes, because the source updates them in place.
- `role_crosswalk.dfy`: module `RoleCrosswalk`. The packager plugins, the XML parser and the XML
  serialiser are oracles:
  - a disseminator is a function from the object and the parameters to what it left in the
    temporary file;
  - the parser is a function from that file to a document, an XML error or a read error;
  - an ingester is an object that records the requests it is handed and answers with a fixed
    exception, or none.

Behaviours of the code that its own comments or a reader might not expect:

- `get` (S3BitStoreService.java:166-175) throws an `IOException` for a missing object, the same
  exception as for an unreachable store. Its comment (lines 158-162) says it returns null instead;
  see `S3BitStore.S3BitStoreService.Get` under "Left out".
- `about` (S3BitStoreService.java:248-251) returns null for every `AmazonS3Exception`, not only for
  404. So a 403 looks like absence.
- `disseminateElement` (RoleCrosswalk.java:205-207, 216-217) returns null when the export has no
  results or the document has no root, although its comment (line 161) says "never null". The
  model follows the code: `DisseminationResult` gives `Success(None)` there. That null is what
  `disseminateList` then dereferences (see "Findings").
- `ingest(root)` (RoleCrosswalk.java:308-310) serialises `root` before calling the plugin, so a
  null root (for example the parent of a detached element, handed over by `ingest(list)` at line
  248) fails with a NullPointerException and the plugin is never called.

## Model

| member | source | states |
|---|---|---|
| S3BitStore.FullKey | dspace-api/src/main/java/org/dspace/storage/bitstore/S3BitStoreService.java:282-288 | With an empty (or null) subfolder the key is the id itself. Otherwise the key is the subfolder, then '/', then the id. |
| S3BitStore.FullKeyInjective | dspace-api/src/main/java/org/dspace/storage/bitstore/S3BitStoreService.java:282-288 | Different internal ids never map to the same key, so operations on one bitstream cannot reach another's object |
| S3BitStore.DefaultBucketName | dspace-api/src/main/java/org/dspace/storage/bitstore/S3BitStoreService.java:113-119 | A configured bucket name is kept. An empty one becomes "dspace-asset-" followed by the hostname. The result is never empty. |
| S3BitStore.Stored | dspace-api/src/main/java/org/dspace/storage/bitstore/S3BitStoreService.java:197-198 | After putObject the key holds the new object, and every other key of every bucket is unchanged |
| S3BitStore.Deleted | dspace-api/src/main/java/org/dspace/storage/bitstore/S3BitStoreService.java:267-269 | After deleteObject the key holds nothing, and every other key is unchanged |
| S3BitStore.AboutAttrs | dspace-api/src/main/java/org/dspace/storage/bitstore/S3BitStoreService.java:235-246 | Only size_bytes, checksum and modified are overwritten, and only if the caller's map already has them. A requested checksum also adds checksum_algorithm = "MD5". All other entries are unchanged. |
| S3BitStore.S3BitStoreService.constructor | dspace-api/src/main/java/org/dspace/storage/bitstore/S3BitStoreService.java:69-84 | A new store has no bucket name, no subfolder and no client (uninitialised) |
| S3BitStore.S3BitStoreService.SetBucketName | dspace-api/src/main/java/org/dspace/storage/bitstore/S3BitStoreService.java:438-440 | Sets the bucket name and nothing else |
| S3BitStore.S3BitStoreService.SetSubfolder | dspace-api/src/main/java/org/dspace/storage/bitstore/S3BitStoreService.java:429-431 | Sets the subfolder and nothing else |
| S3BitStore.S3BitStoreService.SetAwsRegionName | dspace-api/src/main/java/org/dspace/storage/bitstore/S3BitStoreService.java:421-423 | Sets the region name and nothing else |
| S3BitStore.S3BitStoreService.Init | dspace-api/src/main/java/org/dspace/storage/bitstore/S3BitStoreService.java:94-144 | Sets up the client and the default bucket name. Creates the bucket only when it is absent, so it exists after success. A client fault in the existence check or the creation becomes an IOException, and no bucket is created. A known region is set; a blank or unknown one leaves the region as it was. |
| S3BitStore.S3BitStoreService.Get | dspace-api/src/main/java/org/dspace/storage/bitstore/S3BitStoreService.java:166-175 | Succeeds exactly when there is no fault and the bitstream's key holds an object, and then returns that object's bytes. Otherwise it throws an IOException wrapping the client fault (404 for a missing object). |
| S3BitStore.S3BitStoreService.Put | dspace-api/src/main/java/org/dspace/storage/bitstore/S3BitStoreService.java:189-214 | The scratch file is gone on every path, and the local files are as before. On success the key holds the staged bytes with the store's ETag, and the bitstream gets size = staged length, checksum = ETag and algorithm "MD5". On failure the store and the bitstream's fields are unchanged, and an IOException wraps the local or remote cause. |
| S3BitStore.S3BitStoreService.About | dspace-api/src/main/java/org/dspace/storage/bitstore/S3BitStoreService.java:230-257 | Returns the caller's own map, refreshed as AboutAttrs says, exactly when the object exists. It returns null for a missing object or any store error status. It throws an IOException only for other client faults. The map is untouched unless it is returned. |
| S3BitStore.S3BitStoreService.Remove | dspace-api/src/main/java/org/dspace/storage/bitstore/S3BitStoreService.java:266-274 | Succeeds whenever the bucket exists, even if the key is absent, and then deletes only that key. A fault leaves the store unchanged and throws an IOException. |
| S3BitStore.ReplayLatest | dspace-api/src/main/java/org/dspace/storage/bitstore/S3BitStoreService.java:190-198 | After any sequence of successful puts and removes, a bitstream's key holds exactly what its own last put or remove left there. The last write wins, and other bitstreams never interfere. |
| S3BitStore.PutThenGet | dspace-api/src/main/java/org/dspace/storage/bitstore/S3BitStoreService.java:177-198 | A successful put followed by a get of the same bitstream returns exactly the bytes that were put |
| S3BitStore.PutThenAbout | dspace-api/src/main/java/org/dspace/storage/bitstore/S3BitStoreService.java:195-202 | After a successful put, about reports the same size, checksum and algorithm that put recorded on the bitstream |
| S3BitStore.RemoveThenAbout | dspace-api/src/main/java/org/dspace/storage/bitstore/S3BitStoreService.java:248-251 | After a successful remove, about on the same bitstream returns null and leaves the map alone |
| RoleCrosswalk.CanDisseminate | dspace-api/src/main/java/org/dspace/content/crosswalk/RoleCrosswalk.java:105-111 | True exactly for SITE, COMMUNITY and COLLECTION, and false for items, bitstreams, bundles, groups and people |
| RoleCrosswalk.EffectiveParameters | dspace-api/src/main/java/org/dspace/content/crosswalk/RoleCrosswalk.java:193-198 | The configured packaging parameters when set, otherwise a fresh default (empty) set |
| RoleCrosswalk.WrapDisseminationFault | dspace-api/src/main/java/org/dspace/content/crosswalk/RoleCrosswalk.java:223-226 | During dissemination exactly a PackageException becomes CrosswalkInternalException wrapping it. Every other exception passes through unchanged. |
| RoleCrosswalk.WrapIngestFault | dspace-api/src/main/java/org/dspace/content/crosswalk/RoleCrosswalk.java:318-322 | During ingest exactly a PackageException or WorkflowException becomes CrosswalkInternalException wrapping it. Every other exception passes through unchanged. |
| RoleCrosswalk.DisseminationResult | dspace-api/src/main/java/org/dspace/content/crosswalk/RoleCrosswalk.java:173-227 | Raises "plugin missing" exactly when no DSPACE-ROLES disseminator exists. Raises an internal error exactly on a PackageException. Returns null exactly for zero-length output or a document without a root. Raises a validation failure exactly when the parser rejects the file. A parsed root is returned, and any root returned comes from a non-empty, parsed file. A read error while parsing propagates as an IOException. Any other plugin exception passes through as WrapDisseminationFault says. |
| RoleCrosswalk.ZeroLengthExportYieldsNull | dspace-api/src/main/java/org/dspace/content/crosswalk/RoleCrosswalk.java:203-207 | A disseminator that leaves the temporary file empty makes the export return null, whatever the parser would say |
| RoleCrosswalk.IngestOutcome | dspace-api/src/main/java/org/dspace/content/crosswalk/RoleCrosswalk.java:270-322 | Raises CrosswalkObjectNotSupported exactly when CanDisseminate is false, so the two gates agree. Raises "plugin missing" exactly for a supported object with no DSPACE-ROLES ingester. Raises a NullPointerException exactly when the root is null and everything before the serialisation succeeded. Succeeds exactly when the type is supported, the plugin exists, the temporary file is written, the root is present and the plugin does not throw. A plugin exception is wrapped as WrapIngestFault says. |
| RoleCrosswalk.RoleCrosswalk.GetNamespaces | dspace-api/src/main/java/org/dspace/content/crosswalk/RoleCrosswalk.java:74-78 | A new array holding exactly one namespace, the roles namespace |
| RoleCrosswalk.RoleCrosswalk.GetSchemaLocation | dspace-api/src/main/java/org/dspace/content/crosswalk/RoleCrosswalk.java:94-96 | The schema location is the empty string |
| RoleCrosswalk.RoleCrosswalk.PreferList | dspace-api/src/main/java/org/dspace/content/crosswalk/RoleCrosswalk.java:120-123 | The crosswalk does not prefer lists |
| RoleCrosswalk.RoleCrosswalk.DisseminateElement | dspace-api/src/main/java/org/dspace/content/crosswalk/RoleCrosswalk.java:170-227 | The imperative control flow gives exactly DisseminationResult, using the crosswalk's own packaging parameters |
| RoleCrosswalk.RoleCrosswalk.DisseminateListAsWritten | dspace-api/src/main/java/org/dspace/content/crosswalk/RoleCrosswalk.java:146-151 | As written: when the export has no results, it dereferences null (NullPointerException). Otherwise it returns the root's children or the export's exception. |
| RoleCrosswalk.RoleCrosswalk.DisseminateList | dspace-api/src/main/java/org/dspace/content/crosswalk/RoleCrosswalk.java:125-151 | As documented: an empty list when the export has no results. It fails only when the export fails, and never with a null dereference. |
| RoleCrosswalk.RoleCrosswalk.Ingest | dspace-api/src/main/java/org/dspace/content/crosswalk/RoleCrosswalk.java:268-323 | The outcome is IngestOutcome. The ingester is handed exactly one request (the object, the root, the effective parameters and the configured licence or null) when the type is supported, the file is written and the root is present, and none otherwise. The createMissingMetadataFields flag is ignored. |
| RoleCrosswalk.RoleCrosswalk.IngestList | dspace-api/src/main/java/org/dspace/content/crosswalk/RoleCrosswalk.java:245-250 | An empty list succeeds and hands nothing to the plugin, whatever the object type. A non-empty list behaves exactly as Ingest on the parent of its first element, which fails with a NullPointerException when that parent is null. |

## Findings

| source | as written | input that shows it | evidently intended | confidence | as-written member | corrected member |
|---|---|---|---|---|---|---|
| dspace-api/src/main/java/org/dspace/content/crosswalk/RoleCrosswalk.java:146-151 | `disseminateList` returns `getChildren()` of `disseminateElement`'s result, and that result is null when the export has no results (lines 205-207, 216-217), although `disseminateElement`'s comment (line 161) says it is never null | a DSPACE-ROLES disseminator that leaves the temporary file empty (see ZeroLengthExportYieldsNull) | an empty list, as the method's documentation (lines 132-133) promises: "an empty list is returned, but never null" | high; not executed | RoleCrosswalk.RoleCrosswalk.DisseminateListAsWritten | RoleCrosswalk.RoleCrosswalk.DisseminateList |

## Left out

- AWS client construction: the signer override, path-style access, the endpoint and the
  credentials. These are calls into the SDK. The client is the abstract `ObjectStore`, reached
  through the `remote` argument of `Init`.
- The warning logged for blank credentials or endpoint. For blank but non-null keys it has no
  effect beyond logging. A null access or secret key is passed on to the SDK's credentials
  constructor (S3BitStoreService.java:101), which rejects it; `Init` does not model that failure,
  because credentials are not modelled.
- S3BitStore.S3BitStoreService.Get: it never returns null. Its comment (S3BitStoreService.java:158-162)
  promises null for a missing asset, but `getObject` without constraints answers a missing key with
  an error status and never returns null. So the `object != null ? … : null` branch at line 170
  cannot be reached, and a missing asset is an `IOException` wrapping status 404.
- Logging throughout both classes.
- `generateId`. It delegates to a key generator that is not part of this model.
- The command-line `main` of the asset store. It is a manual network smoke test.
- Getters of the store's fields. Dafny callers read the fields directly.
- Setters of access key, secret key and endpoint. Those values feed only client construction.
- ETag and MD5 computation. The ETag is the opaque string the store reports for an upload (the
  `eTag` argument of `Put`).
- The last-modified time. It is the opaque number the store reports (`now`). Its decimal
  rendering is the `Millis` attribute value.
- The hostname. `Init` receives it as an argument; the UI URL lookup is not modelled.
- S3BitStore.S3BitStoreService.Put: the scratch file's name is an argument that must be new, as
  `File.createTempFile` guarantees. A failure to create the temporary file itself is not modelled.
- S3BitStore.S3BitStoreService.Put: a failed upload leaves the store unchanged, as the method's
  documentation promises. A timeout after the store accepted the bytes is not modelled.
- Region names. The set of names the client recognises is an argument (`knownRegions`).
- Java's Unicode whitespace. `IsBlank` treats only ASCII whitespace as blank.
- Streams. Input and output streams are byte sequences, and closing them is not modelled.
- Concurrent callers. The source has no locking, so there is nothing to verify.
- Uninitialised use. Calling get, put, about or remove before `init` would dereference a null
  client in the source. The model requires an initialised client instead.
- Temporary files of the crosswalk: their directory choice, naming, `deleteOnExit`, and XML
  serialisation and parsing. The serialiser is reduced to `writeFails`, and parsing to the `parse`
  oracle.
- The internals of the packager plugins. They are oracles.
- Object type codes. They follow the numbering of the content model's constants class, which is
  not part of this model; only their distinctness matters.
- The roles namespace URI. It follows the role disseminator, which is not part of this model.
- Context, createMissingMetadataFields and the object's hash code. They have no effect on the
  modelled decisions.
