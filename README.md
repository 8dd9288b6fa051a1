# Image upload controller — a verified model

The model covers `UploadImageController` of the ImageUploadAPI web service.
That controller takes an image posted as multipart/form-data and stores it
in Azure blob storage. It also writes a metadata document for the later
enrichment functions, puts a notification on a queue, and returns a signed
URL for the blob. Two parts of it are modelled.

- **The extension sanitiser** (`ExtractExtension`), in `extension.dfy`. It
  takes the content-disposition filename the client declared. It removes every
  character of the platform's invalid-filename set, keeping the rest in order.
  It then returns what .NET's `Path.GetExtension` gives for the cleaned name.
  That is the scan back to the last `.`, which stops at the Windows separators
  `\`, `/` and `:`. The result is the suffix from that `.`, or "" when there is
  no `.` or the `.` is the last character. The invalid set is a parameter. The
  general lemmas assume only that it holds the three separators; the
  `bad:name*.jpg` example also assumes that `*` is in it and its letters are
  not. With the separators in the set the extension is the last-dot suffix of the cleaned name. The
  quotes that the multipart header leaves around a filename are also in the
  Windows invalid set, so the filter drops them too.
- **The upload action** (`UploadImage`), in `upload.dfy`, with its properties
  in `upload_properties.dfy`. The action runs these steps in order:
  1. Check the body is multipart/form-data.
  2. Take the first file part.
  3. Derive the extension.
  4. Name the blob `recordId + extension`.
  5. Upload. This step is fatal: a `StorageException` becomes `BadRequest(message)`.
  6. Write the metadata document. Any failure is swallowed.
  7. Enqueue `{BlobName, DocumentId}`. Any failure is swallowed.
  8. Sign the blob. This step is fatal: any exception becomes `BadRequest(message)`.
  9. Build `UploadedFileInfo`.

  `UploadImageRun` gives the response and the calls of one request as a value.
  `UploadImageController.UploadImage` runs the same steps as a method over a
  `Services` object that records each call it receives. It sets the content
  type property of a `BlockBlob` reference before the upload. The method is
  proved to return `UploadImageRun`'s response and to append exactly its
  calls. An `Environment` datatype fixes what each external call does: the
  blob URI the storage client gives a name, and whether each call completes
  or throws (and with which exception).

`guids.dfy` models `Guid.ToString()`: 32 lower-case hex digits in groups
8-4-4-4-12. The record id's text is the stem of the blob name, the returned
file name and both fields of the queue payload. `Guids.ToStringLayout` proves
that the text is 36 characters long and holds no `.` and no separator (`\`,
`/`, `:`); `Guids.ToStringInjective` proves that different ids have different
texts. So the blob name gives back both the id and the extension, and
different record ids never share a blob.

What the action does at its edges:

- The doc comment of `UploadImage` (line 26) says the `fileName` argument is
  used when given. Line 40 overwrites it with the record id in every case. The
  model's response and calls do not depend on `fileName`.
- Four exceptions escape the action. `files[0]` on an empty list of file
  parts throws (line 53); so does the filter over a null content-disposition
  filename (line 189) and `ContentType.ToString()` on a null content type
  (line 58). The first three come before any service call. An upload
  exception that is not a `StorageException` (lines 82-93) also escapes; it
  comes after the upload call, and nothing follows it. The model returns all
  four as an explicit `Unhandled(fault)` response, which stands for the
  exception reaching the web framework.
- A name ending in `.` gives extension "" (the `Path.GetExtension` rule).
- This action has no EXIF extraction. The document's EXIF fields are always
  null and the blob carries no metadata.

## Model

| member | source | states |
|---|---|---|
| `Extension.RemoveInvalid` | ImageUploadAPI/Controllers/UploadImageController.cs:188-190 | the cleaned filename holds no character of the invalid set and is no longer than the original |
| `Extension.RemoveInvalidIsSubsequence` | ImageUploadAPI/Controllers/UploadImageController.cs:190 | the cleaned filename is the original with characters deleted, the rest kept in order |
| `Extension.RemoveInvalidKeepsValid` | ImageUploadAPI/Controllers/UploadImageController.cs:190 | every valid character occurs in the cleaned filename as often as in the original |
| `Extension.RemoveInvalidUnique` | ImageUploadAPI/Controllers/UploadImageController.cs:190 | any in-order deletion from the filename that leaves no invalid character and is at least as long as the cleaned name equals it: the filter removes exactly the invalid characters |
| `Extension.RemoveInvalidOfClean` | ImageUploadAPI/Controllers/UploadImageController.cs:190 | a filename with no invalid character passes the filter unchanged |
| `Extension.RemoveInvalidIdempotent` | ImageUploadAPI/Controllers/UploadImageController.cs:188-190 | filtering a second time changes nothing |
| `Extension.RemoveInvalidConcat` | ImageUploadAPI/Controllers/UploadImageController.cs:190 | the filter works character by character: filtering a concatenation concatenates the filtered parts |
| `Extension.GetExtensionIsLastDotSuffix` | ImageUploadAPI/Controllers/UploadImageController.cs:191 | for a name without separators `Path.GetExtension` is "" exactly when the name has no `.` or ends in `.`, and otherwise the suffix of the name from its last `.`, which holds no other `.` |
| `Extension.ExtractExtensionIsLastDotSuffix` | ImageUploadAPI/Controllers/UploadImageController.cs:186-193 | when the invalid set holds `\`, `/` and `:`, the extracted extension is the last-dot suffix of the cleaned filename (or "") and holds no invalid character |
| `Extension.GetExtensionOfStemPlusExtension` | ImageUploadAPI/Controllers/UploadImageController.cs:191 | appending an extension to a stem without `.` or separators gives a name whose `Path.GetExtension` is that extension |
| `Extension.BadNameExample` | ImageUploadAPI/Controllers/UploadImageController.cs:186-193 | `bad:name*.jpg` has extension `.jpg` when `:` and `*` are invalid and its other characters are not |
| `Guids.ToStringLayout` | ImageUploadAPI/Controllers/UploadImageController.cs:40 | the record id's text is 36 characters, each digit of the id at its fixed position, hyphens at 8, 13, 18 and 23, and no `.`, `\`, `/` or `:` |
| `Guids.ToStringInjective` | ImageUploadAPI/Controllers/UploadImageController.cs:39-40 | two ids with the same text are the same id |
| `Upload.Services.GetBlockBlobReference` | ImageUploadAPI/Controllers/UploadImageController.cs:79 | a fresh blob reference with the given container and name, the URI the storage client gives them, and no content type yet |
| `Upload.Services.UploadFromStream` | ImageUploadAPI/Controllers/UploadImageController.cs:84-88 | records an upload of the bytes under the blob's container, name and current content type, and returns the scripted outcome |
| `Upload.Services.CreateDocument` | ImageUploadAPI/Controllers/UploadImageController.cs:97-120 | records a write of the document to the database and collection, and returns the scripted outcome |
| `Upload.Services.AddMessage` | ImageUploadAPI/Controllers/UploadImageController.cs:127-131 | records an enqueue of the payload on the queue, and returns the scripted outcome |
| `Upload.Services.GetSharedAccessSignature` | ImageUploadAPI/Controllers/UploadImageController.cs:138 | records a signing of the blob under the access policy, and returns the scripted token or exception |
| `Upload.UploadImageController.UploadImage` | ImageUploadAPI/Controllers/UploadImageController.cs:37-154 | the action's response and the calls it appends to the services' record are those of `UploadImageRun` for its content, record id and clock; neither depends on the `fileName` argument |
| `UploadProperties.NotMultipartRejectedBeforeAnyCall` | ImageUploadAPI/Controllers/UploadImageController.cs:42-46 | a body that is not multipart/form-data gets `BadRequest("Could not find file to upload")` and no service is called |
| `UploadProperties.UnusableFileFaultsBeforeAnyCall` | ImageUploadAPI/Controllers/UploadImageController.cs:51-58 | with no file part, or a first part without a filename or content type, the action throws before any service is called (with no file part, at `files[0]`) |
| `UploadProperties.CallsFollowPipelineOrder` | ImageUploadAPI/Controllers/UploadImageController.cs:82-138 | the calls are none (the request does not reach the upload), the upload alone (it threw), or upload, document write, enqueue and signing in that order (it completed) |
| `UploadProperties.StorageFailureStopsPipeline` | ImageUploadAPI/Controllers/UploadImageController.cs:82-93 | a `StorageException` from the upload gives `BadRequest` with its message; no document write, enqueue or signing follows |
| `UploadProperties.OtherUploadFailureEscapes` | ImageUploadAPI/Controllers/UploadImageController.cs:82-93 | any other exception from the upload is not caught, and nothing follows it |
| `UploadProperties.SecondaryFailuresSwallowed` | ImageUploadAPI/Controllers/UploadImageController.cs:95-133 | whatever the document write and the enqueue do, the response and the calls equal those of the run where both complete |
| `UploadProperties.ResponseOfRun` | ImageUploadAPI/Controllers/UploadImageController.cs:135-152 | the response is Ok exactly when the upload completes and signing yields a token. It then carries the id's text as file name, the derived extension, the declared content type, and the blob URI followed by the token. A signing exception gives `BadRequest` with its message after all four calls |
| `UploadProperties.BlobNameRecoversIdAndExtension` | ImageUploadAPI/Controllers/UploadImageController.cs:56-61 | the blob name starts with the record id's 36-character text, and `Path.GetExtension` of the name gives back the derived extension |
| `UploadProperties.DistinctRecordsDistinctBlobNames` | ImageUploadAPI/Controllers/UploadImageController.cs:39-61 | requests with different record ids never name the same blob, whatever their extensions |
| `UploadProperties.RecordIdBindsBlobDocumentAndMessage` | ImageUploadAPI/Controllers/UploadImageController.cs:99-131 | after a completed upload, the blob name is the payload's `BlobName` followed by the extension; `BlobName` and `DocumentId` are both the id's text; the document has `Id` = record id, `MediaUrl` = the blob's URI, `Created` = the clock, and every enrichment and EXIF field null; the signing is for the uploaded blob |

## Left out

- Azure SDK internals are not modelled: `CloudStorageAccount`, `CloudBlobClient`, `DocumentClient`, `CloudQueue` and `UriFactory`. Each service call is a recorded call whose outcome comes from the `Environment`. A `DocumentClient` that fails to construct counts as a failed document write, and a stream that fails to open counts as a failed upload.
- The blob URI and the SAS token are opaque strings. The URI is a function of container and name; the token comes from the `Environment`.
- `container.CreateIfNotExists()` (line 77) is not modelled. It runs outside any `try`, and when it fails the framework handles the exception.
- `ConfigurationManager.AppSettings` lookups become a `Settings` value. The document-store endpoint and key and the storage connection string are not modelled, because only the SDK reads them.
- The web framework is not modelled: routing, `IHttpActionResult` and the Swagger attributes. `Unhandled(fault)` stands for an exception that escapes the action.
- Multipart parsing is not modelled. The body is a flag (is it multipart form-data) plus the file parts the provider yields. Reading the stream and disposing of it are part of the upload call.
- `Guid.NewGuid()` and `DateTime.UtcNow` are parameters. Nothing models that ids are fresh, so `UploadProperties.DistinctRecordsDistinctBlobNames` assumes the two ids differ.
- async/await is not modelled. The steps run one after another, with no concurrency.
- The queue message is not serialised to JSON (Newtonsoft). The record keeps the payload object, whose two fields are the id's text and need no escaping.
- Some checks inside `Path.GetExtension` are not modelled: its invalid-path-character check and its null case. The invalid path characters are a subset of the invalid filename characters, and those have already been removed. The filename that reaches it is never null.
- The contents of `Path.GetInvalidFileNameChars()` are a parameter, because they depend on the platform.
- EXIF extraction, GPS conversion and blob metadata are not modelled. This action has none of them: lines 115-118 set the EXIF fields to null.
- The source does not log swallowed document and queue failures, so the model has no log.
