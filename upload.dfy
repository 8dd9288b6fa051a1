/**
 The `UploadImage` action of the upload controller.

 One request runs these steps in order: check that the body is
 multipart/form-data, take the first file part, derive the extension from its
 content-disposition filename, name the blob `recordId + extension`, upload
 the bytes (fatal on failure), create the metadata document (failure
 swallowed), enqueue the notification (failure swallowed), sign the blob URL
 (fatal on failure) and build the response.

 `UploadImageRun` states, as a value, the response and the calls to the
 external services one request makes; `UploadImageController.UploadImage`
 runs the steps against a `Services` object that records every call, and is
 proved to behave as `UploadImageRun` says. The azure services are replaced
 by an `Environment` that fixes what each call does.
 */
module Upload {
  import Extension
  import Guids

  datatype Option<+T> = None | Some(value: T)

  type Bytes = seq<bv8>

  /** A `DateTime`, by its count of ticks. */
  type DateTime = int

  // ---------------------------------------------------------------------------
  // The request

  /** A file part of the parsed multipart body: its `Content-Type` header, the
      filename of its `Content-Disposition` header (None when either is
      missing, which the source reads as null) and its bytes. */
  datatype FilePart = FilePart(contentType: Option<string>, dispositionFileName: Option<string>, content: Bytes)

  /** The request content: whether it is multipart content with form-data,
      and the file parts the multipart provider yields, in order. */
  datatype RequestContent = RequestContent(isMultipartFormData: bool, files: seq<FilePart>)

  /** The application settings the action reads. */
  datatype Settings = Settings(
    documentDbName: string,
    documentDbCol: string,
    containerName: string,
    queueName: string,
    storedAccessPolicyName: string)

  // ---------------------------------------------------------------------------
  // What the external services do

  datatype Exception = StorageException(message: string) | OtherException(message: string)

  datatype CallResult = Completes | Throws(exception: Exception)

  datatype SignResult = Signed(token: string) | SignThrows(exception: Exception)

  /** The behaviour of the external services on one request: the URI the
      storage client gives a blob of a container, and the outcome of the
      upload, the document write, the enqueue and the signing. */
  datatype Environment = Environment(
    blobUri: (string, string) -> string,
    upload: CallResult,
    createDocument: CallResult,
    addMessage: CallResult,
    sign: SignResult)

  // ---------------------------------------------------------------------------
  // What the action writes and returns

  /** The metadata document; None is the source's null. */
  datatype ImageMetadata = ImageMetadata(
    id: Guids.Guid,
    mediaUrl: string,
    ocrTxt: Option<string>,
    hasHighVoltageSign: Option<bool>,
    hasLiveElectricalSign: Option<bool>,
    hasLiveWiresSign: Option<bool>,
    tags: Option<string>,
    dominantColours: Option<string>,
    accentColour: Option<string>,
    isOnFire: Option<bool>,
    containsTransformer: Option<bool>,
    containsPole: Option<bool>,
    exifCaptureDate: Option<string>,
    exifCaptureTime: Option<string>,
    exifLatGPS: Option<string>,
    exifLongGPS: Option<string>,
    created: DateTime)

  /** The object serialised into the queue message. */
  datatype QueuePayload = QueuePayload(blobName: string, documentId: string)

  /** A call to an external service, with the arguments it was given. */
  datatype Call =
    | UploadBlob(container: string, blobName: string, contentType: Option<string>, content: Bytes)
    | WriteDocument(database: string, collection: string, document: ImageMetadata)
    | EnqueueMessage(queue: string, payload: QueuePayload)
    | SignBlob(container: string, blobName: string, policy: string)

  datatype UploadedFileInfo = UploadedFileInfo(fileName: string, fileExtension: string, contentType: string, fileUrl: string)

  /** An exception the action does not catch, which escapes to the framework. */
  datatype Fault =
    | NoFilePart                  // `files[0]` on an empty list
    | NoDispositionFileName       // the filter runs over a null filename
    | NoContentType               // `ContentType.ToString()` on a null header
    | UploadThrew(exception: Exception)  // the upload throws something other than a StorageException

  datatype Response = Ok(info: UploadedFileInfo) | BadRequest(message: string) | Unhandled(fault: Fault)

  /** The response of one request and the calls it made, in order. */
  datatype Run = Run(response: Response, calls: seq<Call>)

  const NoFileMessage := "Could not find file to upload"

  // ---------------------------------------------------------------------------
  // The specification of one request

  /** The first file part carries what the action reads from it. */
  predicate HasUsableFile(content: RequestContent) {
    && |content.files| > 0
    && content.files[0].dispositionFileName.Some?
    && content.files[0].contentType.Some?
  }

  /** The blob name: the record id's text followed by the extension. */
  function BlobName(recordId: Guids.Guid, extension: string): string {
    Guids.ToString(recordId) + extension
  }

  /** A metadata document as first written: no enrichment and no EXIF
      field is set. */
  predicate IsUnenriched(doc: ImageMetadata) {
    && doc.ocrTxt.None? && doc.hasHighVoltageSign.None? && doc.hasLiveElectricalSign.None?
    && doc.hasLiveWiresSign.None? && doc.tags.None? && doc.dominantColours.None?
    && doc.accentColour.None? && doc.isOnFire.None? && doc.containsTransformer.None?
    && doc.containsPole.None? && doc.exifCaptureDate.None? && doc.exifCaptureTime.None?
    && doc.exifLatGPS.None? && doc.exifLongGPS.None?
  }

  function NewImageMetadata(recordId: Guids.Guid, mediaUrl: string, created: DateTime): ImageMetadata {
    ImageMetadata(recordId, mediaUrl, None, None, None, None, None, None, None, None, None, None,
                  None, None, None, None, created)
  }

  /** The response and the calls of one request whose record id is
      `recordId` and whose clock reads `now`. */
  function UploadImageRun(content: RequestContent, recordId: Guids.Guid, now: DateTime, settings: Settings,
                          invalid: set<char>, env: Environment): Run
  {
    if !content.isMultipartFormData then Run(BadRequest(NoFileMessage), [])
    else if |content.files| == 0 then Run(Unhandled(NoFilePart), [])
    else
      var file := content.files[0];
      if file.dispositionFileName.None? then Run(Unhandled(NoDispositionFileName), [])
      else
        var extension := Extension.ExtractExtension(file.dispositionFileName.value, invalid);
        if file.contentType.None? then Run(Unhandled(NoContentType), [])
        else
          var contentType := file.contentType.value;
          var name := BlobName(recordId, extension);
          var upload := UploadBlob(settings.containerName, name, Some(contentType), file.content);
          match env.upload
          case Throws(StorageException(message)) => Run(BadRequest(message), [upload])
          case Throws(e) => Run(Unhandled(UploadThrew(e)), [upload])
          case Completes =>
            var uri := env.blobUri(settings.containerName, name);
            var id := Guids.ToString(recordId);
            var calls := [
              upload,
              WriteDocument(settings.documentDbName, settings.documentDbCol, NewImageMetadata(recordId, uri, now)),
              EnqueueMessage(settings.queueName, QueuePayload(id, id)),
              SignBlob(settings.containerName, name, settings.storedAccessPolicyName)];
            match env.sign
            case Signed(token) => Run(Ok(UploadedFileInfo(id, extension, contentType, uri + token)), calls)
            case SignThrows(e) => Run(BadRequest(e.message), calls)
  }

  // ---------------------------------------------------------------------------
  // The services and the controller

  /** A blob reference: its container, name and URI, and the content type
      property the controller sets before the upload. */
  class BlockBlob {
    const container: string
    const name: string
    const uri: string
    var contentType: Option<string>

    constructor (container: string, name: string, uri: string)
      ensures this.container == container && this.name == name && this.uri == uri
      ensures contentType == None
    {
      this.container := container;
      this.name := name;
      this.uri := uri;
      contentType := None;
    }
  }

  /** The storage, document and queue services, which record every call made
      to them and behave as `env` says. */
  class Services {
    const env: Environment
    var calls: seq<Call>

    constructor (env: Environment)
      ensures this.env == env && calls == []
    {
      this.env := env;
      calls := [];
    }

    /** `container.GetBlockBlobReference(name)`: a local operation. */
    method GetBlockBlobReference(container: string, name: string) returns (blob: BlockBlob)
      ensures fresh(blob)
      ensures blob.container == container && blob.name == name
      ensures blob.uri == env.blobUri(container, name) && blob.contentType == None
    {
      blob := new BlockBlob(container, name, env.blobUri(container, name));
    }

    /** `blob.UploadFromStreamAsync(stream)`. */
    method UploadFromStream(blob: BlockBlob, content: Bytes) returns (result: CallResult)
      modifies this
      ensures calls == old(calls) + [UploadBlob(blob.container, blob.name, blob.contentType, content)]
      ensures result == env.upload
    {
      calls := calls + [UploadBlob(blob.container, blob.name, blob.contentType, content)];
      result := env.upload;
    }

    /** `client.CreateDocumentAsync(collectionUri, document)`. */
    method CreateDocument(database: string, collection: string, document: ImageMetadata) returns (result: CallResult)
      modifies this
      ensures calls == old(calls) + [WriteDocument(database, collection, document)]
      ensures result == env.createDocument
    {
      calls := calls + [WriteDocument(database, collection, document)];
      result := env.createDocument;
    }

    /** `queue.AddMessage(new CloudQueueMessage(JsonConvert.SerializeObject(payload)))`. */
    method AddMessage(queue: string, payload: QueuePayload) returns (result: CallResult)
      modifies this
      ensures calls == old(calls) + [EnqueueMessage(queue, payload)]
      ensures result == env.addMessage
    {
      calls := calls + [EnqueueMessage(queue, payload)];
      result := env.addMessage;
    }

    /** `blob.GetSharedAccessSignature(null, policy)`. */
    method GetSharedAccessSignature(blob: BlockBlob, policy: string) returns (result: SignResult)
      modifies this
      ensures calls == old(calls) + [SignBlob(blob.container, blob.name, policy)]
      ensures result == env.sign
    {
      calls := calls + [SignBlob(blob.container, blob.name, policy)];
      result := env.sign;
    }
  }

  class UploadImageController {
    const services: Services
    const settings: Settings
    /** `Path.GetInvalidFileNameChars()`. */
    const invalidFileNameChars: set<char>

    constructor (services: Services, settings: Settings, invalidFileNameChars: set<char>)
      ensures this.services == services && this.settings == settings
      ensures this.invalidFileNameChars == invalidFileNameChars
    {
      this.services := services;
      this.settings := settings;
      this.invalidFileNameChars := invalidFileNameChars;
    }

    /** The action. `recordId` is the fresh `Guid.NewGuid()` and `now` the
        `DateTime.UtcNow` of the request. The `fileName` argument is
        overwritten with the record id before it is read, so the response
        and the calls do not depend on it. */
    method UploadImage(fileName: string, content: RequestContent, recordId: Guids.Guid, now: DateTime)
      returns (response: Response)
      modifies services
      ensures var run := UploadImageRun(content, recordId, now, settings, invalidFileNameChars, services.env);
        response == run.response && services.calls == old(services.calls) + run.calls
    {
      var name := Guids.ToString(recordId);

      if !content.isMultipartFormData {
        return BadRequest(NoFileMessage);
      }
      var files := content.files;
      if |files| == 0 {
        return Unhandled(NoFilePart);
      }
      var uploadedFile := files[0];

      if uploadedFile.dispositionFileName.None? {
        return Unhandled(NoDispositionFileName);
      }
      var extension := Extension.ExtractExtension(uploadedFile.dispositionFileName.value, invalidFileNameChars);
      if uploadedFile.contentType.None? {
        return Unhandled(NoContentType);
      }
      var contentType := uploadedFile.contentType.value;
      var imageName := name + extension;

      var blockBlob := services.GetBlockBlobReference(settings.containerName, imageName);
      blockBlob.contentType := Some(contentType);

      var uploaded := services.UploadFromStream(blockBlob, uploadedFile.content);
      if uploaded.Throws? {
        if uploaded.exception.StorageException? {
          return BadRequest(uploaded.exception.message);
        }
        return Unhandled(UploadThrew(uploaded.exception));
      }

      // both secondary writes swallow whatever they throw
      var document := NewImageMetadata(recordId, blockBlob.uri, now);
      var written := services.CreateDocument(settings.documentDbName, settings.documentDbCol, document);
      var payload := QueuePayload(Guids.ToString(recordId), Guids.ToString(recordId));
      var enqueued := services.AddMessage(settings.queueName, payload);

      var signed := services.GetSharedAccessSignature(blockBlob, settings.storedAccessPolicyName);
      match signed
      case Signed(sasBlobToken) =>
        response := Ok(UploadedFileInfo(name, extension, contentType, blockBlob.uri + sasBlobToken));
      case SignThrows(e) =>
        response := BadRequest(e.message);
    }
  }
}
