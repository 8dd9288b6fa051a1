/**
 What one run of the upload action guarantees: the order of the calls, which
 failures are fatal and which are swallowed, the single record id shared by
 the blob, the document and the queue payload, and the response.
 */
module UploadProperties {
  import opened Upload
  import Extension
  import Guids

  /** The request gets as far as the upload. */
  predicate ReachesUpload(content: RequestContent) {
    content.isMultipartFormData && HasUsableFile(content)
  }

  /** The extension the action derives from the first file part. */
  function FileExtension(content: RequestContent, invalid: set<char>): string
    requires HasUsableFile(content)
  {
    Extension.ExtractExtension(content.files[0].dispositionFileName.value, invalid)
  }

  /** A body that is not multipart/form-data is refused with the fixed
      message before any service is called. */
  lemma NotMultipartRejectedBeforeAnyCall(content: RequestContent, recordId: Guids.Guid, now: DateTime,
                                          settings: Settings, invalid: set<char>, env: Environment)
    requires !content.isMultipartFormData
    ensures UploadImageRun(content, recordId, now, settings, invalid, env) == Run(BadRequest("Could not find file to upload"), [])
  {
  }

  /** A multipart body whose first file part is missing, or lacks a
      content-disposition filename or a content type, makes the action throw
      before any service is called. */
  lemma UnusableFileFaultsBeforeAnyCall(content: RequestContent, recordId: Guids.Guid, now: DateTime,
                                        settings: Settings, invalid: set<char>, env: Environment)
    requires content.isMultipartFormData && !HasUsableFile(content)
    ensures var run := UploadImageRun(content, recordId, now, settings, invalid, env);
      run.response.Unhandled? && run.calls == []
    ensures |content.files| == 0 ==> UploadImageRun(content, recordId, now, settings, invalid, env).response == Unhandled(NoFilePart)
  {
  }

  /** The calls are none, the upload alone, or the upload, the document
      write, the enqueue and the signing in that order; nothing follows the
      upload unless it completed. */
  lemma CallsFollowPipelineOrder(content: RequestContent, recordId: Guids.Guid, now: DateTime,
                                 settings: Settings, invalid: set<char>, env: Environment)
    ensures var calls := UploadImageRun(content, recordId, now, settings, invalid, env).calls;
      && (calls == [] <==> !ReachesUpload(content))
      && (|calls| == 1 <==> ReachesUpload(content) && env.upload.Throws?)
      && (|calls| == 4 <==> ReachesUpload(content) && env.upload.Completes?)
      && (calls != [] ==> calls[0].UploadBlob?)
      && (|calls| == 4 ==> calls[1].WriteDocument? && calls[2].EnqueueMessage? && calls[3].SignBlob?)
  {
  }

  /** A StorageException from the upload is answered with its message, and
      nothing is written, enqueued or signed. */
  lemma StorageFailureStopsPipeline(content: RequestContent, recordId: Guids.Guid, now: DateTime,
                                    settings: Settings, invalid: set<char>, env: Environment, message: string)
    requires ReachesUpload(content)
    requires env.upload == Throws(StorageException(message))
    ensures var run := UploadImageRun(content, recordId, now, settings, invalid, env);
      run.response == BadRequest(message) && |run.calls| == 1 && run.calls[0].UploadBlob?
  {
  }

  /** Any other exception from the upload escapes the action. */
  lemma OtherUploadFailureEscapes(content: RequestContent, recordId: Guids.Guid, now: DateTime,
                                  settings: Settings, invalid: set<char>, env: Environment, message: string)
    requires ReachesUpload(content)
    requires env.upload == Throws(OtherException(message))
    ensures var run := UploadImageRun(content, recordId, now, settings, invalid, env);
      run.response == Unhandled(UploadThrew(OtherException(message))) && |run.calls| == 1
  {
  }

  /** Whatever the document write and the enqueue do, the response and the
      calls are those of the run where both complete. */
  lemma SecondaryFailuresSwallowed(content: RequestContent, recordId: Guids.Guid, now: DateTime,
                                   settings: Settings, invalid: set<char>, env: Environment,
                                   documentResult: CallResult, messageResult: CallResult)
    ensures UploadImageRun(content, recordId, now, settings, invalid,
                           env.(createDocument := documentResult, addMessage := messageResult))
         == UploadImageRun(content, recordId, now, settings, invalid,
                           env.(createDocument := Completes, addMessage := Completes))
  {
  }

  /** The response is Ok exactly when the request reaches the upload, the
      upload completes and the signing yields a token; it then names the
      record id, the derived extension, the declared content type and the
      blob URI followed by the token. A signing exception is answered with
      its message. */
  lemma ResponseOfRun(content: RequestContent, recordId: Guids.Guid, now: DateTime,
                      settings: Settings, invalid: set<char>, env: Environment)
    ensures var run := UploadImageRun(content, recordId, now, settings, invalid, env);
      run.response.Ok? <==> ReachesUpload(content) && env.upload.Completes? && env.sign.Signed?
    ensures var run := UploadImageRun(content, recordId, now, settings, invalid, env);
      run.response.Ok? ==>
        var ext := FileExtension(content, invalid);
        run.response.info == UploadedFileInfo(
          Guids.ToString(recordId), ext, content.files[0].contentType.value,
          env.blobUri(settings.containerName, BlobName(recordId, ext)) + env.sign.token)
    ensures var run := UploadImageRun(content, recordId, now, settings, invalid, env);
      ReachesUpload(content) && env.upload.Completes? && env.sign.SignThrows? ==>
        run.response == BadRequest(env.sign.exception.message) && |run.calls| == 4
  {
  }

  /** The blob name is the record id's text followed by the extension, and
      with the separators among the invalid characters both can be read back
      from it: its first 36 characters are the id and `Path.GetExtension`
      gives the extension. */
  lemma BlobNameRecoversIdAndExtension(recordId: Guids.Guid, fileName: string, invalid: set<char>)
    requires Extension.RemovesSeparators(invalid)
    ensures var ext := Extension.ExtractExtension(fileName, invalid);
      var name := BlobName(recordId, ext);
      && |name| >= 36 && name[..36] == Guids.ToString(recordId)
      && Extension.GetExtension(name) == ext
  {
    var ext := Extension.ExtractExtension(fileName, invalid);
    var id := Guids.ToString(recordId);
    Guids.ToStringLayout(recordId);
    Extension.ExtractExtensionIsLastDotSuffix(fileName, invalid);
    assert Extension.NoSeparator(ext) by {
      forall i | 0 <= i < |ext| ensures !Extension.IsSeparator(ext[i]) {
        assert ext[i] !in invalid;
      }
    }
    Extension.GetExtensionOfStemPlusExtension(id, ext);
    assert (id + ext)[..36] == id;
  }

  /** Two requests with different record ids never name the same blob,
      whatever their extensions. */
  lemma DistinctRecordsDistinctBlobNames(a: Guids.Guid, b: Guids.Guid, extA: string, extB: string)
    requires a != b
    ensures BlobName(a, extA) != BlobName(b, extB)
  {
    Guids.ToStringLayout(a);
    Guids.ToStringLayout(b);
    if BlobName(a, extA) == BlobName(b, extB) {
      assert BlobName(a, extA)[..36] == Guids.ToString(a);
      assert BlobName(b, extB)[..36] == Guids.ToString(b);
      Guids.ToStringInjective(a, b);
    }
  }

  /** Once the upload completes, one record id ties the three stores
      together: the document is keyed by it and points at the blob, the
      queue payload carries its text twice, the blob name is that text
      followed by the extension, and the signing is for that same blob. */
  lemma RecordIdBindsBlobDocumentAndMessage(content: RequestContent, recordId: Guids.Guid, now: DateTime,
                                            settings: Settings, invalid: set<char>, env: Environment)
    requires ReachesUpload(content) && env.upload.Completes?
    ensures var calls := UploadImageRun(content, recordId, now, settings, invalid, env).calls;
      var ext := FileExtension(content, invalid);
      && |calls| == 4
      && calls[0] == UploadBlob(settings.containerName, calls[2].payload.blobName + ext,
                                content.files[0].contentType, content.files[0].content)
      && calls[2] == EnqueueMessage(settings.queueName, QueuePayload(Guids.ToString(recordId), Guids.ToString(recordId)))
      && calls[1].document.id == recordId
      && calls[1].document.mediaUrl == env.blobUri(calls[0].container, calls[0].blobName)
      && calls[1].document.created == now
      && IsUnenriched(calls[1].document)
      && calls[1].database == settings.documentDbName && calls[1].collection == settings.documentDbCol
      && calls[3] == SignBlob(calls[0].container, calls[0].blobName, settings.storedAccessPolicyName)
  {
  }
}
