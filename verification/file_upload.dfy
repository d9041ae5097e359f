/**
 * The upload widget (client/src/components/FileUpload.jsx): the file it
 * holds, its status and message, and the drop, select and upload handlers.
 * The asynchronous upload is split at its `await` into `BeginUpload` and
 * `CompleteUpload`.
 */
module FileUpload {
  import opened JsValues

  datatype Status = Idle | Uploading | Succeeded | Failed

  /** A file from a drop or a file dialog: its name and its media type. */
  datatype PickedFile = PickedFile(name: string, mimetype: string)

  /** How the POST to `/api/upload` settled: a 200 body, or a rejection with the server's message if any. */
  datatype UploadResult = Uploaded(documentId: Option<string>) | Rejected(serverMessage: Option<string>)

  const PdfType := "application/pdf"
  const NotPdf := "Please upload a PDF file."
  const Processing := "Processing PDF and generating embeddings..."
  const SucceededPrefix := "Successfully processed "
  const UploadFailed := "Error uploading file"

  class UploadWidget {
    var file: Option<PickedFile>
    var status: Status
    var message: string
    /** The routes navigated to, in order. */
    var navigations: seq<string>
    /** The files posted to `/api/upload`, in order. */
    var requests: seq<PickedFile>
    /** The document ids handed to the `onUploadSuccess` callback, in order. */
    var notified: seq<string>
    /** Whether the auth context holds a user. */
    const signedIn: bool
    /** Whether the parent passed an `onUploadSuccess` callback. */
    const hasCallback: bool

    /** Only a PDF is ever held, and only non-empty document ids reach the callback. */
    ghost predicate Valid()
      reads this
    {
      && (file.Some? ==> file.value.mimetype == PdfType)
      && (forall i :: 0 <= i < |notified| ==> notified[i] != "")
    }

    constructor(signedIn: bool, hasCallback: bool)
      ensures Valid()
      ensures this.signedIn == signedIn && this.hasCallback == hasCallback
      ensures file.None? && status == Idle && message == ""
      ensures navigations == [] && requests == [] && notified == []
    {
      this.signedIn := signedIn;
      this.hasCallback := hasCallback;
      file := None;
      status := Idle;
      message := "";
      navigations := [];
      requests := [];
      notified := [];
    }

    /** The Ingest button is rendered: a file is held, and no upload is running or has just succeeded. */
    predicate IngestShown()
      reads this
    {
      file.Some? && status != Uploading && status != Succeeded
    }

    /**
     * `handleDrop` and `handleFileChange` (the same logic for dropped and
     * selected files): sign-in first, then the first file is held if it is a
     * PDF, and anything else shows the PDF-only error.
     */
    method PickFiles(files: seq<PickedFile>)
      requires Valid()
      modifies this
      ensures Valid()
      ensures requests == old(requests) && notified == old(notified)
      ensures !signedIn ==>
        && navigations == old(navigations) + ["/login"]
        && file == old(file) && status == old(status) && message == old(message)
      ensures signedIn ==> navigations == old(navigations)
      ensures signedIn && files == [] ==>
        file == old(file) && status == old(status) && message == old(message)
      ensures signedIn && files != [] && files[0].mimetype == PdfType ==>
        file == Some(files[0]) && status == old(status) && message == old(message)
      // a PDF picked after a success is held, yet the status stays 'success' and hides the button
      ensures signedIn && files != [] && files[0].mimetype == PdfType ==>
        (IngestShown() <==> old(status) != Uploading && old(status) != Succeeded)
      ensures signedIn && files != [] && files[0].mimetype != PdfType ==>
        file == old(file) && status == Failed && message == NotPdf
    {
      if !signedIn {
        navigations := navigations + ["/login"];
        return;
      }
      if files != [] {
        var picked := files[0];
        if picked.mimetype == PdfType {
          file := Some(picked);
        } else {
          status := Failed;
          message := NotPdf;
        }
      }
    }

    /** `handleZoneClick`: a signed-out click goes to /login instead of opening the file dialog. */
    method ZoneClick() returns (opensDialog: bool)
      modifies this
      ensures opensDialog == signedIn
      ensures navigations == old(navigations) + (if signedIn then [] else ["/login"])
      ensures file == old(file) && status == old(status) && message == old(message)
      ensures requests == old(requests) && notified == old(notified)
    {
      opensDialog := signedIn;
      if !signedIn {
        navigations := navigations + ["/login"];
      }
    }

    /**
     * `uploadFile` up to its `await`: nothing without a file; /login when
     * signed out; otherwise the status turns to uploading and the held file
     * is posted (returned as `sent`).
     */
    method BeginUpload() returns (sent: Option<PickedFile>)
      requires Valid()
      modifies this
      ensures Valid()
      ensures file == old(file) && notified == old(notified)
      ensures old(file).None? ==>
        && sent.None? && status == old(status) && message == old(message)
        && navigations == old(navigations) && requests == old(requests)
      ensures old(file).Some? && !signedIn ==>
        && sent.None? && status == old(status) && message == old(message)
        && navigations == old(navigations) + ["/login"] && requests == old(requests)
      ensures old(file).Some? && signedIn ==>
        && sent == old(file)
        && status == Uploading && message == Processing
        && navigations == old(navigations) && requests == old(requests) + [old(file).value]
    {
      if file.None? {
        return None;
      }
      if !signedIn {
        navigations := navigations + ["/login"];
        return None;
      }
      status := Uploading;
      message := Processing;
      requests := requests + [file.value];
      sent := file;
    }

    /**
     * `uploadFile` after its `await`. Success clears the held file and calls
     * back with the document id when there is a callback and a truthy id;
     * failure shows the server's message, or the generic one.
     */
    method CompleteUpload(sent: PickedFile, result: UploadResult)
      requires Valid()
      modifies this
      ensures Valid()
      ensures navigations == old(navigations) && requests == old(requests)
      ensures result.Uploaded? ==>
        && status == Succeeded && message == SucceededPrefix + sent.name && file.None?
        && notified == old(notified) +
             (if hasCallback && Truthy(result.documentId) then [result.documentId.value] else [])
      ensures result.Rejected? ==>
        && status == Failed && message == OrElse(result.serverMessage, UploadFailed)
        && file == old(file) && notified == old(notified)
    {
      match result
      case Uploaded(documentId) =>
        status := Succeeded;
        message := SucceededPrefix + sent.name;
        file := None;
        if hasCallback && Truthy(documentId) {
          notified := notified + [documentId.value];
        }
      case Rejected(serverMessage) =>
        status := Failed;
        message := OrElse(serverMessage, UploadFailed);
    }

    /** A whole upload with nothing interleaved. */
    method Upload(result: UploadResult)
      requires Valid()
      modifies this
      ensures Valid()
      ensures old(file).Some? && signedIn ==>
        && requests == old(requests) + [old(file).value]
        && (result.Uploaded? ==> status == Succeeded && message == SucceededPrefix + old(file).value.name && file.None?)
        && (result.Rejected? ==> status == Failed && message == OrElse(result.serverMessage, UploadFailed) && file == old(file))
        && notified == old(notified) +
             (if result.Uploaded? && hasCallback && Truthy(result.documentId) then [result.documentId.value] else [])
      ensures !(old(file).Some? && signedIn) ==>
        && requests == old(requests) && notified == old(notified)
        && file == old(file) && status == old(status) && message == old(message)
      ensures navigations == old(navigations) + (if old(file).Some? && !signedIn then ["/login"] else [])
    {
      var sent := BeginUpload();
      if sent.Some? {
        CompleteUpload(sent.value, result);
      }
    }
  }
}
