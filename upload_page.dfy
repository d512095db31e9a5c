/** The upload page: the drag highlight, file acceptance from a drop or the
    file picker, and the upload handler's loading flag, message and result.
    The upload request's outcome is a parameter of the handler. */
module UploadPage {
  import opened Util

  /** What the page reads of a browser File. */
  datatype FileInfo = FileInfo(name: string, mimeType: string)

  datatype MessageKind = Success | Error

  datatype Message = Message(kind: MessageKind, text: string)

  /** The parsed reply of the upload request; a missing member is None. */
  datatype UploadResponse = UploadResponse(message: string, rowsProcessed: Option<int>, rowsAnalyzed: Option<int>)

  const WrongType := "Please upload a CSV or Excel file"
  const NoFile := "Please select a file first"
  const UploadFailed := "Failed to upload file. Please try again."

  /** A file is taken when its MIME type is CSV or its name ends in .xlsx.
      The name decides only for .xlsx: a .csv file whose browser type is not
      text/csv is refused, and an .xlsx file is taken whatever its type. */
  predicate Acceptable(f: FileInfo)
    ensures EndsWith(f.name, ".csv") ==> (Acceptable(f) <==> f.mimeType == "text/csv")
    ensures EndsWith(f.name, ".xlsx") ==> Acceptable(f)
    ensures !EndsWith(f.name, ".xlsx") ==> (Acceptable(f) <==> f.mimeType == "text/csv")
  {
    CsvIsNotXlsx(f.name);
    f.mimeType == "text/csv" || EndsWith(f.name, ".xlsx")
  }

  /** No name ends in both extensions: their last letters differ. */
  lemma CsvIsNotXlsx(name: string)
    ensures EndsWith(name, ".csv") ==> !EndsWith(name, ".xlsx")
  {
    if EndsWith(name, ".csv") {
      assert name[|name| - 1] == name[|name| - 4..][3] == 'v';
    }
  }

  /** How a template literal renders an optional number. */
  function Render(n: Option<int>): string {
    if n.Some? then IntToString(n.value) else "undefined"
  }

  predicate Truthy(n: Option<int>) {
    n.Some? && n.value != 0
  }

  /** The success text: the rows processed, then ", analyzed N" when the
      reply's rows_analyzed is truthy. */
  function SuccessText(r: UploadResponse): (t: string)
    ensures StartsWith(t, "Successfully uploaded! Processed " + Render(r.rowsProcessed) + " students")
    ensures !Truthy(r.rowsAnalyzed) ==> EndsWith(t, " students")
    ensures Truthy(r.rowsAnalyzed) ==> EndsWith(t, ", analyzed " + IntToString(r.rowsAnalyzed.value))
  {
    var head := "Successfully uploaded! Processed " + Render(r.rowsProcessed) + " students";
    var t := head + (if Truthy(r.rowsAnalyzed) then ", analyzed " + IntToString(r.rowsAnalyzed.value) else "");
    assert t[..|head|] == head;
    t
  }

  /** The backend's upload reply carries only a message, so the page reports
      "undefined" students. */
  lemma BackendReplyText()
    ensures SuccessText(UploadResponse("Data uploaded successfully", None, None))
         == "Successfully uploaded! Processed undefined students"
  {
  }

  class UploadPage {
    var dragActive: bool
    var file: Option<FileInfo>
    var loading: bool
    var message: Option<Message>
    var uploadResult: Option<UploadResponse>

    constructor()
      ensures !dragActive && file.None? && !loading && message.None? && uploadResult.None?
    {
      dragActive := false;
      file := None;
      loading := false;
      message := None;
      uploadResult := None;
    }

    /** handleDrag: entering or moving over the zone highlights it, leaving
        it clears the highlight, other events change nothing. */
    method HandleDrag(eventType: string)
      modifies this
      ensures eventType == "dragenter" || eventType == "dragover" ==> dragActive
      ensures eventType == "dragleave" ==> !dragActive
      ensures eventType !in {"dragenter", "dragover", "dragleave"} ==> dragActive == old(dragActive)
      ensures file == old(file) && loading == old(loading) && message == old(message)
      ensures uploadResult == old(uploadResult)
    {
      if eventType == "dragenter" || eventType == "dragover" {
        dragActive := true;
      } else if eventType == "dragleave" {
        dragActive := false;
      }
    }

    /** The shared acceptance step of a drop and of the file picker: the
        first file is taken and the message cleared, or the type error is
        shown and the current file kept. No file changes nothing. */
    method Choose(files: seq<FileInfo>)
      modifies this
      ensures files == [] ==> file == old(file) && message == old(message)
      ensures files != [] && Acceptable(files[0]) ==> file == Some(files[0]) && message.None?
      ensures files != [] && !Acceptable(files[0]) ==>
                file == old(file) && message == Some(Message(Error, WrongType))
      ensures dragActive == old(dragActive) && loading == old(loading) && uploadResult == old(uploadResult)
    {
      if files != [] {
        var chosen := files[0];
        if chosen.mimeType == "text/csv" || EndsWith(chosen.name, ".xlsx") {
          file := Some(chosen);
          message := None;
        } else {
          message := Some(Message(Error, WrongType));
        }
      }
    }

    /** handleDrop: the highlight always goes, then the first dropped file
        is checked. */
    method HandleDrop(files: seq<FileInfo>)
      modifies this
      ensures !dragActive
      ensures files == [] ==> file == old(file) && message == old(message)
      ensures files != [] && Acceptable(files[0]) ==> file == Some(files[0]) && message.None?
      ensures files != [] && !Acceptable(files[0]) ==>
                file == old(file) && message == Some(Message(Error, WrongType))
      ensures loading == old(loading) && uploadResult == old(uploadResult)
    {
      dragActive := false;
      Choose(files);
    }

    /** handleFileChange: the first picked file is checked. */
    method HandleFileChange(files: seq<FileInfo>)
      modifies this
      ensures files == [] ==> file == old(file) && message == old(message)
      ensures files != [] && Acceptable(files[0]) ==> file == Some(files[0]) && message.None?
      ensures files != [] && !Acceptable(files[0]) ==>
                file == old(file) && message == Some(Message(Error, WrongType))
      ensures dragActive == old(dragActive) && loading == old(loading) && uploadResult == old(uploadResult)
    {
      Choose(files);
    }

    /** handleUpload: without a file only the error is shown and nothing is
        sent; otherwise the chosen file is sent and, on success, the result
        kept, the success text shown and the file cleared, or, on failure,
        the failure text shown. Once a file is sent, loading ends false on both
        paths. */
    method HandleUpload(outcome: Result<UploadResponse, string>) returns (sent: Option<FileInfo>)
      modifies this
      ensures sent == old(file)
      ensures old(file).Some? ==> !loading
      ensures dragActive == old(dragActive)
      ensures old(file).None? ==>
                message == Some(Message(Error, NoFile)) && file.None? && uploadResult == old(uploadResult)
                && loading == old(loading)
      ensures old(file).Some? && outcome.Success? ==>
                uploadResult == Some(outcome.value) && file.None?
                && message == Some(Message(MessageKind.Success, SuccessText(outcome.value)))
      ensures old(file).Some? && outcome.Failure? ==>
                message == Some(Message(Error, UploadFailed)) && file == old(file)
                && uploadResult == old(uploadResult)
    {
      if file.None? {
        message := Some(Message(Error, NoFile));
        sent := None;
        return;
      }
      loading := true;
      sent := file;
      match outcome {
        case Success(result) =>
          uploadResult := Some(result);
          message := Some(Message(MessageKind.Success, SuccessText(result)));
          file := None;
        case Failure(_) =>
          message := Some(Message(Error, UploadFailed));
      }
      loading := false;
    }
  }
}
