/**
  The EHR upload box: files picked or dropped are listed, the first file of
  each selection is posted to the processing server, and the summary it
  returns is shown and handed to the chat through the shared EHR cell. The
  server's reply is a parameter (`UploadReply`).
 */
module EhrUpload {
  import opened Common
  import opened EhrContext

  /** A picked file, as far as the upload box looks at it. */
  datatype File = File(name: string, size: nat, mimeType: string)

  /** A parsed JSON body: its `error` and `response` fields, when present. */
  datatype Body = Parsed(errorField: Option<string>, response: Option<string>) | Unparsable(message: string)

  /** How the POST to the processing server ends. */
  datatype UploadReply =
    | FetchRejected(message: string)              // `fetch` throws
    | Responded(ok: bool, status: nat, body: Body) // `response.ok`, `response.status`, `response.json()`

  /** How `handleFileUpload` settles: the summary, or the message of the error it caught. */
  datatype Settlement = Succeeded(summary: Option<string>) | Caught(message: string)

  const HttpErrorPrefix := "HTTP error! status: "
  const DefaultError := "Failed to process file."

  /** `HTTP error! status: ${response.status}`. */
  function HttpErrorMessage(status: nat): string {
    HttpErrorPrefix + NatToString(status)
  }

  /** The `try` block of `handleFileUpload`, on the server's reply. It
      succeeds exactly when the server answers ok with a JSON body, and then
      the summary is the body's `response`. A non-ok JSON answer is reported
      by its non-empty `error` field, or else by its status; a body that is
      not JSON is reported by the parser's error, whatever the status. */
  function Settle(reply: UploadReply): (r: Settlement)
    ensures r.Succeeded? <==> reply.Responded? && reply.ok && reply.body.Parsed?
    ensures r.Succeeded? ==> r.summary == reply.body.response
    ensures reply.Responded? && !reply.ok && reply.body.Parsed? ==>
              var err := reply.body.errorField;
              r == Caught(if err.Some? && err.value != "" then err.value else HttpErrorMessage(reply.status))
    ensures reply.Responded? && reply.body.Unparsable? ==> r == Caught(reply.body.message)
    ensures reply.FetchRejected? ==> r == Caught(reply.message)
  {
    match reply
    case FetchRejected(m) => Caught(m)
    case Responded(ok, status, body) =>
      match body
      case Unparsable(m) => Caught(m)
      case Parsed(err, resp) =>
        if !ok then Caught(if err.Some? && err.value != "" then err.value else HttpErrorMessage(status))
        else Succeeded(resp)
  }

  /** `e.message || "Failed to process file."`: never empty, and the
      message itself whenever it has one. */
  function ErrorText(message: string): (t: string)
    ensures t != ""
    ensures message != "" ==> t == message
    ensures message == "" ==> t == DefaultError
  {
    if message != "" then message else DefaultError
  }

  /** The status can be read back from the HTTP error message. */
  lemma HttpErrorNamesStatus(status: nat)
    ensures |HttpErrorMessage(status)| > |HttpErrorPrefix|
    ensures HttpErrorMessage(status)[..|HttpErrorPrefix|] == HttpErrorPrefix
    ensures var digits := HttpErrorMessage(status)[|HttpErrorPrefix|..];
            (forall i :: 0 <= i < |digits| ==> '0' <= digits[i] <= '9') && ParseDecimal(digits) == status
  {
    var m := HttpErrorMessage(status);
    assert m[|HttpErrorPrefix|..] == NatToString(status);
    NatToStringRoundTrip(status);
  }

  /** The state of `FileUpload`. `uploads` lists the files posted to the
      server, in order, and `notified` the selections passed to `onChange`. */
  class FileUpload {
    var files: seq<File>
    var processing: bool
    var processedData: Option<string>
    var error: Option<string>
    var uploads: seq<File>
    var notified: seq<seq<File>>
    const hasOnChange: bool
    const ehr: EhrCell

    /** A fresh box bound to the provider's cell. */
    constructor (ehr: EhrCell, hasOnChange: bool)
      ensures this.ehr == ehr && this.hasOnChange == hasOnChange
      ensures files == [] && !processing && processedData == None && error == None
      ensures uploads == [] && notified == []
    {
      this.ehr := ehr;
      this.hasOnChange := hasOnChange;
      files, processing, processedData, error := [], false, None, None;
      uploads, notified := [], [];
    }

    /** The synchronous start of `handleFileUpload`: mark the box busy,
        clear the previous result and error and the shared summary, and
        post the file. */
    method StartUpload(file: File)
      modifies this`processing, this`processedData, this`error, this`uploads, ehr
      ensures processing && processedData == None && error == None && ehr.summary == None
      ensures uploads == old(uploads) + [file]
    {
      processing := true;
      processedData := None;
      error := None;
      ehr.SetEhrSummary(None);
      uploads := uploads + [file];
    }

    /** The rest of `handleFileUpload`, once the server's reply is in:
        keep the summary on success, record the error otherwise, and
        clear `processing` in every case. */
    method SettleUpload(reply: UploadReply)
      modifies this`processing, this`processedData, this`error, ehr
      ensures !processing
      ensures Settle(reply).Succeeded? ==>
                processedData == Settle(reply).summary && ehr.summary == Settle(reply).summary
                && error == old(error)
      ensures Settle(reply).Caught? ==>
                error == Some(ErrorText(Settle(reply).message))
                && processedData == old(processedData) && ehr.summary == old(ehr.summary)
    {
      var thrown: Option<string> := None;
      match reply {
        case FetchRejected(m) =>
          thrown := Some(m);
        case Responded(ok, status, body) =>
          if !ok {
            match body {
              case Unparsable(m) =>
                thrown := Some(m);
              case Parsed(err, _) =>
                thrown := Some(if err.Some? && err.value != "" then err.value else HttpErrorMessage(status));
            }
          } else {
            match body {
              case Unparsable(m) =>
                thrown := Some(m);
              case Parsed(_, resp) =>
                processedData := resp;
                ehr.SetEhrSummary(resp);
            }
          }
      }
      if thrown.Some? {
        error := Some(if thrown.value != "" then thrown.value else DefaultError);
      }
      processing := false;
    }

    /** `handleFileUpload` run to its end: on success the result and the
        shared summary are the server's `response` and there is no error;
        on failure there is an error, and no result and no summary. */
    method HandleFileUpload(file: File, reply: UploadReply)
      modifies this`processing, this`processedData, this`error, this`uploads, ehr
      ensures !processing && uploads == old(uploads) + [file]
      ensures Settle(reply).Succeeded? ==>
                error == None && processedData == Settle(reply).summary && ehr.summary == processedData
      ensures Settle(reply).Caught? ==>
                error == Some(ErrorText(Settle(reply).message)) && processedData == None && ehr.summary == None
    {
      StartUpload(file);
      SettleUpload(reply);
    }

    /** `handleFileChange`: list the new files after the old ones, tell
        `onChange`, and start uploading the first new file, if any. The
        upload settles later, in `SettleUpload`. */
    method HandleFileChange(newFiles: seq<File>)
      modifies this`files, this`notified, this`processing, this`processedData, this`error, this`uploads, ehr
      ensures files == old(files) + newFiles
      ensures notified == old(notified) + (if hasOnChange then [newFiles] else [])
      ensures |newFiles| > 0 ==>
                uploads == old(uploads) + [newFiles[0]]
                && processing && processedData == None && error == None && ehr.summary == None
      ensures |newFiles| == 0 ==>
                uploads == old(uploads) && processing == old(processing)
                && processedData == old(processedData) && error == old(error) && ehr.summary == old(ehr.summary)
    {
      files := files + newFiles;
      if hasOnChange {
        notified := notified + [newFiles];
      }
      if |newFiles| > 0 {
        StartUpload(newFiles[0]);
      }
    }
  }
}
