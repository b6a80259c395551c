/**
 * The upload panel: a list of pending files, filtered by type as they are
 * picked or dropped, removable one at a time, and sent to the backend in one
 * request. The request is split at its `await` into BeginUpload and
 * CompleteUpload; the backend's answer is CompleteUpload's parameter.
 */
module FileUpload {
  import opened Options
  import opened Backend
  import opened JsText

  /** A file the browser hands over: its name, size in bytes and MIME type (possibly ""). */
  datatype PendingFile = PendingFile(name: string, size: nat, mimeType: string)

  /** The banner shown after an upload attempt. */
  datatype UploadStatus = UploadStatus(success: bool, message: string)

  const PdfType := "application/pdf"
  const TextType := "text/plain"
  const DocxType := "application/vnd.openxmlformats-officedocument.wordprocessingml.document"

  const SkippedAlert := "Some files were skipped. Only PDF, TXT, and DOCX files are supported."
  const EmptyAlert := "Please select at least one file to upload."
  const UploadFallback := "Failed to upload documents. Please try again."
  const SuccessPrefix := "Successfully uploaded "
  const SuccessSuffix := " document(s)!"

  /** A file is accepted by its exact MIME type or, failing that, by its (case-sensitive) extension. */
  const SupportedTypes: set<string> := {PdfType, TextType, DocxType}
  const SupportedExtensions: set<string> := {".pdf", ".txt", ".docx"}

  predicate IsSupported(f: PendingFile)
    ensures IsSupported(f) <==>
      f.mimeType in SupportedTypes || exists ext :: ext in SupportedExtensions && EndsWith(f.name, ext)
  {
    f.mimeType == PdfType || f.mimeType == TextType || f.mimeType == DocxType ||
    EndsWith(f.name, ".pdf") || EndsWith(f.name, ".txt") || EndsWith(f.name, ".docx")
  }

  /** The `filter` of `handleFiles`: the supported files, in their original order. */
  function KeepSupported(files: seq<PendingFile>): (kept: seq<PendingFile>)
    ensures |kept| <= |files|
    ensures forall f :: f in kept <==> f in files && IsSupported(f)
  {
    if files == [] then []
    else (if IsSupported(files[0]) then [files[0]] else []) + KeepSupported(files[1..])
  }

  /**
   * Filtering a concatenation filters each part and keeps them in order; with
   * the one-file case this pins KeepSupported down and says that accepted
   * files keep their relative order.
   */
  lemma {:induction false} KeepSupportedAppend(a: seq<PendingFile>, b: seq<PendingFile>)
    ensures KeepSupported(a + b) == KeepSupported(a) + KeepSupported(b)
  {
    if a == [] {
      assert a + b == b;
    } else {
      assert (a + b)[1..] == a[1..] + b;
      KeepSupportedAppend(a[1..], b);
    }
  }

  lemma KeepSupportedSingle(f: PendingFile)
    ensures KeepSupported([f]) == if IsSupported(f) then [f] else []
  {
  }

  /** The skip warning fires exactly when some incoming file is rejected. */
  lemma {:induction false} SkipWarningIffRejected(files: seq<PendingFile>)
    ensures |KeepSupported(files)| != |files| <==> exists k :: 0 <= k < |files| && !IsSupported(files[k])
  {
    if files != [] {
      SkipWarningIffRejected(files[1..]);
      if exists k :: 0 <= k < |files| - 1 && !IsSupported(files[1..][k]) {
        var k :| 0 <= k < |files| - 1 && !IsSupported(files[1..][k]);
        assert !IsSupported(files[k + 1]);
      }
      if exists k :: 0 <= k < |files| && !IsSupported(files[k]) {
        var k :| 0 <= k < |files| && !IsSupported(files[k]);
        if k > 0 {
          assert !IsSupported(files[1..][k - 1]);
        }
      }
    }
  }

  /**
   * The `filter` of `removeFile`: keeps every element whose position differs
   * from `index`. Only an in-range index removes anything.
   */
  function RemoveAt<T>(s: seq<T>, index: int): (rest: seq<T>)
    ensures 0 <= index < |s| ==> rest == s[..index] + s[index + 1..]
    ensures !(0 <= index < |s|) ==> rest == s
  {
    if s == [] then []
    else (if index == 0 then [] else [s[0]]) + RemoveAt(s[1..], index - 1)
  }

  /** The success banner text; the count is rendered as a template literal renders an integer. */
  function SuccessMessage(count: int): (message: string)
    ensures |message| > |SuccessPrefix| + |SuccessSuffix|
  {
    SuccessPrefix + NumberToString(count) + SuccessSuffix
  }

  /** Reads the count back out of a success banner. */
  function ReportedCount(message: string): int
    requires |message| >= |SuccessPrefix| + |SuccessSuffix|
  {
    ParseInteger(message[|SuccessPrefix|..|message| - |SuccessSuffix|])
  }

  /** The success banner reports exactly the count the backend returned. */
  lemma SuccessMessageReportsCount(count: int)
    ensures ReportedCount(SuccessMessage(count)) == count
  {
    var m := SuccessMessage(count);
    assert m[|SuccessPrefix|..|m| - |SuccessSuffix|] == NumberToString(count);
    NumberToStringRoundTrip(count);
  }

  /**
   * Files added while an upload is outstanding are not part of the request,
   * yet a successful reply clears the whole list, so they are dropped unsent.
   */
  method LateFilesDroppedOnSuccess(picked: seq<PendingFile>, late: PendingFile, count: int)
    returns (request: Option<seq<PendingFile>>, pendingAtReply: seq<PendingFile>, remaining: seq<PendingFile>)
    requires KeepSupported(picked) != [] && IsSupported(late)
    ensures request == Some(KeepSupported(picked))
    ensures pendingAtReply == KeepSupported(picked) + [late]
    ensures remaining == []
  {
    var panel := new UploadPanel(false);
    var _ := panel.HandleFiles(picked);
    assert panel.files == KeepSupported(picked);
    var _, req := panel.BeginUpload();
    request := req;
    KeepSupportedSingle(late);
    var _ := panel.HandleFiles([late]);
    pendingAtReply := panel.files;
    var _ := panel.CompleteUpload(Resolved(UploadResult(count)));
    remaining := panel.files;
  }

  class UploadPanel {
    /** Whether the page passed an `onUploadSuccess` callback. */
    const hasSuccessCallback: bool
    var files: seq<PendingFile>
    var isUploading: bool
    var uploadStatus: Option<UploadStatus>

    /**
     * Every pending file passed the type filter, and no banner is shown while
     * an upload is outstanding.
     */
    ghost predicate Valid()
      reads this
    {
      (forall f :: f in files ==> IsSupported(f)) &&
      (isUploading ==> uploadStatus == None)
    }

    constructor (hasSuccessCallback: bool)
      ensures Valid()
      ensures this.hasSuccessCallback == hasSuccessCallback
      ensures files == [] && !isUploading && uploadStatus == None
    {
      this.hasSuccessCallback := hasSuccessCallback;
      files := [];
      isUploading := false;
      uploadStatus := None;
    }

    /** The upload button is disabled while a request is outstanding. */
    predicate UploadDisabled()
      reads this
      requires Valid()
      ensures UploadDisabled() ==> uploadStatus == None
    {
      isUploading
    }

    /**
     * `handleFiles`: appends the supported files to the pending list and
     * raises the skip alert when anything was rejected.
     */
    method HandleFiles(newFiles: seq<PendingFile>) returns (alert: Option<string>)
      requires Valid()
      modifies this
      ensures Valid()
      ensures files == old(files) + KeepSupported(newFiles)
      ensures alert == if |KeepSupported(newFiles)| != |newFiles| then Some(SkippedAlert) else None
      ensures isUploading == old(isUploading) && uploadStatus == old(uploadStatus)
    {
      var validFiles := KeepSupported(newFiles);
      alert := None;
      if |validFiles| != |newFiles| {
        alert := Some(SkippedAlert);
      }
      files := files + validFiles;
    }

    /** `removeFile`: drops the file at `index`; any other index changes nothing. */
    method RemoveFile(index: int)
      requires Valid()
      modifies this
      ensures Valid()
      ensures files == RemoveAt(old(files), index)
      ensures isUploading == old(isUploading) && uploadStatus == old(uploadStatus)
    {
      files := RemoveAt(files, index);
    }

    /**
     * The part of `handleUpload` before its `await`. With nothing pending it
     * only alerts; otherwise it marks the panel busy, clears the banner and
     * returns the files the request carries.
     */
    method BeginUpload() returns (alert: Option<string>, request: Option<seq<PendingFile>>)
      requires Valid() && !UploadDisabled()
      modifies this
      ensures Valid()
      ensures old(files) == [] ==> alert == Some(EmptyAlert) && request == None && unchanged(this)
      ensures old(files) != [] ==>
        alert == None && request == Some(old(files)) &&
        files == old(files) && isUploading && uploadStatus == None
    {
      if |files| == 0 {
        alert, request := Some(EmptyAlert), None;
        return;
      }
      isUploading := true;
      uploadStatus := None;
      alert, request := None, Some(files);
    }

    /**
     * The part of `handleUpload` after its `await`. Success clears the list,
     * reports the count and notifies the page; failure keeps the list and
     * shows the backend's detail or the fallback. Either way the panel is no
     * longer busy.
     */
    method CompleteUpload(outcome: Outcome<UploadResult>) returns (notified: Option<UploadResult>)
      requires Valid() && isUploading
      modifies this
      ensures Valid() && !isUploading
      ensures outcome.Resolved? ==>
        files == [] &&
        uploadStatus == Some(UploadStatus(true, SuccessMessage(outcome.payload.documentsUploaded))) &&
        notified == (if hasSuccessCallback then Some(outcome.payload) else None)
      ensures outcome.Rejected? ==>
        files == old(files) &&
        uploadStatus == Some(UploadStatus(false, DetailOr(outcome.detail, UploadFallback))) &&
        notified == None
    {
      notified := None;
      match outcome {
        case Resolved(result) =>
          uploadStatus := Some(UploadStatus(true, SuccessMessage(result.documentsUploaded)));
          files := [];
          if hasSuccessCallback {
            notified := Some(result);
          }
        case Rejected(detail) =>
          uploadStatus := Some(UploadStatus(false, DetailOr(detail, UploadFallback)));
      }
      isUploading := false;
    }
  }
}
