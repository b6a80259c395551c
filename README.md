# Upload panel and chat panel of a document question-answering front-end

This project models, in Dafny, the two stateful components of a browser
front-end for a document question-answering service:

- **Upload panel** (`src/components/FileUpload.jsx`): a pending-file list.
  Picked or dropped files are filtered by MIME type or extension (PDF, plain
  text, DOCX) and appended. An alert is raised when anything was skipped.
  Files can be removed by position. The whole list is sent in one upload
  request, guarded by an empty-list check and a busy flag. Success clears the
  list, shows the uploaded count and notifies the page. Failure keeps the list
  and shows the backend's `detail`, or a fixed fallback text.
- **Chat panel** (`src/components/ChatInterface.jsx`): an append-only
  transcript. A send is ignored when the trimmed input is empty or a question
  is outstanding. Otherwise the trimmed text is appended as one user message,
  the input is cleared and the panel is busy. When the backend answers, one
  assistant message is appended (the answer, or the error detail, or a
  fallback) and the panel is no longer busy.

Each component is a class (`FileUpload.UploadPanel`, `ChatInterface.ChatPanel`)
whose fields are the component's React state. Each handler with an `await` is
split into a "begin" method (everything before the `await`) and a "complete"
method (everything after it). The backend's reply is the complete method's
parameter: `Backend.Outcome` is either the resolved response body or a
rejection carrying the optional `error.response?.data?.detail`. The JavaScript
primitives the handlers rely on are in `JsText`: `String.prototype.trim` with
the full ECMAScript whitespace and line-terminator set, `endsWith`, and the
decimal text of an integer in a template literal (with a parser that reads it
back).

Invariants kept by every method:

- `UploadPanel.Valid`: every pending file passes the type filter, and no
  status banner is set while an upload is outstanding.
- `ChatPanel.Valid` (`ChatInterface.WellFormed`): the transcript alternates
  user, assistant, user, ...; its length is odd exactly while a question is
  outstanding; every user message is non-empty, already-trimmed text.

One consequence of the source as written, proved by the scenario
`FileUpload.LateFilesDroppedOnSuccess`: files added while an upload is
outstanding are not part of the request, yet a successful completion clears
the whole list, so they are dropped unsent.

## Model

| member | source | states |
|---|---|---|
| `FileUpload.IsSupported` | src/components/FileUpload.jsx:46-53 | a file is accepted iff its MIME type is one of `application/pdf`, `text/plain` or the DOCX type, or its name ends with `.pdf`, `.txt` or `.docx` |
| `FileUpload.KeepSupported` | src/components/FileUpload.jsx:45-54 | a file is kept iff it occurs in the input and has one of the three MIME types or a `.pdf`/`.txt`/`.docx` name ending (case-sensitive); the result is no longer than the input |
| `FileUpload.KeepSupportedAppend` | src/components/FileUpload.jsx:45-54 | filtering a concatenation is the concatenation of the filtered parts, so accepted files keep their relative order |
| `FileUpload.KeepSupportedSingle` | src/components/FileUpload.jsx:46-53 | a single file is kept alone iff it is supported, otherwise nothing is kept |
| `FileUpload.SkipWarningIffRejected` | src/components/FileUpload.jsx:56-58 | the accepted count differs from the incoming count iff at least one incoming file is rejected |
| `FileUpload.RemoveAt` | src/components/FileUpload.jsx:63-65 | the position filter removes exactly element `index` when it is in range, keeping the others in order; an out-of-range index leaves the list unchanged |
| `FileUpload.SuccessMessage` | src/components/FileUpload.jsx:78 | the success banner is longer than its fixed prefix and suffix, so it always holds a count |
| `FileUpload.SuccessMessageReportsCount` | src/components/FileUpload.jsx:78 | the count read back from the success banner is exactly the `documents_uploaded` value returned |
| `FileUpload.LateFilesDroppedOnSuccess` | src/components/FileUpload.jsx:60-79 | a file added while an upload is outstanding is pending when the reply arrives, is not in the request, and is gone after a successful reply |
| `FileUpload.UploadPanel.constructor` | src/components/FileUpload.jsx:7-10 | the panel starts with no files, not uploading, no status |
| `FileUpload.UploadPanel.UploadDisabled` | src/components/FileUpload.jsx:197 | the upload button is disabled while an upload is outstanding, and then no status banner is shown |
| `FileUpload.UploadPanel.HandleFiles` | src/components/FileUpload.jsx:44-61 | the new list is the old list followed by the accepted files; the skip alert is raised iff some file was rejected; busy flag and status unchanged; every pending file stays supported |
| `FileUpload.UploadPanel.RemoveFile` | src/components/FileUpload.jsx:63-65 | the list loses exactly the file at `index` (nothing if out of range); busy flag and status unchanged |
| `FileUpload.UploadPanel.BeginUpload` | src/components/FileUpload.jsx:67-77 | with an empty list: only the "select a file" alert, no request, no state change; otherwise the request carries the whole list, the panel is busy and the status is cleared; callable only while the button is enabled (line 197) |
| `FileUpload.UploadPanel.CompleteUpload` | src/components/FileUpload.jsx:77-90 | always leaves the panel not busy; success empties the list, sets a success status with the returned count and notifies the page callback when there is one; failure keeps the list and sets a failure status with the backend detail or the fixed fallback |
| `Backend.DetailOr` | src/components/FileUpload.jsx:86 | JavaScript `or` of detail and fallback: a non-empty detail is used as is; otherwise (absent or empty) the fallback; never empty when the fallback is not |
| `JsText.TrimStart` | src/components/ChatInterface.jsx:24 | the result is the suffix left after removing the leading whitespace, and does not itself start with whitespace |
| `JsText.TrimEnd` | src/components/ChatInterface.jsx:24 | the result is the prefix left after removing the trailing whitespace, and does not itself end with whitespace |
| `JsText.Trim` | src/components/ChatInterface.jsx:22-24 | the trimmed text is empty iff the input is all whitespace; a non-empty result starts and ends with a non-whitespace character |
| `JsText.TrimInfix` | src/components/ChatInterface.jsx:24 | the trimmed text is a contiguous infix of the input, and everything before and after it is whitespace |
| `JsText.TrimIdempotent` | src/components/ChatInterface.jsx:24 | trimming trimmed text changes nothing |
| `JsText.EndsWith` | src/components/FileUpload.jsx:51-53 | `name.endsWith(suffix)` holds iff the suffix is no longer than the name and matches its last characters one by one, case-sensitively |
| `JsText.Digits` | src/components/FileUpload.jsx:78 | a non-empty string of decimal digits with a leading zero only for zero |
| `JsText.NumberToString` | src/components/FileUpload.jsx:78 | non-empty, and starts with a minus sign iff the number is negative |
| `JsText.DigitsRoundTrip` | src/components/FileUpload.jsx:78 | parsing the digits of `n` gives back `n` |
| `JsText.NumberToStringRoundTrip` | src/components/FileUpload.jsx:78 | parsing the text of any integer gives back that integer |
| `ChatInterface.ReplyText` | src/components/ChatInterface.jsx:30-44 | the assistant text is the answer on success; on failure a non-empty backend detail is shown as is, otherwise (absent or empty detail) the fixed fallback, so a failure text is never empty |
| `ChatInterface.SendIgnored` | src/components/ChatInterface.jsx:22 | `handleSend` returns early iff a request is outstanding or the input is all whitespace |
| `ChatInterface.SubmitsOnKey` | src/components/ChatInterface.jsx:51 | only Enter submits, and Enter submits iff Shift is not held |
| `ChatInterface.SendDisabled` | src/components/ChatInterface.jsx:163 | the send button is disabled iff a request is outstanding or the input is all whitespace, which is exactly when `handleSend` returns early (line 22) |
| `ChatInterface.AskKeepsWellFormed` | src/components/ChatInterface.jsx:24-27 | appending the trimmed, non-blank input as a user message to a settled transcript gives a well-formed transcript awaiting an answer |
| `ChatInterface.AnswerKeepsWellFormed` | src/components/ChatInterface.jsx:30-47 | appending one assistant message to a transcript awaiting an answer gives a well-formed settled transcript |
| `ChatInterface.ChatPanel.constructor` | src/components/ChatInterface.jsx:7-9 | empty transcript, empty input, not loading |
| `ChatInterface.ChatPanel.InputDisabled` | src/components/ChatInterface.jsx:157 | whenever the input box is disabled, the send button is disabled too |
| `ChatInterface.ChatPanel.SetInput` | src/components/ChatInterface.jsx:153 | only the input changes |
| `ChatInterface.ChatPanel.BeginSend` | src/components/ChatInterface.jsx:21-27 | a no-op exactly when the send button would be disabled; otherwise appends exactly one user message holding the trimmed input, clears the input, sets the busy flag and returns the question sent |
| `ChatInterface.ChatPanel.CompleteSend` | src/components/ChatInterface.jsx:29-47 | appends exactly one assistant message (answer, detail or fallback) at the end, clears the busy flag, leaves the input alone |
| `ChatInterface.ChatPanel.HandleSend` | src/components/ChatInterface.jsx:21-48 | an accepted send followed by its reply grows the transcript by exactly two messages, user then assistant, the earlier ones kept as a prefix; an ignored send changes nothing |
| `ChatInterface.ChatPanel.HandleKeyPress` | src/components/ChatInterface.jsx:50-55 | Enter without Shift prevents the default and behaves as `BeginSend`; any other key, or Enter with Shift, changes nothing |

## Left out

- The API client (`src/services/api.js`): the HTTP calls, form-data construction and base-URL selection. Only their result is modelled, as `Backend.Outcome`.
- `src/App.jsx`: page layout and the one-way "documents uploaded" flag set by the upload callback. The callback is modelled only as the value `CompleteUpload` hands to it.
- `formatFileSize` (`src/components/FileUpload.jsx:93-99`): floating-point logarithms and rounding.
- Drag-enter, drag-leave and drag-over handling and the `isDragging` flag: cosmetic, over the browser event API. Drop and picker both end in `handleFiles`, which is modelled.
- Scrolling, animations, JSX rendering. `alert` is modelled as a returned message.
- Event-loop interleaving: each `await` is a begin/complete pair. Only one request per panel is outstanding at a time.
- `FileUpload.UploadPanel.BeginUpload`: requires the panel not to be busy. The handler itself has no such guard; only the disabled button (line 197) prevents a second upload.
- `FileUpload.UploadPanel.CompleteUpload`: an exception thrown by the page callback itself would also land in the `catch` branch; the model treats the callback as not throwing.
- `Backend.DetailOr`: `detail` is modelled as an optional string. A non-string detail (for example a list of validation errors) is not modelled.
- `JsText.NumberToString`: JavaScript prints integers of magnitude 10^21 and above in exponent notation, and a missing `documents_uploaded` as `undefined`. The model always uses plain decimal digits.
- Strings are sequences of characters compared exactly. UTF-16 surrogate pairs are not distinguished from single code points.
