/**
 * The chat panel: a transcript of user and assistant messages, the text box,
 * and the busy flag. Sending is split at its `await` into BeginSend and
 * CompleteSend; the backend's answer is CompleteSend's parameter.
 */
module ChatInterface {
  import opened Options
  import opened Backend
  import opened JsText

  datatype Role = User | Assistant

  datatype ChatMessage = ChatMessage(role: Role, content: string)

  const AskFallback := "Sorry, I encountered an error. Please make sure documents are uploaded first."

  /** The assistant message's text: the answer, or else the backend's detail or the fallback. */
  function ReplyText(outcome: Outcome<AskResult>): (text: string)
    ensures outcome.Resolved? ==> text == outcome.payload.answer
    ensures outcome.Rejected? ==> text != "" && (text == AskFallback || outcome.detail == Some(text))
    ensures outcome.Rejected? && outcome.detail.Some? && outcome.detail.value != "" ==> text == outcome.detail.value
    ensures outcome.Rejected? && (outcome.detail.None? || outcome.detail.value == "") ==> text == AskFallback
  {
    match outcome
    case Resolved(response) => response.answer
    case Rejected(detail) => DetailOr(detail, AskFallback)
  }

  /** The early return of `handleSend`: nothing to send, or a request is outstanding. */
  predicate SendIgnored(input: string, isLoading: bool)
    ensures SendIgnored(input, isLoading) <==> isLoading || IsBlank(input)
  {
    Trim(input) == [] || isLoading
  }

  /** The send button's `disabled` rule. */
  function SendDisabled(input: string, isLoading: bool): (disabled: bool)
    ensures disabled <==> isLoading || IsBlank(input)
    ensures disabled == SendIgnored(input, isLoading)
  {
    isLoading || Trim(input) == []
  }

  /** The key rule of `handleKeyPress`: Enter sends, Shift+Enter does not. */
  predicate SubmitsOnKey(key: string, shiftKey: bool)
    ensures SubmitsOnKey(key, shiftKey) ==> key == "Enter"
    ensures key == "Enter" ==> (SubmitsOnKey(key, shiftKey) <==> !shiftKey)
  {
    key == "Enter" && !shiftKey
  }

  /** Positions alternate user, assistant, user, ... from the start. */
  ghost predicate Alternates(messages: seq<ChatMessage>) {
    forall k :: 0 <= k < |messages| ==> messages[k].role == (if k % 2 == 0 then User else Assistant)
  }

  /** Non-empty text with no whitespace at either end: what a user message always holds. */
  ghost predicate IsTrimmedText(s: string) {
    s != [] && Trim(s) == s
  }

  /**
   * A well-formed transcript: it alternates user and assistant messages, is
   * of odd length exactly while a question awaits its answer, and every user
   * message is trimmed, non-empty text.
   */
  ghost predicate WellFormed(messages: seq<ChatMessage>, isLoading: bool) {
    Alternates(messages) &&
    (isLoading <==> |messages| % 2 == 1) &&
    (forall k :: 0 <= k < |messages| && messages[k].role == User ==> IsTrimmedText(messages[k].content))
  }

  /** Asking appends the trimmed input as a user message and keeps the transcript well formed. */
  lemma AskKeepsWellFormed(messages: seq<ChatMessage>, input: string)
    requires WellFormed(messages, false)
    requires !IsBlank(input)
    ensures WellFormed(messages + [ChatMessage(User, Trim(input))], true)
  {
  }

  /** Answering appends one assistant message and keeps the transcript well formed. */
  lemma AnswerKeepsWellFormed(messages: seq<ChatMessage>, text: string)
    requires WellFormed(messages, true)
    ensures WellFormed(messages + [ChatMessage(Assistant, text)], false)
  {
  }

  class ChatPanel {
    var messages: seq<ChatMessage>
    var input: string
    var isLoading: bool

    ghost predicate Valid()
      reads this
    {
      WellFormed(messages, isLoading)
    }

    constructor ()
      ensures Valid()
      ensures messages == [] && input == "" && !isLoading
    {
      messages := [];
      input := "";
      isLoading := false;
    }

    /** The text box is disabled while a request is outstanding; the send button is then too. */
    function InputDisabled(): (disabled: bool)
      reads this
      ensures disabled ==> SendDisabled(input, isLoading)
    {
      isLoading
    }

    /** The text box's `onChange`. */
    method SetInput(text: string)
      requires Valid()
      modifies this
      ensures Valid()
      ensures input == text && messages == old(messages) && isLoading == old(isLoading)
    {
      input := text;
    }

    /**
     * The part of `handleSend` before its `await`. Ignored exactly when the
     * send button would be disabled; otherwise the trimmed text becomes one
     * user message at the end of the transcript, the box is cleared and the
     * panel is busy. Returns the question sent to the backend.
     */
    method BeginSend() returns (question: Option<string>)
      requires Valid()
      modifies this
      ensures Valid()
      ensures question.None? <==> old(SendDisabled(input, isLoading))
      ensures question.None? ==> unchanged(this)
      ensures question.Some? ==>
        question.value == Trim(old(input)) && input == "" && isLoading &&
        messages == old(messages) + [ChatMessage(User, question.value)]
    {
      if Trim(input) == [] || isLoading {
        return None;
      }
      var userMessage := Trim(input);
      AskKeepsWellFormed(messages, input);
      input := "";
      messages := messages + [ChatMessage(User, userMessage)];
      isLoading := true;
      question := Some(userMessage);
    }

    /**
     * The part of `handleSend` after its `await`: exactly one assistant
     * message goes at the end of the transcript and the panel is no longer busy.
     */
    method CompleteSend(outcome: Outcome<AskResult>)
      requires Valid() && isLoading
      modifies this
      ensures Valid() && !isLoading
      ensures input == old(input)
      ensures messages == old(messages) + [ChatMessage(Assistant, ReplyText(outcome))]
    {
      AnswerKeepsWellFormed(messages, ReplyText(outcome));
      messages := messages + [ChatMessage(Assistant, ReplyText(outcome))];
      isLoading := false;
    }

    /**
     * `handleSend` as a whole, with the backend's reply given: an accepted
     * send grows the transcript by exactly two messages, user then assistant.
     */
    method HandleSend(outcome: Outcome<AskResult>) returns (question: Option<string>)
      requires Valid()
      modifies this
      ensures Valid()
      ensures question.None? <==> old(SendDisabled(input, isLoading))
      ensures question.None? ==> unchanged(this)
      ensures question.Some? ==>
        question.value == Trim(old(input)) && input == "" && !isLoading &&
        messages == old(messages) + [ChatMessage(User, question.value), ChatMessage(Assistant, ReplyText(outcome))]
    {
      question := BeginSend();
      if question.Some? {
        CompleteSend(outcome);
      }
    }

    /**
     * `handleKeyPress`: Enter without Shift prevents the default and sends;
     * any other key changes nothing.
     */
    method HandleKeyPress(key: string, shiftKey: bool) returns (prevented: bool, question: Option<string>)
      requires Valid()
      modifies this
      ensures Valid()
      ensures prevented <==> key == "Enter" && !shiftKey
      ensures !prevented ==> question == None && unchanged(this)
      ensures prevented ==>
        (question.None? <==> old(SendDisabled(input, isLoading))) &&
        (question.None? ==> unchanged(this)) &&
        (question.Some? ==>
           question.value == Trim(old(input)) && input == "" && isLoading &&
           messages == old(messages) + [ChatMessage(User, question.value)])
    {
      prevented, question := false, None;
      if SubmitsOnKey(key, shiftKey) {
        prevented := true;
        question := BeginSend();
      }
    }
  }
}
