/** The chat screen (`src/components/ChatInterface.tsx`): the message box,
    its send guard, the clear-and-restore protocol around a send, the Enter
    key, and the style gradient of the header.

    A send is one sequential step: the box is cleared, the owner's
    `onSendMessage` promise settles (resolves or rejects), and the box is
    updated. How that promise settles is a parameter; the owner on the main
    page (`src/pages/Index.tsx`) is connected to it at the end. */
module ChatInterface {
  import opened Wrappers
  import opened Text
  import opened Types
  import AIService
  import IndexPage

  /** The message box: its text and whether a send is in progress. */
  datatype ChatBox = ChatBox(input: string, sending: bool)

  /** How the owner's `onSendMessage` promise settled. */
  datatype Settle = Resolved | Rejected

  /** A send may start: the text is not blank and no send is running. */
  predicate CanSend(box: ChatBox) {
    !IsBlank(box.input) && !box.sending
  }

  /** The send button is disabled while the text is blank, a send is running,
      or the character is "typing". */
  predicate SendButtonDisabled(box: ChatBox, isTyping: bool) {
    IsBlank(box.input) || box.sending || isTyping
  }

  /** The text field itself is disabled while sending or typing. */
  predicate InputDisabled(box: ChatBox, isTyping: bool) {
    box.sending || isTyping
  }

  /** An enabled send button always passes the send guard. */
  lemma EnabledButtonCanSend(box: ChatBox, isTyping: bool)
    ensures !SendButtonDisabled(box, isTyping) <==> CanSend(box) && !isTyping
  {
  }

  /** `handleKeyPress`: Enter without Shift sends; any other key does not. */
  predicate SendsOnKey(key: string, shift: bool) {
    key == "Enter" && !shift
  }

  /** Shift+Enter (a line break) and every key other than Enter never send;
      Enter alone does. */
  lemma OnlyPlainEnterSends(key: string, shift: bool)
    ensures shift ==> !SendsOnKey(key, shift)
    ensures key != "Enter" ==> !SendsOnKey(key, shift)
    ensures SendsOnKey("Enter", false)
  {
  }

  /** A key press in the text field: the send of `handleSend` for a plain
      Enter, and nothing at all for any other key. */
  function HandleKeyPress(box: ChatBox, key: string, shift: bool, settle: Settle): (s: SendStep)
    ensures shift || key != "Enter" ==> s == SendStep(None, box, box)
    ensures key == "Enter" && !shift ==> s == HandleSend(box, settle)
  {
    if SendsOnKey(key, shift) then HandleSend(box, settle) else SendStep(None, box, box)
  }

  /** One send as the screen sees it: the text handed to `onSendMessage`
      (none when the guard refuses), the box while the promise is pending,
      and the box after it settles. */
  datatype SendStep = SendStep(call: Option<string>, pending: ChatBox, after: ChatBox)

  /** `handleSend`. A refused send changes nothing. Otherwise the trimmed
      text is handed over, the box is cleared and marked as sending; when the
      promise rejects the trimmed text is put back; either way sending ends. */
  function HandleSend(box: ChatBox, settle: Settle): (s: SendStep)
    ensures !CanSend(box) ==> s == SendStep(None, box, box)
    ensures CanSend(box) ==>
              s.call == Some(Trim(box.input)) && !IsBlank(s.call.value)
              && s.pending == ChatBox("", true) && !s.after.sending
              && (settle == Resolved ==> s.after.input == "")
              && (settle == Rejected ==> s.after.input == Trim(box.input))
  {
    if !CanSend(box) then SendStep(None, box, box)
    else
      var content := Trim(box.input);
      TrimIdempotent(box.input);
      var restored := if settle == Rejected then content else "";
      SendStep(Some(content), ChatBox("", true), ChatBox(restored, false))
  }

  /** A second send while the first is pending is refused: the pending box
      is blank and marked as sending. */
  lemma PendingRefusesSend(box: ChatBox, settle: Settle, again: Settle)
    requires CanSend(box)
    ensures var p := HandleSend(box, settle).pending;
            HandleSend(p, again) == SendStep(None, p, p)
  {
  }

  /** After a rejected send, sending again hands over the same text. */
  lemma RetryAfterRejectSendsSameText(box: ChatBox, settle: Settle)
    requires CanSend(box)
    ensures HandleSend(HandleSend(box, Rejected).after, settle).call == HandleSend(box, settle).call
  {
    TrimIdempotent(box.input);
  }

  /** `getConversationStyleGradient`: the header background of each style.
      The map has an entry for every style, so its fallback is never used. */
  function StyleGradient(s: Style): (g: string)
    ensures g in {"gradient-romantic", "gradient-tech", "gradient-primary", "bg-muted", "bg-accent/20"}
    ensures g == "gradient-tech" <==> s == Friendly || s == Playful
  {
    match s
    case Romantic => "gradient-romantic"
    case Friendly => "gradient-tech"
    case Flirty => "gradient-primary"
    case Mysterious => "bg-muted"
    case Caring => "bg-accent/20"
    case Playful => "gradient-tech"
  }

  // ---------------------------------------------------------------------------
  // The owner's promise
  // ---------------------------------------------------------------------------

  /** How the main page's `handleSendMessage` settles, as written: it catches
      every failure itself, so its promise always resolves. */
  function OwnerSettlesAsWritten(out: IndexPage.SendOutcome): (s: Settle)
    ensures s == Resolved
  {
    Resolved
  }

  /** How it evidently should settle for the screen's restore to work: it
      rejects when the send failed. */
  function OwnerSettles(out: IndexPage.SendOutcome): (s: Settle)
    ensures s == Rejected <==> out.failure.Some?
  {
    if out.failure.Some? then Rejected else Resolved
  }

  /** As written, a reply that fails loses the typed text: nothing is
      persisted, and the box is left empty because the screen's restore path
      is never reached. */
  lemma FailedSendLosesTextAsWritten(config: AIConfig, st: IndexPage.AppState, sel: Character,
                                     current: seq<Message>, box: ChatBox,
                                     userId: string, replyId: string, sentAt: int, repliedAt: int,
                                     send: AIService.Request -> AIService.Reply)
    requires CanSend(box)
    requires IndexPage.Failed(AIService.GenerateResponse(config, sel, current, Trim(box.input), send))
    ensures var out := IndexPage.SendMessage(config, st, Some(sel), current, Trim(box.input),
                                             userId, replyId, sentAt, repliedAt, send);
            out.failure.Some? && out.state == st
            && HandleSend(box, OwnerSettlesAsWritten(out)).after.input == ""
  {
  }

  /** With the owner rejecting on failure, a failed reply puts the trimmed
      text back into the box, and a successful one clears it. */
  lemma FailedSendRestoresText(config: AIConfig, st: IndexPage.AppState, sel: Character,
                               current: seq<Message>, box: ChatBox,
                               userId: string, replyId: string, sentAt: int, repliedAt: int,
                               send: AIService.Request -> AIService.Reply)
    requires CanSend(box)
    ensures var out := IndexPage.SendMessage(config, st, Some(sel), current, Trim(box.input),
                                             userId, replyId, sentAt, repliedAt, send);
            var after := HandleSend(box, OwnerSettles(out)).after;
            var failed := IndexPage.Failed(AIService.GenerateResponse(config, sel, current, Trim(box.input), send));
            (failed ==> out.state == st && after.input == Trim(box.input)) && (!failed ==> after.input == "")
  {
  }
}
