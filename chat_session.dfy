/**
 * The state of the chat hook `useMessage` (`src/hooks/useMessage.tsx`) and
 * the operations on it: `onSubmit` choosing one chat mode, a turn of a chat
 * mode once its prompt is built (the placeholders, the streaming loop, the
 * final update and the history entries, or the error path), the
 * page-context mode of `src/hooks/chat-modes/normalChatModeWithPageContext.ts`,
 * `stopStreamingRequest`, `clearChat`, `editMessage` and
 * `regenerateLastMessage`.
 *
 * React's state setters are modelled as direct updates of the session's
 * fields. A turn's inputs stand for what the model does not compute: the
 * fresh message id (`generateID`), the model's nickname, the streamed chunks,
 * whether the stream (or anything before it) fails, `mergeReasoningContent`,
 * and whether `saveMessageOnError` saved the failed turn. A new
 * `AbortController` is a fresh number, and `abort()` adds it to `aborted`.
 * Where `editMessage` and `regenerateLastMessage` call `onSubmit`, they
 * return the submission they make.
 */
module ChatSession {
  import opened Wrappers
  import opened Transcript
  import opened StreamFold
  import opened Prompts

  datatype ChatMode = NormalChat | RagChat | VisionChat

  /** The five chat modes `onSubmit` can call. */
  datatype Strategy = WebsiteStrategy | PresetStrategy | SearchStrategy | NormalStrategy | VisionStrategy

  /** The argument of `onSubmit`; an absent field is `None`, an absent `isRegenerate` is false. */
  datatype Submission = Submission(
    message: string, image: string, isRegenerate: bool,
    messages: Option<seq<Message>>, memory: Option<seq<HistoryEntry>>, controller: Option<nat>,
    messageType: Option<string>, chatType: Option<string>)

  /** A string field is truthy: present and not empty. */
  predicate Truthy(s: Option<string>) {
    s.Some? && s.value != ""
  }

  /** The chat mode `onSubmit` runs: exactly one, chosen by these conditions in this order. */
  function Dispatch(chatType: Option<string>, messageType: Option<string>, mode: ChatMode, webSearch: bool): (s: Strategy)
    ensures s == WebsiteStrategy <==> chatType == Some("youtube") || (!Truthy(messageType) && mode == RagChat)
    ensures s == PresetStrategy <==> chatType != Some("youtube") && Truthy(messageType)
    ensures s == SearchStrategy <==> chatType != Some("youtube") && !Truthy(messageType) && mode == NormalChat && webSearch
    ensures s == NormalStrategy <==> chatType != Some("youtube") && !Truthy(messageType) && mode == NormalChat && !webSearch
    ensures s == VisionStrategy <==> chatType != Some("youtube") && !Truthy(messageType) && mode == VisionChat
  {
    if chatType == Some("youtube") then WebsiteStrategy
    else if Truthy(messageType) then PresetStrategy
    else match mode
      case NormalChat => if webSearch then SearchStrategy else NormalStrategy
      case VisionChat => VisionStrategy
      case RagChat => WebsiteStrategy
  }

  /** What the chosen mode is called with. */
  datatype Turn = Turn(strategy: Strategy, message: string, image: string, isRegenerate: bool,
                       messages: seq<Message>, history: seq<HistoryEntry>, messageType: Option<string>)

  /**
   * The call `onSubmit` makes: the given messages and history win over the
   * session's (`chatHistory || messages`, and an empty list is truthy),
   * except that the search mode always gets the session's messages.
   */
  function TurnFor(sub: Submission, messages: seq<Message>, history: seq<HistoryEntry>,
                   mode: ChatMode, webSearch: bool): Turn
  {
    var s := Dispatch(sub.chatType, sub.messageType, mode, webSearch);
    Turn(s, sub.message, sub.image, sub.isRegenerate,
         if s == SearchStrategy then messages else sub.messages.GetOr(messages),
         sub.memory.GetOr(history),
         if s == PresetStrategy then sub.messageType else None)
  }

  /** The search mode ignores the messages a submission carries; every other mode uses them. */
  lemma SearchUsesSessionMessages(sub: Submission, messages: seq<Message>, history: seq<HistoryEntry>,
                                  mode: ChatMode, webSearch: bool)
    requires sub.messages.Some?
    ensures var t := TurnFor(sub, messages, history, mode, webSearch);
      t.messages == (if t.strategy == SearchStrategy then messages else sub.messages.value)
  {
  }

  // ---------------------------------------------------------------------
  // What each mode adds to the transcript

  /** The normal, search and preset modes turn a non-empty image into a JPEG data URL; the others keep it. */
  function ModeImage(s: Strategy, image: string): string {
    if s == NormalStrategy || s == SearchStrategy || s == PresetStrategy then NormalizeImage(image) else image
  }

  /** The human message a mode shows: no image in the website and vision modes. */
  function HumanFor(t: Turn): Message {
    var images := if t.strategy == WebsiteStrategy || t.strategy == VisionStrategy then [] else [ModeImage(t.strategy, t.image)];
    Message(false, "You", t.message, None, images, [], t.messageType, None)
  }

  /** The user entry a mode records: no image in the vision mode, the message type in the preset mode. */
  function UserEntryFor(t: Turn): HistoryEntry {
    HistoryEntry(UserRole, t.message,
                 if t.strategy == VisionStrategy then None else Some(ModeImage(t.strategy, t.image)),
                 t.messageType)
  }

  /**
   * Which code runs a turn: a mode of `useMessage` (the website and vision
   * modes also own the embedding controller), or the page-context mode.
   */
  datatype Flow = HookFlow(ownsEmbedding: bool) | PageContextFlow

  function FlowOf(s: Strategy): Flow {
    HookFlow(s == WebsiteStrategy || s == VisionStrategy)
  }

  /** Each file has its own spelling of the cursor. */
  function CursorOf(flow: Flow): string {
    if flow.HookFlow? then Cursor else MisencodedCursor
  }

  /** The transcript and the history after a successful turn of a `useMessage` mode. */
  function TurnOutcome(t: Turn, model: string, id: string, nickname: Option<string>, chunks: seq<Chunk>, merge: Merge)
    : (seq<Message>, seq<HistoryEntry>)
  {
    var bot := BotPlaceholder(model, id, CursorOf(FlowOf(t.strategy)), nickname);
    var text := Fold(Start, chunks, merge).fullText;
    (SetTextById(WithPlaceholders(t.messages, t.isRegenerate, HumanFor(t), bot), id, text),
     AfterTurn(t.history, UserEntryFor(t), text))
  }

  /**
   * With a fresh id, a successful turn keeps every earlier message, adds the
   * human message unless it regenerates, and ends with the bot message
   * holding the final text without the cursor; the history gains the user
   * entry with the original message, then the assistant entry with that text.
   */
  lemma TurnOutcomeShape(t: Turn, model: string, id: string, nickname: Option<string>, chunks: seq<Chunk>, merge: Merge)
    requires forall i :: 0 <= i < |t.messages| ==> t.messages[i].id != Some(id)
    ensures var text := Fold(Start, chunks, merge).fullText;
      var bot := BotPlaceholder(model, id, CursorOf(FlowOf(t.strategy)), nickname);
      var (messages, history) := TurnOutcome(t, model, id, nickname, chunks, merge);
      && messages == WithPlaceholders(t.messages, t.isRegenerate, HumanFor(t), bot.(text := text))
      && history == t.history + [UserEntryFor(t), AssistantEntry(text)]
      && UserEntryFor(t).content == t.message && UserEntryFor(t).role == UserRole
  {
    FreshIdTouchesOnlyPlaceholder(t.messages, t.isRegenerate, HumanFor(t), model, id,
                                  CursorOf(FlowOf(t.strategy)), nickname, Fold(Start, chunks, merge).fullText);
  }

  /** A successful turn adds two messages (one when regenerating) and always two history entries. */
  lemma TurnOutcomeLengths(t: Turn, model: string, id: string, nickname: Option<string>, chunks: seq<Chunk>, merge: Merge)
    ensures var (messages, history) := TurnOutcome(t, model, id, nickname, chunks, merge);
      |messages| == |t.messages| + (if t.isRegenerate then 1 else 2) && |history| == |t.history| + 2
  {
    var bot := BotPlaceholder(model, id, CursorOf(FlowOf(t.strategy)), nickname);
    SetTextByIdSpec(WithPlaceholders(t.messages, t.isRegenerate, HumanFor(t), bot), id,
                    Fold(Start, chunks, merge).fullText);
  }

  // ---------------------------------------------------------------------
  // The page-context mode's human message

  datatype UploadedFile = UploadedFile(filename: string, size: int, processed: bool)

  function FileDocuments(files: seq<UploadedFile>): (docs: seq<ChatDocument>)
    ensures |docs| == |files|
    ensures forall i :: 0 <= i < |files| ==>
      docs[i] == FileDocument(files[i].filename, files[i].size, files[i].processed)
  {
    seq(|files|, i requires 0 <= i < |files| => FileDocument(files[i].filename, files[i].size, files[i].processed))
  }

  /**
   * The human message of the page-context mode: the image only when there
   * is one, and one file document per uploaded file, in order.
   */
  function PageContextHuman(message: string, image: string, model: string, nickname: Option<string>,
                            files: Option<seq<UploadedFile>>): (m: Message)
    ensures m.images == (if image == "" then [] else [image])
    ensures |m.documents| == |files.GetOr([])|
    ensures forall i :: 0 <= i < |m.documents| ==> m.documents[i].FileDocument? && m.documents[i].filename == files.value[i].filename
  {
    Message(false, "You", message, None, if image != "" then [image] else [],
            FileDocuments(files.GetOr([])), None, Some(DisplayName(nickname, model)))
  }

  // ---------------------------------------------------------------------
  // Transcript surgery

  /** The session after `editMessage` or `regenerateLastMessage`; `ok` is false when the call throws. */
  datatype Surgery = Surgery(ok: bool, messages: seq<Message>, history: seq<HistoryEntry>, resubmit: Option<Submission>)

  /** `currentHumanMessage.images[0] || ""`. */
  function FirstImage(m: Message): string {
    if |m.images| > 0 then m.images[0] else ""
  }

  /**
   * `editMessage`: an index outside the transcript throws before anything
   * changes; a human message is edited, everything after it is dropped, the
   * history is cut before it and the message is submitted again; a bot
   * message is edited in place, in the transcript and then in the history.
   */
  function EditSpec(messages: seq<Message>, history: seq<HistoryEntry>, index: int, text: string,
                    isHuman: bool, controller: nat): Surgery
  {
    if !(0 <= index < |messages|) then Surgery(false, messages, history, None)
    else
      var edited := messages[index := messages[index].(text := text)];
      if isHuman then
        var previous := edited[..index + 1];
        var previousHistory := history[..if index < |history| then index else |history|];
        Surgery(true, previous, previousHistory,
                Some(Submission(text, FirstImage(messages[index]), true, Some(previous), Some(previousHistory),
                                Some(controller), None, None)))
      else if index < |history| then
        Surgery(true, edited, history[index := history[index].(content := text)], None)
      else
        Surgery(false, edited, history, None)
  }

  /** Editing a human message: the transcript ends with it, edited; the history stops before it; it is resubmitted as a regeneration. */
  lemma EditHumanTruncates(messages: seq<Message>, history: seq<HistoryEntry>, index: int, text: string, controller: nat)
    requires 0 <= index < |messages| && index <= |history|
    ensures var e := EditSpec(messages, history, index, text, true, controller);
      && e.ok && |e.messages| == index + 1 && e.messages[..index] == messages[..index]
      && e.messages[index] == messages[index].(text := text)
      && e.history == history[..index]
      && e.resubmit == Some(Submission(text, FirstImage(messages[index]), true, Some(e.messages), Some(e.history),
                                       Some(controller), None, None))
  {
  }

  /** Editing a bot message: both lengths kept, only that position changed, nothing resubmitted. */
  lemma EditBotInPlace(messages: seq<Message>, history: seq<HistoryEntry>, index: int, text: string, controller: nat)
    requires 0 <= index < |messages| && index < |history|
    ensures var e := EditSpec(messages, history, index, text, false, controller);
      && e.ok && e.resubmit.None?
      && |e.messages| == |messages| && |e.history| == |history|
      && e.messages[index].text == text && e.history[index].content == text
      && (forall i :: 0 <= i < |messages| && i != index ==> e.messages[i] == messages[i])
      && (forall i :: 0 <= i < |history| && i != index ==> e.history[i] == history[i])
  {
  }

  /**
   * `regenerateLastMessage`: nothing happens without history; otherwise the
   * last two history entries and the last message go, and the entry before
   * the last is submitted again when it is the user's. With a single history
   * entry that entry is undefined and reading its role throws, after the
   * removals.
   */
  function RegenerateSpec(messages: seq<Message>, history: seq<HistoryEntry>, controller: nat): Surgery {
    if |history| == 0 then Surgery(true, messages, history, None)
    else
      var newHistory := history[..if |history| >= 2 then |history| - 2 else 0];
      var popped := if |messages| > 0 then messages[..|messages| - 1] else [];
      if |history| < 2 then Surgery(false, popped, newHistory, None)
      else
        var last := history[|history| - 2];
        Surgery(true, popped, newHistory,
                if last.role == UserRole then
                  Some(Submission(last.content, last.image.GetOr(""), true, None, Some(newHistory),
                                  Some(controller), last.messageType, None))
                else None)
  }

  /** History loses two entries and the transcript one message; the resubmission is the user's last turn. */
  lemma RegenerateShape(messages: seq<Message>, history: seq<HistoryEntry>, controller: nat)
    requires |history| >= 2 && |messages| > 0
    ensures var r := RegenerateSpec(messages, history, controller);
      && r.ok && r.history == history[..|history| - 2] && r.messages == messages[..|messages| - 1]
      && (r.resubmit.Some? <==> history[|history| - 2].role == UserRole)
      && (r.resubmit.Some? ==> r.resubmit.value.message == history[|history| - 2].content
                               && r.resubmit.value.isRegenerate && r.resubmit.value.messages.None?
                               && r.resubmit.value.memory == Some(r.history))
  {
  }

  /** Without history, regenerating changes nothing. */
  lemma RegenerateWithoutHistory(messages: seq<Message>, controller: nat)
    ensures RegenerateSpec(messages, [], controller) == Surgery(true, messages, [], None)
  {
  }

  /** Every message has its history entry. */
  predicate Aligned(messages: seq<Message>, history: seq<HistoryEntry>) {
    |messages| == |history|
  }

  /** A successful new turn keeps the transcript and the history aligned. */
  lemma NewTurnKeepsAligned(t: Turn, model: string, id: string, nickname: Option<string>, chunks: seq<Chunk>, merge: Merge)
    requires Aligned(t.messages, t.history) && !t.isRegenerate
    ensures var (messages, history) := TurnOutcome(t, model, id, nickname, chunks, merge);
      Aligned(messages, history)
  {
    TurnOutcomeLengths(t, model, id, nickname, chunks, merge);
  }

  /**
   * The transcript of the render that calls `editMessage`, as that call
   * leaves it: the element edit writes into the message object the render's
   * array shares, while the truncation only reaches React's next state. This
   * is the session transcript the resubmission's `onSubmit` still sees.
   */
  function EditSeen(messages: seq<Message>, index: int, text: string): (seen: seq<Message>)
    requires 0 <= index < |messages|
    ensures |seen| == |messages| && seen[index].text == text
  {
    messages[index := messages[index].(text := text)]
  }

  /**
   * Editing a human message and running the resubmitted turn to success
   * leaves the transcript and the history aligned again, except in the
   * search mode: that mode reads the transcript of the render that edited,
   * which still holds every later message, so alignment survives there only
   * when the edited message was the last one.
   */
  lemma EditThenTurnAligned(messages: seq<Message>, history: seq<HistoryEntry>, index: int, text: string,
                            controller: nat, mode: ChatMode, webSearch: bool,
                            model: string, id: string, nickname: Option<string>, chunks: seq<Chunk>, merge: Merge)
    requires Aligned(messages, history) && 0 <= index < |messages|
    ensures var e := EditSpec(messages, history, index, text, true, controller);
      e.resubmit.Some? &&
      var t := TurnFor(e.resubmit.value, EditSeen(messages, index, text), e.history, mode, webSearch);
      var (messages', history') := TurnOutcome(t, model, id, nickname, chunks, merge);
      (Aligned(messages', history') <==> t.strategy != SearchStrategy || index == |messages| - 1)
  {
    var e := EditSpec(messages, history, index, text, true, controller);
    var t := TurnFor(e.resubmit.value, EditSeen(messages, index, text), e.history, mode, webSearch);
    TurnOutcomeLengths(t, model, id, nickname, chunks, merge);
  }

  /**
   * Regenerating with aligned state and running the resubmitted turn to
   * success restores the alignment.
   */
  lemma RegenerateThenTurnAligned(messages: seq<Message>, history: seq<HistoryEntry>, controller: nat,
                                  mode: ChatMode, webSearch: bool,
                                  model: string, id: string, nickname: Option<string>, chunks: seq<Chunk>, merge: Merge)
    requires Aligned(messages, history) && |history| >= 2
    requires history[|history| - 2].role == UserRole
    ensures var r := RegenerateSpec(messages, history, controller);
      r.resubmit.Some? &&
      var t := TurnFor(r.resubmit.value, r.messages, r.history, mode, webSearch);
      var (messages', history') := TurnOutcome(t, model, id, nickname, chunks, merge);
      Aligned(messages', history')
  {
    var r := RegenerateSpec(messages, history, controller);
    var t := TurnFor(r.resubmit.value, r.messages, r.history, mode, webSearch);
    TurnOutcomeLengths(t, model, id, nickname, chunks, merge);
  }

  // ---------------------------------------------------------------------
  // The hook's state

  class Session {
    var messages: seq<Message>
    var history: seq<HistoryEntry>
    var historyId: Option<string>
    var streaming: bool
    var isProcessing: bool
    var isLoading: bool
    var isFirstMessage: bool
    var isEmbedding: bool
    var chatMode: ChatMode
    var webSearch: bool
    var temporaryChat: bool
    var abortController: Option<nat>
    var embeddingController: Option<nat>
    /** The controllers whose `abort()` has been called. */
    var aborted: set<nat>

    /**
     * `onSubmit`: installs the given controller or a new one, switches to
     * RAG for a YouTube chat, gives the website mode a new embedding
     * controller, and returns the call of the chosen mode.
     */
    method OnSubmit(sub: Submission, newController: nat, newEmbeddingController: nat) returns (turn: Turn)
      modifies this`abortController, this`chatMode, this`embeddingController
      ensures turn == TurnFor(sub, messages, history, old(chatMode), webSearch)
      ensures abortController == Some(sub.controller.GetOr(newController))
      ensures chatMode == (if sub.chatType == Some("youtube") then RagChat else old(chatMode))
      ensures embeddingController
        == (if turn.strategy == WebsiteStrategy then Some(newEmbeddingController) else old(embeddingController))
    {
      abortController := Some(sub.controller.GetOr(newController));
      var strategy := Dispatch(sub.chatType, sub.messageType, chatMode, webSearch);
      if sub.chatType == Some("youtube") {
        chatMode := RagChat;
      }
      if strategy == WebsiteStrategy {
        embeddingController := Some(newEmbeddingController);
      }
      var given := if strategy == SearchStrategy then messages else sub.messages.GetOr(messages);
      turn := Turn(strategy, sub.message, sub.image, sub.isRegenerate, given, sub.memory.GetOr(history),
                   if strategy == PresetStrategy then sub.messageType else None);
    }

    /**
     * The streaming loop: the transcript becomes `placed`, and each chunk
     * advances the fold and shows its text followed by the cursor in the
     * message carrying `id`. Processing is on once the first chunk arrives.
     */
    method StreamInto(placed: seq<Message>, id: string, cursor: string, chunks: seq<Chunk>, merge: Merge)
      returns (st: FoldState)
      modifies this`messages, this`isProcessing
      ensures st == Fold(Start, chunks, merge)
      ensures messages == if chunks == [] then placed else SetTextById(placed, id, st.fullText + cursor)
      ensures isProcessing == (chunks != [] || old(isProcessing))
    {
      messages := placed;
      st := Start;
      var i := 0;
      while i < |chunks|
        invariant 0 <= i <= |chunks|
        invariant st == Fold(Start, chunks[..i], merge)
        invariant messages == if i == 0 then placed else SetTextById(placed, id, st.fullText + cursor)
        invariant isProcessing == (i > 0 || old(isProcessing))
      {
        assert chunks[..i + 1][..i] == chunks[..i];
        var shown := st.fullText + cursor;
        st := Step(st, chunks[i], merge);
        if i == 0 {
          isProcessing := true;
        } else {
          SetTextByIdTwice(placed, id, shown, st.fullText + cursor);
        }
        messages := SetTextById(messages, id, st.fullText + cursor);
        i := i + 1;
      }
      assert chunks[..|chunks|] == chunks;
    }

    /**
     * A turn once its prompt is built. The transcript becomes `base` with the
     * placeholders; each chunk advances the fold and shows the text with the
     * cursor in the placeholder; on success the placeholder gets the text
     * without the cursor and the history gains the two entries. On failure
     * the page-context mode rethrows, leaving the flags set, when the error
     * could not be saved; otherwise the flags are reset. The abort controller
     * is cleared in every case.
     */
    method RunTurn(flow: Flow, base: seq<Message>, baseHistory: seq<HistoryEntry>, isRegenerate: bool,
                   human: Message, user: HistoryEntry, model: string, id: string, nickname: Option<string>,
                   chunks: seq<Chunk>, fails: bool, merge: Merge, errorSaved: bool)
      returns (rethrown: bool)
      modifies this`messages, this`history, this`isProcessing, this`streaming, this`isEmbedding
      modifies this`abortController, this`embeddingController
      ensures var placed := WithPlaceholders(base, isRegenerate, human, BotPlaceholder(model, id, CursorOf(flow), nickname));
        var text := Fold(Start, chunks, merge).fullText;
        && (!fails ==> messages == SetTextById(placed, id, text) && history == AfterTurn(baseHistory, user, text))
        && (fails ==> history == old(history)
                      && messages == (if chunks == [] then placed else SetTextById(placed, id, text + CursorOf(flow))))
      ensures rethrown <==> fails && flow == PageContextFlow && !errorSaved
      ensures isProcessing == (rethrown && (chunks != [] || old(isProcessing)))
      ensures streaming == (rethrown && old(streaming))
      ensures isEmbedding == (if fails && flow == HookFlow(true) then false else old(isEmbedding))
      ensures abortController.None?
      ensures embeddingController == (if flow == HookFlow(true) then None else old(embeddingController))
    {
      var cursor := CursorOf(flow);
      if flow.HookFlow? {
        streaming := true;
      }
      var placed := WithPlaceholders(base, isRegenerate, human, BotPlaceholder(model, id, cursor, nickname));
      var st := StreamInto(placed, id, cursor, chunks, merge);
      if |chunks| > 0 {
        SetTextByIdTwice(placed, id, st.fullText + cursor, st.fullText);
      }
      rethrown := SettleTurn(flow, baseHistory, user, id, st.fullText, fails, errorSaved);
    }

    /**
     * The end of a turn: on success the placeholder carrying `id` gets the
     * final text and the history gains the two entries; on failure the
     * transcript and history stay, and the flags are reset unless the error
     * is rethrown.
     */
    method SettleTurn(flow: Flow, baseHistory: seq<HistoryEntry>, user: HistoryEntry, id: string, text: string,
                      fails: bool, errorSaved: bool)
      returns (rethrown: bool)
      modifies this`messages, this`history, this`isProcessing, this`streaming, this`isEmbedding
      modifies this`abortController, this`embeddingController
      ensures !fails ==> messages == SetTextById(old(messages), id, text) && history == AfterTurn(baseHistory, user, text)
      ensures fails ==> messages == old(messages) && history == old(history)
      ensures rethrown <==> fails && flow == PageContextFlow && !errorSaved
      ensures isProcessing == (rethrown && old(isProcessing))
      ensures streaming == (rethrown && old(streaming))
      ensures isEmbedding == (if fails && flow == HookFlow(true) then false else old(isEmbedding))
      ensures abortController.None?
      ensures embeddingController == (if flow == HookFlow(true) then None else old(embeddingController))
    {
      rethrown := false;
      if !fails {
        messages := SetTextById(messages, id, text);
        history := AfterTurn(baseHistory, user, text);
        isProcessing := false;
        streaming := false;
      } else if flow == PageContextFlow && !errorSaved {
        rethrown := true;
      } else {
        isProcessing := false;
        streaming := false;
        if flow == HookFlow(true) {
          isEmbedding := false;
        }
      }
      abortController := None;
      if flow == HookFlow(true) {
        embeddingController := None;
      }
    }

    /** A turn of the mode `onSubmit` chose, with that mode's human message, user entry and cursor. */
    method RunModeTurn(t: Turn, model: string, id: string, nickname: Option<string>,
                       chunks: seq<Chunk>, fails: bool, merge: Merge, errorSaved: bool)
      modifies this`messages, this`history, this`isProcessing, this`streaming, this`isEmbedding
      modifies this`abortController, this`embeddingController
      ensures !fails ==> (messages, history) == TurnOutcome(t, model, id, nickname, chunks, merge)
      ensures var cursor := CursorOf(FlowOf(t.strategy));
        var placed := WithPlaceholders(t.messages, t.isRegenerate, HumanFor(t), BotPlaceholder(model, id, cursor, nickname));
        fails ==> history == old(history)
                  && messages == (if chunks == [] then placed
                                  else SetTextById(placed, id, Fold(Start, chunks, merge).fullText + cursor))
      ensures !isProcessing && !streaming && abortController.None?
      ensures isEmbedding == (if fails && FlowOf(t.strategy).ownsEmbedding then false else old(isEmbedding))
      ensures embeddingController == (if FlowOf(t.strategy).ownsEmbedding then None else old(embeddingController))
    {
      var rethrown := RunTurn(FlowOf(t.strategy), t.messages, t.history, t.isRegenerate, HumanFor(t), UserEntryFor(t),
                              model, id, nickname, chunks, fails, merge, errorSaved);
    }

    /**
     * A turn of `normalChatModeWithPageContext` after its prompt is built:
     * the image (already normalised) and the uploaded files go into the human
     * message, and an error that could not be saved is rethrown.
     */
    method RunPageContextTurn(message: string, image: string, isRegenerate: bool, base: seq<Message>,
                              baseHistory: seq<HistoryEntry>, files: Option<seq<UploadedFile>>,
                              model: string, id: string, nickname: Option<string>,
                              chunks: seq<Chunk>, fails: bool, merge: Merge, errorSaved: bool)
      returns (rethrown: bool)
      modifies this`messages, this`history, this`isProcessing, this`streaming, this`isEmbedding
      modifies this`abortController, this`embeddingController
      ensures var text := Fold(Start, chunks, merge).fullText;
        var placed := WithPlaceholders(base, isRegenerate, PageContextHuman(message, image, model, nickname, files),
                                       BotPlaceholder(model, id, MisencodedCursor, nickname));
        && (!fails ==> messages == SetTextById(placed, id, text)
                       && history == AfterTurn(baseHistory, HistoryEntry(UserRole, message, Some(image), None), text))
        && (fails ==> history == old(history)
                      && messages == (if chunks == [] then placed else SetTextById(placed, id, text + MisencodedCursor)))
      ensures rethrown <==> fails && !errorSaved
      ensures rethrown ==> isProcessing == (chunks != [] || old(isProcessing)) && streaming == old(streaming)
      ensures !rethrown ==> !isProcessing && !streaming
      ensures abortController.None? && embeddingController == old(embeddingController) && isEmbedding == old(isEmbedding)
    {
      rethrown := RunTurn(PageContextFlow, base, baseHistory, isRegenerate,
                          PageContextHuman(message, image, model, nickname, files),
                          HistoryEntry(UserRole, message, Some(image), None),
                          model, id, nickname, chunks, fails, merge, errorSaved);
    }

    /** `stopStreamingRequest`: aborts the embedding controller while embedding, then the chat controller. */
    method StopStreamingRequest()
      modifies this`embeddingController, this`abortController, this`aborted
      ensures var stopEmbedding := old(isEmbedding) && old(embeddingController).Some?;
        && embeddingController == (if stopEmbedding then None else old(embeddingController))
        && abortController.None?
        && aborted == old(aborted)
                      + (if stopEmbedding then {old(embeddingController).value} else {})
                      + (if old(abortController).Some? then {old(abortController).value} else {})
    {
      if isEmbedding && embeddingController.Some? {
        aborted := aborted + {embeddingController.value};
        embeddingController := None;
      }
      if abortController.Some? {
        aborted := aborted + {abortController.value};
        abortController := None;
      }
    }

    /**
     * `clearChat`: stops streaming, empties the transcript and the history,
     * forgets the history id, resets the flags, and turns web search, RAG
     * mode and temporary chat on when their defaults say so.
     */
    method ClearChat(defaultInternetSearchOn: bool, defaultChatWithWebsite: bool, sidepanelTemporaryChat: bool)
      modifies this
      ensures messages == [] && history == [] && historyId.None?
      ensures isFirstMessage && !isLoading && !isProcessing && !streaming
      ensures abortController.None?
      ensures webSearch == (defaultInternetSearchOn || old(webSearch))
      ensures chatMode == (if defaultChatWithWebsite then RagChat else old(chatMode))
      ensures temporaryChat == (sidepanelTemporaryChat || old(temporaryChat))
      ensures var stopEmbedding := old(isEmbedding) && old(embeddingController).Some?;
        && embeddingController == (if stopEmbedding then None else old(embeddingController))
        && aborted == old(aborted)
                      + (if stopEmbedding then {old(embeddingController).value} else {})
                      + (if old(abortController).Some? then {old(abortController).value} else {})
      ensures isEmbedding == old(isEmbedding)
    {
      StopStreamingRequest();
      messages := [];
      history := [];
      historyId := None;
      isFirstMessage := true;
      isLoading := false;
      isProcessing := false;
      streaming := false;
      if defaultInternetSearchOn {
        webSearch := true;
      }
      if defaultChatWithWebsite {
        chatMode := RagChat;
      }
      if sidepanelTemporaryChat {
        temporaryChat := true;
      }
    }

    /** `editMessage`; the persistence calls are not part of this model. */
    method EditMessage(index: int, text: string, isHuman: bool, newController: nat)
      returns (ok: bool, resubmit: Option<Submission>)
      modifies this`messages, this`history
      ensures Surgery(ok, messages, history, resubmit) == EditSpec(old(messages), old(history), index, text, isHuman, newController)
    {
      if !(0 <= index < |messages|) {
        return false, None;
      }
      var current := messages[index];
      messages := messages[index := current.(text := text)];
      if isHuman {
        var previous := messages[..index + 1];
        messages := previous;
        history := history[..if index < |history| then index else |history|];
        return true, Some(Submission(text, FirstImage(current), true, Some(previous), Some(history),
                                     Some(newController), None, None));
      }
      if index >= |history| {
        return false, None;
      }
      history := history[index := history[index].(content := text)];
      return true, None;
    }

    /** `regenerateLastMessage`; the removal of the stored chat is not part of this model. */
    method RegenerateLastMessage(newController: nat) returns (ok: bool, resubmit: Option<Submission>)
      modifies this`messages, this`history
      ensures Surgery(ok, messages, history, resubmit) == RegenerateSpec(old(messages), old(history), newController)
    {
      if |history| == 0 {
        return true, None;
      }
      var n := |history|;
      var before := history;
      history := history[..if n >= 2 then n - 2 else 0];
      if |messages| > 0 {
        messages := messages[..|messages| - 1];
      }
      if n < 2 {
        return false, None;
      }
      var last := before[n - 2];
      if last.role == UserRole {
        return true, Some(Submission(last.content, last.image.GetOr(""), true, None, Some(history),
                                     Some(newController), last.messageType, None));
      }
      return true, None;
    }
  }
}
