/**
 * The transcript the chat hooks of `src/hooks/useMessage.tsx` and
 * `src/hooks/chat-modes/normalChatModeWithPageContext.ts` keep: the messages
 * shown to the user and the history handed to the model, with the pure list
 * updates every chat mode applies to them — the placeholder step that opens
 * a turn, the update of the streaming message by its id, and the two
 * history entries a successful turn adds.
 */
module Transcript {
  import opened Wrappers

  /** A document attached to a human message: the active tab, or an uploaded file. */
  datatype ChatDocument =
    | TabDocument(title: string, url: string, tabId: int, favIconUrl: Option<string>)
    | FileDocument(filename: string, fileSize: int, processed: bool)

  /**
   * One entry of the transcript; `text` is the `message` field. The avatar,
   * the generation info, the sources and the reasoning time are not modelled.
   */
  datatype Message = Message(
    isBot: bool, name: string, text: string, id: Option<string>, images: seq<string>,
    documents: seq<ChatDocument>, messageType: Option<string>, modelName: Option<string>)

  datatype Role = UserRole | AssistantRole

  /** One entry of the history (`ChatHistory`). */
  datatype HistoryEntry = HistoryEntry(role: Role, content: string, image: Option<string>, messageType: Option<string>)

  /** The cursor glyph "▋" (U+258B) that `useMessage.tsx` shows after the streamed text. */
  const Cursor: string := "\U{258B}"

  /**
   * The cursor as `normalChatModeWithPageContext.ts` spells it: the UTF-8
   * bytes of U+258B read as Windows-1252, that is "â", "–" and "‹".
   */
  const MisencodedCursor: string := "\U{00E2}\U{2013}\U{2039}"

  /** `modelInfo?.model_name || selectedModel`. */
  function DisplayName(nickname: Option<string>, model: string): string {
    if nickname.Some? && nickname.value != "" then nickname.value else model
  }

  /** The bot message a turn streams into: the cursor alone, under the fresh id. */
  function BotPlaceholder(model: string, id: string, cursor: string, nickname: Option<string>): Message {
    Message(true, model, cursor, Some(id), [], [], None, Some(DisplayName(nickname, model)))
  }

  /**
   * The list shown once a turn starts: the messages it was given, then the
   * human message unless the turn regenerates, then the bot placeholder.
   */
  function WithPlaceholders(messages: seq<Message>, isRegenerate: bool, human: Message, bot: Message): (r: seq<Message>)
    ensures |r| == |messages| + (if isRegenerate then 1 else 2)
    ensures r[..|messages|] == messages
    ensures !isRegenerate ==> r[|messages|] == human
    ensures r[|r| - 1] == bot
  {
    if isRegenerate then messages + [bot] else messages + [human, bot]
  }

  /** `prev.map(m => m.id === id ? {...m, message: text} : m)`. */
  function SetTextById(messages: seq<Message>, id: string, text: string): seq<Message> {
    if messages == [] then []
    else
      var m := messages[|messages| - 1];
      SetTextById(messages[..|messages| - 1], id, text) + [if m.id == Some(id) then m.(text := text) else m]
  }

  /**
   * The update keeps the length and the order, gives the new text to every
   * message carrying the id, and leaves every other message as it was.
   */
  lemma {:induction false} SetTextByIdSpec(messages: seq<Message>, id: string, text: string)
    ensures |SetTextById(messages, id, text)| == |messages|
    ensures forall i :: 0 <= i < |messages| ==>
      SetTextById(messages, id, text)[i] == (if messages[i].id == Some(id) then messages[i].(text := text) else messages[i])
  {
    if messages != [] {
      SetTextByIdSpec(messages[..|messages| - 1], id, text);
    }
  }

  /** A later update of the same id overrides an earlier one. */
  lemma SetTextByIdTwice(messages: seq<Message>, id: string, a: string, b: string)
    ensures SetTextById(SetTextById(messages, id, a), id, b) == SetTextById(messages, id, b)
  {
    var once := SetTextById(messages, id, a);
    SetTextByIdSpec(messages, id, a);
    SetTextByIdSpec(once, id, b);
    SetTextByIdSpec(messages, id, b);
  }

  /** An update by an id no message carries changes nothing. */
  lemma SetTextByIdAbsent(messages: seq<Message>, id: string, text: string)
    requires forall i :: 0 <= i < |messages| ==> messages[i].id != Some(id)
    ensures SetTextById(messages, id, text) == messages
  {
    SetTextByIdSpec(messages, id, text);
  }

  /**
   * With a fresh id, updating the opened list by that id touches only the
   * placeholder: the earlier messages and the human message stay as they were.
   */
  lemma FreshIdTouchesOnlyPlaceholder(messages: seq<Message>, isRegenerate: bool, human: Message,
                                      model: string, id: string, cursor: string, nickname: Option<string>, text: string)
    requires forall i :: 0 <= i < |messages| ==> messages[i].id != Some(id)
    requires human.id != Some(id)
    ensures var bot := BotPlaceholder(model, id, cursor, nickname);
      SetTextById(WithPlaceholders(messages, isRegenerate, human, bot), id, text)
        == WithPlaceholders(messages, isRegenerate, human, bot.(text := text))
  {
    var bot := BotPlaceholder(model, id, cursor, nickname);
    var placed := WithPlaceholders(messages, isRegenerate, human, bot);
    var expected := WithPlaceholders(messages, isRegenerate, human, bot.(text := text));
    SetTextByIdSpec(placed, id, text);
    assert forall i :: 0 <= i < |placed| ==> SetTextById(placed, id, text)[i] == expected[i];
  }

  /** The assistant entry a successful turn records. */
  function AssistantEntry(fullText: string): HistoryEntry {
    HistoryEntry(AssistantRole, fullText, None, None)
  }

  /** The history after a successful turn: the user entry, then the assistant's full text. */
  function AfterTurn(history: seq<HistoryEntry>, user: HistoryEntry, fullText: string): (r: seq<HistoryEntry>)
    ensures |r| == |history| + 2
    ensures r[..|history|] == history
    ensures r[|history|] == user && r[|history| + 1] == AssistantEntry(fullText)
  {
    history + [user, AssistantEntry(fullText)]
  }
}
