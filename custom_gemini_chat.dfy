/**
 * The LangChain chat model of `src/models/CustomGeminiChat.ts`: its
 * constructor defaults, the conversion of LangChain messages into the
 * gateway's `{role, content}` history, the non-streaming call with the whole
 * history, the streaming call with the last message only, and the chunk
 * stream of `_streamResponseChunks`.
 *
 * The gateway client it calls is the one of `GeminiApi`, acting on the token
 * store `st`; whether a LangChain callback manager is attached is `withManager`,
 * and the tokens it is told about are returned as a sequence.
 */
module GeminiChatModel {
  import opened Wrappers
  import opened Text
  import opened PlasmoStorage
  import opened SsoAuth
  import opened GeminiApi
  import opened LangChainContent

  /** The LangChain message kinds, told apart by `instanceof`. */
  datatype LcMessage =
    | HumanMessage(content: MessageContent)
    | AiMessage(content: MessageContent)
    | SystemMessage(content: MessageContent)
    | ChatMessage(role: string, content: MessageContent)
    | OtherMessage(content: MessageContent)

  /**
   * One message of the gateway history. `as string` is only a cast: every
   * content but a system message's is passed on as it is, part lists
   * included; a system message's content goes through a template literal.
   */
  function ConvertOne(m: LcMessage): (h: HistoryMessage)
    ensures h.role == Model <==> m.AiMessage? || (m.ChatMessage? && m.role == "assistant")
    ensures !m.SystemMessage? ==> h.content == m.content
    ensures m.SystemMessage? ==> h.content == Plain("System: " + TemplateString(m.content))
  {
    match m
    case HumanMessage(c) => HistoryMessage(User, c)
    case AiMessage(c) => HistoryMessage(Model, c)
    case SystemMessage(c) => HistoryMessage(User, Plain("System: " + TemplateString(c)))
    case ChatMessage(role, c) => HistoryMessage(if role == "assistant" then Model else User, c)
    case OtherMessage(c) => HistoryMessage(User, c)
  }

  /**
   * A system message whose content is a part list reaches the gateway as
   * "System: " followed by one `[object Object]` per part: its text is lost.
   * A human message's part list reaches it unchanged.
   */
  lemma SystemPartsStringified(parts: seq<Part>)
    requires |parts| > 0
    ensures var h := ConvertOne(SystemMessage(PartList(parts)));
      && h.content.Plain? && |h.content.text| >= 8 && h.content.text[..8] == "System: "
      && SplitOn(h.content.text[8..], ',') == ObjectStrings(|parts|)
    ensures ConvertOne(HumanMessage(PartList(parts))).content == PartList(parts)
  {
    var h := ConvertOne(SystemMessage(PartList(parts)));
    assert h.content.text[8..] == TemplateString(PartList(parts));
    PartListString(parts);
  }

  /** `convertLangChainMessagesToGeminiFormat`: one history entry per message, in order. */
  function Convert(messages: seq<LcMessage>): (history: seq<HistoryMessage>)
    ensures |history| == |messages|
    ensures forall i :: 0 <= i < |messages| ==> history[i] == ConvertOne(messages[i])
  {
    if messages == [] then [] else [ConvertOne(messages[0])] + Convert(messages[1..])
  }

  /** Converting a conversation extended by one message extends its history by that message's entry. */
  lemma {:induction false} ConvertAppend(messages: seq<LcMessage>, m: LcMessage)
    ensures Convert(messages + [m]) == Convert(messages) + [ConvertOne(m)]
  {
    if messages != [] {
      assert (messages + [m])[1..] == messages[1..] + [m];
      ConvertAppend(messages[1..], m);
    }
  }

  /** The constructor argument; an absent argument is the one with every field `None`. */
  datatype ChatInput = ChatInput(
    modelName: Option<string>, temperature: Option<real>, topP: Option<real>, topK: Option<real>,
    maxOutputTokens: Option<real>, safetySettings: Option<seq<SafetySetting>>, streaming: Option<bool>)

  /** The options every gateway call of the chat model passes: all three sampling values are present. */
  function CallOptions(temperature: real, topP: real, topK: real, maxOutputTokens: Option<real>,
                       safetySettings: Option<seq<SafetySetting>>): Options
  {
    Options(Some(temperature), Some(topP), Some(topK), maxOutputTokens, safetySettings)
  }

  /** A result of `_generate`: one generation, its text and the AI message holding the same text. */
  datatype Generation = Generation(text: string, message: LcMessage)

  /** A chunk of `_streamResponseChunks`: its text and an assistant chat-message chunk with the same content. */
  datatype GenerationChunk = GenerationChunk(text: string, message: LcMessage)

  /** What the stream of `_streamResponseChunks` shows its consumer, in order. */
  datatype StreamEvent = NewToken(token: string) | Yield(chunk: GenerationChunk)

  /** The failures `_generate` and `_streamResponseChunks` rethrow. */
  datatype ChatError =
    | Upstream(error: ApiError)   // an error of the gateway client, unchanged
    | NoLastMessage               // `conversationHistory[length - 1].content` of an empty history

  function ChunkOf(text: string): GenerationChunk {
    GenerationChunk(text, ChatMessage("assistant", Plain(text)))
  }

  /** The events for one upstream string: the token callback (with a manager), then the chunk. */
  function EventsFor(text: string, withManager: bool): seq<StreamEvent> {
    (if withManager then [NewToken(text)] else []) + [Yield(ChunkOf(text))]
  }

  function StreamEvents(texts: seq<string>, withManager: bool): seq<StreamEvent> {
    FlatMap(texts, |texts|, t => EventsFor(t, withManager))
  }

  function YieldText(e: StreamEvent): seq<string> {
    if e.Yield? then [e.chunk.text] else []
  }

  /** The texts of the chunks among `events`, in order. */
  function Yielded(events: seq<StreamEvent>): seq<string> {
    FlatMap(events, |events|, YieldText)
  }

  /** The events for one string hold exactly one chunk, carrying that string. */
  lemma YieldedOne(text: string, withManager: bool)
    ensures Yielded(EventsFor(text, withManager)) == [text]
  {
    var events := EventsFor(text, withManager);
    var k := |events| - 1;
    assert events[k] == Yield(ChunkOf(text));
    if withManager {
      assert events == [NewToken(text), Yield(ChunkOf(text))];
      assert FlatMap(events, 1, YieldText) == [];
    }
    assert FlatMap(events, k, YieldText) == [];
    assert Yielded(events) == FlatMap(events, k, YieldText) + [text];
  }

  /** One chunk per upstream string, with the same text and in the same order. */
  lemma StreamYieldsTexts(texts: seq<string>, n: nat, withManager: bool)
    requires n <= |texts|
    ensures Yielded(FlatMap(texts, n, t => EventsFor(t, withManager))) == texts[..n]
  {
    forall t {
      YieldedOne(t, withManager);
    }
    FlatMapOfRuns(texts, n, t => EventsFor(t, withManager), YieldText);
  }

  /**
   * With a callback manager each chunk is announced by a token callback with
   * the same text just before it; without one the stream holds the chunks alone.
   */
  lemma {:induction false} StreamEventsInterleaved(texts: seq<string>, n: nat, withManager: bool)
    requires n <= |texts|
    ensures var events := FlatMap(texts, n, t => EventsFor(t, withManager));
      && |events| == (if withManager then 2 * n else n)
      && (withManager ==> forall k :: 0 <= k < n ==>
            events[2 * k] == NewToken(texts[k]) && events[2 * k + 1] == Yield(ChunkOf(texts[k])))
      && (!withManager ==> forall k :: 0 <= k < n ==> events[k] == Yield(ChunkOf(texts[k])))
  {
    if n > 0 {
      StreamEventsInterleaved(texts, n - 1, withManager);
    }
  }

  /** The `for await` loop of lines 87-94: the concatenated text and the tokens reported. */
  method Accumulate(texts: seq<string>, withManager: bool) returns (fullContent: string, tokens: seq<string>)
    ensures fullContent == Concat(texts)
    ensures tokens == if withManager then texts else []
  {
    fullContent, tokens := "", [];
    var i := 0;
    while i < |texts|
      invariant 0 <= i <= |texts|
      invariant fullContent == Concat(texts[..i])
      invariant tokens == if withManager then texts[..i] else []
    {
      ConcatAppend(texts[..i], texts[i]);
      assert texts[..i + 1] == texts[..i] + [texts[i]];
      fullContent := fullContent + texts[i];
      if withManager {
        tokens := tokens + [texts[i]];
      }
      i := i + 1;
    }
    assert texts[..|texts|] == texts;
  }

  /** The `for await` loop of lines 153-167: one token callback (with a manager) and one chunk per string. */
  method EmitChunks(texts: seq<string>, withManager: bool) returns (events: seq<StreamEvent>)
    ensures events == StreamEvents(texts, withManager)
  {
    events := [];
    var i := 0;
    while i < |texts|
      invariant 0 <= i <= |texts|
      invariant events == FlatMap(texts, i, t => EventsFor(t, withManager))
    {
      if withManager {
        events := events + [NewToken(texts[i])];
      }
      events := events + [Yield(ChunkOf(texts[i]))];
      i := i + 1;
    }
  }

  class CustomGeminiChat {
    var modelName: string
    var temperature: real
    var topP: real
    var topK: real
    var maxOutputTokens: Option<real>
    var safetySettings: Option<seq<SafetySetting>>
    var streaming: bool

    /** Lines 50-60: `??` keeps every supplied value, 0 and `false` included. */
    constructor (fields: ChatInput)
      ensures modelName == fields.modelName.GetOr("gemini-2.5-flash")
      ensures temperature == fields.temperature.GetOr(0.2)
      ensures topP == fields.topP.GetOr(0.8)
      ensures topK == fields.topK.GetOr(40.0)
      ensures maxOutputTokens == fields.maxOutputTokens && safetySettings == fields.safetySettings
      ensures streaming == fields.streaming.GetOr(false)
    {
      modelName := fields.modelName.GetOr("gemini-2.5-flash");
      temperature := fields.temperature.GetOr(0.2);
      topP := fields.topP.GetOr(0.8);
      topK := fields.topK.GetOr(40.0);
      maxOutputTokens := fields.maxOutputTokens;
      safetySettings := fields.safetySettings;
      streaming := fields.streaming.GetOr(false);
    }

    function Opts(): Options
      reads this
    {
      CallOptions(temperature, topP, topK, maxOutputTokens, safetySettings)
    }

    /**
     * `_generate`. Streaming: the last converted message alone goes to
     * `streamGenerateContent` and the strings it yields are concatenated.
     * Otherwise the whole converted history goes to `generateContentWithHistory`.
     * Gateway errors are rethrown unchanged.
     */
    method Generate(messages: seq<LcMessage>, withManager: bool, st: Storage<Stored>, now: int,
                    server: SsoServer, gw: Gateway, parse: string -> Option<GeminiResponse>)
      returns (r: Result<Generation, ChatError>, tokens: seq<string>, calls: seq<Call>)
      modifies st
      ensures var history := Convert(messages);
        if !streaming then
          var (res, cs, kv) := WithHistorySpec(old(st.kv), now, server, gw, history, Opts());
          && calls == cs && st.kv == kv && tokens == []
          && r == (if res.Err? then Err(Upstream(res.error)) else Ok(Generation(res.value, AiMessage(Plain(res.value)))))
        else if history == [] then
          r == Err(NoLastMessage) && tokens == [] && calls == [] && st.kv == old(st.kv)
        else
          var (res, cs, kv) := StreamSpec(old(st.kv), now, server, gw, parse, history[|history| - 1].content, Opts());
          && calls == cs && st.kv == kv
          && (res.Err? ==> r == Err(Upstream(res.error)) && tokens == [])
          && (res.Ok? ==> r == Ok(Generation(Concat(res.value), AiMessage(Plain(Concat(res.value)))))
                          && tokens == (if withManager then res.value else []))
    {
      var history := Convert(messages);
      tokens := [];
      if streaming {
        if history == [] {
          return Err(NoLastMessage), [], [];
        }
        var stream;
        stream, calls := StreamGenerateContent(st, now, server, gw, parse, history[|history| - 1].content, Opts());
        if stream.Err? {
          return Err(Upstream(stream.error)), [], calls;
        }
        var fullContent;
        fullContent, tokens := Accumulate(stream.value, withManager);
        r := Ok(Generation(fullContent, AiMessage(Plain(fullContent))));
      } else {
        var content;
        content, calls := GenerateContentWithHistory(st, now, server, gw, history, Opts());
        if content.Err? {
          return Err(Upstream(content.error)), [], calls;
        }
        r := Ok(Generation(content.value, AiMessage(Plain(content.value))));
      }
    }

    /** `_streamResponseChunks`: the last converted message alone is sent; errors are rethrown unchanged. */
    method StreamResponseChunks(messages: seq<LcMessage>, withManager: bool, st: Storage<Stored>, now: int,
                                server: SsoServer, gw: Gateway, parse: string -> Option<GeminiResponse>)
      returns (r: Result<seq<StreamEvent>, ChatError>, calls: seq<Call>)
      modifies st
      ensures var history := Convert(messages);
        if history == [] then r == Err(NoLastMessage) && calls == [] && st.kv == old(st.kv)
        else
          var (res, cs, kv) := StreamSpec(old(st.kv), now, server, gw, parse, history[|history| - 1].content, Opts());
          && calls == cs && st.kv == kv
          && r == (if res.Err? then Err(Upstream(res.error)) else Ok(StreamEvents(res.value, withManager)))
    {
      var history := Convert(messages);
      if history == [] {
        return Err(NoLastMessage), [];
      }
      var stream;
      stream, calls := StreamGenerateContent(st, now, server, gw, parse, history[|history| - 1].content, Opts());
      if stream.Err? {
        return Err(Upstream(stream.error)), calls;
      }
      var events := EmitChunks(stream.value, withManager);
      r := Ok(events);
    }
  }

  /**
   * `??` in the constructor keeps a temperature of 0, but the `||` of the
   * request body then turns it into 0.2: a chat model built with temperature
   * 0 samples at 0.2.
   */
  lemma ZeroTemperatureSentAsDefault(contents: seq<Content>, topP: real, topK: real, maxOutputTokens: Option<real>,
                                     safetySettings: Option<seq<SafetySetting>>)
    ensures BuildRequest(contents, CallOptions(0.0, topP, topK, maxOutputTokens, safetySettings))
              .generationConfig.temperature == 0.2
  {
  }

  /** Only the last message's content reaches the streaming endpoint: earlier messages do not matter. */
  lemma StreamingSendsLastOnly(earlier: seq<LcMessage>, other: seq<LcMessage>, last: LcMessage)
    ensures var h1 := Convert(earlier + [last]);
      var h2 := Convert(other + [last]);
      |h1| > 0 && |h2| > 0 && h1[|h1| - 1].content == h2[|h2| - 1].content
  {
    ConvertAppend(earlier, last);
    ConvertAppend(other, last);
  }
}
