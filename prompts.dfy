/**
 * Prompt assembly in the chat hooks (`src/hooks/useMessage.tsx` and
 * `src/hooks/chat-modes/normalChatModeWithPageContext.ts`): the image
 * normalisation, the text and image parts of the human message, the
 * `{context}`/`{question}`/`{text}` substitutions (first occurrence only, as
 * `String.prototype.replace` with a string pattern does), the
 * "Human:/Assistant:" history that query rewriting is given, the truncation
 * of a website's text, and which system prompts are prepended.
 *
 * The prompt stores (`promptForRag`, `systemPromptForNonRag`, `getPromptById`,
 * `getPrompt`) are inputs; the formatters and `generateHistory` are not part
 * of this model, so the system prompts are the contents handed to
 * `systemPromptFormatter`, and the conversation is kept generic in the
 * message type.
 */
module Prompts {
  import opened Wrappers
  import opened Text
  import opened Transcript
  import opened LangChainContent

  // ---------------------------------------------------------------------
  // Images

  const JpegHeader := "data:image/jpeg;base64"

  /** `${image.split(",")[1]}`: the second comma-separated piece, or "undefined" when there is none. */
  function SecondPiece(image: string): (p: string)
    ensures ',' !in p
  {
    var parts := SplitOn(image, ',');
    if |parts| >= 2 then parts[1] else "undefined"
  }

  /** A non-empty image becomes a JPEG data URL around its second comma-separated piece. */
  function NormalizeImage(image: string): string {
    if |image| > 0 then JpegHeader + "," + SecondPiece(image) else image
  }

  /** A data URL keeps its payload under the JPEG header. */
  lemma NormalizeDataUrl(header: string, payload: string)
    requires ',' !in header && ',' !in payload
    ensures NormalizeImage(header + "," + payload) == JpegHeader + "," + payload
  {
    SplitAfterPrefix(header, ',', payload);
    assert header + "," + payload == header + [','] + payload;
  }

  /** A non-empty image without a comma becomes the JPEG header around the text "undefined". */
  lemma NormalizeWithoutComma(image: string)
    requires |image| > 0 && ',' !in image
    ensures NormalizeImage(image) == JpegHeader + ",undefined"
  {
  }

  /**
   * Normalising twice is normalising once, so an image taken back from a
   * stored human message (by `editMessage` or `regenerateLastMessage`) is
   * sent exactly as it was the first time.
   */
  lemma NormalizeIdempotent(image: string)
    ensures NormalizeImage(NormalizeImage(image)) == NormalizeImage(image)
  {
    if |image| > 0 {
      NormalizeDataUrl(JpegHeader, SecondPiece(image));
    }
  }

  // ---------------------------------------------------------------------
  // The human message

  /** The text part, then the image part when there is an image; the image never replaces the text. */
  function HumanParts(text: string, image: string): (parts: seq<Part>)
    ensures |parts| == (if |image| > 0 then 2 else 1)
    ensures parts[0] == TextPart(text)
    ensures |image| > 0 ==> parts[1] == ImagePart(image)
  {
    [TextPart(text)] + (if |image| > 0 then [ImagePart(image)] else [])
  }

  /** `ragPrompt.replace("{context}", context).replace("{question}", question)`. */
  function RagText(ragPrompt: string, context: string, question: string): string {
    ReplaceFirst(ReplaceFirst(ragPrompt, "{context}", context), "{question}", question)
  }

  /** The text of the human message: the filled RAG prompt when there is page context, else the message. */
  function HumanText(pageContext: string, ragPrompt: string, message: string): string {
    if !IsBlank(pageContext) then RagText(ragPrompt, pageContext, message) else message
  }

  /** `prompt.replace("{text}", message)` of the preset mode. */
  function PresetText(prompt: string, message: string): string {
    ReplaceFirst(prompt, "{text}", message)
  }

  /**
   * A preset prompt with no `{` before its `{text}` gets a `$`-free message
   * in that place; a prompt without `{text}` is sent as it is.
   */
  lemma PresetTextFills(a: string, rest: string, message: string)
    requires '{' !in a && '$' !in message
    ensures PresetText(a + "{text}" + rest, message) == a + message + rest
  {
    FillFirst(a, "{text}", rest, message);
  }

  lemma PresetTextWithoutPlaceholder(prompt: string, message: string)
    requires forall j :: 0 <= j <= |prompt| ==> !OccursAt(prompt, "{text}", j)
    ensures PresetText(prompt, message) == prompt
  {
    ReplaceFirstNone(prompt, "{text}", message);
  }

  /** A pattern found at `k` with no `{` before it (every pattern here starts with one) is the first occurrence. */
  lemma FirstOccurrence(s: string, p: string, k: nat)
    requires |p| > 0 && p[0] == '{' && OccursAt(s, p, k)
    requires '{' !in s[..k]
    ensures IndexOf(s, p) == Some(k)
  {
    assert forall i :: 0 <= i < k ==> s[i] != '{' by {
      forall i | 0 <= i < k
        ensures s[i] != '{'
      {
        assert s[..k][i] == s[i];
      }
    }
    var r := IndexOfFrom(s, p, 0);
    if r.Some? {
      assert s[r.value..r.value + |p|][0] == s[r.value];
    }
  }

  /**
   * Filling a placeholder that starts with `{`, when no `{` comes before it
   * and the inserted text has no `$`, puts the text exactly in its place.
   */
  lemma FillFirst(a: string, p: string, rest: string, repl: string)
    requires |p| > 0 && p[0] == '{' && '{' !in a && '$' !in repl
    ensures ReplaceFirst(a + p + rest, p, repl) == a + repl + rest
  {
    var s := a + p + rest;
    assert s[..|a|] == a;
    assert s[|a|..|a| + |p|] == p;
    FirstOccurrence(s, p, |a|);
    assert s[|a| + |p|..] == rest;
    SubstitutePlain(repl, p, a, rest);
  }

  /**
   * A prompt with one `{context}` and then one `{question}`, with no brace
   * before either and no `$` in the inserted texts, gets the context and the
   * question in those two places.
   */
  lemma RagTextFills(a: string, b: string, c: string, context: string, question: string)
    requires '{' !in a && '{' !in b && '{' !in context
    requires '$' !in context && '$' !in question
    ensures RagText(a + "{context}" + b + "{question}" + c, context, question) == a + context + b + question + c
  {
    var tail := b + "{question}" + c;
    assert a + "{context}" + b + "{question}" + c == a + "{context}" + tail;
    FillFirst(a, "{context}", tail, context);
    var head := a + context + b;
    assert '{' !in head;
    assert a + context + tail == head + "{question}" + c;
    FillFirst(head, "{question}", c, question);
  }

  /**
   * The question goes to the first `{question}` once the context is in: when
   * the page text itself contains `{question}`, the question lands inside the
   * page text and the prompt's own placeholder is left as it was.
   */
  lemma QuestionLandsInContext(a: string, b: string, c: string, x: string, y: string, question: string)
    requires '{' !in a && '{' !in x
    requires '$' !in x && '$' !in y && '$' !in question
    ensures RagText(a + "{context}" + b + "{question}" + c, x + "{question}" + y, question)
      == a + x + question + y + b + "{question}" + c
  {
    var C, Q := "{context}", "{question}";
    var context := x + Q + y;
    var tail := b + Q + c;
    AppendAssoc(a + C, b + Q, c);
    AppendAssoc(a + C, b, Q);
    FillFirst(a, C, tail, context);
    var filled := ReplaceFirst(a + C + b + Q + c, C, context);
    assert filled == a + context + tail;
    var head := a + x;
    var rest := y + tail;
    AppendAssoc(a, x + Q, y);
    AppendAssoc(a, x, Q);
    AppendAssoc(head + Q, y, tail);
    assert filled == head + Q + rest;
    FillFirst(head, Q, rest, question);
    var hqy := head + question + y;
    AppendAssoc(head + question, y, tail);
    AppendAssoc(hqy, b + Q, c);
    AppendAssoc(hqy, b, Q);
  }

  // ---------------------------------------------------------------------
  // The history string for query rewriting

  /** `${m.isBot ? "Assistant: " : "Human: "}${m.message}`. */
  function HistoryLine(m: Message): string {
    (if m.isBot then "Assistant: " else "Human: ") + m.text
  }

  /** `newMessage.slice(-10)` with its last element popped. */
  function RecentBeforeLast(messages: seq<Message>): seq<Message> {
    var tail := if |messages| > 10 then messages[|messages| - 10..] else messages;
    if tail == [] then [] else tail[..|tail| - 1]
  }

  /**
   * The messages described are the ones just before the last (the bot
   * placeholder), at most nine of them, in order, and never the placeholder.
   */
  lemma RecentBeforeLastSpec(messages: seq<Message>)
    requires |messages| > 0
    ensures var n := if |messages| > 10 then 9 else |messages| - 1;
      RecentBeforeLast(messages) == messages[|messages| - 1 - n..|messages| - 1]
  {
  }

  function HistoryLines(messages: seq<Message>): (lines: seq<string>)
    ensures |lines| == |RecentBeforeLast(messages)|
    ensures forall i :: 0 <= i < |lines| ==> lines[i] == HistoryLine(RecentBeforeLast(messages)[i])
  {
    var recent := RecentBeforeLast(messages);
    seq(|recent|, i requires 0 <= i < |recent| => HistoryLine(recent[i]))
  }

  /** The `chat_history` text: the lines joined with newlines. */
  function ChatHistoryText(messages: seq<Message>): string {
    Join(HistoryLines(messages), "\n")
  }

  /**
   * When no described message holds a newline, the `chat_history` text has
   * exactly one line per described message, in order: splitting it on
   * newlines gives back the "Human: "/"Assistant: " lines.
   */
  lemma ChatHistoryOneLineEach(messages: seq<Message>)
    requires |RecentBeforeLast(messages)| >= 1
    requires forall k :: 0 <= k < |RecentBeforeLast(messages)| ==> '\n' !in RecentBeforeLast(messages)[k].text
    ensures SplitOn(ChatHistoryText(messages), '\n') == HistoryLines(messages)
    ensures forall k :: 0 <= k < |HistoryLines(messages)| ==>
      var m := RecentBeforeLast(messages)[k];
      HistoryLines(messages)[k] == (if m.isBot then "Assistant: " else "Human: ") + m.text
  {
    var lines := HistoryLines(messages);
    forall k | 0 <= k < |lines|
      ensures '\n' !in lines[k]
    {
      var m := RecentBeforeLast(messages)[k];
      assert lines[k] == (if m.isBot then "Assistant: " else "Human: ") + m.text;
    }
    JoinSplit(lines, '\n');
  }

  /** `questionPrompt.replaceAll("{chat_history}", …).replaceAll("{question}", message)`. */
  function FollowUpPrompt(questionPrompt: string, messages: seq<Message>, message: string): string {
    ReplaceAll(ReplaceAll(questionPrompt, "{chat_history}", ChatHistoryText(messages)), "{question}", message)
  }

  /** `{chat_history}` does not occur in a text whose only `{` opens `{question}`. */
  lemma HistoryPatternAbsent(b: string, c: string)
    requires '{' !in b && '{' !in c
    ensures IndexOf(b + "{question}" + c, "{chat_history}").None?
  {
    var s := b + "{question}" + c;
    var p := "{chat_history}";
    assert s[|b|..|b| + 10] == "{question}";
    forall k | 0 <= k && k + |p| <= |s|
      ensures !OccursAt(s, p, k)
    {
      assert s[k..k + |p|][0] == s[k];
      if k < |b| {
        assert s[k] == b[k];
      } else if k >= |b| + 10 {
        assert s[k] == c[k - |b| - 10];
      } else {
        assert s[k] == "{question}"[k - |b|];
        if k == |b| {
          assert s[k..k + |p|][1] == s[k + 1] == 'q';
        }
      }
    }
  }

  /**
   * A question prompt holding `{chat_history}` and then `{question}`, each
   * once and with no other `{`, gets the history text and the message in
   * their places, when the history text has no `{` and neither it nor the
   * message has a `$`.
   */
  lemma FollowUpFills(a: string, b: string, c: string, messages: seq<Message>, message: string)
    requires '{' !in a && '{' !in b && '{' !in c
    requires '{' !in ChatHistoryText(messages) && '$' !in ChatHistoryText(messages)
    requires '$' !in message
    ensures FollowUpPrompt(a + "{chat_history}" + b + "{question}" + c, messages, message)
      == a + ChatHistoryText(messages) + b + message + c
  {
    var h := ChatHistoryText(messages);
    assert a + "{chat_history}" + b + "{question}" + c == a + "{chat_history}" + (b + "{question}" + c);
    HistoryPatternAbsent(b, c);
    ReplaceAllOnce(a, "{chat_history}", b + "{question}" + c, h);
    assert a + h + (b + "{question}" + c) == (a + h + b) + "{question}" + c;
    assert c[0..] == c;
    NoBraceNotFound(c, "{question}", 0);
    ReplaceAllOnce(a + h + b, "{question}", c, message);
  }

  /**
   * The website mode rewrites the question only when the list it shows holds
   * more than the two new messages: on a new turn exactly when there was an
   * earlier message, on a regeneration when there were two.
   */
  predicate WebsiteRewrites(shown: seq<Message>) {
    |shown| > 2
  }

  lemma RewritesWithEarlierMessages(previous: seq<Message>, isRegenerate: bool, human: Message, bot: Message)
    ensures WebsiteRewrites(WithPlaceholders(previous, isRegenerate, human, bot))
      <==> |previous| > (if isRegenerate then 1 else 0)
  {
  }

  // ---------------------------------------------------------------------
  // Context truncation

  /** `s.slice(0, end)` for an integer `end`: a negative end counts from the back. */
  function SliceTo(s: string, end: int): (r: string)
    ensures |r| <= |s| && r == s[..|r|]
    ensures end >= 0 ==> |r| == if end < |s| then end else |s|
  {
    if end >= |s| then s
    else if end >= 0 then s[..end]
    else if |s| + end > 0 then s[..|s| + end]
    else ""
  }

  /** The website text given as context: the HTML, or the PDF pages joined by spaces, cut to the limit. */
  function WebsiteContext(isHtml: bool, html: string, pdfPages: seq<string>, maxContext: int): string {
    SliceTo(if isHtml then html else Join(pdfPages, " "), maxContext)
  }

  /** Within a non-negative limit, the context is the start of the text, whole when it fits. */
  lemma WebsiteContextBounded(isHtml: bool, html: string, pdfPages: seq<string>, maxContext: int)
    requires maxContext >= 0
    ensures var full := if isHtml then html else Join(pdfPages, " ");
      var r := WebsiteContext(isHtml, html, pdfPages, maxContext);
      |r| <= maxContext && r == full[..|r|] && (|full| <= maxContext ==> r == full)
  {
  }

  // ---------------------------------------------------------------------
  // System prompts

  /**
   * `normalChatMode`: with blank page context, the default prompt is
   * unshifted when there is no selected prompt, then the selected prompt;
   * the result lists the prepended contents from the front.
   */
  function NormalSystemPrompts(pageContext: string, defaultPrompt: string, selected: Option<string>): seq<string> {
    if !IsBlank(pageContext) then []
    else
      var afterDefault := if defaultPrompt != "" && selected.None? then [defaultPrompt] else [];
      (if selected.Some? then [selected.value] else []) + afterDefault
  }

  /** At most one system prompt: the selected one if any, else a non-empty default, and none with page context. */
  lemma NormalAtMostOne(pageContext: string, defaultPrompt: string, selected: Option<string>)
    ensures var r := NormalSystemPrompts(pageContext, defaultPrompt, selected);
      && |r| <= 1
      && (!IsBlank(pageContext) ==> r == [])
      && (IsBlank(pageContext) && selected.Some? ==> r == [selected.value])
      && (IsBlank(pageContext) && selected.None? ==> r == (if defaultPrompt != "" then [defaultPrompt] else []))
  {
  }

  /** The temporary system prompt counts when it is present and not blank. */
  predicate HasTemporary(temporary: Option<string>) {
    temporary.Some? && !IsBlank(temporary.value)
  }

  /**
   * `normalChatModeWithPageContext`: the system prompt contents that end up
   * in front of the generated history, from the front.
   */
  function PageContextSystemPrompts(pageContext: string, nonRagPrompt: string, selected: Option<string>,
                                    temporary: Option<string>): seq<string>
  {
    if !IsBlank(pageContext) then []
    else
      (if HasTemporary(temporary) then [temporary.value] else [])
      + (if !HasTemporary(temporary) && selected.Some? then [selected.value] else [])
      + (if nonRagPrompt != "" && selected.None? then [nonRagPrompt] else [])
  }

  /** The `prompt_content` saved with the turn. */
  function PageContextPromptContent(pageContext: string, ragPrompt: string, selected: Option<string>,
                                    temporary: Option<string>): Option<string>
  {
    if !IsBlank(pageContext) then Some(ragPrompt)
    else if HasTemporary(temporary) then temporary
    else selected
  }

  function Formatted<M>(format: string -> M, prompts: seq<string>): (r: seq<M>)
    ensures |r| == |prompts| && forall i :: 0 <= i < |prompts| ==> r[i] == format(prompts[i])
  {
    seq(|prompts|, i requires 0 <= i < |prompts| => format(prompts[i]))
  }

  /**
   * Lines 334-373: the three conditional `unshift`s onto the generated
   * history and the assignments to `promptContent`.
   */
  method AssemblePageContextPrompts<M>(generated: seq<M>, format: string -> M, pageContext: string,
                                       ragPrompt: string, nonRagPrompt: string,
                                       selected: Option<string>, temporary: Option<string>)
    returns (conversation: seq<M>, promptContent: Option<string>)
    ensures conversation == Formatted(format, PageContextSystemPrompts(pageContext, nonRagPrompt, selected, temporary)) + generated
    ensures promptContent == PageContextPromptContent(pageContext, ragPrompt, selected, temporary)
  {
    var blank := IsBlank(pageContext);
    var prompt := if blank then nonRagPrompt else ragPrompt;
    conversation := generated;
    promptContent := None;
    var added: seq<string> := [];
    if prompt != "" && selected.None? && blank {
      conversation := [format(prompt)] + conversation;
      added := [prompt] + added;
    }
    var isTemporary := HasTemporary(temporary);
    if !isTemporary && selected.Some? && blank {
      conversation := [format(selected.value)] + conversation;
      added := [selected.value] + added;
      promptContent := selected;
    }
    if isTemporary && blank {
      conversation := [format(temporary.value)] + conversation;
      added := [temporary.value] + added;
      promptContent := temporary;
    }
    if !blank {
      promptContent := Some(ragPrompt);
    }
    assert added == PageContextSystemPrompts(pageContext, nonRagPrompt, selected, temporary);
    assert conversation == Formatted(format, added) + generated;
  }

  /**
   * With blank page context the temporary prompt comes first and excludes the
   * selected one; the default is added only without a selected prompt, so the
   * temporary prompt and the default can appear together; with page context
   * nothing is prepended and the RAG prompt is the saved prompt content.
   */
  lemma PageContextPrecedence(pageContext: string, ragPrompt: string, nonRagPrompt: string,
                              selected: Option<string>, temporary: Option<string>)
    ensures var r := PageContextSystemPrompts(pageContext, nonRagPrompt, selected, temporary);
      && |r| <= 2
      && (!IsBlank(pageContext) ==> r == [] && PageContextPromptContent(pageContext, ragPrompt, selected, temporary) == Some(ragPrompt))
      && (IsBlank(pageContext) && HasTemporary(temporary) ==> r[0] == temporary.value)
      && (IsBlank(pageContext) && HasTemporary(temporary) && selected.Some? ==> r == [temporary.value])
      && (IsBlank(pageContext) && HasTemporary(temporary) && selected.None? && nonRagPrompt != "" ==>
            r == [temporary.value, nonRagPrompt])
      && (IsBlank(pageContext) && !HasTemporary(temporary) && selected.Some? ==> r == [selected.value])
  {
  }
}
