/**
 * The per-chunk fold every chat mode runs over the model's stream
 * (`for await (const chunk of chunks)` in `src/hooks/useMessage.tsx` and
 * `src/hooks/chat-modes/normalChatModeWithPageContext.ts`): a chunk carrying
 * reasoning replaces the text with `mergeReasoningContent` of it, the first
 * plain chunk after reasoning closes it with one `</think>`, and every
 * chunk's content is then appended.
 *
 * `contentToSave` receives exactly the same updates as `fullText`, so it is
 * not kept separately. The reasoning timers read the clock and are not part
 * of this model.
 */
module StreamFold {
  import opened Wrappers
  import opened Text

  /** One streamed chunk: its content and the `additional_kwargs.reasoning_content` it may carry. */
  datatype Chunk = Chunk(content: string, reasoning: Option<string>)

  /** `mergeReasoningContent(fullText, reasoning)`, whose body is not part of this model. */
  type Merge = (string, string) -> string

  const CloseThink := "</think>"

  /** The reasoning content is truthy: present and not empty. */
  predicate IsReasoning(c: Chunk) {
    c.reasoning.Some? && c.reasoning.value != ""
  }

  /** The loop's variables: the text so far and whether the last chunk was reasoning. */
  datatype FoldState = FoldState(fullText: string, apiReasoning: bool)

  const Start := FoldState("", false)

  /** One iteration of the loop. */
  function Step(st: FoldState, c: Chunk, merge: Merge): FoldState {
    if IsReasoning(c) then FoldState(merge(st.fullText, c.reasoning.value) + c.content, true)
    else FoldState(st.fullText + (if st.apiReasoning then CloseThink else "") + c.content, false)
  }

  /** The loop over a whole sequence of chunks. */
  function Fold(st: FoldState, chunks: seq<Chunk>, merge: Merge): FoldState {
    if chunks == [] then st
    else Step(Fold(st, chunks[..|chunks| - 1], merge), chunks[|chunks| - 1], merge)
  }

  function Contents(chunks: seq<Chunk>): (r: seq<string>)
    ensures |r| == |chunks| && forall i :: 0 <= i < |chunks| ==> r[i] == chunks[i].content
  {
    seq(|chunks|, i requires 0 <= i < |chunks| => chunks[i].content)
  }

  /**
   * The contents of two runs of chunks are the contents of each, one after
   * the other, so their concatenated text splits the same way.
   */
  lemma ContentsAppend(a: seq<Chunk>, b: seq<Chunk>)
    ensures Contents(a + b) == Contents(a) + Contents(b)
    ensures Concat(Contents(a + b)) == Concat(Contents(a)) + Concat(Contents(b))
  {
    assert Contents(a + b) == Contents(a) + Contents(b);
    ConcatSplit(Contents(a), Contents(b));
  }

  /** Folding a concatenation folds the first part, then the second from where the first left off. */
  lemma {:induction false} FoldAppend(st: FoldState, a: seq<Chunk>, b: seq<Chunk>, merge: Merge)
    ensures Fold(st, a + b, merge) == Fold(Fold(st, a, merge), b, merge)
  {
    if b == [] {
      assert a + b == a;
    } else {
      var b' := b[..|b| - 1];
      assert (a + b)[..|a + b| - 1] == a + b';
      FoldAppend(st, a, b', merge);
    }
  }

  /**
   * A run of plain chunks appends their contents, preceded by one `</think>`
   * when the run follows reasoning, and leaves reasoning off.
   */
  lemma {:induction false} PlainRun(st: FoldState, chunks: seq<Chunk>, merge: Merge)
    requires forall i :: 0 <= i < |chunks| ==> !IsReasoning(chunks[i])
    ensures Fold(st, chunks, merge).fullText
      == st.fullText + (if st.apiReasoning && chunks != [] then CloseThink else "") + Concat(Contents(chunks))
    ensures Fold(st, chunks, merge).apiReasoning == (st.apiReasoning && chunks == [])
  {
    if chunks != [] {
      var pre := chunks[..|chunks| - 1];
      var last := chunks[|chunks| - 1];
      PlainRun(st, pre, merge);
      assert Contents(chunks) == Contents(pre) + [last.content];
      assert Contents(chunks)[..|chunks| - 1] == Contents(pre);
      var close := if st.apiReasoning then CloseThink else "";
      if pre == [] {
        assert Concat(Contents(chunks)) == last.content;
        assert Fold(st, chunks, merge).fullText == st.fullText + close + last.content;
      } else {
        AppendAssoc(st.fullText + close, Concat(Contents(pre)), last.content);
      }
    }
  }

  /** Without reasoning chunks the final text is the concatenation of the chunk contents. */
  lemma NoReasoningConcat(chunks: seq<Chunk>, merge: Merge)
    requires forall i :: 0 <= i < |chunks| ==> !IsReasoning(chunks[i])
    ensures Fold(Start, chunks, merge).fullText == Concat(Contents(chunks))
  {
    PlainRun(Start, chunks, merge);
  }

  /** After a reasoning chunk the text is the merge of the earlier text with its reasoning, then its content. */
  lemma ReasoningMerged(st: FoldState, pre: seq<Chunk>, c: Chunk, merge: Merge)
    requires IsReasoning(c)
    ensures var before := Fold(st, pre, merge);
      Fold(st, pre + [c], merge) == FoldState(merge(before.fullText, c.reasoning.value) + c.content, true)
  {
    assert (pre + [c])[..|pre|] == pre;
  }

  /**
   * Reasoning followed by plain chunks: the plain contents come after exactly
   * one `</think>`, put right after the text the reasoning left.
   */
  lemma ReasoningThenPlain(st: FoldState, rs: seq<Chunk>, ps: seq<Chunk>, merge: Merge)
    requires |rs| > 0 && IsReasoning(rs[|rs| - 1])
    requires |ps| > 0 && forall i :: 0 <= i < |ps| ==> !IsReasoning(ps[i])
    ensures Fold(st, rs + ps, merge).fullText == Fold(st, rs, merge).fullText + CloseThink + Concat(Contents(ps))
    ensures !Fold(st, rs + ps, merge).apiReasoning
  {
    FoldAppend(st, rs, ps, merge);
    PlainRun(Fold(st, rs, merge), ps, merge);
  }
}
