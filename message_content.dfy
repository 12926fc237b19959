/**
 * The content of a LangChain message: a plain string, or the list of parts
 * the chat modes hand to `humanMessageFormatter` (a text part, and an
 * `image_url` part when an image is attached). TypeScript casts such content
 * `as string` in places, but the cast changes nothing at run time: the list
 * travels on unchanged, and only a template literal turns it into text.
 */
module LangChainContent {
  import opened Text

  /** A content part: `{type: "text", text}` or `{type: "image_url", image_url}`. */
  datatype Part = TextPart(text: string) | ImagePart(url: string)

  datatype MessageContent = Plain(text: string) | PartList(parts: seq<Part>)

  /** Every part is a plain object, whose `String(...)` is this. */
  const ObjectString := "[object Object]"

  /** `n` copies of `ObjectString`. */
  function ObjectStrings(n: nat): (r: seq<string>)
    ensures |r| == n && forall k :: 0 <= k < n ==> r[k] == ObjectString
  {
    if n == 0 then [] else ObjectStrings(n - 1) + [ObjectString]
  }

  /**
   * `${content}`: a string is kept as it is; an array becomes its elements'
   * strings joined by ",", and each part is a plain object, so none of the
   * part's text survives.
   */
  function TemplateString(c: MessageContent): string {
    match c
    case Plain(s) => s
    case PartList(parts) => Join(ObjectStrings(|parts|), ",")
  }

  /**
   * The string of a non-empty part list is one `[object Object]` per part,
   * separated by commas; the string of an empty list is "".
   */
  lemma PartListString(parts: seq<Part>)
    ensures |parts| == 0 ==> TemplateString(PartList(parts)) == ""
    ensures |parts| > 0 ==> SplitOn(TemplateString(PartList(parts)), ',') == ObjectStrings(|parts|)
  {
    if |parts| > 0 {
      var pieces := ObjectStrings(|parts|);
      forall k | 0 <= k < |pieces| ensures ',' !in pieces[k] {
        assert pieces[k] == ObjectString;
      }
      JoinSplit(pieces, ',');
    }
  }
}
