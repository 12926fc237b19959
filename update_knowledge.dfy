/**
 * Adding sources to a knowledge base (`onUploadHandler` and the upload
 * filter `beforeUpload` of `src/components/Option/Knowledge/UpdateKnowledge.tsx`):
 * uploaded files keep their MIME type only when it is one of five accepted
 * types, and pasted text is trimmed, bounded and stored as one plain-text or
 * Markdown file.
 *
 * The converters `convertToSource` / `convertTextToSource` are not part of
 * this model: a source is the conversion request handed to them. The
 * embedding-model lookup is the input `embeddingModel`, the current time in
 * milliseconds is `now`, and the list of unsupported types (kept in another
 * file) is the input `unsupported`.
 */
module UpdateKnowledge {
  import opened Wrappers
  import opened Text

  datatype UploadFile = UploadFile(name: string, mimeType: string)

  /** The form values; a field the form did not send is `None`. */
  datatype FormData = FormData(files: Option<seq<UploadFile>>, textContent: Option<string>, textType: Option<string>)

  datatype Mode = UploadMode | TextMode

  /** What is handed to the converters, and so what ends up in the knowledge base. */
  datatype SourceRequest =
    | FileSource(file: UploadFile, mime: string, sourceType: string)
    | TextSource(text: string, filename: string, mime: string, asMarkdown: bool, sourceType: string)

  datatype UploadError = NoEmbeddingModel | TextRequired | TextTooLarge

  const AllowedTypes := [
    "application/pdf",
    "text/csv",
    "text/plain",
    "text/markdown",
    "application/vnd.openxmlformats-officedocument.wordprocessingml.document"
  ]

  const MaxTextLength := 500000

  /** The MIME type an uploaded file is converted with. */
  function UploadMime(file: UploadFile): (mime: string)
    ensures mime in AllowedTypes
    ensures mime == file.mimeType <==> file.mimeType in AllowedTypes
  {
    if file.mimeType in AllowedTypes then file.mimeType else "text/plain"
  }

  function FileSources(files: seq<UploadFile>): seq<SourceRequest> {
    if files == [] then []
    else FileSources(files[..|files| - 1]) + [FileSource(files[|files| - 1], UploadMime(files[|files| - 1]), "file_upload")]
  }

  /** One source per file, in order, each with the file itself and its accepted MIME type. */
  lemma {:induction false} FileSourcesShape(files: seq<UploadFile>)
    ensures |FileSources(files)| == |files|
    ensures forall i :: 0 <= i < |files| ==>
      FileSources(files)[i] == FileSource(files[i], UploadMime(files[i]), "file_upload")
  {
    if files != [] {
      FileSourcesShape(files[..|files| - 1]);
    }
  }

  /** The upload loop of lines 54-65. */
  method CollectFiles(files: seq<UploadFile>) returns (sources: seq<SourceRequest>)
    ensures sources == FileSources(files)
  {
    sources := [];
    var i := 0;
    while i < |files|
      invariant 0 <= i <= |files|
      invariant sources == FileSources(files[..i])
    {
      var mime := files[i].mimeType;
      if mime !in AllowedTypes {
        mime := "text/plain";
      }
      assert files[..i + 1][..i] == files[..i];
      sources := sources + [FileSource(files[i], mime, "file_upload")];
      i := i + 1;
    }
    assert files[..|files|] == files;
  }

  /** Lines 67-85: the source made of pasted text, or why there is none. */
  function TextSourceFor(data: FormData, now: int): (r: Result<SourceRequest, UploadError>) {
    var raw := Trim(data.textContent.GetOr(""));
    var textType := if data.textType.Some? && data.textType.value != "" then data.textType.value else "plain";
    if raw == "" then Err(TextRequired)
    else if Utf16Length(raw) > MaxTextLength then Err(TextTooLarge)
    else
      var asMarkdown := textType == "markdown";
      Ok(TextSource(raw, "pasted_" + IntToString(now) + ".txt",
                    if asMarkdown then "text/markdown" else "text/plain", asMarkdown, "text_input"))
  }

  /**
   * `onUploadHandler`: without an embedding model nothing is built; otherwise
   * the sources are built and handed to `addNewSources` under the knowledge
   * base's `id`, which is returned.
   */
  function UploadSpec(id: string, mode: Mode, data: FormData, embeddingModel: Option<string>, now: int)
    : Result<(string, seq<SourceRequest>), UploadError>
  {
    if embeddingModel.None? || embeddingModel.value == "" then Err(NoEmbeddingModel)
    else if mode == UploadMode then Ok((id, FileSources(data.files.GetOr([]))))
    else
      match TextSourceFor(data, now)
      case Err(e) => Err(e)
      case Ok(src) => Ok((id, [src]))
  }

  method OnUploadHandler(id: string, mode: Mode, data: FormData, embeddingModel: Option<string>, now: int)
    returns (r: Result<(string, seq<SourceRequest>), UploadError>)
    ensures r == UploadSpec(id, mode, data, embeddingModel, now)
  {
    if embeddingModel.None? || embeddingModel.value == "" {
      return Err(NoEmbeddingModel);
    }
    var sources: seq<SourceRequest> := [];
    if mode == UploadMode {
      sources := CollectFiles(data.files.GetOr([]));
    } else {
      var src := TextSourceFor(data, now);
      if src.Err? {
        return Err(src.error);
      }
      sources := [src.value];
    }
    r := Ok((id, sources));
  }

  /** Text mode stores exactly one source: the trimmed, non-empty text, within the bound. */
  lemma TextModeShape(id: string, data: FormData, em: string, now: int)
    requires em != ""
    ensures var r := UploadSpec(id, TextMode, data, Some(em), now);
      var raw := Trim(data.textContent.GetOr(""));
      && (r.Err? <==> raw == "" || Utf16Length(raw) > MaxTextLength)
      && (r.Ok? ==> r.value.0 == id && |r.value.1| == 1 && r.value.1[0].TextSource?
                    && r.value.1[0].text == raw && 0 < |raw| <= MaxTextLength)
  {
  }

  /** The stored text is trimmed: it neither starts nor ends with white space. */
  lemma StoredTextTrimmed(data: FormData, now: int)
    requires TextSourceFor(data, now).Ok?
    ensures var t := TextSourceFor(data, now).value.text;
      |t| > 0 && !IsJsSpace(t[0]) && !IsJsSpace(t[|t| - 1])
  {
    var s := data.textContent.GetOr("");
    var u := TrimStart(s);
    var t := TrimEnd(u);
    TrimStartSpec(s);
    TrimEndSpec(u);
    assert t[0] == u[0];
  }

  /** Markdown exactly when the text type is "markdown"; the file is always `pasted_<ms>.txt`. */
  lemma TextTypeDecidesMarkdown(data: FormData, now: int)
    requires TextSourceFor(data, now).Ok?
    ensures var src := TextSourceFor(data, now).value;
      && (src.asMarkdown <==> data.textType == Some("markdown"))
      && (src.mime == "text/markdown" <==> data.textType == Some("markdown"))
      && (src.mime == "text/plain" <==> data.textType != Some("markdown"))
      && src.filename == "pasted_" + IntToString(now) + ".txt"
  {
  }

  /** Without an embedding model the handler fails, whatever the mode and the form hold. */
  lemma NoModelNoSources(id: string, mode: Mode, data: FormData, now: int)
    ensures UploadSpec(id, mode, data, None, now) == Err(NoEmbeddingModel)
    ensures UploadSpec(id, mode, data, Some(""), now) == Err(NoEmbeddingModel)
  {
  }

  datatype Verdict = Ignore | KeepWithoutUpload

  /** `beforeUpload`: drop a file whose lower-cased type is unsupported, otherwise keep it without uploading. */
  function BeforeUpload(file: UploadFile, unsupported: seq<string>): (v: Verdict)
    ensures v == Ignore <==> exists k :: 0 <= k < |unsupported| && unsupported[k] == ToLowerAscii(file.mimeType)
  {
    if ToLowerAscii(file.mimeType) in unsupported then Ignore else KeepWithoutUpload
  }
}
