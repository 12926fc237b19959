# page-assist chat core with the SSO Gemini gateway, in Dafny

This project models the chat core of the page-assist browser extension and
its SSO-gated Gemini gateway. It covers:

- **The token store** of `src/services/sso-auth.ts`:
  - stored credentials and gateway configuration;
  - the cached access token and its expiry, with a five-minute margin;
  - the login exchange with the SSO server;
  - the "valid token, or log in again" rule.
- **The gateway client** of `src/services/gemini-api.ts`:
  - the Bearer header;
  - request defaults;
  - one fresh login and one retry after a 401;
  - the six-URL fallback of `generateContent`;
  - line splitting of the streaming body;
  - the history request.
- **The LangChain chat model** `CustomGeminiChat`:
  - constructor defaults;
  - message conversion, where a message's content is a string or a list of text and image parts;
  - streaming and non-streaming generation.
- **The bootstrap** in `src/config/default-sso-config.ts` and `src/services/default-sso-init.ts`:
  - environment defaults;
  - the default provider and its model;
  - the selected model;
  - the "already initialised" check.
- **The knowledge upload** of `UpdateKnowledge.tsx`: `onUploadHandler` and `beforeUpload`.
- **The chat hook** `src/hooks/useMessage.tsx`:
  - `onSubmit` and its choice of one of five chat modes;
  - what every mode does around the model call: placeholders, the streaming fold, the final update, the history entries and the error path;
  - the backend choice and prompt rules of the normal mode;
  - `stopStreamingRequest`, `clearChat`, `editMessage` and `regenerateLastMessage`.
- **The page-context mode** of `src/hooks/chat-modes/normalChatModeWithPageContext.ts`:
  - the active-tab filter;
  - backend choice;
  - system-prompt precedence;
  - the streaming fold;
  - the rethrow of unsaved errors.

Stateful parts are classes whose methods update fields. Most such methods
are proved against a specification function of the old state; the short
ones (`ClearChat`, `StopStreamingRequest`, `SettleTurn` and the storage and
database primitives) state each field's new value directly:

- the plasmo `Storage` as a map from the enumerated keys;
- the provider and model database `ModelDb`;
- the hook's `Session`;
- the `CustomGeminiChat` object.

Things the model does not compute are parameters:

- the clock (`now`, in milliseconds);
- the SSO server and the gateway (functions from request to reply);
- `JSON.parse` of a stream line;
- `mergeReasoningContent`;
- the streamed chunks;
- fresh ids and controllers;
- failures of database calls and of the model stream.

JavaScript semantics that matter to the source are written out:

- truthiness (an empty string and the number 0 are falsy, an empty array is truthy);
- `||` against `??`;
- `replace`, which replaces only the first occurrence and expands `$` patterns, against `replaceAll`;
- `split(",")[1]`, which is `undefined` when there is no comma;
- `slice` with a negative end;
- `trim` with the ECMAScript white-space set;
- `parseInt` of a decimal string;
- string length in UTF-16 code units.

Behaviour kept exactly as the code has it, including choices that look
unintended:

- **The normal and page-context modes ignore the selected model.** They use "gemini-2.5-flash" whenever the provider `sso-gemini-default` exists. `ChatBackend.DefaultProviderForcesFlash` states this.
- **The page-context mode has its own cursor.** It shows a mis-encoded cursor, the three characters "â–‹".
- **An image without a comma is sent as "data:image/jpeg;base64,undefined".**
- **A page context containing "{question}" captures the user's question**, because `replace` acts on the first occurrence.
- **A temperature of 0 is sent as 0.2.** The constructor keeps the 0 (`??`), then the request body's `||` replaces it.
- **`regenerateLastMessage` with one history entry throws**, after it has already dropped the entry and the last message.
- **Search mode ignores the transcript a resubmission passes.** It uses the transcript of the render that called `onSubmit`. After `editMessage` of a human message, that is the whole transcript with the edit, not the cut one. A search turn after editing any message but the last therefore leaves the transcript longer than the history. `ChatSession.EditThenTurnAligned` states this.

## Model

| member | source | states |
|---|---|---|
| PlasmoStorage.KeyNamesDistinct | src/services/sso-auth.ts:30-33 | the four token-store keys (and the selected-model key) are distinct strings, so a map over keys is a map over key strings |
| PlasmoStorage.Storage.Get | src/services/sso-auth.ts:39 | `storage.get` returns the stored value or undefined |
| PlasmoStorage.Storage.Set | src/services/sso-auth.ts:47 | `storage.set` writes one key and leaves the rest |
| PlasmoStorage.Storage.Remove | src/services/sso-auth.ts:99-100 | `storage.remove` deletes one key and leaves the rest |
| Text.TrimStartSpec | src/components/Option/Knowledge/UpdateKnowledge.tsx:67 | trimming the start removes exactly the leading JS white space |
| Text.TrimEndSpec | src/components/Option/Knowledge/UpdateKnowledge.tsx:67 | trimming the end removes exactly the trailing JS white space |
| Text.BlankIffTrimEmpty | src/hooks/useMessage.tsx:936 | `pageContext.trim().length > 0` fails exactly for blank strings |
| Text.BlankIffAllSpace | src/hooks/chat-modes/normalChatModeWithPageContext.ts:257 | a blank page context is one made only of white space |
| Text.IndexOfFrom | src/hooks/useMessage.tsx:943-945 | `indexOf` finds the first occurrence at or after the start, or reports none |
| Text.ReplaceFirstAt | src/hooks/useMessage.tsx:943-945 | when the pattern occurs at `i` and nowhere before, the text before `i` and after the match is kept and only the match is replaced (verbatim for a replacement without `$`) |
| Text.ReplaceFirstNone | src/hooks/useMessage.tsx:943-945 | when the pattern occurs nowhere, `replace` returns its input |
| Text.ReplaceAllAbsent | src/hooks/useMessage.tsx:283-284 | `replaceAll` of an absent pattern returns the input |
| Text.ReplaceAllOnce | src/hooks/useMessage.tsx:282-284 | `replaceAll` of a placeholder that occurs once, with no `{` before it, puts a `$`-free replacement exactly in its place |
| Text.SplitOn | src/hooks/useMessage.tsx:775 | `split` yields at least one piece and no piece holds the separator |
| Text.SplitJoin | src/hooks/useMessage.tsx:775 | joining the pieces of a split with the separator gives the string back |
| Text.Utf16Length | src/components/Option/Knowledge/UpdateKnowledge.tsx:72 | the length bound counts UTF-16 units: between one and two per character |
| Text.ParseIntToString | src/services/sso-auth.ts:77-92 | the expiry written with `toString` is read back by `parseInt` as the same integer |
| Text.ToLowerAsciiSpec | src/hooks/chat-modes/normalChatModeWithPageContext.ts:34 | lower-casing leaves no ASCII capital, maps each capital to its small letter, keeps every other character, and is idempotent |
| Text.JoinSplit | src/hooks/useMessage.tsx:277-281 | splitting a join of separator-free pieces on the separator gives the pieces back |
| SsoAuth.StoredCredentials | src/services/sso-auth.ts:38-41 | credentials are returned exactly when a credentials record is stored |
| SsoAuth.StoredConfig | src/services/sso-auth.ts:53-56 | the configuration is returned exactly when a configuration record is stored |
| SsoAuth.LoginBodyFor | src/services/sso-auth.ts:113-118 | the login body carries user and password; otp and otp_type default to "NONE" and "PUSH" when absent or empty, and a non-empty value is passed through |
| SsoAuth.GetSsoCredentials | src/services/sso-auth.ts:38-41 | reads the credentials record |
| SsoAuth.SetSsoCredentials | src/services/sso-auth.ts:46-48 | writes the credentials record only |
| SsoAuth.GetGeminiConfig | src/services/sso-auth.ts:53-56 | reads the configuration record |
| SsoAuth.SetGeminiConfig | src/services/sso-auth.ts:61-63 | writes the configuration record only |
| SsoAuth.GetAccessToken | src/services/sso-auth.ts:68-83 | a token is returned exactly when token and expiry are set and the expiry is not reached; a reached expiry clears both |
| SsoAuth.SetAccessToken | src/services/sso-auth.ts:88-93 | stores the token and now + expires_in·1000 − 300000 as decimal text |
| SsoAuth.ClearTokens | src/services/sso-auth.ts:98-101 | removes the token and its expiry only |
| SsoAuth.PerformSsoLogin | src/services/sso-auth.ts:106-135 | one POST; a 2xx reply stores and returns the token, anything else fails and leaves the store |
| SsoAuth.GetValidAccessToken | src/services/sso-auth.ts:140-158 | the fresh cached token, else one login with the stored records, else the missing-records error |
| SsoAuth.IsSsoConfiguredNow | src/services/sso-auth.ts:163-168 | configured exactly when both records hold user, password, SSO URL and gateway URL, all non-empty |
| SsoAuth.TokenFreshUntilBuffer | src/services/sso-auth.ts:88-93 | a stored token is handed out until, and only until, five minutes before its announced expiry |
| SsoAuth.ClearingKeepsRest | src/services/sso-auth.ts:77-80 | clearing an expired token keeps credentials, configuration and every other key |
| SsoAuth.ExpiredThenAbsent | src/services/sso-auth.ts:77-80 | after an expired lookup the next lookup finds no token |
| SsoAuth.FreshTokenNoLogin | src/services/sso-auth.ts:142-146 | a fresh token is returned without a login and without store changes |
| SsoAuth.StaleTokenNoRecords | src/services/sso-auth.ts:149-154 | with no fresh token and a record missing, the fetch fails before any login |
| SsoAuth.StaleTokenLogsIn | src/services/sso-auth.ts:149-157 | with no fresh token and both records, exactly one login to the configured URL decides the result |
| SsoAuth.FetchKeepsRecords | src/services/sso-auth.ts:140-158 | fetching a token never changes the stored records |
| SsoAuth.SetThenGet | src/services/sso-auth.ts:38-63 | a written record reads back unchanged and leaves the other record alone |
| GeminiApi.Bearer | src/services/gemini-api.ts:85 | the header is "Bearer " followed by the token |
| GeminiApi.BuildRequest | src/services/gemini-api.ts:182-205 | contents kept; default safety rule unless settings are given; 0 or absent sampling values become 0.2, 0.8 and 40 |
| GeminiApi.SuppliedValuesKept | src/services/gemini-api.ts:199-204 | non-zero sampling values reach the request unchanged |
| GeminiApi.UrlFormats | src/services/gemini-api.ts:167-180 | six URLs under the gateway URL, the first being the Vertex AI path |
| GeminiApi.StreamingUrl | src/services/gemini-api.ts:255 | the streaming URL is the Vertex AI path |
| GeminiApi.FirstText | src/services/gemini-api.ts:214-221 | the text of the first part of the first candidate, or the no-candidates error |
| GeminiApi.LoginCalls | src/services/gemini-api.ts:106 | each login is recorded as one call, in order |
| GeminiApi.PostsAppend | src/services/gemini-api.ts:82-127 | the posts of a call log are those of its parts, in order |
| GeminiApi.PostsOfLogins | src/services/gemini-api.ts:74 | logins are never gateway posts |
| GeminiApi.MakeAuthenticatedRequest | src/services/gemini-api.ts:68-148 | the request follows the authenticated-exchange specification over the token store |
| GeminiApi.NoTokenNoPost | src/services/gemini-api.ts:73-78 | without a token, nothing is posted and the error is the authentication failure |
| GeminiApi.NoRetryWithout401 | src/services/gemini-api.ts:134-147 | a first reply other than 401 ends after one POST: ok is returned, any other status is an error |
| GeminiApi.RetryOnceAfter401 | src/services/gemini-api.ts:95-131 | after a 401 at most one more POST, after a successful login and with its token |
| GeminiApi.RetryOnceAfter401With | src/services/gemini-api.ts:95-131 | the same, for any completed token lookup |
| GeminiApi.RefreshRetriesOnce | src/services/gemini-api.ts:98-131 | the refresh adds at most one post to the first |
| GeminiApi.TryUrlsShape | src/services/gemini-api.ts:208-234 | URLs are tried in order up to the first success; failure only after the last, with its error |
| GeminiApi.Attempt | src/services/gemini-api.ts:212-221 | one URL shape: the authenticated request and the text of its reply |
| GeminiApi.GenerateContent | src/services/gemini-api.ts:153-237 | `generateContent` follows its specification |
| GeminiApi.TryInOrder | src/services/gemini-api.ts:208-234 | the fallback loop computes the ordered fallback |
| GeminiApi.GenerateNeedsConfig | src/services/gemini-api.ts:160-164 | without a configuration nothing is sent and the error is "not configured" |
| GeminiApi.GenerateFallbackOrder | src/services/gemini-api.ts:166-234 | with a configuration the six shapes are tried in their fixed order |
| GeminiApi.NonBlankLinesSound | src/services/gemini-api.ts:300 | the lines of a read hold no newline and are never blank, and every non-blank piece of the read is among them |
| GeminiApi.DropBlankSound | src/services/gemini-api.ts:300 | filtering keeps exactly the non-blank pieces |
| GeminiApi.LineYield | src/services/gemini-api.ts:303-316 | a line yields one text exactly when it parses and has a candidate part |
| GeminiApi.StreamLines | src/services/gemini-api.ts:292-318 | the read loop yields what the reads yield, in order |
| GeminiApi.ReadLines | src/services/gemini-api.ts:302-317 | the line loop yields what the lines yield, in order |
| GeminiApi.StreamYieldsAppend | src/services/gemini-api.ts:292-318 | the yields of a stream are those of its reads, one after another |
| GeminiApi.MalformedLineSkipped | src/services/gemini-api.ts:313-316 | a malformed line yields nothing and does not end the stream |
| GeminiApi.EveryLineYields | src/services/gemini-api.ts:307-311 | when every line has a candidate part, each yields exactly its text |
| GeminiApi.StreamGenerateContent | src/services/gemini-api.ts:242-322 | streaming follows its specification: the yields, or the error raised before any yield |
| GeminiApi.ToContents | src/services/gemini-api.ts:345-348 | one content per history message, same role and text |
| GeminiApi.GenerateContentWithHistory | src/services/gemini-api.ts:327-374 | the history request follows its specification |
| GeminiApi.WithHistoryUsesFirstShape | src/services/gemini-api.ts:343-366 | the history request posts once, to the Vertex AI path, with the whole history |
| GeminiChatModel.ConvertOne | src/models/CustomGeminiChat.ts:177-201 | the role is "model" exactly for AI and assistant messages; every content but a system message's, part lists included, is passed on unchanged; a system message becomes "System: " plus the template-literal string of its content |
| GeminiChatModel.SystemPartsStringified | src/models/CustomGeminiChat.ts:183-190 | a system message holding a part list reaches the gateway as "System: " and one `[object Object]` per part; a human message's part list reaches it unchanged |
| LangChainContent.PartListString | src/models/CustomGeminiChat.ts:190 | the template-literal string of a part list is one `[object Object]` per part, comma-separated, and "" for an empty list |
| GeminiChatModel.Convert | src/models/CustomGeminiChat.ts:174-203 | conversion is element-wise and keeps length and order |
| GeminiChatModel.ConvertAppend | src/models/CustomGeminiChat.ts:177 | converting an appended message appends its conversion |
| GeminiChatModel.StreamYieldsTexts | src/models/CustomGeminiChat.ts:153-167 | the chunks yielded carry the streamed texts in order |
| GeminiChatModel.StreamEventsInterleaved | src/models/CustomGeminiChat.ts:162-166 | with a run manager, each token callback comes right before its chunk |
| GeminiChatModel.Accumulate | src/models/CustomGeminiChat.ts:87-94 | the full content is the concatenation of the streamed texts; the callbacks receive them in order |
| GeminiChatModel.EmitChunks | src/models/CustomGeminiChat.ts:153-167 | the chunk loop emits the specified events |
| GeminiChatModel.CustomGeminiChat.constructor | src/models/CustomGeminiChat.ts:50-60 | `??` keeps every supplied field, 0 and false included; defaults otherwise |
| GeminiChatModel.CustomGeminiChat.Generate | src/models/CustomGeminiChat.ts:66-132 | streaming sends only the last converted message and concatenates the texts; otherwise the whole history goes to the history request; errors are rethrown |
| GeminiChatModel.CustomGeminiChat.StreamResponseChunks | src/models/CustomGeminiChat.ts:134-172 | only the last converted message is sent; one chunk per streamed text |
| GeminiChatModel.ZeroTemperatureSentAsDefault | src/models/CustomGeminiChat.ts:54 | a temperature of 0 kept by the constructor is sent as 0.2 |
| GeminiChatModel.StreamingSendsLastOnly | src/models/CustomGeminiChat.ts:76-77 | streaming results depend only on the last message |
| DefaultSsoConfig.Defaults | src/config/default-sso-config.ts:4-34 | the model id equals the configured model; the name is it plus " (SSO)"; otp_type is "PUSH"; autoApply and autoSelectModel need the variables set |
| DefaultSsoConfig.EnvironmentWins | src/config/default-sso-config.ts:7-18 | a set variable supplies its field, otherwise the fixed default |
| DefaultSsoConfig.EmptyIsUnset | src/config/default-sso-config.ts:7-33 | an empty variable counts as unset |
| DefaultSsoConfig.AutoApplyMeansConfigured | src/config/default-sso-config.ts:30 | when autoApply holds, the stored defaults satisfy `isSSOConfigured` |
| DefaultSsoConfig.NoUserNeverConfigured | src/config/default-sso-config.ts:7 | without a user name the stored defaults are never configured |
| DefaultSsoInit.ModelDb.constructor | src/services/default-sso-init.ts:71 | a new database is empty |
| DefaultSsoInit.ModelDb.GetById | src/services/default-sso-init.ts:75 | `getById` returns the stored provider, none, or the database error |
| DefaultSsoInit.ModelDb.Create | src/services/default-sso-init.ts:97 | `create` stores the provider under its id, or fails and leaves the database unchanged |
| DefaultSsoInit.ModelDb.CreateModel | src/services/default-sso-init.ts:101-106 | `createModel` appends the model record, or fails and leaves the database unchanged |
| DefaultSsoInit.CreateDefaultSsoProvider | src/services/default-sso-init.ts:68-114 | follows its specification: skip if the provider exists; create the provider, then the model; rethrow |
| DefaultSsoInit.SetDefaultSelectedModel | src/services/default-sso-init.ts:119-127 | stores the default model id as the selected model |
| DefaultSsoInit.InitializeDefaultSso | src/services/default-sso-init.ts:19-63 | never throws; skipped when configured; records, then provider and model, then selection |
| DefaultSsoInit.IsDefaultSsoInitialized | src/services/default-sso-init.ts:132-146 | true exactly when configured and the default provider exists; any failure reads as false |
| DefaultSsoInit.CreateKeepsSingleDefault | src/services/default-sso-init.ts:72-106 | one provider creation never adds a second default provider or a second model under it |
| DefaultSsoInit.InitKeepsSingleDefault | src/services/default-sso-init.ts:68-114 | runs never create a second default provider or a second model under it |
| DefaultSsoInit.ExistingProviderNotRecreated | src/services/default-sso-init.ts:75-79 | once the provider exists, a run leaves the database as it is |
| DefaultSsoInit.WritesInOrder | src/services/default-sso-init.ts:36-55 | writes happen as credentials, configuration, provider, model, selection, each at most once |
| DefaultSsoInit.ProviderMatchesStoredConfig | src/services/default-sso-init.ts:81-95 | a created provider carries the gateway URL, model, project, location and SSO URL just stored |
| UpdateKnowledge.UploadMime | src/components/Option/Knowledge/UpdateKnowledge.tsx:45-58 | the MIME type is always allowed; it is the file's own exactly when that is allowed |
| UpdateKnowledge.FileSourcesShape | src/components/Option/Knowledge/UpdateKnowledge.tsx:54-65 | one source per file, in order, with its file and MIME type |
| UpdateKnowledge.CollectFiles | src/components/Option/Knowledge/UpdateKnowledge.tsx:54-65 | the upload loop builds exactly those sources |
| UpdateKnowledge.OnUploadHandler | src/components/Option/Knowledge/UpdateKnowledge.tsx:36-90 | the handler follows its specification: no model, empty or oversized text are errors |
| UpdateKnowledge.TextModeShape | src/components/Option/Knowledge/UpdateKnowledge.tsx:66-86 | text mode stores exactly one non-empty trimmed source of at most 500000 units |
| UpdateKnowledge.StoredTextTrimmed | src/components/Option/Knowledge/UpdateKnowledge.tsx:67 | the stored text neither starts nor ends with white space |
| UpdateKnowledge.TextTypeDecidesMarkdown | src/components/Option/Knowledge/UpdateKnowledge.tsx:76-83 | markdown exactly for the "markdown" type; the file name is `pasted_<ms>.txt` |
| UpdateKnowledge.NoModelNoSources | src/components/Option/Knowledge/UpdateKnowledge.tsx:37-41 | without an embedding model the handler fails whatever the form holds |
| UpdateKnowledge.BeforeUpload | src/components/Option/Knowledge/UpdateKnowledge.tsx:139-158 | a file is dropped exactly when its lower-cased type is unsupported |
| Transcript.WithPlaceholders | src/hooks/useMessage.tsx:894-927 | the earlier messages are kept, the human message is added unless regenerating, and the bot placeholder comes last |
| Transcript.SetTextByIdSpec | src/hooks/useMessage.tsx:1097-1108 | the update by id keeps length and order and changes only the messages with that id |
| Transcript.SetTextByIdTwice | src/hooks/useMessage.tsx:1097-1124 | a later update of the same id overrides an earlier one |
| Transcript.SetTextByIdAbsent | src/hooks/useMessage.tsx:1097-1108 | an update by an id no message carries changes nothing |
| Transcript.FreshIdTouchesOnlyPlaceholder | src/hooks/useMessage.tsx:894-927 | with a fresh id the update touches only the bot placeholder |
| Transcript.AfterTurn | src/hooks/useMessage.tsx:1126-1137 | history gains the user entry then the assistant's full text, after the old entries |
| StreamFold.ContentsAppend | src/hooks/useMessage.tsx:1077-1078 | the contents of two runs of chunks, and their concatenated text, split at the boundary between the runs |
| StreamFold.FoldAppend | src/hooks/useMessage.tsx:1061-1110 | folding a concatenation folds the parts one after the other |
| StreamFold.PlainRun | src/hooks/useMessage.tsx:1069-1078 | plain chunks append their contents, after one `</think>` when following reasoning |
| StreamFold.NoReasoningConcat | src/hooks/useMessage.tsx:1061-1078 | without reasoning the final text is the concatenation of the contents |
| StreamFold.ReasoningMerged | src/hooks/useMessage.tsx:1062-1068 | a reasoning chunk replaces the text with the merge, then appends its content |
| StreamFold.ReasoningThenPlain | src/hooks/useMessage.tsx:1069-1075 | plain chunks after reasoning come after exactly one `</think>` |
| Prompts.SecondPiece | src/hooks/useMessage.tsx:775 | the second comma-piece holds no comma, "undefined" when absent |
| Prompts.NormalizeDataUrl | src/hooks/useMessage.tsx:774-776 | a data URL gets the JPEG header and keeps its payload |
| Prompts.NormalizeWithoutComma | src/hooks/useMessage.tsx:774-776 | an image without a comma becomes the header followed by ",undefined" |
| Prompts.NormalizeIdempotent | src/hooks/useMessage.tsx:774-776 | normalising twice is normalising once |
| Prompts.HumanParts | src/hooks/useMessage.tsx:973-1011 | the text part first, then the image part exactly when there is an image |
| Prompts.FirstOccurrence | src/hooks/useMessage.tsx:943-945 | a placeholder preceded by no brace is found where it is |
| Prompts.PresetTextFills | src/hooks/useMessage.tsx:1560-1571 | a preset prompt with no `{` before `{text}` gets the message in that place |
| Prompts.PresetTextWithoutPlaceholder | src/hooks/useMessage.tsx:1560-1571 | a preset prompt without `{text}` is sent as it is |
| Prompts.FollowUpFills | src/hooks/useMessage.tsx:274-284 | the query-rewriting prompt gets the chat-history text in place of `{chat_history}` and the message in place of `{question}` |
| Prompts.RewritesWithEarlierMessages | src/hooks/useMessage.tsx:274 | the website mode rewrites the question exactly when an earlier message precedes the new ones (two when regenerating) |
| Prompts.RagTextFills | src/hooks/useMessage.tsx:936-951 | a prompt with one `{context}` then one `{question}` gets the context and the question in place |
| Prompts.QuestionLandsInContext | src/hooks/useMessage.tsx:943-945 | a page context holding "{question}" receives the question there, not in the prompt |
| Prompts.RecentBeforeLastSpec | src/hooks/useMessage.tsx:275-276 | the chat history is the last ten messages without the newest |
| Prompts.ChatHistoryOneLineEach | src/hooks/useMessage.tsx:275-281 | when no described message holds a newline, the `chat_history` text splits into exactly one "Assistant: "/"Human: " line per described message, in order |
| Prompts.SliceTo | src/hooks/useMessage.tsx:320-325 | `slice(0, end)` is a prefix, of length end when that fits |
| Prompts.WebsiteContextBounded | src/hooks/useMessage.tsx:319-326 | the website context is a prefix of the page text, at most maxWebsiteContext long |
| Prompts.NormalAtMostOne | src/hooks/useMessage.tsx:1016-1034 | the normal mode adds at most one system prompt: the selected one over the default, none with a page context |
| Prompts.AssemblePageContextPrompts | src/hooks/chat-modes/normalChatModeWithPageContext.ts:337-373 | the unshifts give the specified system prompts before the history, and the recorded prompt content |
| Prompts.PageContextPrecedence | src/hooks/chat-modes/normalChatModeWithPageContext.ts:337-373 | temporary prompt over selected over default; none with a page context, which records the RAG prompt |
| ChatBackend.GeminiExactlyForSso | src/hooks/useMessage.tsx:786-851 | Gemini exactly for the default SSO provider or an SSO custom model, with fixed sampling and the model name each case gives |
| ChatBackend.DefaultProviderForcesFlash | src/hooks/chat-modes/normalChatModeWithPageContext.ts:113-140 | once the default provider is stored, "gemini-2.5-flash" runs whatever model is selected |
| ChatBackend.LookupFailureFallsBack | src/hooks/chat-modes/normalChatModeWithPageContext.ts:175-182 | a failing provider lookup falls back to the page-assist model |
| ActiveTab.TabDocumentExactly | src/hooks/chat-modes/normalChatModeWithPageContext.ts:25-57 | a document exactly for a first tab with id, title and URL outside the six internal schemes |
| ActiveTab.UpperCaseSchemeFiltered | src/hooks/chat-modes/normalChatModeWithPageContext.ts:34-42 | the scheme test ignores case |
| ActiveTab.PageContextOnlyWhenIncluded | src/hooks/chat-modes/normalChatModeWithPageContext.ts:184-199 | a page context only when included, with documents, and the extraction succeeded |
| ChatSession.Dispatch | src/hooks/useMessage.tsx:1759-1830 | exactly one mode, each under its stated condition |
| ChatSession.SearchUsesSessionMessages | src/hooks/useMessage.tsx:1787-1796 | search ignores the messages a submission carries; the other modes use them |
| ChatSession.TurnOutcomeShape | src/hooks/useMessage.tsx:894-1137 | a successful turn keeps the earlier messages, ends with the final text, and records the original message then the text |
| ChatSession.TurnOutcomeLengths | src/hooks/useMessage.tsx:894-1137 | a successful turn adds two messages (one when regenerating) and two history entries |
| ChatSession.PageContextHuman | src/hooks/chat-modes/normalChatModeWithPageContext.ts:203-222 | the image only when present; one file document per uploaded file, in order |
| ChatSession.EditHumanTruncates | src/hooks/useMessage.tsx:1846-1872 | editing a human message cuts the transcript after it and the history before it, and resubmits it as a regeneration |
| ChatSession.EditBotInPlace | src/hooks/useMessage.tsx:1872-1878 | editing a bot message changes only that message and its history entry |
| ChatSession.RegenerateShape | src/hooks/useMessage.tsx:1881-1902 | regenerating drops two history entries and one message, and resubmits the user's last turn |
| ChatSession.RegenerateWithoutHistory | src/hooks/useMessage.tsx:1882 | without history nothing happens |
| ChatSession.NewTurnKeepsAligned | src/hooks/useMessage.tsx:894-1137 | a successful new turn keeps transcript and history the same length |
| ChatSession.EditSeen | src/hooks/useMessage.tsx:1851-1856 | the transcript of the editing render keeps its length and holds the edited text: the element edit reaches it, the cut does not |
| ChatSession.EditThenTurnAligned | src/hooks/useMessage.tsx:1787-1796 | editing a human message and running the resubmission restores alignment exactly when the mode is not search or the edited message was the last |
| ChatSession.RegenerateThenTurnAligned | src/hooks/useMessage.tsx:1881-1902 | regenerating and running the resubmission restores alignment |
| ChatSession.Session.OnSubmit | src/hooks/useMessage.tsx:1730-1831 | the controller, the RAG switch for YouTube, the embedding controller, and the call of the chosen mode |
| ChatSession.Session.StreamInto | src/hooks/useMessage.tsx:1061-1110 | the loop leaves the fold of all chunks and the text plus cursor in the placeholder |
| ChatSession.Session.RunTurn | src/hooks/useMessage.tsx:1061-1180 | success writes the final text and two history entries; failure keeps history and resets the flags unless the error is rethrown |
| ChatSession.Session.SettleTurn | src/hooks/useMessage.tsx:1112-1180 | success gives the placeholder the final text and adds the two history entries; failure keeps transcript and history; the flags are reset unless the page-context error is rethrown; the abort controller is always cleared, the embedding controller too in the website and vision modes |
| ChatSession.Session.RunModeTurn | src/hooks/useMessage.tsx:894-1180 | success gives the specified transcript and history; failure keeps the history and leaves the placeholders with the streamed text and cursor; the flags end off; the embedding flag drops on failure and the embedding controller is cleared in the website and vision modes |
| ChatSession.Session.RunPageContextTurn | src/hooks/chat-modes/normalChatModeWithPageContext.ts:198-523 | the human message and the mis-encoded cursor placeholder are appended; success gives the placeholder the final text and adds the two history entries; failure keeps the history and the streamed text with the cursor; an unsaved error is rethrown with the flags left as they were, otherwise the flags are reset |
| ChatSession.Session.StopStreamingRequest | src/hooks/useMessage.tsx:1833-1844 | aborts the embedding controller while embedding, then the chat controller |
| ChatSession.Session.ClearChat | src/hooks/useMessage.tsx:121-141 | aborts and clears the embedding controller while embedding and the chat controller, empties transcript and history, resets the flags, applies the defaults |
| ChatSession.Session.EditMessage | src/hooks/useMessage.tsx:1846-1879 | the edit follows its specification, including the throws on a bad index |
| ChatSession.Session.RegenerateLastMessage | src/hooks/useMessage.tsx:1881-1902 | regeneration follows its specification, including the throw with a single entry |

## Left out

- Logging, notifications, `updatePageTitle` and `currentChatModelSettings.reset()` are left out. They only have effects outside the chat state.
- Reasoning timers, `generationInfo`, sources and model avatars are left out. They read the clock or come from the model's metadata.
- These helpers are parameters or left out, because they are not part of this model:
  - `mergeReasoningContent`;
  - `saveMessageOnSuccess` and `saveMessageOnError`, including the history write of the error saver; only whether the error was saved is an input;
  - `generateHistory`, `humanMessageFormatter` and `systemPromptFormatter`;
  - `getTabContents`;
  - the prompt stores.
- Database persistence is left out: `updateMessageByIndex`, `deleteChatForEdit`, `removeMessageUsingHistoryId` and chat branching.
- Every storage write is taken to succeed: the `@plasmohq/storage` setters and removers of the SSO token store, and the credential and configuration writes of `initializeDefaultSSO`. Only the three model-database calls of `createDefaultSSOProvider` can fail in the model.
- Embeddings, the vector store, retrieval, the model's query rewriting and the web search itself are left out. The search, vision and website modes are modelled only through their shared turn shape and their prompt pieces.
- A failure inside `saveMessageOnSuccess`, after the history is written, is not modelled. A failed turn is one that fails before its success branch, after the chunks it received.
- `RunTurn` models React's asynchronous setters as immediate updates, and the in-place `push`, `pop` and element edits as new values. Aliasing is not modelled. In particular, the transcript array that `editMessage` and `regenerateLastMessage` mutate is treated as a value. The one aliasing effect kept is `ChatSession.EditSeen`: the editing render's transcript, which the search mode of the resubmission reads.
- `ToLowerAscii` folds ASCII letters only. The internal-scheme test gives the same verdict for these ASCII prefixes; full Unicode lower-casing is not modelled.
- `JSON.parse`, `JSON.stringify`, `TextDecoder` and the network are left out. Parsing is a parameter, the stored records are taken to round-trip, and a body read is a decoded string. The body of a streaming reply is either missing or a complete sequence of reads, so `GeminiApi.StreamGenerateContent` fails only before its first yield: a read that fails after some lines were yielded is not modelled.
- `Text.ParseIntToString` covers decimal integers only. `parseInt` of other text (exponents, hexadecimal) is not modelled.
- Concurrency between overlapping submissions is left out.
- RunModeTurn: failures before a mode's `try` are not modelled. These are a rejected `getModelNicknameByID`, and in the website mode a rejected page fetch or embedding-model lookup. In the source they leave the bare cursor placeholder shown, `streaming` on and the controllers set, because no `finally` runs. Only failures inside the `try` are modelled.
- SliceTo: cuts at characters, where JavaScript's `slice` counts UTF-16 code units. A cut through an astral character gives a lone surrogate in the source, and a Dafny `char` cannot hold one. `Prompts.WebsiteContextBounded` bounds the context in characters for the same reason.
