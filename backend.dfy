/**
 * The choice of chat backend at the start of `normalChatMode`
 * (`src/hooks/useMessage.tsx`) and of `normalChatModeWithPageContext`
 * (`src/hooks/chat-modes/normalChatModeWithPageContext.ts`), which make it
 * the same way: a stored provider `sso-gemini-default` of kind `sso-gemini`
 * forces the Gemini chat model "gemini-2.5-flash" whatever model is
 * selected; otherwise a custom model whose provider is of kind `sso-gemini`
 * uses the Gemini chat model under its own model id; everything else, and
 * any failing lookup, uses the page-assist model.
 *
 * The three lookups are inputs: each one found something, found nothing, or
 * failed. `isCustomModel` is the input `isCustom`.
 */
module ChatBackend {
  import opened Wrappers
  import opened GeminiChatModel
  import opened DefaultSsoConfig
  import opened DefaultSsoInit

  datatype Fetched<T> = Found(value: T) | NotFound | LookupFailed

  /** The fields of a custom model record that the choice reads. */
  datatype ModelInfo = ModelInfo(modelId: string, providerId: string)

  datatype Backend =
    | GeminiBackend(input: ChatInput)
    | PageAssistBackend(model: string)

  const SsoProviderKind := "sso-gemini"
  const ForcedModel := "gemini-2.5-flash"

  /** The argument of `new CustomGeminiChat(...)` in both branches that build one. */
  function GeminiInput(modelName: string): ChatInput {
    ChatInput(Some(modelName), Some(0.2), Some(0.8), Some(40.0), None, None, Some(true))
  }

  predicate IsSsoProvider(p: Fetched<Provider>) {
    p.Found? && p.value.provider == SsoProviderKind
  }

  /**
   * `ssoDefault` is `openaiDb.getById("sso-gemini-default")`, `info` is
   * `getModelInfo(selectedModel)` and `providerOf` is `getOpenAIConfigById`.
   * A missing model record fails on `modelInfo.provider_id`, which the
   * surrounding `catch` turns into the page-assist model.
   */
  function SelectBackend(ssoDefault: Fetched<Provider>, isCustom: bool, info: Fetched<ModelInfo>,
                         providerOf: string -> Fetched<Provider>, selectedModel: string): Backend
  {
    if IsSsoProvider(ssoDefault) then GeminiBackend(GeminiInput(ForcedModel))
    else if ssoDefault.LookupFailed? || !isCustom then PageAssistBackend(selectedModel)
    else if !info.Found? then PageAssistBackend(selectedModel)
    else if IsSsoProvider(providerOf(info.value.providerId)) then GeminiBackend(GeminiInput(info.value.modelId))
    else PageAssistBackend(selectedModel)
  }

  /**
   * The Gemini chat model is chosen exactly when the default SSO provider is
   * stored, or the selected custom model's provider is an SSO one; it is then
   * the streaming model with the fixed sampling values, named
   * "gemini-2.5-flash" in the first case and after the model record in the
   * second. Otherwise the page-assist model runs the selected model.
   */
  lemma GeminiExactlyForSso(ssoDefault: Fetched<Provider>, isCustom: bool, info: Fetched<ModelInfo>,
                            providerOf: string -> Fetched<Provider>, selectedModel: string)
    ensures var b := SelectBackend(ssoDefault, isCustom, info, providerOf, selectedModel);
      var viaModel := !ssoDefault.LookupFailed? && isCustom && info.Found? && IsSsoProvider(providerOf(info.value.providerId));
      && (b.GeminiBackend? <==> IsSsoProvider(ssoDefault) || viaModel)
      && (b.GeminiBackend? ==>
            b.input.streaming == Some(true) && b.input.temperature == Some(0.2)
            && b.input.topP == Some(0.8) && b.input.topK == Some(40.0))
      && (IsSsoProvider(ssoDefault) ==> b.input.modelName == Some(ForcedModel))
      && (!IsSsoProvider(ssoDefault) && viaModel ==> b.input.modelName == Some(info.value.modelId))
      && (b.PageAssistBackend? ==> b.model == selectedModel)
  {
  }

  /** `getById` over the provider table, failing when `fails` says so. */
  function LookupProvider(db: Db, id: string, fails: bool): Fetched<Provider> {
    if fails then LookupFailed
    else if id in db.providers then Found(db.providers[id])
    else NotFound
  }

  /**
   * Once `initializeDefaultSSO` has stored the default provider, the override
   * always wins: the chat runs "gemini-2.5-flash" whatever model is selected
   * and whatever model the SSO configuration names.
   */
  lemma DefaultProviderForcesFlash(db: Db, c: SsoDefaults, now: int, isCustom: bool, info: Fetched<ModelInfo>,
                                   providerOf: string -> Fetched<Provider>, selectedModel: string)
    requires ProviderId in db.providers && db.providers[ProviderId] == DefaultProvider(c, now)
    ensures SelectBackend(LookupProvider(db, ProviderId, false), isCustom, info, providerOf, selectedModel)
      == GeminiBackend(GeminiInput(ForcedModel))
  {
  }

  /** Without the default provider, a failing lookup of it falls back to the page-assist model. */
  lemma LookupFailureFallsBack(isCustom: bool, info: Fetched<ModelInfo>,
                               providerOf: string -> Fetched<Provider>, selectedModel: string)
    ensures SelectBackend(LookupFailed, isCustom, info, providerOf, selectedModel) == PageAssistBackend(selectedModel)
  {
  }
}
