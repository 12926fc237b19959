/**
 * `DEFAULT_SSO_CONFIG` of `src/config/default-sso-config.ts`, as a function of
 * the build environment: every environment-backed field is `VAR || default`,
 * so an unset and an empty variable both give the default.
 */
module DefaultSsoConfig {
  import opened Wrappers
  import opened SsoAuth

  /** `process.env`: the variables that are set, with their values. */
  type Env = map<string, string>

  /** `!!process.env[name]`: the variable is set and not empty. */
  predicate IsSet(env: Env, name: string) {
    name in env && env[name] != ""
  }

  /** `process.env[name] || d`. */
  function EnvOr(env: Env, name: string, d: string): string {
    if IsSet(env, name) then env[name] else d
  }

  datatype ModelConfig = ModelConfig(modelId: string, modelName: string, providerName: string, modelType: string)

  datatype SsoDefaults = SsoDefaults(
    credentials: Credentials, geminiConfig: GeminiConfig, modelConfig: ModelConfig,
    autoApply: bool, autoSelectModel: bool)

  const DefaultSsoUrl := "http://localhost:3001/service-login"
  const DefaultGeminiApiUrl := "http://localhost:3001"
  const DefaultLocation := "asia-southeast1"
  const DefaultModel := "gemini-1.5-pro"

  /**
   * The record. The model id and the model name are built from the same
   * `GEMINI_MODEL || "gemini-1.5-pro"` as the configured model, the name with
   * " (SSO)" after it; the credentials carry `otp_type` "PUSH" and no `otp`.
   */
  function Defaults(env: Env): (c: SsoDefaults)
    ensures c.modelConfig.modelId == c.geminiConfig.model
    ensures c.modelConfig.modelName == c.modelConfig.modelId + " (SSO)"
    ensures c.credentials.otp.None? && c.credentials.otpType == Some("PUSH")
    ensures c.autoApply <==> IsSet(env, "SSO_USERNAME") && IsSet(env, "SSO_PASSWORD")
    ensures c.autoSelectModel <==> IsSet(env, "SSO_USERNAME") && IsSet(env, "GEMINI_PROJECT_ID")
  {
    var model := EnvOr(env, "GEMINI_MODEL", DefaultModel);
    SsoDefaults(
      Credentials(EnvOr(env, "SSO_USERNAME", ""), EnvOr(env, "SSO_PASSWORD", ""), None, Some("PUSH")),
      GeminiConfig(
        EnvOr(env, "SSO_URL", DefaultSsoUrl),
        EnvOr(env, "GEMINI_API_URL", DefaultGeminiApiUrl),
        EnvOr(env, "GEMINI_PROJECT_ID", ""),
        EnvOr(env, "GEMINI_LOCATION", DefaultLocation),
        model),
      ModelConfig(model, model + " (SSO)", "SSO Gemini API", "chat"),
      IsSet(env, "SSO_USERNAME") && IsSet(env, "SSO_PASSWORD"),
      IsSet(env, "SSO_USERNAME") && IsSet(env, "GEMINI_PROJECT_ID"))
  }

  /**
   * Every field backed by a variable takes the variable exactly when it is set
   * and non-empty; the endpoint, location and model fields are never empty.
   */
  lemma EnvironmentWins(env: Env)
    ensures var c := Defaults(env);
      && (c.credentials.userid == (if IsSet(env, "SSO_USERNAME") then env["SSO_USERNAME"] else ""))
      && (c.credentials.password == (if IsSet(env, "SSO_PASSWORD") then env["SSO_PASSWORD"] else ""))
      && (c.geminiConfig.ssoUrl == (if IsSet(env, "SSO_URL") then env["SSO_URL"] else DefaultSsoUrl))
      && (c.geminiConfig.geminiApiUrl == (if IsSet(env, "GEMINI_API_URL") then env["GEMINI_API_URL"] else DefaultGeminiApiUrl))
      && (c.geminiConfig.projectId == (if IsSet(env, "GEMINI_PROJECT_ID") then env["GEMINI_PROJECT_ID"] else ""))
      && (c.geminiConfig.location == (if IsSet(env, "GEMINI_LOCATION") then env["GEMINI_LOCATION"] else DefaultLocation))
      && (c.geminiConfig.model == (if IsSet(env, "GEMINI_MODEL") then env["GEMINI_MODEL"] else DefaultModel))
      && c.geminiConfig.ssoUrl != "" && c.geminiConfig.geminiApiUrl != ""
      && c.geminiConfig.location != "" && c.geminiConfig.model != ""
  {
  }

  /** An empty variable counts as unset: it leaves the record as if it were absent. */
  lemma EmptyIsUnset(env: Env, name: string)
    ensures Defaults(env[name := ""]) == Defaults(env - {name})
  {
    var e1, e2 := env[name := ""], env - {name};
    forall v | v in {"SSO_USERNAME", "SSO_PASSWORD", "SSO_URL", "GEMINI_API_URL", "GEMINI_PROJECT_ID",
                     "GEMINI_LOCATION", "GEMINI_MODEL"}
      ensures IsSet(e1, v) == IsSet(e2, v) && (IsSet(e1, v) ==> e1[v] == e2[v])
    {
    }
  }

  /**
   * With `autoApply` the default credentials are complete, and together with
   * the never-empty endpoints they satisfy `isSSOConfigured` once stored.
   */
  lemma AutoApplyMeansConfigured(env: Env, kv: Store)
    requires Defaults(env).autoApply
    ensures var c := Defaults(env);
      IsSsoConfigured(kv[CredentialsKey := CredentialsJson(c.credentials)][ConfigKey := ConfigJson(c.geminiConfig)])
  {
    var c := Defaults(env);
    var kv2 := kv[CredentialsKey := CredentialsJson(c.credentials)][ConfigKey := ConfigJson(c.geminiConfig)];
    assert StoredCredentials(kv2) == Some(c.credentials);
    assert StoredConfig(kv2) == Some(c.geminiConfig);
  }

  /** Without a user name the stored defaults never satisfy `isSSOConfigured`. */
  lemma NoUserNeverConfigured(env: Env, kv: Store)
    requires !IsSet(env, "SSO_USERNAME")
    ensures var c := Defaults(env);
      !IsSsoConfigured(kv[CredentialsKey := CredentialsJson(c.credentials)][ConfigKey := ConfigJson(c.geminiConfig)])
  {
    var c := Defaults(env);
    var kv2 := kv[CredentialsKey := CredentialsJson(c.credentials)][ConfigKey := ConfigJson(c.geminiConfig)];
    assert StoredCredentials(kv2) == Some(c.credentials);
  }
}
