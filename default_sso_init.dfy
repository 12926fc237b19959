/**
 * The start-up bootstrap of `src/services/default-sso-init.ts`: unless SSO is
 * already configured, store the default credentials and gateway
 * configuration, create the default provider and its model in the model
 * database (only if that provider does not exist yet), then select the model.
 *
 * The model database is the class `ModelDb` holding the provider table and
 * the model list. Whether a database call fails is the flag passed with it
 * (`Faults`); the storage writes always succeed. `now` stands for `Date.now()`.
 */
module DefaultSsoInit {
  import opened Wrappers
  import opened PlasmoStorage
  import opened SsoAuth
  import opened DefaultSsoConfig

  datatype ProviderConfig = ProviderConfig(model: string, projectId: string, location: string, ssoUrl: string)

  datatype Provider = Provider(
    id: string, provider: string, name: string, baseUrl: string, apiKey: string, dbType: string,
    createdAt: int, config: ProviderConfig)

  datatype ModelRecord = ModelRecord(modelId: string, name: string, providerId: string, modelType: string)

  datatype DbError = DbError

  /** Which of the three database calls of `createDefaultSSOProvider` fail. */
  datatype Faults = Faults(lookupFails: bool, createFails: bool, modelFails: bool)

  /** A write the bootstrap performs, in the order it performs them. */
  datatype Write = CredentialsWritten | ConfigWritten | ProviderCreated | ModelCreated | SelectedModelWritten

  const ProviderId := "sso-gemini-default"

  /** The database as a value. */
  datatype Db = Db(providers: map<string, Provider>, models: seq<ModelRecord>)

  class ModelDb {
    var providers: map<string, Provider>
    var models: seq<ModelRecord>

    constructor ()
      ensures providers == map[] && models == []
    {
      providers, models := map[], [];
    }

    function Value(): Db
      reads this
    {
      Db(providers, models)
    }

    /** `getById`: the provider stored under `id`, if any. */
    method GetById(id: string, fails: bool) returns (r: Result<Option<Provider>, DbError>)
      ensures r == if fails then Err(DbError) else Ok(if id in providers then Some(providers[id]) else None)
    {
      if fails {
        return Err(DbError);
      }
      r := Ok(if id in providers then Some(providers[id]) else None);
    }

    method Create(p: Provider, fails: bool) returns (r: Result<(), DbError>)
      modifies this
      ensures r == if fails then Err(DbError) else Ok(())
      ensures providers == if fails then old(providers) else old(providers)[p.id := p]
      ensures models == old(models)
    {
      if fails {
        return Err(DbError);
      }
      providers := providers[p.id := p];
      r := Ok(());
    }

    /** `createModel`: a new model record under a provider. */
    method CreateModel(m: ModelRecord, fails: bool) returns (r: Result<(), DbError>)
      modifies this
      ensures r == if fails then Err(DbError) else Ok(())
      ensures models == if fails then old(models) else old(models) + [m]
      ensures providers == old(providers)
    {
      if fails {
        return Err(DbError);
      }
      models := models + [m];
      r := Ok(());
    }
  }

  /** The provider record of lines 81-95. */
  function DefaultProvider(c: SsoDefaults, now: int): Provider {
    Provider(ProviderId, "sso-gemini", c.modelConfig.providerName, c.geminiConfig.geminiApiUrl, "sso-token",
             "sso_gemini_provider", now,
             ProviderConfig(c.geminiConfig.model, c.geminiConfig.projectId, c.geminiConfig.location, c.geminiConfig.ssoUrl))
  }

  /** The model record created under the default provider, from the model part of the defaults. */
  function SsoModelRecord(c: SsoDefaults): ModelRecord {
    ModelRecord(c.modelConfig.modelId, c.modelConfig.modelName, ProviderId, c.modelConfig.modelType)
  }

  /** `createDefaultSSOProvider` as a function: its outcome, the new database and the writes made. */
  function CreateSpec(db: Db, c: SsoDefaults, now: int, faults: Faults): (Result<(), DbError>, Db, seq<Write>) {
    if faults.lookupFails then (Err(DbError), db, [])
    else if ProviderId in db.providers then (Ok(()), db, [])
    else if faults.createFails then (Err(DbError), db, [])
    else
      var db1 := Db(db.providers[ProviderId := DefaultProvider(c, now)], db.models);
      if faults.modelFails then (Err(DbError), db1, [ProviderCreated])
      else (Ok(()), Db(db1.providers, db1.models + [SsoModelRecord(c)]), [ProviderCreated, ModelCreated])
  }

  /** `initializeDefaultSSO` as a function: the new store, the new database and the writes, in order. */
  function InitSpec(kv: Store, db: Db, env: Env, now: int, faults: Faults): (Store, Db, seq<Write>) {
    if IsSsoConfigured(kv) then (kv, db, [])
    else
      var c := Defaults(env);
      var kv1 := kv[CredentialsKey := CredentialsJson(c.credentials)][ConfigKey := ConfigJson(c.geminiConfig)];
      var (r, db2, created) := CreateSpec(db, c, now, faults);
      if r.Err? then (kv1, db2, [CredentialsWritten, ConfigWritten] + created)
      else (kv1[SelectedModel := Str(c.modelConfig.modelId)], db2,
            [CredentialsWritten, ConfigWritten] + created + [SelectedModelWritten])
  }

  /** Lines 68-114: skip when the provider exists; create the provider, then its model; rethrow any failure. */
  method CreateDefaultSsoProvider(db: ModelDb, env: Env, now: int, faults: Faults)
    returns (r: Result<(), DbError>, writes: seq<Write>)
    modifies db
    ensures (r, db.Value(), writes) == CreateSpec(old(db.Value()), Defaults(env), now, faults)
  {
    var c := Defaults(env);
    writes := [];
    var existing := db.GetById(ProviderId, faults.lookupFails);
    if existing.Err? {
      return Err(DbError), [];
    }
    if existing.value.Some? {
      return Ok(()), [];
    }
    var created := db.Create(DefaultProvider(c, now), faults.createFails);
    if created.Err? {
      return Err(DbError), [];
    }
    writes := [ProviderCreated];
    var model := db.CreateModel(SsoModelRecord(c), faults.modelFails);
    if model.Err? {
      return Err(DbError), writes;
    }
    writes := writes + [ModelCreated];
    assert writes == [ProviderCreated, ModelCreated];
    r := Ok(());
  }

  /** Lines 119-127. */
  method SetDefaultSelectedModel(st: Storage<Stored>, env: Env)
    modifies st
    ensures st.kv == old(st.kv)[SelectedModel := Str(Defaults(env).modelConfig.modelId)]
  {
    st.Set(SelectedModel, Str(Defaults(env).modelConfig.modelId));
  }

  /** Lines 19-63: never throws; a failed provider creation skips only the model selection. */
  method InitializeDefaultSso(st: Storage<Stored>, db: ModelDb, env: Env, now: int, faults: Faults)
    returns (writes: seq<Write>)
    modifies st, db
    ensures (st.kv, db.Value(), writes) == InitSpec(old(st.kv), old(db.Value()), env, now, faults)
  {
    var configured := IsSsoConfiguredNow(st);
    if configured {
      return [];
    }
    var c := Defaults(env);
    SetSsoCredentials(st, c.credentials);
    SetGeminiConfig(st, c.geminiConfig);
    writes := [CredentialsWritten, ConfigWritten];
    var r, created := CreateDefaultSsoProvider(db, env, now, faults);
    writes := writes + created;
    if r.Err? {
      return;
    }
    SetDefaultSelectedModel(st, env);
    writes := writes + [SelectedModelWritten];
  }

  /** Lines 132-146: configured and the default provider exists; any failure reads as `false`. */
  method IsDefaultSsoInitialized(st: Storage<Stored>, db: ModelDb, lookupFails: bool) returns (b: bool)
    ensures b <==> IsSsoConfigured(st.kv) && !lookupFails && ProviderId in db.providers
  {
    var configured := IsSsoConfiguredNow(st);
    if !configured {
      return false;
    }
    var provider := db.GetById(ProviderId, lookupFails);
    b := provider.Ok? && provider.value.Some?;
  }

  // ---------------------------------------------------------------------
  // Properties

  /** The number of models created under provider `id`. */
  function ModelsUnder(models: seq<ModelRecord>, id: string): nat {
    if models == [] then 0
    else ModelsUnder(models[..|models| - 1], id) + (if models[|models| - 1].providerId == id then 1 else 0)
  }

  /**
   * At most one model under the default provider, and none while that
   * provider does not exist.
   */
  predicate SingleDefault(db: Db) {
    ModelsUnder(db.models, ProviderId) <= 1
    && (ProviderId !in db.providers ==> ModelsUnder(db.models, ProviderId) == 0)
  }

  /** Counting the models under a provider, one appended record at a time. */
  lemma {:induction false} ModelsUnderSnoc(models: seq<ModelRecord>, m: ModelRecord, id: string)
    ensures ModelsUnder(models + [m], id) == ModelsUnder(models, id) + (if m.providerId == id then 1 else 0)
  {
    assert (models + [m])[..|models|] == models;
  }

  /** One provider creation never adds a second default provider or model. */
  lemma CreateKeepsSingleDefault(db: Db, c: SsoDefaults, now: int, faults: Faults)
    requires SingleDefault(db)
    ensures SingleDefault(CreateSpec(db, c, now, faults).1)
  {
    if !faults.lookupFails && ProviderId !in db.providers && !faults.createFails && !faults.modelFails {
      ModelsUnderSnoc(db.models, SsoModelRecord(c), ProviderId);
    }
  }

  /**
   * Runs of the bootstrap, however often repeated and whatever fails, never
   * create a second default provider or a second default model.
   */
  lemma InitKeepsSingleDefault(kv: Store, db: Db, env: Env, now: int, faults: Faults)
    requires SingleDefault(db)
    ensures SingleDefault(InitSpec(kv, db, env, now, faults).1)
  {
    if !IsSsoConfigured(kv) {
      CreateKeepsSingleDefault(db, Defaults(env), now, faults);
    }
  }

  /** Once the default provider exists, a run leaves the database as it is. */
  lemma ExistingProviderNotRecreated(kv: Store, db: Db, env: Env, now: int, faults: Faults)
    requires ProviderId in db.providers && !faults.lookupFails
    ensures InitSpec(kv, db, env, now, faults).1 == db
    ensures ProviderCreated !in InitSpec(kv, db, env, now, faults).2
  {
  }

  function Rank(w: Write): nat {
    match w
    case CredentialsWritten => 0
    case ConfigWritten => 1
    case ProviderCreated => 2
    case ModelCreated => 3
    case SelectedModelWritten => 4
  }

  /**
   * When anything is written, the credentials come first, then the
   * configuration, then the provider, then the model, then the selection,
   * each at most once; a model is only created right after its provider, and
   * the model is selected only when the provider step did not fail.
   */
  lemma WritesInOrder(kv: Store, db: Db, env: Env, now: int, faults: Faults)
    ensures var (kv2, db2, writes) := InitSpec(kv, db, env, now, faults);
      && (writes == [] <==> IsSsoConfigured(kv))
      && (writes != [] ==> |writes| >= 2 && writes[0] == CredentialsWritten && writes[1] == ConfigWritten)
      && (forall i, j :: 0 <= i < j < |writes| ==> Rank(writes[i]) < Rank(writes[j]))
      && (ModelCreated in writes ==> ProviderCreated in writes)
      && (SelectedModelWritten in writes <==>
            !IsSsoConfigured(kv) && CreateSpec(db, Defaults(env), now, faults).0.Ok?)
  {
    if !IsSsoConfigured(kv) {
      var c := Defaults(env);
      var (r, db2, created) := CreateSpec(db, c, now, faults);
      var writes := InitSpec(kv, db, env, now, faults).2;
      var head: seq<Write> := [CredentialsWritten, ConfigWritten];
      if r.Ok? {
        assert writes == head + created + [SelectedModelWritten];
      } else {
        assert writes == head + created;
      }
    }
  }

  /**
   * A provider created by the bootstrap points at the configuration it has
   * just stored: the same gateway URL, model, project, location and SSO URL.
   */
  lemma ProviderMatchesStoredConfig(kv: Store, db: Db, env: Env, now: int, faults: Faults)
    requires ProviderCreated in InitSpec(kv, db, env, now, faults).2
    ensures var (kv2, db2, _) := InitSpec(kv, db, env, now, faults);
      var g := StoredConfig(kv2);
      && g.Some? && ProviderId in db2.providers
      && db2.providers[ProviderId].baseUrl == g.value.geminiApiUrl
      && db2.providers[ProviderId].config == ProviderConfig(g.value.model, g.value.projectId, g.value.location, g.value.ssoUrl)
      && db2.providers[ProviderId].provider == "sso-gemini" && db2.providers[ProviderId].apiKey == "sso-token"
  {
    var c := Defaults(env);
    var kv1 := kv[CredentialsKey := CredentialsJson(c.credentials)][ConfigKey := ConfigJson(c.geminiConfig)];
    assert StoredConfig(kv1) == Some(c.geminiConfig);
    assert StoredConfig(kv1[SelectedModel := Str(c.modelConfig.modelId)]) == Some(c.geminiConfig);
  }
}
