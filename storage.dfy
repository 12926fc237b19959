/**
 * The extension's persistent key-value area (`new Storage()` of
 * `@plasmohq/storage`), held in memory. Every `new Storage()` in the source
 * addresses the same area, so one object stands for all of them.
 */
module PlasmoStorage {
  import opened Wrappers

  /** The storage keys the core uses, each standing for its fixed key string. */
  datatype Key = SsoAccessToken | SsoTokenExpiry | SsoCredentials | GeminiApiConfig | SelectedModel {
    function Name(): string {
      match this
      case SsoAccessToken => "sso_access_token"
      case SsoTokenExpiry => "sso_token_expiry"
      case SsoCredentials => "sso_credentials"
      case GeminiApiConfig => "gemini_api_config"
      case SelectedModel => "selectedModel"
    }
  }

  /** Distinct keys have distinct key strings, so a map over `Key` is a map over the strings. */
  lemma KeyNamesDistinct(a: Key, b: Key)
    requires a != b
    ensures a.Name() != b.Name()
  {
    assert a.Name()[..3] != b.Name()[..3] || a.Name()[4] != b.Name()[4] || |a.Name()| != |b.Name()|;
  }

  class Storage<V> {
    var kv: map<Key, V>

    constructor ()
      ensures kv == map[]
    {
      kv := map[];
    }

    /** `storage.get(key)`; `None` is `undefined`. */
    method Get(key: Key) returns (v: Option<V>)
      ensures v == if key in kv then Some(kv[key]) else None
    {
      v := if key in kv then Some(kv[key]) else None;
    }

    method Set(key: Key, value: V)
      modifies this
      ensures kv == old(kv)[key := value]
    {
      kv := kv[key := value];
    }

    method Remove(key: Key)
      modifies this
      ensures kv == old(kv) - {key}
    {
      kv := kv - {key};
    }
  }
}
