/** Configuration lookup and the credential gate (app.py:17-46). */
module Config {
  import opened Wrappers

  /** A string-keyed store: the process environment, or the secrets store. */
  type Store = map<string, string>

  const EndpointKey := "AZURE_OAI_ENDPOINT"
  const ApiKeyKey := "AZURE_OAI_KEY"
  const DeploymentKey := "AZURE_OAI_DEPLOYMENT"
  const DefaultDeployment := "gpt-4o-mini"

  /** `os.getenv(key)`: the value when the key is set, `None` otherwise. */
  function Lookup(m: Store, key: string): Option<string>
  {
    if key in m then Some(m[key]) else None
  }

  /** `get_config`: a non-empty environment value wins; otherwise the secrets value when
      the key is there (even an empty one); otherwise the default. */
  function GetConfig(env: Store, secrets: Store, key: string, default: Option<string>): (r: Option<string>)
    ensures key in env && env[key] != "" ==> r == Some(env[key])
    ensures (key !in env || env[key] == "") && key in secrets ==> r == Some(secrets[key])
    ensures (key !in env || env[key] == "") && key !in secrets ==> r == default
  {
    var v := Lookup(env, key);
    if Truthy(v) then v
    else if key in secrets then Some(secrets[key])
    else default
  }

  /** An environment value that is set but empty behaves exactly like an unset one. */
  lemma EmptyEnvFallsThrough(env: Store, secrets: Store, key: string, default: Option<string>)
    ensures GetConfig(env[key := ""], secrets, key, default) == GetConfig(env - {key}, secrets, key, default)
  {
  }

  /** The result is the environment value, the secrets value or the default: it is never made up. */
  lemma GetConfigProvenance(env: Store, secrets: Store, key: string, default: Option<string>)
    ensures var r := GetConfig(env, secrets, key, default);
      r == default || (key in env && r == Some(env[key])) || (key in secrets && r == Some(secrets[key]))
  {
  }

  /** The resolved connection settings once the gate has let the script through. */
  datatype Settings = Settings(endpoint: string, apiKey: string, deployment: string)

  /** The configuration error shown before `st.stop()`. */
  datatype ConfigError = MissingCredentials

  /** Lines 34-46: resolve endpoint, key and deployment; stop unless endpoint and key are both truthy. */
  function Startup(env: Store, secrets: Store): (r: Result<Settings, ConfigError>)
    ensures r.Ok? <==> Truthy(GetConfig(env, secrets, EndpointKey, None)) && Truthy(GetConfig(env, secrets, ApiKeyKey, None))
    ensures r.Ok? ==> r.value.endpoint != "" && r.value.apiKey != ""
    ensures r.Ok? ==> Some(r.value.endpoint) == GetConfig(env, secrets, EndpointKey, None)
    ensures r.Ok? ==> Some(r.value.apiKey) == GetConfig(env, secrets, ApiKeyKey, None)
    ensures r.Ok? ==> Some(r.value.deployment) == GetConfig(env, secrets, DeploymentKey, Some(DefaultDeployment))
  {
    var endpoint := GetConfig(env, secrets, EndpointKey, None);
    var apiKey := GetConfig(env, secrets, ApiKeyKey, None);
    var deployment := GetConfig(env, secrets, DeploymentKey, Some(DefaultDeployment));
    if !Truthy(endpoint) || !Truthy(apiKey) then Err(MissingCredentials)
    else Ok(Settings(endpoint.value, apiKey.value, deployment.value))
  }

  /** Non-empty endpoint and key in the environment open the gate whatever the secrets hold. */
  lemma EnvironmentCredentialsSuffice(env: Store, secrets: Store)
    requires EndpointKey in env && env[EndpointKey] != ""
    requires ApiKeyKey in env && env[ApiKeyKey] != ""
    ensures Startup(env, secrets).Ok?
    ensures Startup(env, secrets).value.endpoint == env[EndpointKey]
    ensures Startup(env, secrets).value.apiKey == env[ApiKeyKey]
  {
  }

  /** A key that neither store provides (or that both leave empty) closes the gate. */
  lemma MissingCredentialStops(env: Store, secrets: Store, key: string)
    requires key == EndpointKey || key == ApiKeyKey
    requires key !in env || env[key] == ""
    requires key !in secrets || secrets[key] == ""
    ensures Startup(env, secrets) == Err(MissingCredentials)
  {
  }

  /** With no deployment configured anywhere, the deployment name is "gpt-4o-mini". */
  lemma DeploymentDefaultsToMini(env: Store, secrets: Store)
    requires DeploymentKey !in env && DeploymentKey !in secrets
    requires Startup(env, secrets).Ok?
    ensures Startup(env, secrets).value.deployment == DefaultDeployment
  {
  }
}
