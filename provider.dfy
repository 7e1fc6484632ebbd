/**
 * The provider's `Configure` (internal/provider/provider.go): the URL and the token are each
 * resolved from the configuration, falling back to the environment; an empty value is an error
 * on its own attribute; and only an error-free configuration yields a client, the same one for
 * resources and data sources.
 */
module Provider {
  import opened Wrappers
  import opened Transport
  import opened Tf

  /** `kanidmProviderModel`. */
  datatype ProviderModel = ProviderModel(url: TfValue<string>, token: TfValue<string>)

  /** `os.Getenv`: "" for a variable that is not set. */
  function Getenv(env: map<string, string>, key: string): string {
    if key in env then env[key] else ""
  }

  /** A setting: the configured value unless it is null, otherwise the environment variable. */
  function Resolve(env: map<string, string>, key: string, configured: TfValue<string>): string {
    if configured.Null? then Getenv(env, key) else ValueString(configured)
  }

  function ResolvedUrl(env: map<string, string>, config: ProviderModel): string {
    Resolve(env, "KANIDM_URL", config.url)
  }

  function ResolvedToken(env: map<string, string>, config: ProviderModel): string {
    Resolve(env, "KANIDM_TOKEN", config.token)
  }

  const MissingUrl: Diag := AttributeError("url", "Missing Kanidm URL")
  const MissingToken: Diag := AttributeError("token", "Missing Kanidm Token")

  /** The diagnostics Configure adds: the URL's first, then the token's. */
  function ConfigDiags(env: map<string, string>, config: ProviderModel): seq<Diag> {
    (if ResolvedUrl(env, config) == "" then [MissingUrl] else [])
    + (if ResolvedToken(env, config) == "" then [MissingToken] else [])
  }

  /** A configured value wins over the environment; a null one leaves the environment in charge. */
  lemma ConfigOverridesEnv(env: map<string, string>, key: string, configured: TfValue<string>)
    ensures configured.Known? ==> Resolve(env, key, configured) == configured.value
    ensures configured.Null? && key in env ==> Resolve(env, key, configured) == env[key]
    ensures configured.Null? && key !in env ==> Resolve(env, key, configured) == ""
    ensures configured.Unknown? ==> Resolve(env, key, configured) == ""
  {
  }

  /**
   * Each setting is reported on its own attribute exactly when it resolves to "", nothing else
   * is reported, and a missing URL comes first.
   */
  lemma ConfigDiagsExact(env: map<string, string>, config: ProviderModel)
    ensures MissingUrl in ConfigDiags(env, config) <==> ResolvedUrl(env, config) == ""
    ensures MissingToken in ConfigDiags(env, config) <==> ResolvedToken(env, config) == ""
    ensures forall d :: d in ConfigDiags(env, config) ==> d == MissingUrl || d == MissingToken
    ensures ConfigDiags(env, config) == [] <==> ResolvedUrl(env, config) != "" && ResolvedToken(env, config) != ""
    ensures |ConfigDiags(env, config)| == 2 ==> ConfigDiags(env, config) == [MissingUrl, MissingToken]
  {
    assert MissingUrl != MissingToken;
  }

  /** With neither setting configured nor in the environment, both errors come out of one call. */
  lemma NothingSetReportsBoth(env: map<string, string>)
    requires "KANIDM_URL" !in env && "KANIDM_TOKEN" !in env
    ensures ConfigDiags(env, ProviderModel(Null, Null)) == [MissingUrl, MissingToken]
  {
  }

  /** A value the configuration leaves unknown resolves to "" and is reported, whatever the environment holds. */
  lemma UnknownSettingReported(env: map<string, string>, token: TfValue<string>)
    ensures MissingUrl in ConfigDiags(env, ProviderModel(Unknown, token))
  {
    ConfigDiagsExact(env, ProviderModel(Unknown, token));
  }

  /** `provider.ConfigureResponse`: the diagnostics and the data handed to resources and data sources. */
  class ConfigureResponse {
    var diagnostics: seq<Diag>
    var resourceData: Option<Client>
    var dataSourceData: Option<Client>

    constructor ()
      ensures diagnostics == [] && resourceData.None? && dataSourceData.None?
    {
      diagnostics := [];
      resourceData := None;
      dataSourceData := None;
    }
  }

  /**
   * `Configure`: the diagnostics grow by `ConfigDiags`; if there are any, no client is handed
   * over; otherwise one new client for the resolved URL and token, with the default timeout,
   * becomes both the resource and the data-source data.
   */
  method Configure(env: map<string, string>, config: ProviderModel, resp: ConfigureResponse)
    modifies resp
    ensures resp.diagnostics == old(resp.diagnostics) + ConfigDiags(env, config)
    ensures resp.diagnostics != [] ==>
              resp.resourceData == old(resp.resourceData) && resp.dataSourceData == old(resp.dataSourceData)
    ensures resp.diagnostics == [] ==>
              && resp.resourceData.Some? && resp.dataSourceData == resp.resourceData
              && fresh(resp.resourceData.value)
              && resp.resourceData.value.baseURL == TrimSuffixSlash(ResolvedUrl(env, config))
              && resp.resourceData.value.token == ResolvedToken(env, config)
              && resp.resourceData.value.timeout == DefaultTimeout
  {
    var url := Getenv(env, "KANIDM_URL");
    if !config.url.Null? {
      url := ValueString(config.url);
    }
    if url == "" {
      resp.diagnostics := resp.diagnostics + [MissingUrl];
    }
    var token := Getenv(env, "KANIDM_TOKEN");
    if !config.token.Null? {
      token := ValueString(config.token);
    }
    if token == "" {
      resp.diagnostics := resp.diagnostics + [MissingToken];
    }
    if resp.diagnostics != [] {
      return;
    }
    var apiClient := new Client(url, token, []);
    resp.dataSourceData := Some(apiClient);
    resp.resourceData := Some(apiClient);
  }
}
