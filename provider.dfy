/**
 * The provider block: null/unknown normalisation of the configured values,
 * the precedence of the kubeconfig path sources, the credential checks, and
 * the two provider fields the configuration writes.
 */
module ProviderConfig {
  import opened Wrappers
  import Strings

  /** Go's `int64`. */
  newtype Int64 = x: int | -0x8000_0000_0000_0000 <= x < 0x8000_0000_0000_0000

  /** The process environment. */
  type Env = map<string, string>

  const KubeConfigPathsVar: string := "KUBE_CONFIG_PATHS"

  /** The separator `filepath.SplitList` uses on Unix. */
  const ListSeparator: char := ':'

  /** The provider block as the framework hands it over. */
  datatype ProviderModel = ProviderModel(
    host: Tf<string>,
    username: Tf<string>,
    password: Tf<string>,
    insecure: Tf<bool>,
    tlsServerName: Tf<string>,
    clientCertificate: Tf<string>,
    clientKey: Tf<string>,
    clusterCaCertificate: Tf<string>,
    configPaths: Tf<seq<string>>,
    configPath: Tf<string>,
    configContext: Tf<string>,
    configContextAuthInfo: Tf<string>,
    configContextCluster: Tf<string>,
    token: Tf<string>,
    proxyUrl: Tf<string>,
    burstLimit: Tf<Int64>)

  /** The plain values `Configure` works with once null and unknown are gone. */
  datatype Settings = Settings(
    host: string,
    username: string,
    password: string,
    insecure: bool,
    tlsServerName: string,
    clientCertificate: string,
    clientKey: string,
    clusterCaCertificate: string,
    configPaths: seq<string>,
    configContext: string,
    configContextAuthInfo: string,
    configContextCluster: string,
    token: string,
    proxyUrl: string,
    burstLimit: Int64)

  datatype ConfigError = CertificateWithoutKey | NoCredentials

  /** `x` is the value of `v` when known, and `zero` when null or unknown. */
  predicate Defaulted<T(==)>(v: Tf<T>, zero: T, x: T) {
    (v.Known? ==> x == v.value) && (v.IsNullOrUnknown() ==> x == zero)
  }

  /**
   * Where the kubeconfig comes from: `config_path` as a one-element list, else
   * `config_paths`, else a non-empty KUBE_CONFIG_PATHS split on the list
   * separator, else nothing.
   */
  function ConfigPaths(model: ProviderModel, env: Env): (paths: seq<string>)
    ensures model.configPath.Known? ==> paths == [model.configPath.value]
    ensures model.configPath.IsNullOrUnknown() && model.configPaths.Known? ==> paths == model.configPaths.value
    ensures model.configPath.IsNullOrUnknown() && model.configPaths.IsNullOrUnknown() ==>
      if KubeConfigPathsVar in env && env[KubeConfigPathsVar] != ""
      then Strings.Join(paths, ListSeparator) == env[KubeConfigPathsVar] && |paths| >= 1
        && forall p :: p in paths ==> ListSeparator !in p
      else paths == []
  {
    if !model.configPath.IsNullOrUnknown() then [model.configPath.value]
    else if !model.configPaths.IsNullOrUnknown() then model.configPaths.value
    else if KubeConfigPathsVar in env && env[KubeConfigPathsVar] != "" then
      Strings.JoinSplit(env[KubeConfigPathsVar], ListSeparator);
      Strings.Split(env[KubeConfigPathsVar], ListSeparator)
    else []
  }

  /** Lines 264-345 of the configuration: every null or unknown value takes its zero value. */
  function Normalise(model: ProviderModel, env: Env): (s: Settings)
    ensures Defaulted(model.host, "", s.host) && Defaulted(model.username, "", s.username)
    ensures Defaulted(model.password, "", s.password) && Defaulted(model.insecure, false, s.insecure)
    ensures Defaulted(model.tlsServerName, "", s.tlsServerName)
    ensures Defaulted(model.clientCertificate, "", s.clientCertificate) && Defaulted(model.clientKey, "", s.clientKey)
    ensures Defaulted(model.clusterCaCertificate, "", s.clusterCaCertificate)
    ensures Defaulted(model.configContext, "", s.configContext)
    ensures Defaulted(model.configContextAuthInfo, "", s.configContextAuthInfo)
    ensures Defaulted(model.configContextCluster, "", s.configContextCluster)
    ensures Defaulted(model.token, "", s.token) && Defaulted(model.proxyUrl, "", s.proxyUrl)
    ensures Defaulted(model.burstLimit, 0, s.burstLimit)
    ensures s.configPaths == ConfigPaths(model, env)
  {
    Settings(
      model.host.ValueOr(""), model.username.ValueOr(""), model.password.ValueOr(""),
      model.insecure.ValueOr(false), model.tlsServerName.ValueOr(""),
      model.clientCertificate.ValueOr(""), model.clientKey.ValueOr(""),
      model.clusterCaCertificate.ValueOr(""), ConfigPaths(model, env),
      model.configContext.ValueOr(""), model.configContextAuthInfo.ValueOr(""),
      model.configContextCluster.ValueOr(""), model.token.ValueOr(""), model.proxyUrl.ValueOr(""),
      model.burstLimit.ValueOr(0))
  }

  /**
   * The credential checks, in order: a certificate without a key (or a key
   * without a certificate) first, then neither a token nor a certificate.
   */
  function Validate(s: Settings): (r: Option<ConfigError>)
    ensures r == Some(CertificateWithoutKey) <==> (s.clientCertificate == "") != (s.clientKey == "")
    ensures r == Some(NoCredentials) <==>
      s.token == "" && s.clientCertificate == "" && s.clientKey == ""
    ensures r.None? <==> (s.clientCertificate != "" && s.clientKey != "") || (s.token != "" && s.clientCertificate == "" && s.clientKey == "")
  {
    if (s.clientCertificate != "" && s.clientKey == "") || (s.clientCertificate == "" && s.clientKey != "") then
      Some(CertificateWithoutKey)
    else if s.token == "" && s.clientCertificate == "" then
      Some(NoCredentials)
    else
      None
  }

  /**
   * The provider instance. `model` and `clientSet` are the configuration kept for
   * the resources and the cached client (true when one has been built); the job
   * resource reads and patches them.
   */
  class Provider {
    var host: string
    var burstLimit: Int64
    var model: ProviderModel
    var clientSet: bool

    constructor (model: ProviderModel)
      ensures host == "" && burstLimit == 0 && this.model == model && !clientSet
    {
      host := "";
      burstLimit := 0;
      this.model := model;
      clientSet := false;
    }

    /**
     * `Configure` up to the field assignment: the host and burst limit are written
     * only when both credential checks pass.
     */
    method Configure(config: ProviderModel, env: Env) returns (err: Option<ConfigError>)
      modifies this
      ensures err == Validate(Normalise(config, env))
      ensures err.None? ==> host == Normalise(config, env).host && burstLimit == Normalise(config, env).burstLimit
      ensures err.Some? ==> host == old(host) && burstLimit == old(burstLimit)
      ensures model == old(model) && clientSet == old(clientSet)
    {
      var s := Normalise(config, env);
      err := Validate(s);
      if err.Some? {
        return;
      }
      host := s.host;
      burstLimit := s.burstLimit;
    }
  }

  /** A configuration that passes the checks has a token or a complete certificate and key. */
  lemma ValidHasCredentials(config: ProviderModel, env: Env)
    requires Validate(Normalise(config, env)).None?
    ensures (config.token.Known? && config.token.value != "")
      || (config.clientCertificate.Known? && config.clientCertificate.value != ""
          && config.clientKey.Known? && config.clientKey.value != "")
  {
  }
}
