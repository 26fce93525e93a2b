/**
 * internal/provider/provider.go: resolving the cluster connection
 * configuration from the provider block, the environment and the kubeconfig
 * loader (`initializeConfiguration`), the post-processing in `Configure`, the
 * lazy client getters of `kubeClientsets`, and `expandStringSlice`.
 *
 * The client-go pieces the code calls into (home-directory expansion, path
 * list splitting, `DefaultServerURL`, and the deferred kubeconfig loader with
 * its merge of files and overrides) are given as functions in a `ClientGo`
 * value; the model says only how the provider's code uses their answers.
 */
module Provider {
  import opened Wrappers

  /**
   * `ValsOperatorProviderModel`, as the code reads it: every string through
   * `ValueString()` (unset is ""), `insecure` through `ValueBool()` (unset is
   * false), and the ignore lists as their elements' text.
   */
  datatype ProviderModel = ProviderModel(
    host: string,
    username: string,
    password: string,
    insecure: bool,
    tlsServerName: string,
    clientCertificate: string,
    clientKey: string,
    clusterCaCertificate: string,
    configPaths: seq<string>,
    configPath: string,
    configContext: string,
    configContextAuthInfo: string,
    configContextCluster: string,
    token: string,
    proxyUrl: string,
    ignoreAnnotations: seq<string>,
    ignoreLabels: seq<string>)

  /** `clientcmd.ClientConfigLoadingRules`: the kubeconfig file or files to load. */
  datatype Loader = Loader(explicitPath: string, precedence: seq<string>)

  /** `clientcmdapi.Context` inside the overrides. */
  datatype ContextOverride = ContextOverride(authInfo: string, cluster: string)

  /** The `ClusterInfo` part of the overrides; PEM data is kept as its text. */
  datatype ClusterOverride = ClusterOverride(
    server: string,
    tlsServerName: string,
    insecureSkipTlsVerify: bool,
    certificateAuthorityData: string)

  /** The `AuthInfo` part of the overrides. */
  datatype AuthOverride = AuthOverride(
    clientCertificateData: string,
    clientKeyData: string,
    token: string,
    username: string,
    password: string)

  /** `clientcmd.ConfigOverrides`, with `ClusterDefaults.ProxyURL` as `proxyUrl`. */
  datatype Overrides = Overrides(
    currentContext: string,
    context: ContextOverride,
    clusterInfo: ClusterOverride,
    authInfo: AuthOverride,
    proxyUrl: string)

  const EmptyLoader := Loader("", [])
  const EmptyOverrides := Overrides("", ContextOverride("", ""),
    ClusterOverride("", "", false, ""), AuthOverride("", "", "", "", ""), "")

  /** The fields of `restclient.Config` the provider itself touches or logs. */
  datatype RestConfig = RestConfig(host: string, userAgent: string)

  /** `&restclient.Config{}`. */
  const EmptyConfig := RestConfig("", "")

  /** The client-go functions `initializeConfiguration` calls. */
  datatype ClientGo = ClientGo(
    /** `homedir.Expand`. */
    expand: string -> Result<string, string>,
    /** `filepath.SplitList` with the platform's list separator. */
    splitList: string -> seq<string>,
    /** `restclient.DefaultServerURL(host, "", GroupVersion{}, defaultTLS)`, rendered with `String()`. */
    defaultServerUrl: (string, bool) -> Result<string, string>,
    /** `NewNonInteractiveDeferredLoadingClientConfig(loader, overrides).ClientConfig()`. */
    clientConfig: (Loader, Overrides) -> Result<RestConfig, string>)

  const KubeConfigPathsVariable := "KUBE_CONFIG_PATHS"

  /** `os.Getenv`: an unset variable reads as "". */
  function Getenv(env: map<string, string>, name: string): string
  {
    if name in env then env[name] else ""
  }

  // ---------------------------------------------------------------------------
  // The reference definition of initializeConfiguration

  /** The kubeconfig paths, before expansion, in order of the sources' precedence. */
  function SelectedPaths(d: ProviderModel, env: map<string, string>, lib: ClientGo): seq<string>
  {
    if d.configPath != "" then [d.configPath]
    else if |d.configPaths| > 0 then d.configPaths
    else if Getenv(env, KubeConfigPathsVariable) != "" then lib.splitList(Getenv(env, KubeConfigPathsVariable))
    else []
  }

  /** Home-expands every path in order; the first failure is the answer. */
  function ExpandAll(paths: seq<string>, expand: string -> Result<string, string>): Result<seq<string>, string>
  {
    if paths == [] then Ok([])
    else
      match ExpandAll(paths[..|paths| - 1], expand)
      case Err(e) => Err(e)
      case Ok(init) =>
        match expand(paths[|paths| - 1])
        case Err(e) => Err(e)
        case Ok(p) => Ok(init + [p])
  }

  /** One path is loaded as the exact file; more than one become the search precedence. */
  function LoaderFor(expanded: seq<string>): Loader
  {
    if |expanded| == 1 then Loader(expanded[0], []) else Loader("", expanded)
  }

  /**
   * The context part of the overrides, applied only when some kubeconfig path
   * was selected.  The code sets each field only when it is non-empty, and
   * its zero value is the empty string, so each is in effect copied.
   */
  function ContextOverrides(d: ProviderModel): Overrides
  {
    EmptyOverrides.(
      currentContext := d.configContext,
      context := ContextOverride(d.configContextAuthInfo, d.configContextCluster))
  }

  /** The scheme default for the explicit host: TLS when any TLS material or `insecure` is given. */
  function DefaultTls(o: Overrides): bool
  {
    |o.clusterInfo.certificateAuthorityData| != 0 || |o.authInfo.clientCertificateData| != 0
    || o.clusterInfo.insecureSkipTlsVerify
  }

  /** The static fields set before the host is resolved: `insecure` always, the TLS material when given. */
  function TlsStage(d: ProviderModel, base: Overrides): Overrides
  {
    base.(
      clusterInfo := base.clusterInfo.(
        insecureSkipTlsVerify := d.insecure,
        tlsServerName := if d.tlsServerName != "" then d.tlsServerName else base.clusterInfo.tlsServerName,
        certificateAuthorityData :=
          if d.clusterCaCertificate != "" then d.clusterCaCertificate else base.clusterInfo.certificateAuthorityData),
      authInfo := base.authInfo.(
        clientCertificateData :=
          if d.clientCertificate != "" then d.clientCertificate else base.authInfo.clientCertificateData))
  }

  /** The static fields set after the host is resolved, each only when given. */
  function CredentialStage(d: ProviderModel, o: Overrides): Overrides
  {
    o.(
      authInfo := o.authInfo.(
        username := if d.username != "" then d.username else o.authInfo.username,
        password := if d.password != "" then d.password else o.authInfo.password,
        clientKeyData := if d.clientKey != "" then d.clientKey else o.authInfo.clientKeyData,
        token := if d.token != "" then d.token else o.authInfo.token),
      proxyUrl := if d.proxyUrl != "" then d.proxyUrl else o.proxyUrl)
  }

  /** The static fields of the provider block, laid over `base` in the order of the code. */
  function StaticOverrides(d: ProviderModel, base: Overrides, lib: ClientGo): Result<Overrides, string>
  {
    var o := TlsStage(d, base);
    if d.host == "" then Ok(CredentialStage(d, o))
    else
      match lib.defaultServerUrl(d.host, DefaultTls(o))
      case Err(e) => Err("failed to parse host: " + e)
      case Ok(server) => Ok(CredentialStage(d, o.(clusterInfo := o.clusterInfo.(server := server))))
  }

  /** What the deferred loader is given. */
  datatype LoaderInputs = LoaderInputs(loader: Loader, overrides: Overrides)

  /** The overrides the static fields are laid over: the context part when some path was selected. */
  function BaseOverrides(d: ProviderModel, paths: seq<string>): Overrides
  {
    if |paths| > 0 then ContextOverrides(d) else EmptyOverrides
  }

  /** The loader rules and the overrides, or the error that stops before the loader runs. */
  function ResolveInputs(d: ProviderModel, env: map<string, string>, lib: ClientGo): Result<LoaderInputs, string>
  {
    var paths := SelectedPaths(d, env, lib);
    var expanded := ExpandAll(paths, lib.expand);
    if expanded.Err? then Err(expanded.error)
    else
      var loader := if |paths| > 0 then LoaderFor(expanded.value) else EmptyLoader;
      match StaticOverrides(d, BaseOverrides(d, paths), lib)
      case Err(e) => Err(e)
      case Ok(o) => Ok(LoaderInputs(loader, o))
  }

  /**
   * `initializeConfiguration`: an error, no configuration (the loader failed,
   * which is not reported as an error), or the loaded configuration.
   */
  function Resolve(d: ProviderModel, env: map<string, string>, lib: ClientGo): Result<Option<RestConfig>, string>
  {
    match ResolveInputs(d, env, lib)
    case Err(e) => Err(e)
    case Ok(inputs) =>
      match lib.clientConfig(inputs.loader, inputs.overrides)
      case Err(_) => Ok(None)
      case Ok(cfg) => Ok(Some(cfg))
  }

  // ---------------------------------------------------------------------------
  // Properties of the resolution

  /** Expansion succeeds exactly when every path expands, and it keeps length and order. */
  lemma {:induction false} ExpandAllAllOrNothing(paths: seq<string>, expand: string -> Result<string, string>)
    ensures ExpandAll(paths, expand).Ok? <==> forall i | 0 <= i < |paths| :: expand(paths[i]).Ok?
    ensures ExpandAll(paths, expand).Ok? ==>
      && |ExpandAll(paths, expand).value| == |paths|
      && forall i | 0 <= i < |paths| :: ExpandAll(paths, expand).value[i] == expand(paths[i]).value
    ensures ExpandAll(paths, expand).Err? ==>
      exists i | 0 <= i < |paths| :: expand(paths[i]) == Err(ExpandAll(paths, expand).error)
  {
    if paths != [] {
      var init := paths[..|paths| - 1];
      ExpandAllAllOrNothing(init, expand);
      if ExpandAll(init, expand).Err? {
        var i :| 0 <= i < |init| && expand(init[i]) == Err(ExpandAll(init, expand).error);
        assert expand(paths[i]) == Err(ExpandAll(paths, expand).error);
      }
      assert forall i | 0 <= i < |init| :: init[i] == paths[i];
    }
  }

  /**
   * The loader a successful resolution ends up with: nothing without paths,
   * the one expanded file as the exact path, or all expanded files in order
   * as the search precedence.
   */
  lemma LoaderFromPaths(d: ProviderModel, env: map<string, string>, lib: ClientGo)
    requires ResolveInputs(d, env, lib).Ok?
    ensures var paths := SelectedPaths(d, env, lib);
      var loader := ResolveInputs(d, env, lib).value.loader;
      && (|paths| == 0 ==> loader == EmptyLoader)
      && (|paths| == 1 ==> lib.expand(paths[0]).Ok? && loader == Loader(lib.expand(paths[0]).value, []))
      && (|paths| >= 2 ==>
           && loader.explicitPath == ""
           && |loader.precedence| == |paths|
           && forall i | 0 <= i < |paths| ::
                lib.expand(paths[i]).Ok? && loader.precedence[i] == lib.expand(paths[i]).value)
  {
    ExpandAllAllOrNothing(SelectedPaths(d, env, lib), lib.expand);
  }

  /**
   * Path source precedence, first step: a non-empty `config_path` is used
   * alone; `config_paths` and the environment are not consulted.
   */
  lemma ConfigPathWins(d: ProviderModel, env: map<string, string>, lib: ClientGo)
    requires d.configPath != ""
    ensures SelectedPaths(d, env, lib) == [d.configPath]
    ensures Resolve(d, env, lib) == Resolve(d.(configPaths := []), map[], lib)
  {
    assert SelectedPaths(d, env, lib) == SelectedPaths(d.(configPaths := []), map[], lib);
    assert BaseOverrides(d, [d.configPath]) == BaseOverrides(d.(configPaths := []), [d.configPath]);
    assert StaticOverrides(d, BaseOverrides(d, [d.configPath]), lib)
        == StaticOverrides(d.(configPaths := []), BaseOverrides(d, [d.configPath]), lib);
  }

  /** Second step: otherwise a non-empty `config_paths` list is used and the environment is not read. */
  lemma ConfigPathsListNext(d: ProviderModel, env: map<string, string>, lib: ClientGo)
    requires d.configPath == "" && |d.configPaths| > 0
    ensures SelectedPaths(d, env, lib) == d.configPaths
    ensures Resolve(d, env, lib) == Resolve(d, map[], lib)
  {
    assert SelectedPaths(d, env, lib) == SelectedPaths(d, map[], lib);
  }

  /**
   * Last step: with neither attribute set, a non-empty `KUBE_CONFIG_PATHS`
   * behaves exactly as a `config_paths` list holding its split parts (also
   * when it splits into no parts at all).
   */
  lemma EnvironmentPathsLast(d: ProviderModel, env: map<string, string>, lib: ClientGo)
    requires d.configPath == "" && |d.configPaths| == 0
    requires Getenv(env, "KUBE_CONFIG_PATHS") != ""
    ensures var listed := d.(configPaths := lib.splitList(Getenv(env, "KUBE_CONFIG_PATHS")));
      Resolve(d, env, lib) == Resolve(listed, map[], lib)
  {
    var listed := d.(configPaths := lib.splitList(Getenv(env, "KUBE_CONFIG_PATHS")));
    var paths := SelectedPaths(d, env, lib);
    assert paths == SelectedPaths(listed, map[], lib);
    assert BaseOverrides(d, paths) == BaseOverrides(listed, paths);
    assert StaticOverrides(d, BaseOverrides(d, paths), lib) == StaticOverrides(listed, BaseOverrides(d, paths), lib);
  }

  /** With no source of paths at all the loader rules are empty and the context fields are ignored. */
  lemma NoPathsNoContext(d: ProviderModel, env: map<string, string>, lib: ClientGo)
    requires d.configPath == "" && |d.configPaths| == 0 && Getenv(env, "KUBE_CONFIG_PATHS") == ""
    ensures Resolve(d, env, lib) == Resolve(d.(configContext := "", configContextAuthInfo := "", configContextCluster := ""), env, lib)
    ensures ResolveInputs(d, env, lib).Ok? ==>
      && ResolveInputs(d, env, lib).value.loader == EmptyLoader
      && ResolveInputs(d, env, lib).value.overrides.currentContext == ""
      && ResolveInputs(d, env, lib).value.overrides.context == ContextOverride("", "")
  {
    var d' := d.(configContext := "", configContextAuthInfo := "", configContextCluster := "");
    assert SelectedPaths(d, env, lib) == [] == SelectedPaths(d', env, lib);
    assert StaticOverrides(d, EmptyOverrides, lib) == StaticOverrides(d', EmptyOverrides, lib);
  }

  /** Any failing expansion of a selected path makes the whole resolution fail with an expansion error. */
  lemma ExpansionFailureIsAnError(d: ProviderModel, env: map<string, string>, lib: ClientGo, i: int)
    requires 0 <= i < |SelectedPaths(d, env, lib)|
    requires lib.expand(SelectedPaths(d, env, lib)[i]).Err?
    ensures Resolve(d, env, lib).Err?
    ensures exists j | 0 <= j < |SelectedPaths(d, env, lib)| ::
      lib.expand(SelectedPaths(d, env, lib)[j]) == Err(Resolve(d, env, lib).error)
  {
    ExpandAllAllOrNothing(SelectedPaths(d, env, lib), lib.expand);
  }

  /**
   * The static overlay over the base overrides: `insecure` is always copied,
   * even when false; every other field takes the provider block's value when
   * it is non-empty and keeps the base value otherwise; the context part is
   * never touched.
   */
  lemma StaticFieldsOverlay(d: ProviderModel, base: Overrides, lib: ClientGo)
    requires StaticOverrides(d, base, lib).Ok?
    ensures var o := StaticOverrides(d, base, lib).value;
      && o.currentContext == base.currentContext && o.context == base.context
      && o.clusterInfo.insecureSkipTlsVerify == d.insecure
      && o.clusterInfo.tlsServerName == (if d.tlsServerName != "" then d.tlsServerName else base.clusterInfo.tlsServerName)
      && o.clusterInfo.certificateAuthorityData ==
           (if d.clusterCaCertificate != "" then d.clusterCaCertificate else base.clusterInfo.certificateAuthorityData)
      && o.authInfo.clientCertificateData ==
           (if d.clientCertificate != "" then d.clientCertificate else base.authInfo.clientCertificateData)
      && o.authInfo.username == (if d.username != "" then d.username else base.authInfo.username)
      && o.authInfo.password == (if d.password != "" then d.password else base.authInfo.password)
      && o.authInfo.clientKeyData == (if d.clientKey != "" then d.clientKey else base.authInfo.clientKeyData)
      && o.authInfo.token == (if d.token != "" then d.token else base.authInfo.token)
      && o.proxyUrl == (if d.proxyUrl != "" then d.proxyUrl else base.proxyUrl)
  {
  }

  /**
   * Host handling over empty TLS material in the base: no host leaves the
   * server as it was; a given host is resolved with TLS as the default
   * exactly when CA data, a client certificate or `insecure` is given, and a
   * parse failure is the error of the whole overlay.
   */
  lemma HostResolution(d: ProviderModel, base: Overrides, lib: ClientGo)
    requires base.clusterInfo.certificateAuthorityData == "" && base.authInfo.clientCertificateData == ""
    ensures var tls := d.clusterCaCertificate != "" || d.clientCertificate != "" || d.insecure;
      && (d.host == "" ==>
            StaticOverrides(d, base, lib).Ok? && StaticOverrides(d, base, lib).value.clusterInfo.server == base.clusterInfo.server)
      && (d.host != "" && lib.defaultServerUrl(d.host, tls).Err? ==>
            StaticOverrides(d, base, lib) == Err("failed to parse host: " + lib.defaultServerUrl(d.host, tls).error))
      && (d.host != "" && lib.defaultServerUrl(d.host, tls).Ok? ==>
            StaticOverrides(d, base, lib).Ok?
            && StaticOverrides(d, base, lib).value.clusterInfo.server == lib.defaultServerUrl(d.host, tls).value)
  {
    assert DefaultTls(TlsStage(d, base)) == (d.clusterCaCertificate != "" || d.clientCertificate != "" || d.insecure);
  }

  /**
   * The client key, the token, the username, the password and the proxy are
   * set after the host is resolved: they neither decide whether the overlay
   * fails nor change the cluster part.
   */
  lemma CredentialsDoNotAffectHost(d: ProviderModel, base: Overrides, lib: ClientGo, key: string, token: string, user: string)
    ensures var d' := d.(clientKey := key, token := token, username := user);
      && StaticOverrides(d, base, lib).Ok? == StaticOverrides(d', base, lib).Ok?
      && (StaticOverrides(d, base, lib).Ok? ==>
            StaticOverrides(d, base, lib).value.clusterInfo == StaticOverrides(d', base, lib).value.clusterInfo)
  {
    var d' := d.(clientKey := key, token := token, username := user);
    assert TlsStage(d, base) == TlsStage(d', base);
  }

  /** A successful resolution lays the static fields over the base the selected paths call for. */
  lemma ResolvedOverrides(d: ProviderModel, env: map<string, string>, lib: ClientGo)
    requires ResolveInputs(d, env, lib).Ok?
    ensures var base := BaseOverrides(d, SelectedPaths(d, env, lib));
      StaticOverrides(d, base, lib) == Ok(ResolveInputs(d, env, lib).value.overrides)
  {
  }

  /** A failing loader is not an error: the resolution yields no configuration. */
  lemma LoaderFailureYieldsNoConfig(d: ProviderModel, env: map<string, string>, lib: ClientGo)
    requires ResolveInputs(d, env, lib).Ok?
    ensures var inputs := ResolveInputs(d, env, lib).value;
      lib.clientConfig(inputs.loader, inputs.overrides).Err? <==> Resolve(d, env, lib) == Ok(None)
  {
  }

  // ---------------------------------------------------------------------------
  // The imperative code

  /** `initializeConfiguration`: the paths, their expansion, the loader rules, then the overrides. */
  method InitializeConfiguration(d: ProviderModel, env: map<string, string>, lib: ClientGo)
    returns (r: Result<Option<RestConfig>, string>)
    ensures r == Resolve(d, env, lib)
  {
    var overrides := EmptyOverrides;
    var loader := EmptyLoader;

    var configPaths := CollectPaths(d, env, lib);

    if |configPaths| > 0 {
      var expanded := ExpandPaths(configPaths, lib.expand);
      if expanded.Err? {
        return Err(expanded.error);
      }
      var expandedPaths := expanded.value;
      if |expandedPaths| == 1 {
        loader := loader.(explicitPath := expandedPaths[0]);
      } else {
        loader := loader.(precedence := expandedPaths);
      }

      var kubectx := d.configContext;
      var authInfo := d.configContextAuthInfo;
      var cluster := d.configContextCluster;
      if kubectx != "" || authInfo != "" || cluster != "" {
        if kubectx != "" {
          overrides := overrides.(currentContext := kubectx);
        }
        overrides := overrides.(context := ContextOverride("", ""));
        if authInfo != "" {
          overrides := overrides.(context := overrides.context.(authInfo := authInfo));
        }
        if cluster != "" {
          overrides := overrides.(context := overrides.context.(cluster := cluster));
        }
      }
    }
    assert overrides == BaseOverrides(d, configPaths);

    var overlaid := ApplyStaticFields(d, overrides, lib);
    if overlaid.Err? {
      return Err(overlaid.error);
    }
    overrides := overlaid.value;

    var cfg := lib.clientConfig(loader, overrides);
    if cfg.Err? {
      return Ok(None);
    }
    r := Ok(Some(cfg.value));
  }

  /** The kubeconfig paths of `initializeConfiguration`, copying a `config_paths` list element by element. */
  method CollectPaths(d: ProviderModel, env: map<string, string>, lib: ClientGo) returns (configPaths: seq<string>)
    ensures configPaths == SelectedPaths(d, env, lib)
  {
    configPaths := [];
    if d.configPath != "" {
      configPaths := [d.configPath];
    } else if |d.configPaths| > 0 {
      for i := 0 to |d.configPaths|
        invariant configPaths == d.configPaths[..i]
      {
        configPaths := configPaths + [d.configPaths[i]];
      }
      assert d.configPaths[..|d.configPaths|] == d.configPaths;
    } else if Getenv(env, KubeConfigPathsVariable) != "" {
      configPaths := lib.splitList(Getenv(env, KubeConfigPathsVariable));
    }
  }

  /** The expansion loop of `initializeConfiguration`: it returns the first expansion error. */
  method ExpandPaths(configPaths: seq<string>, expand: string -> Result<string, string>)
    returns (r: Result<seq<string>, string>)
    ensures r == ExpandAll(configPaths, expand)
  {
    var expandedPaths: seq<string> := [];
    for i := 0 to |configPaths|
      invariant ExpandAll(configPaths[..i], expand) == Ok(expandedPaths)
    {
      assert configPaths[..i + 1][..i] == configPaths[..i];
      var path := expand(configPaths[i]);
      if path.Err? {
        ExpandFailurePropagates(configPaths, i + 1, expand);
        return Err(path.error);
      }
      expandedPaths := expandedPaths + [path.value];
    }
    assert configPaths[..|configPaths|] == configPaths;
    r := Ok(expandedPaths);
  }

  /** "Overriding with static configuration": the provider block's fields laid over `overrides`. */
  method ApplyStaticFields(d: ProviderModel, overrides: Overrides, lib: ClientGo) returns (r: Result<Overrides, string>)
    ensures r == StaticOverrides(d, overrides, lib)
  {
    var o := ApplyTlsFields(d, overrides);
    if d.host != "" {
      var hasCa := |o.clusterInfo.certificateAuthorityData| != 0;
      var hasCert := |o.authInfo.clientCertificateData| != 0;
      var defaultTls := hasCa || hasCert || o.clusterInfo.insecureSkipTlsVerify;
      var host := lib.defaultServerUrl(d.host, defaultTls);
      if host.Err? {
        return Err("failed to parse host: " + host.error);
      }
      o := o.(clusterInfo := o.clusterInfo.(server := host.value));
    }
    o := ApplyCredentials(d, o);
    r := Ok(o);
  }

  /** The static fields set before the host: `insecure` unconditionally, the rest when non-empty. */
  method ApplyTlsFields(d: ProviderModel, overrides: Overrides) returns (o: Overrides)
    ensures o == TlsStage(d, overrides)
  {
    o := overrides;
    o := o.(clusterInfo := o.clusterInfo.(insecureSkipTlsVerify := d.insecure));
    if d.tlsServerName != "" {
      o := o.(clusterInfo := o.clusterInfo.(tlsServerName := d.tlsServerName));
    }
    if d.clusterCaCertificate != "" {
      o := o.(clusterInfo := o.clusterInfo.(certificateAuthorityData := d.clusterCaCertificate));
    }
    if d.clientCertificate != "" {
      o := o.(authInfo := o.authInfo.(clientCertificateData := d.clientCertificate));
    }
  }

  /** The static fields set after the host, each when non-empty. */
  method ApplyCredentials(d: ProviderModel, overrides: Overrides) returns (o: Overrides)
    ensures o == CredentialStage(d, overrides)
  {
    var auth := overrides.authInfo;
    if d.username != "" {
      auth := auth.(username := d.username);
    }
    if d.password != "" {
      auth := auth.(password := d.password);
    }
    if d.clientKey != "" {
      auth := auth.(clientKeyData := d.clientKey);
    }
    if d.token != "" {
      auth := auth.(token := d.token);
    }
    o := overrides.(authInfo := auth);
    if d.proxyUrl != "" {
      o := o.(proxyUrl := d.proxyUrl);
    }
  }

  /** A failure while expanding a prefix is the failure of the whole list. */
  lemma {:induction false} ExpandFailurePropagates(paths: seq<string>, n: nat, expand: string -> Result<string, string>)
    requires n <= |paths|
    requires ExpandAll(paths[..n], expand).Err?
    ensures ExpandAll(paths, expand) == ExpandAll(paths[..n], expand)
    decreases |paths| - n
  {
    if n < |paths| {
      assert paths[..n + 1][..n] == paths[..n];
      ExpandFailurePropagates(paths, n + 1, expand);
    } else {
      assert paths[..n] == paths;
    }
  }

  // ---------------------------------------------------------------------------
  // Configure and the client handles

  /** An opaque client handle, built by client-go from a configuration. */
  datatype Handle = Handle(id: nat)

  /**
   * `kubeClientsets`: the configuration, the cached handles (all nil after
   * Configure) and the ignore lists.
   */
  datatype ClientSets = ClientSets(
    config: Option<RestConfig>,
    mainClientset: Option<Handle>,
    aggregatorClientset: Option<Handle>,
    dynamicClient: Option<Handle>,
    discoveryClient: Option<Handle>,
    ignoreAnnotations: seq<string>,
    ignoreLabels: seq<string>)

  datatype ConfigureError = ConfigureError(summary: string, detail: string)

  function UserAgent(terraformVersion: string): string
  {
    "HashiCorp/1.0 Terraform/" + terraformVersion
  }

  /**
   * `Configure` after the provider block is read: an invalid configuration is
   * an error diagnostic; a missing one is replaced by the empty configuration;
   * the user agent is always stamped; no client is built yet.  The ignore
   * lists are those the code builds: every ignored label is appended to the
   * annotations list and the labels list stays empty (see Findings in the
   * README, and `CollectIgnoreListsIntended` for the evidently intended lists).
   */
  function ConfigureSpec(d: ProviderModel, env: map<string, string>, terraformVersion: string, lib: ClientGo)
    : (r: Result<ClientSets, ConfigureError>)
    ensures r.Err? <==> Resolve(d, env, lib).Err?
    ensures r.Err? ==> r.error == ConfigureError("Kubernetes config", "The Kubernetes access config is not correct")
    ensures r.Ok? ==>
      && r.value.config.Some?
      && r.value.config.value.userAgent == UserAgent(terraformVersion)
      && r.value.config.value.host ==
           (if Resolve(d, env, lib).value.Some? then Resolve(d, env, lib).value.value.host else "")
    ensures r.Ok? ==> forall kind :: Cached(r.value, kind).None?
    ensures r.Ok? ==> r.value.ignoreAnnotations == d.ignoreAnnotations + d.ignoreLabels
    ensures r.Ok? ==> r.value.ignoreLabels == []
  {
    match Resolve(d, env, lib)
    case Err(_) => Err(ConfigureError("Kubernetes config", "The Kubernetes access config is not correct"))
    case Ok(cfg) =>
      var base := if cfg.Some? then cfg.value else EmptyConfig;
      Ok(ClientSets(Some(base.(userAgent := UserAgent(terraformVersion))), None, None, None, None,
                    d.ignoreAnnotations + d.ignoreLabels, []))
  }

  /** The steps of `Configure`, with the two ignore-list loops as written. */
  method Configure(d: ProviderModel, env: map<string, string>, terraformVersion: string, lib: ClientGo)
    returns (r: Result<ClientSets, ConfigureError>)
    ensures r == ConfigureSpec(d, env, terraformVersion, lib)
  {
    var cfg := InitializeConfiguration(d, env, lib);
    if cfg.Err? {
      return Err(ConfigureError("Kubernetes config", "The Kubernetes access config is not correct"));
    }
    var config := if cfg.value.None? then EmptyConfig else cfg.value.value;
    config := config.(userAgent := UserAgent(terraformVersion));

    var ignoreAnnotations, ignoreLabels := CollectIgnoreLists(d.ignoreAnnotations, d.ignoreLabels);

    r := Ok(ClientSets(Some(config), None, None, None, None, ignoreAnnotations, ignoreLabels));
  }

  /**
   * The two loops of `Configure` that copy `ignore_annotations` and
   * `ignore_labels`, as written: the second loop appends to the annotations
   * list too, so the labels list stays empty.
   */
  method CollectIgnoreLists(annotations: seq<string>, labels: seq<string>)
    returns (ignoreAnnotations: seq<string>, ignoreLabels: seq<string>)
    ensures ignoreAnnotations == annotations + labels
    ensures ignoreLabels == []
  {
    ignoreAnnotations := [];
    ignoreLabels := [];
    for i := 0 to |annotations|
      invariant ignoreAnnotations == annotations[..i]
    {
      ignoreAnnotations := ignoreAnnotations + [annotations[i]];
    }
    assert annotations[..|annotations|] == annotations;
    for i := 0 to |labels|
      invariant ignoreAnnotations == annotations + labels[..i]
    {
      ignoreAnnotations := ignoreAnnotations + [labels[i]];
    }
    assert labels[..|labels|] == labels;
  }

  /** The lists the two loops were evidently meant to build: each attribute into its own list. */
  method CollectIgnoreListsIntended(annotations: seq<string>, labels: seq<string>)
    returns (ignoreAnnotations: seq<string>, ignoreLabels: seq<string>)
    ensures ignoreAnnotations == annotations
    ensures ignoreLabels == labels
  {
    ignoreAnnotations := [];
    ignoreLabels := [];
    for i := 0 to |annotations|
      invariant ignoreAnnotations == annotations[..i]
    {
      ignoreAnnotations := ignoreAnnotations + [annotations[i]];
    }
    assert annotations[..|annotations|] == annotations;
    for i := 0 to |labels|
      invariant ignoreLabels == labels[..i]
    {
      ignoreLabels := ignoreLabels + [labels[i]];
    }
    assert labels[..|labels|] == labels;
  }

  /**
   * With one ignored label and no ignored annotations, the code as written
   * reports the label as an ignored annotation and ignores no label, where
   * the intended loops keep it a label.
   */
  method LabelsLandInAnnotations() returns (asWritten: (seq<string>, seq<string>), intended: (seq<string>, seq<string>))
    ensures asWritten == (["app"], [])
    ensures intended == ([], ["app"])
    ensures asWritten != intended
  {
    var a, l := CollectIgnoreLists([], ["app"]);
    assert a == [] + ["app"] == ["app"];
    asWritten := (a, l);
    var a', l' := CollectIgnoreListsIntended([], ["app"]);
    intended := (a', l');
  }

  /** The four lazily built clients of `kubeClientsets`. */
  datatype ClientKind = MainClient | AggregatorClient | DynamicClient | DiscoveryClient

  function Cached(k: ClientSets, kind: ClientKind): Option<Handle>
  {
    match kind
    case MainClient => k.mainClientset
    case AggregatorClient => k.aggregatorClientset
    case DynamicClient => k.dynamicClient
    case DiscoveryClient => k.discoveryClient
  }

  function BuildErrorPrefix(kind: ClientKind): string
  {
    match kind
    case MainClient => "Failed to configure client: "
    case AggregatorClient => "Failed to configure client: "
    case DynamicClient => "Failed to configure dynamic client: "
    case DiscoveryClient => "Failed to configure discovery client: "
  }

  /**
   * `MainClientset`, `AggregatorClientset`, `DynamicClient` and
   * `DiscoveryClient`: a cached handle is returned as it is; with no
   * configuration the answer is nil with no error; otherwise a new client is
   * built.  The getters have value receivers, so the handle they build is not
   * kept: the clientsets value is the same after the call.
   */
  function GetClient(k: ClientSets, kind: ClientKind, build: RestConfig -> Result<Handle, string>)
    : (r: Result<Option<Handle>, string>)
    ensures Cached(k, kind).Some? ==> r == Ok(Cached(k, kind))
    ensures Cached(k, kind).None? && k.config.None? ==> r == Ok(None)
    ensures r.Err? <==> Cached(k, kind).None? && k.config.Some? && build(k.config.value).Err?
    ensures Cached(k, kind).None? && k.config.Some? && build(k.config.value).Err? ==>
      r.error == BuildErrorPrefix(kind) + build(k.config.value).error
    ensures Cached(k, kind).None? && k.config.Some? && build(k.config.value).Ok? ==>
      r == Ok(Some(build(k.config.value).value))
  {
    match Cached(k, kind)
    case Some(h) => Ok(Some(h))
    case None =>
      match k.config
      case None => Ok(None)
      case Some(cfg) =>
        match build(cfg)
        case Err(e) => Err(BuildErrorPrefix(kind) + e)
        case Ok(h) => Ok(Some(h))
  }

  /** `RestClientConfig`: the configuration, never an error. */
  function RestClientConfig(k: ClientSets): (r: Result<Option<RestConfig>, string>)
    ensures r.Ok? && r.value == k.config
  {
    Ok(k.config)
  }

  /**
   * After a successful Configure nothing is cached and the configuration is
   * set, so every getter builds a fresh client from the stamped configuration:
   * it fails exactly when that build fails, with the getter's own message
   * prefix, and otherwise returns the built handle.
   */
  lemma ConfiguredGettersBuild(d: ProviderModel, env: map<string, string>, v: string, lib: ClientGo,
                               kind: ClientKind, build: RestConfig -> Result<Handle, string>)
    requires ConfigureSpec(d, env, v, lib).Ok?
    ensures var k := ConfigureSpec(d, env, v, lib).value;
      && k.config.Some?
      && RestClientConfig(k) == Ok(k.config)
      && k.config.value.userAgent == UserAgent(v)
      && var cfg := k.config.value;
      && (GetClient(k, kind, build).Err? <==> build(cfg).Err?)
      && (build(cfg).Err? ==> GetClient(k, kind, build).error == BuildErrorPrefix(kind) + build(cfg).error)
      && (build(cfg).Ok? ==> GetClient(k, kind, build) == Ok(Some(build(cfg).value)))
  {
    var k := ConfigureSpec(d, env, v, lib).value;
    assert Cached(k, kind).None?;
  }

  /**
   * `expandStringSlice`: one string per element, in place; a nil element (the
   * parser's rendering of an empty string) becomes "".
   */
  method ExpandStringSlice(s: seq<Option<string>>) returns (result: seq<string>)
    ensures |result| == |s|
    ensures forall k | 0 <= k < |s| :: result[k] == (if s[k].None? then "" else s[k].value)
  {
    var a := new string[|s|];
    for k := 0 to |s|
      invariant forall j | 0 <= j < k :: a[j] == (if s[j].None? then "" else s[j].value)
    {
      if s[k].None? {
        a[k] := "";
      } else {
        a[k] := s[k].value;
      }
    }
    result := a[..];
  }
}
