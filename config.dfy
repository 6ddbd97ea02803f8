/** Client construction for a Kubernetes API client (src/config/mod.rs).

    Out of a cluster, the kubeconfig's selected cluster and user decide four
    things, in this order: the bearer token (inline, else from the exec
    plugin), the trusted roots (every certificate of the CA bundle), the
    client identity or, as a last resort, acceptance of invalid
    certificates, and the Authorization header (Bearer, else Basic, else
    none). Inside a cluster, the server, CA, token and namespace come from
    the environment and the service-account mount instead.

    Everything this file calls but does not define is an input: the
    kubeconfig search and loader, the exec plugin, file reads, the OpenSSL
    and reqwest conversions, header validity and the final `build`. */
module Config {
  import opened Wrappers
  import opened Bytes
  import Base64
  import Utf8
  import opened Reqwest

  /** `crate::Error`, by kind. */
  datatype Error =
    | KubeConfig(message: string)
    | SslError
      /** Any other kind, raised inside a collaborator and passed on by `?`. */
    | Other(description: string)

  const UnableToLoadFile := "Unable to load file"
  const NoExecStatus := "exec-plugin response did not contain a status"
  const InvalidBearerToken := "Invalid bearer token"
  const UnableToBuildClient := "Unable to build client"
  const UnableToLoadToken := "Unable to load in cluster token"
  const UnableToLoadNamespace := "Unable to load incluster default namespace"

  /** The fixed password used both to ask the loader for a PKCS #12 bundle
      and to open it. */
  const P12Password := " "

  /** The namespace of a configuration loaded from a kubeconfig. */
  const DefaultNamespace := "default"

  /** The environment variables that give the in-cluster server. */
  const ServiceHostEnv := "KUBERNETES_SERVICE_HOST"
  const ServicePortEnv := "KUBERNETES_SERVICE_PORT"
  const MissingServiceEnv :=
    "Unable to load incluster config, " + ServiceHostEnv + " and " + ServicePortEnv + " must be defined"

  // ---------------------------------------------------------------------
  // Kubeconfig records, with the fields this file reads

  /** Overrides of the kubeconfig's current context, cluster and user. */
  datatype ConfigOptions = ConfigOptions(
    context: Option<string>, cluster: Option<string>, user: Option<string>)

  datatype Cluster = Cluster(server: string, insecureSkipTlsVerify: Option<bool>)

  datatype ExecConfig = ExecConfig(
    apiVersion: Option<string>, command: string, args: seq<string>, env: map<string, string>)

  datatype AuthInfo = AuthInfo(
    token: Option<string>,
    tokenFile: Option<string>,
    username: Option<string>,
    password: Option<string>,
    exec: Option<ExecConfig>)

  /** The `status` of an exec plugin's response. */
  datatype ExecCredentialStatus = ExecCredentialStatus(
    token: Option<string>, clientCertificateData: Option<string>, clientKeyData: Option<string>)

  datatype ExecCredential = ExecCredential(
    apiVersion: Option<string>, status: Option<ExecCredentialStatus>)

  /** OpenSSL objects the loader produces, known here only by identity. */
  datatype X509 = X509(handle: nat)
  datatype Pkcs12 = Pkcs12(handle: nat)

  /** A loaded kubeconfig: the selected cluster and user, what `ca_bundle()`
      gives (nothing when no CA is configured, else the parsed bundle or
      the error met while reading it), and `p12` as a function of the
      password. */
  datatype KubeConfigLoader = KubeConfigLoader(
    cluster: Cluster,
    user: AuthInfo,
    caBundle: Option<Result<seq<X509>, Error>>,
    p12: string -> Result<Pkcs12, Error>)

  /** The collaborators of the out-of-cluster path: where the kubeconfig
      is (`utils::find_kubeconfig`), `KubeConfigLoader::load`,
      `exec::auth_exec`, and reading a file (None when it cannot be read). */
  datatype KubeconfigHost = KubeconfigHost(
    kubeconfigPath: Option<string>,
    load: (string, ConfigOptions) -> Result<KubeConfigLoader, Error>,
    authExec: ExecConfig -> Result<ExecCredential, Error>,
    readFile: string -> Option<string>)

  /** The conversions of OpenSSL, reqwest and http, each None on failure:
      `X509::to_der`, `Certificate::from_der`, `Pkcs12::to_der`,
      `Identity::from_pkcs12_der`; `HeaderValue::from_str` as a validity
      test; whether `ClientBuilder::build` succeeds on given settings. */
  datatype Conversions = Conversions(
    x509ToDer: X509 -> Option<seq<Byte>>,
    certificateFromDer: seq<Byte> -> Option<Certificate>,
    pkcs12ToDer: Pkcs12 -> Option<seq<Byte>>,
    identityFromPkcs12Der: (seq<Byte>, string) -> Option<Identity>,
    headerValueValid: string -> bool,
    buildAccepts: ClientSettings -> bool)

  // ---------------------------------------------------------------------
  // Configuration

  /** The result of client construction. */
  datatype Configuration = Configuration(basePath: string, client: Client, defaultNs: string)

  /** `Configuration::with_default_ns`. */
  function WithDefaultNs(basePath: string, client: Client, defaultNs: string): (c: Configuration)
    ensures c.basePath == basePath && c.client == client && c.defaultNs == defaultNs
  {
    Configuration(basePath, client, defaultNs)
  }

  /** `Configuration::new`: the namespace is "default". */
  function NewConfiguration(basePath: string, client: Client): (c: Configuration)
    ensures c == WithDefaultNs(basePath, client, DefaultNamespace)
    ensures c.basePath == basePath && c.client == client && c.defaultNs == "default"
  {
    WithDefaultNs(basePath, client, DefaultNamespace)
  }

  // ---------------------------------------------------------------------
  // Token

  /** The token offered to the header step: the inline `token` if set;
      otherwise, when an exec plugin is configured, the `token` of its
      response's `status` (an error when it fails or has no status);
      otherwise none. */
  function ResolveToken(user: AuthInfo, authExec: ExecConfig -> Result<ExecCredential, Error>)
    : (r: Result<Option<string>, Error>)
    ensures user.token.Some? ==> r == Success(user.token)
    ensures user.token.None? && user.exec.None? ==> r == Success(None)
    ensures r.Failure? ==> user.token.None? && user.exec.Some?
    ensures user.token.None? && user.exec.Some? ==>
      var out := authExec(user.exec.value);
      && (out.Failure? ==> r == Failure(out.error))
      && (out.Success? && out.value.status.None? ==> r == Failure(KubeConfig(NoExecStatus)))
      && (out.Success? && out.value.status.Some? ==> r == Success(out.value.status.value.token))
  {
    match user.token
    case Some(t) => Success(Some(t))
    case None =>
      match user.exec
      case None => Success(None)
      case Some(exec) =>
        var creds :- authExec(exec);
        match creds.status
        case None => Failure(KubeConfig(NoExecStatus))
        case Some(status) => Success(status.token)
  }

  /** `utils::data_or_file`: the inline value if present, else the
      contents of the file if one is named and can be read. Its error is
      not modelled: the one caller only tells success from failure. */
  function DataOrFile(data: Option<string>, file: Option<string>, readFile: string -> Option<string>)
    : (r: Option<string>)
    ensures data.Some? ==> r == data
    ensures r.Some? ==> data.Some? || file.Some?
    ensures data.None? && file.Some? ==> r == readFile(file.value)
  {
    match data
    case Some(d) => Some(d)
    case None =>
      match file
      case Some(f) => readFile(f)
      case None => None
  }

  // ---------------------------------------------------------------------
  // Authorization header

  /** The credential the Authorization header carries. */
  datatype Credential = Bearer(token: string) | Basic(username: string, password: string) | Anonymous

  /** Bearer when a token resolves (the offered token, else the token
      file); else Basic when both username and password are set; else none. */
  function ChooseCredential(token: Option<string>, user: AuthInfo, readFile: string -> Option<string>)
    : (c: Credential)
    ensures token.Some? ==> c == Bearer(token.value)
    ensures c.Bearer? <==> DataOrFile(token, user.tokenFile, readFile).Some?
    ensures c.Bearer? ==> c.token == DataOrFile(token, user.tokenFile, readFile).value
    ensures c.Basic? ==> token.None? && user.username == Some(c.username) && user.password == Some(c.password)
    ensures c.Anonymous? <==>
      DataOrFile(token, user.tokenFile, readFile).None? && (user.username.None? || user.password.None?)
  {
    match DataOrFile(token, user.tokenFile, readFile)
    case Some(t) => Bearer(t)
    case None =>
      if user.username.Some? && user.password.Some? then
        Basic(user.username.value, user.password.value)
      else
        Anonymous
  }

  /** The Basic credential: base64 of the UTF-8 bytes of `user:password`. */
  function BasicCredentials(username: string, password: string): (s: string)
    ensures |s| % 4 == 0
  {
    Base64.Encode(Utf8.Encode(username + ":" + password))
  }

  /** The text of the Authorization header for a credential. */
  function HeaderValueText(c: Credential): (v: Option<string>)
    ensures v.None? <==> c.Anonymous?
    ensures c.Bearer? ==> v == Some("Bearer " + c.token)
    ensures c.Basic? ==> v == Some("Basic " + BasicCredentials(c.username, c.password))
  {
    match c
    case Bearer(t) => Some("Bearer " + t)
    case Basic(u, p) => Some("Basic " + BasicCredentials(u, p))
    case Anonymous => None
  }

  /** The header map inserted as default headers; a value the header check
      rejects is an error (for Basic as for Bearer, with the same message). */
  function AuthorizationHeaders(conv: Conversions, c: Credential): (r: Result<map<string, string>, Error>)
    ensures r.Success? && c.Anonymous? ==> r.value == map[]
    ensures r.Success? && !c.Anonymous? ==> r.value == map[Authorization := HeaderValueText(c).value]
    ensures r.Failure? <==> HeaderValueText(c).Some? && !conv.headerValueValid(HeaderValueText(c).value)
    ensures r.Failure? ==> r.error == KubeConfig(InvalidBearerToken)
  {
    match HeaderValueText(c)
    case None => Success(map[])
    case Some(v) =>
      if conv.headerValueValid(v) then Success(map[Authorization := v])
      else Failure(KubeConfig(InvalidBearerToken))
  }

  // ---------------------------------------------------------------------
  // TLS

  /** One CA certificate as a reqwest root: `to_der`, then `from_der`;
      either failing is an SSL error. */
  function ConvertCa(conv: Conversions, ca: X509): (r: Result<Certificate, Error>)
    ensures r.Success? <==>
      conv.x509ToDer(ca).Some? && conv.certificateFromDer(conv.x509ToDer(ca).value).Some?
    ensures r.Success? ==> r.value == conv.certificateFromDer(conv.x509ToDer(ca).value).value
    ensures r.Failure? ==> r.error == SslError
  {
    match conv.x509ToDer(ca)
    case None => Failure(SslError)
    case Some(der) =>
      match conv.certificateFromDer(der)
      case None => Failure(SslError)
      case Some(cert) => Success(cert)
  }

  /** The roots a bundle contributes, converted in bundle order; the
      first certificate that fails to convert fails the whole bundle. */
  function CaRoots(conv: Conversions, bundle: seq<X509>): (r: Result<seq<Certificate>, Error>)
    ensures r.Success? <==> forall i :: 0 <= i < |bundle| ==> ConvertCa(conv, bundle[i]).Success?
    ensures r.Success? ==> |r.value| == |bundle|
    ensures r.Success? ==> forall i :: 0 <= i < |bundle| ==> r.value[i] == ConvertCa(conv, bundle[i]).value
    ensures r.Failure? ==> r.error == SslError
    decreases |bundle|
  {
    if |bundle| == 0 then Success([])
    else
      var init := bundle[..|bundle| - 1];
      match CaRoots(conv, init)
      case Failure(e) => Failure(e)
      case Success(roots) =>
        match ConvertCa(conv, bundle[|bundle| - 1])
        case Failure(e) => Failure(e)
        case Success(cert) => Success(roots + [cert])
  }

  /** The roots the kubeconfig's CA contributes: none without a CA, the
      loader's error when the bundle cannot be read, else the bundle's. */
  function TrustRoots(conv: Conversions, caBundle: Option<Result<seq<X509>, Error>>)
    : (r: Result<seq<Certificate>, Error>)
    ensures caBundle.None? ==> r == Success([])
    ensures caBundle.Some? && caBundle.value.Failure? ==> r == Failure(caBundle.value.error)
    ensures caBundle.Some? && caBundle.value.Success? ==> r == CaRoots(conv, caBundle.value.value)
  {
    match caBundle
    case None => Success([])
    case Some(Failure(e)) => Failure(e)
    case Some(Success(bundle)) => CaRoots(conv, bundle)
  }

  /** How the client authenticates itself and treats the server's
      certificate. */
  datatype TlsMode = ClientIdentity(identity: Identity) | AcceptInvalidCerts | VerifyServer

  /** A client identity exactly when the loader yields a PKCS #12 bundle for
      the fixed password (then a failed conversion is an SSL error);
      otherwise invalid certificates are accepted only when the cluster says
      `insecure-skip-tls-verify: true`. */
  function ChooseTlsMode(conv: Conversions, loader: KubeConfigLoader): (r: Result<TlsMode, Error>)
    ensures r.Success? && r.value.ClientIdentity? <==> loader.p12(P12Password).Success? && r.Success?
    ensures r.Success? && r.value.AcceptInvalidCerts? <==>
      loader.p12(P12Password).Failure? && loader.cluster.insecureSkipTlsVerify == Some(true)
    ensures loader.p12(P12Password).Success? ==>
      var p12 := loader.p12(P12Password).value;
      (r.Success? <==>
         conv.pkcs12ToDer(p12).Some? && conv.identityFromPkcs12Der(conv.pkcs12ToDer(p12).value, P12Password).Some?)
    ensures r.Success? && r.value.ClientIdentity? ==>
      r.value.identity
      == conv.identityFromPkcs12Der(conv.pkcs12ToDer(loader.p12(P12Password).value).value, P12Password).value
    ensures r.Failure? ==> loader.p12(P12Password).Success? && r.error == SslError
  {
    match loader.p12(P12Password)
    case Success(p12) =>
      (match conv.pkcs12ToDer(p12)
       case None => Failure(SslError)
       case Some(der) =>
         match conv.identityFromPkcs12Der(der, P12Password)
         case None => Failure(SslError)
         case Some(id) => Success(ClientIdentity(id)))
    case Failure(_) =>
      if loader.cluster.insecureSkipTlsVerify == Some(true) then Success(AcceptInvalidCerts)
      else Success(VerifyServer)
  }

  // ---------------------------------------------------------------------
  // create_client_builder

  /** What `create_client_builder` returns on success: the builder's
      settings and the loader. */
  datatype BuilderPlan = BuilderPlan(settings: ClientSettings, loader: KubeConfigLoader)

  /** The settings the builder ends with, or the first error met, taking
      the steps in the order the source takes them: locate, load, token,
      trusted roots, identity or insecure mode, header. */
  function ClientBuilderPlan(host: KubeconfigHost, conv: Conversions, options: ConfigOptions)
    : (r: Result<BuilderPlan, Error>)
    ensures host.kubeconfigPath.None? ==> r == Failure(KubeConfig(UnableToLoadFile))
    ensures host.kubeconfigPath.Some? && host.load(host.kubeconfigPath.value, options).Failure? ==>
      r == Failure(host.load(host.kubeconfigPath.value, options).error)
    ensures r.Success? ==>
      host.kubeconfigPath.Some? && host.load(host.kubeconfigPath.value, options) == Success(r.value.loader)
  {
    match host.kubeconfigPath
    case None => Failure(KubeConfig(UnableToLoadFile))
    case Some(path) =>
      var loader :- host.load(path, options);
      var token :- ResolveToken(loader.user, host.authExec);
      var roots :- TrustRoots(conv, loader.caBundle);
      var mode :- ChooseTlsMode(conv, loader);
      var headers :- AuthorizationHeaders(conv, ChooseCredential(token, loader.user, host.readFile));
      var identity := if mode.ClientIdentity? then Some(mode.identity) else None;
      Success(BuilderPlan(ClientSettings(roots, identity, mode.AcceptInvalidCerts?, headers), loader))
  }

  /** `create_client_builder`: locates and loads the kubeconfig, resolves
      the token, then drives a fresh builder step by step, returning the
      builder and the loader, or the first error. */
  method CreateClientBuilder(host: KubeconfigHost, conv: Conversions, options: ConfigOptions)
    returns (r: Result<(ClientBuilder, KubeConfigLoader), Error>)
    ensures r.Failure? <==> ClientBuilderPlan(host, conv, options).Failure?
    ensures r.Failure? ==> r.error == ClientBuilderPlan(host, conv, options).error
    ensures r.Success? ==>
      && fresh(r.value.0)
      && r.value.0.Settings() == ClientBuilderPlan(host, conv, options).value.settings
      && r.value.1 == ClientBuilderPlan(host, conv, options).value.loader
  {
    if host.kubeconfigPath.None? {
      return Failure(KubeConfig(UnableToLoadFile));
    }
    var loaded := host.load(host.kubeconfigPath.value, options);
    if loaded.Failure? {
      return Failure(loaded.error);
    }
    var loader := loaded.value;
    var token := ResolveToken(loader.user, host.authExec);
    if token.Failure? {
      return Failure(token.error);
    }

    var builder := new ClientBuilder();
    if loader.caBundle.Some? {
      if loader.caBundle.value.Failure? {
        return Failure(loader.caBundle.value.error);
      }
      var bundle := loader.caBundle.value.value;
      for i := 0 to |bundle|
        invariant CaRoots(conv, bundle[..i]) == Success(builder.roots)
        invariant builder.Settings() == DefaultSettings.(roots := builder.roots)
      {
        assert bundle[..i + 1][..i] == bundle[..i];
        var der := conv.x509ToDer(bundle[i]);
        if der.None? {
          return Failure(SslError);
        }
        var cert := conv.certificateFromDer(der.value);
        if cert.None? {
          return Failure(SslError);
        }
        builder.AddRootCertificate(cert.value);
      }
      assert bundle[..|bundle|] == bundle;
    }

    match loader.p12(P12Password) {
      case Success(p12) =>
        var der := conv.pkcs12ToDer(p12);
        if der.None? {
          return Failure(SslError);
        }
        var id := conv.identityFromPkcs12Der(der.value, P12Password);
        if id.None? {
          return Failure(SslError);
        }
        builder.SetIdentity(id.value);
      case Failure(_) =>
        if loader.cluster.insecureSkipTlsVerify == Some(true) {
          builder.DangerAcceptInvalidCerts(true);
        }
    }

    var headers: map<string, string> := map[];
    var value := HeaderValueText(ChooseCredential(token.value, loader.user, host.readFile));
    if value.Some? {
      if !conv.headerValueValid(value.value) {
        return Failure(KubeConfig(InvalidBearerToken));
      }
      headers := headers[Authorization := value.value];
    }
    builder.DefaultHeaders(headers);
    return Success((builder, loader));
  }

  /** `load_kube_config_with`: builds the client of `create_client_builder`
      and pairs it with the cluster's server and the namespace "default". */
  method LoadKubeConfigWith(host: KubeconfigHost, conv: Conversions, options: ConfigOptions)
    returns (r: Result<Configuration, Error>)
    ensures var plan := ClientBuilderPlan(host, conv, options);
      && (plan.Failure? ==> r == Failure(plan.error))
      && (plan.Success? && !conv.buildAccepts(plan.value.settings) ==>
            r == Failure(KubeConfig(UnableToBuildClient)))
      && (plan.Success? && conv.buildAccepts(plan.value.settings) ==>
            r.Success?
            && r.value.basePath == plan.value.loader.cluster.server
            && r.value.defaultNs == DefaultNamespace
            && r.value.client.settings == plan.value.settings)
  {
    var result := CreateClientBuilder(host, conv, options);
    if result.Failure? {
      return Failure(result.error);
    }
    var (builder, loader) := result.value;
    var client := builder.Build(conv.buildAccepts);
    if client.None? {
      return Failure(KubeConfig(UnableToBuildClient));
    }
    return Success(NewConfiguration(loader.cluster.server, client.value));
  }

  /** `load_kube_config`: `load_kube_config_with` without overrides. */
  method LoadKubeConfig(host: KubeconfigHost, conv: Conversions) returns (r: Result<Configuration, Error>)
    ensures var plan := ClientBuilderPlan(host, conv, ConfigOptions(None, None, None));
      && (plan.Failure? ==> r == Failure(plan.error))
      && (plan.Success? ==> (r.Success? <==> conv.buildAccepts(plan.value.settings)))
      && (plan.Success? && !conv.buildAccepts(plan.value.settings) ==>
            r == Failure(KubeConfig(UnableToBuildClient)))
      && (r.Success? ==>
            && r.value.basePath == plan.value.loader.cluster.server
            && r.value.defaultNs == DefaultNamespace
            && r.value.client.settings == plan.value.settings)
  {
    r := LoadKubeConfigWith(host, conv, ConfigOptions(None, None, None));
  }

  // ---------------------------------------------------------------------
  // incluster_config

  /** What the in-cluster collaborators give: the server URL (present
      only when both service variables are set), the mounted CA
      certificate, token and namespace (each None when it cannot be read). */
  datatype InClusterEnv = InClusterEnv(
    kubeServer: Option<string>,
    caCert: Option<X509>,
    token: Option<string>,
    defaultNs: Option<string>)

  /** The mounted CA as a reqwest root; failing to load or convert it is an
      SSL error. */
  function InClusterRoot(conv: Conversions, caCert: Option<X509>): (r: Result<Certificate, Error>)
    ensures caCert.None? ==> r == Failure(SslError)
    ensures caCert.Some? ==> r == ConvertCa(conv, caCert.value)
  {
    match caCert
    case None => Failure(SslError)
    case Some(ca) => ConvertCa(conv, ca)
  }

  /** `incluster_config`: checks server, CA, token and namespace in that
      order, then builds a client whose only extra root is the mounted CA
      and whose Authorization header carries the mounted token. */
  method InClusterConfig(env: InClusterEnv, conv: Conversions) returns (r: Result<Configuration, Error>)
    ensures env.kubeServer.None? ==> r == Failure(KubeConfig(MissingServiceEnv))
    ensures env.kubeServer.Some? && InClusterRoot(conv, env.caCert).Failure? ==> r == Failure(SslError)
    ensures env.kubeServer.Some? && InClusterRoot(conv, env.caCert).Success? && env.token.None? ==>
      r == Failure(KubeConfig(UnableToLoadToken))
    ensures (env.kubeServer.Some? && InClusterRoot(conv, env.caCert).Success? && env.token.Some?
             && env.defaultNs.None?) ==> r == Failure(KubeConfig(UnableToLoadNamespace))
    ensures (env.kubeServer.Some? && InClusterRoot(conv, env.caCert).Success? && env.token.Some?
             && env.defaultNs.Some? && !conv.headerValueValid("Bearer " + env.token.value)) ==>
      r == Failure(KubeConfig(InvalidBearerToken))
    ensures (env.kubeServer.Some? && InClusterRoot(conv, env.caCert).Success? && env.token.Some?
             && env.defaultNs.Some? && conv.headerValueValid("Bearer " + env.token.value)
             && !conv.buildAccepts(ClientSettings([InClusterRoot(conv, env.caCert).value], None, false,
                                                  map[Authorization := "Bearer " + env.token.value]))) ==>
      r == Failure(KubeConfig(UnableToBuildClient))
    ensures r.Success? <==>
      env.kubeServer.Some? && InClusterRoot(conv, env.caCert).Success? && env.token.Some?
      && env.defaultNs.Some? && conv.headerValueValid("Bearer " + env.token.value)
      && conv.buildAccepts(ClientSettings([InClusterRoot(conv, env.caCert).value], None, false,
                                          map[Authorization := "Bearer " + env.token.value]))
    ensures r.Success? ==>
      r.value.basePath == env.kubeServer.value && r.value.defaultNs == env.defaultNs.value
      && r.value.client.settings == ClientSettings([InClusterRoot(conv, env.caCert).value], None, false,
                                                   map[Authorization := "Bearer " + env.token.value])
  {
    if env.kubeServer.None? {
      return Failure(KubeConfig(MissingServiceEnv));
    }
    var server := env.kubeServer.value;
    var root := InClusterRoot(conv, env.caCert);
    if root.Failure? {
      return Failure(SslError);
    }
    if env.token.None? {
      return Failure(KubeConfig(UnableToLoadToken));
    }
    var token := env.token.value;
    if env.defaultNs.None? {
      return Failure(KubeConfig(UnableToLoadNamespace));
    }
    var defaultNs := env.defaultNs.value;

    var headers: map<string, string> := map[];
    var value := "Bearer " + token;
    if !conv.headerValueValid(value) {
      return Failure(KubeConfig(InvalidBearerToken));
    }
    headers := headers[Authorization := value];

    var builder := new ClientBuilder();
    builder.AddRootCertificate(root.value);
    builder.DefaultHeaders(headers);
    assert builder.Settings() == ClientSettings([root.value], None, false, headers);
    var client := builder.Build(conv.buildAccepts);
    if client.None? {
      return Failure(KubeConfig(UnableToBuildClient));
    }
    return Success(WithDefaultNs(server, client.value, defaultNs));
  }
}
