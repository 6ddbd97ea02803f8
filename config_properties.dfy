/** What `create_client_builder` and `incluster_config` promise, stated
    over the specification `ClientBuilderPlan` that `CreateClientBuilder`
    is proved against. Each lemma names the loader the kubeconfig yields
    (`Loads`) and speaks of the plan's settings. */
module ConfigProperties {
  import opened Wrappers
  import opened Bytes
  import Base64
  import Utf8
  import opened Reqwest
  import opened Config

  /** The kubeconfig is found and loads to `loader`. */
  ghost predicate Loads(host: KubeconfigHost, options: ConfigOptions, loader: KubeConfigLoader) {
    host.kubeconfigPath.Some? && host.load(host.kubeconfigPath.value, options) == Success(loader)
  }

  // ---------------------------------------------------------------------
  // The plan, step by step

  /** The plan succeeds exactly when every step does, and its settings are
      the steps' results: the bundle's roots, the identity or the insecure
      flag of the TLS mode, and the header of the chosen credential. */
  lemma PlanSteps(host: KubeconfigHost, conv: Conversions, options: ConfigOptions, loader: KubeConfigLoader)
    requires Loads(host, options, loader)
    ensures var token := ResolveToken(loader.user, host.authExec);
      var roots := TrustRoots(conv, loader.caBundle);
      var mode := ChooseTlsMode(conv, loader);
      var plan := ClientBuilderPlan(host, conv, options);
      && (plan.Success? <==>
            token.Success? && roots.Success? && mode.Success?
            && AuthorizationHeaders(conv, ChooseCredential(token.value, loader.user, host.readFile)).Success?)
      && (plan.Success? ==>
            && plan.value.loader == loader
            && plan.value.settings.roots == roots.value
            && plan.value.settings.identity == (if mode.value.ClientIdentity? then Some(mode.value.identity) else None)
            && plan.value.settings.acceptInvalidCerts == mode.value.AcceptInvalidCerts?
            && plan.value.settings.defaultHeaders
               == AuthorizationHeaders(conv, ChooseCredential(token.value, loader.user, host.readFile)).value)
  {
  }

  /** The first failing step decides the error: token, then roots, then the
      identity, then the header. */
  lemma PlanFirstError(host: KubeconfigHost, conv: Conversions, options: ConfigOptions, loader: KubeConfigLoader)
    requires Loads(host, options, loader)
    ensures var token := ResolveToken(loader.user, host.authExec);
      var roots := TrustRoots(conv, loader.caBundle);
      var mode := ChooseTlsMode(conv, loader);
      var plan := ClientBuilderPlan(host, conv, options);
      && (token.Failure? ==> plan == Failure(token.error))
      && (token.Success? && roots.Failure? ==> plan == Failure(roots.error))
      && (token.Success? && roots.Success? && mode.Failure? ==> plan == Failure(SslError))
      && (token.Success? && roots.Success? && mode.Success?
          && AuthorizationHeaders(conv, ChooseCredential(token.value, loader.user, host.readFile)).Failure? ==>
            plan == Failure(KubeConfig(InvalidBearerToken)))
  {
  }

  // ---------------------------------------------------------------------
  // Token and exec precedence

  /** An inline token is used as-is, whatever else the user carries. */
  lemma InlineTokenWins(host: KubeconfigHost, conv: Conversions, options: ConfigOptions,
                        loader: KubeConfigLoader, token: string)
    requires Loads(host, options, loader) && loader.user.token == Some(token)
    requires ClientBuilderPlan(host, conv, options).Success?
    ensures ClientBuilderPlan(host, conv, options).value.settings.defaultHeaders
            == map[Authorization := "Bearer " + token]
  {
    PlanSteps(host, conv, options, loader);
  }

  /** The exec plugin is consulted only when there is no inline token and an
      exec section: otherwise swapping the plugin changes nothing. */
  lemma ExecConsultedOnlyWithoutToken(host: KubeconfigHost, conv: Conversions, options: ConfigOptions,
                                      loader: KubeConfigLoader,
                                      other: ExecConfig -> Result<ExecCredential, Error>)
    requires Loads(host, options, loader)
    requires loader.user.token.Some? || loader.user.exec.None?
    ensures ClientBuilderPlan(host.(authExec := other), conv, options) == ClientBuilderPlan(host, conv, options)
  {
    assert ResolveToken(loader.user, other) == ResolveToken(loader.user, host.authExec);
  }

  /** A plugin failure is passed on unchanged. */
  lemma ExecFailurePropagates(host: KubeconfigHost, conv: Conversions, options: ConfigOptions,
                              loader: KubeConfigLoader, exec: ExecConfig, e: Error)
    requires Loads(host, options, loader)
    requires loader.user.token.None? && loader.user.exec == Some(exec)
    requires host.authExec(exec) == Failure(e)
    ensures ClientBuilderPlan(host, conv, options) == Failure(e)
  {
    PlanFirstError(host, conv, options, loader);
  }

  /** A plugin response with no status is an error, not empty credentials. */
  lemma ExecMissingStatusFails(host: KubeconfigHost, conv: Conversions, options: ConfigOptions,
                               loader: KubeConfigLoader, exec: ExecConfig, cred: ExecCredential)
    requires Loads(host, options, loader)
    requires loader.user.token.None? && loader.user.exec == Some(exec)
    requires host.authExec(exec) == Success(cred) && cred.status.None?
    ensures ClientBuilderPlan(host, conv, options) == Failure(KubeConfig(NoExecStatus))
  {
    PlanFirstError(host, conv, options, loader);
  }

  /** The plugin's token is offered ahead of the token file and of
      username and password. */
  lemma ExecTokenBeforeTokenFile(host: KubeconfigHost, conv: Conversions, options: ConfigOptions,
                                 loader: KubeConfigLoader, exec: ExecConfig,
                                 cred: ExecCredential, token: string)
    requires Loads(host, options, loader)
    requires loader.user.token.None? && loader.user.exec == Some(exec)
    requires host.authExec(exec) == Success(cred)
    requires cred.status.Some? && cred.status.value.token == Some(token)
    requires ClientBuilderPlan(host, conv, options).Success?
    ensures ClientBuilderPlan(host, conv, options).value.settings.defaultHeaders
            == map[Authorization := "Bearer " + token]
  {
    PlanSteps(host, conv, options, loader);
  }

  /** A status without a token leaves the token unresolved: the header
      then comes from the token file or from username and password, exactly
      as when no exec section is configured. */
  lemma StatusWithoutTokenUnresolved(host: KubeconfigHost, conv: Conversions, options: ConfigOptions,
                                     loader: KubeConfigLoader, exec: ExecConfig, cred: ExecCredential)
    requires Loads(host, options, loader)
    requires loader.user.token.None? && loader.user.exec == Some(exec)
    requires host.authExec(exec) == Success(cred)
    requires cred.status.Some? && cred.status.value.token.None?
    ensures ResolveToken(loader.user, host.authExec) == Success(None)
    ensures ResolveToken(loader.user.(exec := None), host.authExec) == Success(None)
  {
  }

  /** With no token offered, a readable token file supplies the bearer
      token, even when username and password are set. */
  lemma TokenFileUsedWithoutToken(host: KubeconfigHost, conv: Conversions, options: ConfigOptions,
                                  loader: KubeConfigLoader, file: string, contents: string)
    requires Loads(host, options, loader)
    requires ResolveToken(loader.user, host.authExec) == Success(None)
    requires loader.user.tokenFile == Some(file) && host.readFile(file) == Some(contents)
    requires ClientBuilderPlan(host, conv, options).Success?
    ensures ClientBuilderPlan(host, conv, options).value.settings.defaultHeaders
            == map[Authorization := "Bearer " + contents]
  {
    PlanSteps(host, conv, options, loader);
  }

  // ---------------------------------------------------------------------
  // Basic and missing credentials

  /** With no token offered and no readable token file (an unreadable one
      is passed over silently), username and password give a Basic header. */
  lemma BasicHeaderOnlyWithoutToken(host: KubeconfigHost, conv: Conversions, options: ConfigOptions,
                                    loader: KubeConfigLoader, username: string, password: string)
    requires Loads(host, options, loader)
    requires ResolveToken(loader.user, host.authExec) == Success(None)
    requires loader.user.tokenFile.None? || host.readFile(loader.user.tokenFile.value).None?
    requires loader.user.username == Some(username) && loader.user.password == Some(password)
    requires ClientBuilderPlan(host, conv, options).Success?
    ensures ClientBuilderPlan(host, conv, options).value.settings.defaultHeaders
            == map[Authorization := "Basic " + BasicCredentials(username, password)]
  {
    PlanSteps(host, conv, options, loader);
  }

  /** Without a token and without both username and password, no header is
      set, and the header step cannot fail. */
  lemma NoCredentialNoHeader(host: KubeconfigHost, conv: Conversions, options: ConfigOptions,
                             loader: KubeConfigLoader)
    requires Loads(host, options, loader)
    requires ResolveToken(loader.user, host.authExec) == Success(None)
    requires loader.user.tokenFile.None? || host.readFile(loader.user.tokenFile.value).None?
    requires loader.user.username.None? || loader.user.password.None?
    requires TrustRoots(conv, loader.caBundle).Success? && ChooseTlsMode(conv, loader).Success?
    ensures ClientBuilderPlan(host, conv, options).Success?
    ensures ClientBuilderPlan(host, conv, options).value.settings.defaultHeaders == map[]
  {
    PlanSteps(host, conv, options, loader);
  }

  /** A header value the header check rejects fails the call; it is never
      dropped. */
  lemma InvalidHeaderIsError(host: KubeconfigHost, conv: Conversions, options: ConfigOptions,
                             loader: KubeConfigLoader, token: Option<string>, value: string)
    requires Loads(host, options, loader)
    requires ResolveToken(loader.user, host.authExec) == Success(token)
    requires TrustRoots(conv, loader.caBundle).Success? && ChooseTlsMode(conv, loader).Success?
    requires HeaderValueText(ChooseCredential(token, loader.user, host.readFile)) == Some(value)
    requires !conv.headerValueValid(value)
    ensures ClientBuilderPlan(host, conv, options) == Failure(KubeConfig(InvalidBearerToken))
  {
    PlanFirstError(host, conv, options, loader);
  }

  /** A Basic value is "Basic " and a base64 text that decodes, per
      section 4 of RFC 4648, to the UTF-8 bytes of `user:password`, which
      decode back to that text. */
  lemma BasicHeaderRecoversCredentials(username: string, password: string)
    ensures HeaderValueText(Basic(username, password)).Some?
    ensures var v := HeaderValueText(Basic(username, password)).value;
      && |v| >= 6 && v[..6] == "Basic "
      && Base64.Decode(v[6..]) == Some(Utf8.Encode(username + ":" + password))
      && Utf8.Decode(Utf8.Encode(username + ":" + password)) == Some(username + ":" + password)
  {
    var v := HeaderValueText(Basic(username, password)).value;
    assert v[6..] == BasicCredentials(username, password);
    Base64.DecodeEncode(Utf8.Encode(username + ":" + password));
    Utf8.DecodeEncode(username + ":" + password);
  }

  /** The bytes under the Basic value are the UTF-8 of the username, one
      colon byte, and the UTF-8 of the password. */
  lemma BasicBytes(username: string, password: string)
    ensures Utf8.Encode(username + ":" + password) == Utf8.Encode(username) + [0x3A] + Utf8.Encode(password)
  {
    Utf8.EncodeAppend(username + ":", password);
    Utf8.EncodeAppend(username, ":");
    assert Utf8.Encode(":") == [0x3A] by {
      assert ":"[1..] == "";
    }
  }

  /** A Basic value is printable ASCII, so a header check that accepts every
      printable ASCII text accepts it: the Basic step cannot fail. */
  lemma BasicHeaderAlwaysValid(conv: Conversions, username: string, password: string)
    requires forall s: string :: Printable(s) ==> conv.headerValueValid(s)
    ensures AuthorizationHeaders(conv, Basic(username, password)).Success?
  {
    BasicValuePrintable(username, password);
  }

  /** Every character is printable ASCII. */
  predicate Printable(s: string) {
    forall i :: 0 <= i < |s| ==> ' ' <= s[i] <= '~'
  }

  /** The Basic value is printable ASCII. */
  lemma BasicValuePrintable(username: string, password: string)
    ensures Printable("Basic " + BasicCredentials(username, password))
  {
    var e := BasicCredentials(username, password);
    Base64.EncodeAlphabet(Utf8.Encode(username + ":" + password));
    assert Printable(e) by {
      forall i | 0 <= i < |e| ensures ' ' <= e[i] <= '~' {
        assert Base64.IsEncodingChar(e[i]);
      }
    }
    PrintableAppend("Basic ", e);
  }

  /** Printable texts concatenate to a printable text. */
  lemma PrintableAppend(a: string, b: string)
    requires Printable(a) && Printable(b)
    ensures Printable(a + b)
  {
    forall i | 0 <= i < |a + b| ensures ' ' <= (a + b)[i] <= '~' {
      if i >= |a| {
        assert (a + b)[i] == b[i - |a|];
      }
    }
  }

  /** The characters of `user:password` up to the colon. */
  lemma JoinedAt(u: string, p: string, k: int)
    requires 0 <= k <= |u|
    ensures (u + ":" + p)[k] == if k == |u| then ':' else u[k]
  {
  }

  /** `user:password` splits at the first colon, so when the usernames have
      no colon, equal joined texts mean equal credentials. */
  lemma JoinedCredentialsSplit(u1: string, p1: string, u2: string, p2: string)
    requires ':' !in u1 && ':' !in u2
    requires u1 + ":" + p1 == u2 + ":" + p2
    ensures u1 == u2 && p1 == p2
  {
    var j1, j2 := u1 + ":" + p1, u2 + ":" + p2;
    if |u1| < |u2| {
      JoinedAt(u1, p1, |u1|);
      JoinedAt(u2, p2, |u1|);
      assert false;
    } else if |u2| < |u1| {
      JoinedAt(u1, p1, |u2|);
      JoinedAt(u2, p2, |u2|);
      assert false;
    }
    assert u1 == j1[..|u1|] == j2[..|u2|] == u2;
    assert p1 == j1[|u1| + 1..] == j2[|u2| + 1..] == p2;
  }

  /** Distinct credentials with colon-free usernames give distinct Basic
      values. */
  lemma BasicCredentialsInjective(u1: string, p1: string, u2: string, p2: string)
    requires ':' !in u1 && ':' !in u2
    requires BasicCredentials(u1, p1) == BasicCredentials(u2, p2)
    ensures u1 == u2 && p1 == p2
  {
    Base64.EncodeInjective(Utf8.Encode(u1 + ":" + p1), Utf8.Encode(u2 + ":" + p2));
    Utf8.EncodeInjective(u1 + ":" + p1, u2 + ":" + p2);
    JoinedCredentialsSplit(u1, p1, u2, p2);
  }

  // ---------------------------------------------------------------------
  // CA bundle

  /** Without a CA, no root is added. */
  lemma NoCaNoRoots(host: KubeconfigHost, conv: Conversions, options: ConfigOptions, loader: KubeConfigLoader)
    requires Loads(host, options, loader) && loader.caBundle.None?
    requires ClientBuilderPlan(host, conv, options).Success?
    ensures ClientBuilderPlan(host, conv, options).value.settings.roots == []
  {
    PlanSteps(host, conv, options, loader);
  }

  /** Every certificate of the bundle becomes a root, in bundle order. */
  lemma RootsInBundleOrder(host: KubeconfigHost, conv: Conversions, options: ConfigOptions,
                           loader: KubeConfigLoader, bundle: seq<X509>)
    requires Loads(host, options, loader) && loader.caBundle == Some(Success(bundle))
    requires ClientBuilderPlan(host, conv, options).Success?
    ensures var roots := ClientBuilderPlan(host, conv, options).value.settings.roots;
      && |roots| == |bundle|
      && forall i :: 0 <= i < |bundle| ==> Success(roots[i]) == ConvertCa(conv, bundle[i])
  {
    PlanSteps(host, conv, options, loader);
  }

  /** A bundle that cannot be read fails the call with the loader's error. */
  lemma UnreadableBundleIsError(host: KubeconfigHost, conv: Conversions, options: ConfigOptions,
                                loader: KubeConfigLoader, e: Error)
    requires Loads(host, options, loader) && loader.caBundle == Some(Failure(e))
    requires ResolveToken(loader.user, host.authExec).Success?
    ensures ClientBuilderPlan(host, conv, options) == Failure(e)
  {
    PlanFirstError(host, conv, options, loader);
  }

  /** One certificate that does not convert fails the call with an SSL
      error; it is not skipped. */
  lemma BadCertificateIsSslError(host: KubeconfigHost, conv: Conversions, options: ConfigOptions,
                                 loader: KubeConfigLoader, bundle: seq<X509>, i: int)
    requires Loads(host, options, loader) && loader.caBundle == Some(Success(bundle))
    requires ResolveToken(loader.user, host.authExec).Success?
    requires 0 <= i < |bundle| && ConvertCa(conv, bundle[i]).Failure?
    ensures ClientBuilderPlan(host, conv, options) == Failure(SslError)
  {
    PlanFirstError(host, conv, options, loader);
  }

  // ---------------------------------------------------------------------
  // Identity versus insecure mode

  /** The client identity is set exactly when the loader yields a PKCS #12
      bundle; invalid certificates are accepted exactly when it does not
      and the cluster asks for it with `Some(true)`; never both. */
  lemma IdentityOrInsecure(host: KubeconfigHost, conv: Conversions, options: ConfigOptions,
                           loader: KubeConfigLoader)
    requires Loads(host, options, loader)
    requires ClientBuilderPlan(host, conv, options).Success?
    ensures var s := ClientBuilderPlan(host, conv, options).value.settings;
      && (s.identity.Some? <==> loader.p12(P12Password).Success?)
      && (s.acceptInvalidCerts <==>
            loader.p12(P12Password).Failure? && loader.cluster.insecureSkipTlsVerify == Some(true))
      && !(s.identity.Some? && s.acceptInvalidCerts)
  {
    PlanSteps(host, conv, options, loader);
  }

  /** A PKCS #12 bundle that converts becomes the client identity, and it
      is exactly what the conversion produced. */
  lemma IdentityFromBundle(host: KubeconfigHost, conv: Conversions, options: ConfigOptions,
                           loader: KubeConfigLoader, p12: Pkcs12, der: seq<Byte>, id: Identity)
    requires Loads(host, options, loader)
    requires loader.p12(P12Password) == Success(p12)
    requires conv.pkcs12ToDer(p12) == Some(der) && conv.identityFromPkcs12Der(der, P12Password) == Some(id)
    requires ClientBuilderPlan(host, conv, options).Success?
    ensures ClientBuilderPlan(host, conv, options).value.settings.identity == Some(id)
    ensures !ClientBuilderPlan(host, conv, options).value.settings.acceptInvalidCerts
  {
    PlanSteps(host, conv, options, loader);
  }

  /** A PKCS #12 bundle that does not convert is an SSL error, not the
      insecure fallback. */
  lemma P12ConversionFailureIsError(host: KubeconfigHost, conv: Conversions, options: ConfigOptions,
                                    loader: KubeConfigLoader, p12: Pkcs12)
    requires Loads(host, options, loader)
    requires ResolveToken(loader.user, host.authExec).Success? && TrustRoots(conv, loader.caBundle).Success?
    requires loader.p12(P12Password) == Success(p12)
    requires conv.pkcs12ToDer(p12).None?
      || conv.identityFromPkcs12Der(conv.pkcs12ToDer(p12).value, P12Password).None?
    ensures ClientBuilderPlan(host, conv, options) == Failure(SslError)
  {
    PlanFirstError(host, conv, options, loader);
  }

  // ---------------------------------------------------------------------
  // A worked case

  /** One CA certificate and an inline token "abc123": the trust set is
      exactly that certificate and the header is `Bearer abc123`. */
  lemma SingleCaInlineToken(host: KubeconfigHost, conv: Conversions, options: ConfigOptions,
                            loader: KubeConfigLoader, ca: X509, cert: Certificate)
    requires Loads(host, options, loader)
    requires loader.caBundle == Some(Success([ca])) && ConvertCa(conv, ca) == Success(cert)
    requires loader.user.token == Some("abc123")
    requires ClientBuilderPlan(host, conv, options).Success?
    ensures ClientBuilderPlan(host, conv, options).value.settings.roots == [cert]
    ensures ClientBuilderPlan(host, conv, options).value.settings.defaultHeaders
            == map[Authorization := "Bearer abc123"]
  {
    RootsInBundleOrder(host, conv, options, loader, [ca]);
    InlineTokenWins(host, conv, options, loader, "abc123");
    assert "Bearer " + "abc123" == "Bearer abc123";
  }

  // ---------------------------------------------------------------------
  // In-cluster

  /** `w` occurs in `s`. */
  predicate Mentions(s: string, w: string) {
    exists i :: 0 <= i <= |s| && w <= s[i..]
  }

  /** The missing-server message names both service variables. */
  lemma MissingServiceEnvNamesBoth()
    ensures Mentions(MissingServiceEnv, ServiceHostEnv)
    ensures Mentions(MissingServiceEnv, ServicePortEnv)
  {
    var lead := "Unable to load incluster config, ";
    assert MissingServiceEnv == lead + ServiceHostEnv + " and " + ServicePortEnv + " must be defined";
    assert ServiceHostEnv <= MissingServiceEnv[|lead|..];
    assert ServicePortEnv <= MissingServiceEnv[|lead + ServiceHostEnv + " and "|..];
  }
}
