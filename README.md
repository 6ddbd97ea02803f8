# Client configuration for a Kubernetes API client

This project models how the kube-rs crate (module `src/config/mod.rs`) turns
a kubeconfig, or the service-account mount of a pod, into a `Configuration`.
A `Configuration` is a server URL, a reqwest `Client` and a default
namespace. The model is in Dafny and the properties are proved.

Outside a cluster, `create_client_builder` takes four decisions in a fixed
order and records them on a reqwest `ClientBuilder`:

1. The bearer token: the user's inline `token`, otherwise the `status.token`
   of the exec plugin's response.
2. The trusted roots: every certificate of the cluster's CA bundle, in
   bundle order.
3. The TLS mode: a client identity from the loader's PKCS #12 bundle.
   Failing that, and only when the cluster asks for it, acceptance of
   invalid server certificates.
4. The Authorization header: `Bearer <token>` (the offered token, else the
   contents of `token_file`). Otherwise `Basic <base64(user:password)>`.
   Otherwise no header.

`load_kube_config_with` builds the client and pairs it with the cluster's
server and the namespace `"default"`. Inside a cluster, `incluster_config`
reads the server from the environment. It reads the CA, token and namespace
from the mount, and builds a client with that one root and a bearer header.

Layout:

- `wrappers.dfy`: `Option` and `Result`.
- `bytes.dfy`: the byte type.
- `base64.dfy`: base64 encoding and decoding per section 4 of RFC 4648
  (standard alphabet, `=` padding).
- `utf8.dfy`: UTF-8 per RFC 3629. `format!` yields a UTF-8 string, and
  base64 encodes its bytes.
- `reqwest.dfy`: the reqwest `ClientBuilder` as a class. Its fields are the
  settings the builder accumulates, and its methods change them in place.
- `config.dfy`:
  - the kubeconfig records and the `Configuration`;
  - the decisions above, as functions;
  - the specification `ClientBuilderPlan`;
  - the imperative `CreateClientBuilder`, `LoadKubeConfigWith`,
    `LoadKubeConfig` and `InClusterConfig`, proved against the
    specification.
- `config_properties.dfy`: the precedence, ordering and error properties
  of the plan.

Everything the module calls but does not define is an input, bundled in
two records:

- `KubeconfigHost`:
  - the located kubeconfig path;
  - `KubeConfigLoader::load`;
  - `exec::auth_exec`;
  - reading a token file.
- `Conversions`:
  - the OpenSSL and reqwest conversions (`to_der`, `Certificate::from_der`,
    `Identity::from_pkcs12_der`);
  - `HeaderValue::from_str` as a validity predicate;
  - whether `ClientBuilder::build` accepts the settings.

The in-cluster reads are an `InClusterEnv` record.

## Model

| member | source | states |
|---|---|---|
| Config.NewConfiguration | src/config/mod.rs:33-35 | a new configuration is `with_default_ns` with namespace "default" |
| Config.WithDefaultNs | src/config/mod.rs:37-43 | base path, client and namespace are stored unchanged |
| Config.LoadKubeConfig | src/config/mod.rs:55-57 | with no context, cluster or user override: a plan failure is passed on; a build rejection is KubeConfig("Unable to build client"); on success, base path is the cluster's server, namespace is "default", client settings are the builder's |
| Config.LoadKubeConfigWith | src/config/mod.rs:76-85 | a failure of `create_client_builder` is passed on; a build rejection is KubeConfig("Unable to build client"); on success, base path is the cluster's server, namespace is "default", client settings are the builder's |
| Config.ClientBuilderPlan | src/config/mod.rs:100-105 | no kubeconfig found is KubeConfig("Unable to load file"); a `load` error is passed on unchanged; on success, the loader is the one `load` returned for the options |
| Config.CreateClientBuilder | src/config/mod.rs:100-171 | the imperative builder run fails exactly when the plan fails, with the plan's error; on success, a fresh builder holds exactly the plan's settings and the loader is the plan's loader |
| Config.ResolveToken | src/config/mod.rs:107-120 | inline token is returned as-is; no token and no exec gives none; only an exec run can fail; with exec, a plugin error is passed on, a response without status is KubeConfig("exec-plugin response did not contain a status"), otherwise the status's token (possibly none) is returned |
| Config.ConvertCa | src/config/mod.rs:126-127 | succeeds iff `to_der` succeeds and `from_der` accepts its output; the root is then exactly `from_der`'s certificate; a failure is an SSL error |
| Config.CaRoots | src/config/mod.rs:124-130 | succeeds iff every certificate converts; then roots have the bundle's length and are the converted certificates in bundle order; a failure is an SSL error |
| Config.TrustRoots | src/config/mod.rs:124-130 | no CA adds no roots; an unreadable bundle passes on the loader's error; a readable bundle contributes its `CaRoots` |
| Config.ChooseTlsMode | src/config/mod.rs:131-143 | identity iff `p12(" ")` succeeds; when it succeeds, the choice succeeds iff `to_der` and `from_pkcs12_der` with password " " both succeed, and the identity is that conversion's result; accept-invalid iff `p12` fails and `insecure_skip_tls_verify == Some(true)`; an error only from a failed PKCS #12 conversion, as an SSL error |
| Config.DataOrFile | src/config/mod.rs:148 | inline value wins; without it, a named file's contents (none when unreadable); a value is only found when inline data or a file is given |
| Config.ChooseCredential | src/config/mod.rs:147-167 | an offered token is Bearer; Bearer iff a token or token file resolves, carrying exactly the resolved value; Basic only without a token, from both username and password; none otherwise |
| Config.BasicCredentials | src/config/mod.rs:159 | the base64 of `user:password` has a length that is a multiple of four |
| Config.HeaderValueText | src/config/mod.rs:150-165 | a header text exists exactly for Bearer and Basic credentials: "Bearer " + token, or "Basic " + base64 of `user:password` |
| Config.AuthorizationHeaders | src/config/mod.rs:145-167 | fails iff the header text is rejected, with KubeConfig("Invalid bearer token"); otherwise the map is empty or the single Authorization entry |
| Config.InClusterRoot | src/config/mod.rs:191-193 | a missing CA is an SSL error; otherwise the CA's conversion |
| Config.InClusterConfig | src/config/mod.rs:183-219 | errors in the order server (message naming both variables), CA, token, namespace, header, build; success iff all succeed; then exactly the mounted root, no identity, not insecure, header "Bearer " + token, server and namespace from the environment |
| Reqwest.ClientBuilder.constructor | src/config/mod.rs:122 | a new builder has no roots, no identity, verifies certificates and has no headers |
| Reqwest.ClientBuilder.AddRootCertificate | src/config/mod.rs:128 | appends one root and changes nothing else |
| Reqwest.ClientBuilder.SetIdentity | src/config/mod.rs:135 | sets the identity and changes nothing else |
| Reqwest.ClientBuilder.DangerAcceptInvalidCerts | src/config/mod.rs:140 | sets the accept-invalid flag and changes nothing else |
| Reqwest.ClientBuilder.DefaultHeaders | src/config/mod.rs:169 | merges the headers into the defaults and changes nothing else |
| Reqwest.ClientBuilder.Build | src/config/mod.rs:81-82 | a client exists iff the settings are accepted, and it carries exactly the builder's settings |
| Base64.Encode | src/config/mod.rs:159 | output length is 4 * ceil(n / 3) |
| Base64.DecodeEncode | src/config/mod.rs:159 | decoding the encoding gives back the bytes |
| Base64.EncodeAlphabet | src/config/mod.rs:159 | the encoding uses only the alphabet and `=` |
| Base64.EncodeInjective | src/config/mod.rs:159 | distinct byte strings have distinct encodings |
| Utf8.Encode | src/config/mod.rs:159 | a string of n characters has between n and 4n bytes |
| Utf8.DecodeEncode | src/config/mod.rs:159 | decoding the UTF-8 form gives back the string |
| Utf8.EncodeInjective | src/config/mod.rs:159 | distinct strings have distinct UTF-8 forms |
| Utf8.EncodeAppend | src/config/mod.rs:159 | the form of a concatenation is the concatenation of the forms |
| ConfigProperties.PlanSteps | src/config/mod.rs:100-171 | the plan succeeds iff token, roots, TLS mode and header all succeed; its settings are exactly their results |
| ConfigProperties.PlanFirstError | src/config/mod.rs:107-167 | the first failing step, in source order, gives the error |
| ConfigProperties.InlineTokenWins | src/config/mod.rs:107-156 | an inline token gives header "Bearer " + token, whatever else the user has |
| ConfigProperties.ExecConsultedOnlyWithoutToken | src/config/mod.rs:107-118 | with an inline token or no exec section, replacing the plugin changes nothing |
| ConfigProperties.ExecFailurePropagates | src/config/mod.rs:111 | a plugin failure is the call's error |
| ConfigProperties.ExecMissingStatusFails | src/config/mod.rs:112-114 | a response without status is KubeConfig("exec-plugin response did not contain a status") |
| ConfigProperties.ExecTokenBeforeTokenFile | src/config/mod.rs:107-157 | the plugin's token is the bearer token even when a token file is set |
| ConfigProperties.StatusWithoutTokenUnresolved | src/config/mod.rs:110-115 | a status without a token resolves to no token, the same as having no exec section |
| ConfigProperties.TokenFileUsedWithoutToken | src/config/mod.rs:148-156 | with no token offered, a readable token file's contents are the bearer token |
| ConfigProperties.BasicHeaderOnlyWithoutToken | src/config/mod.rs:158-164 | with no token and no readable token file, username and password give "Basic " + base64(user:password) |
| ConfigProperties.NoCredentialNoHeader | src/config/mod.rs:166-169 | with no token and a missing username or password, the call succeeds with no header |
| ConfigProperties.InvalidHeaderIsError | src/config/mod.rs:151-164 | a rejected header value fails the call with KubeConfig("Invalid bearer token") |
| ConfigProperties.BasicHeaderRecoversCredentials | src/config/mod.rs:159-162 | the Basic value is "Basic " and base64 that decodes to the UTF-8 of user:password |
| ConfigProperties.BasicBytes | src/config/mod.rs:159 | the bytes encoded are the UTF-8 of the username, one colon byte, and the UTF-8 of the password |
| ConfigProperties.BasicHeaderAlwaysValid | src/config/mod.rs:162-163 | a header check that accepts printable ASCII accepts every Basic value |
| ConfigProperties.BasicCredentialsInjective | src/config/mod.rs:159 | with colon-free usernames, equal Basic values mean equal credentials |
| ConfigProperties.JoinedCredentialsSplit | src/config/mod.rs:159 | `user:password` splits uniquely at the first colon when the username has none |
| ConfigProperties.NoCaNoRoots | src/config/mod.rs:124 | no CA adds no roots |
| ConfigProperties.RootsInBundleOrder | src/config/mod.rs:124-130 | every bundle certificate becomes a root, in bundle order |
| ConfigProperties.UnreadableBundleIsError | src/config/mod.rs:125 | an unreadable bundle is the call's error |
| ConfigProperties.BadCertificateIsSslError | src/config/mod.rs:126-127 | one certificate that fails conversion fails the call with an SSL error |
| ConfigProperties.IdentityOrInsecure | src/config/mod.rs:131-143 | identity iff `p12` succeeds; accept-invalid iff `p12` fails and the cluster says Some(true); never both |
| ConfigProperties.IdentityFromBundle | src/config/mod.rs:131-135 | a PKCS #12 bundle that converts is the client identity, exactly the conversion's result, and invalid certificates are not accepted |
| ConfigProperties.P12ConversionFailureIsError | src/config/mod.rs:133-134 | a PKCS #12 bundle that fails conversion is an SSL error, not the insecure fallback |
| ConfigProperties.SingleCaInlineToken | src/config/mod.rs:124-156 | one CA and inline token "abc123" give exactly that root and header "Bearer abc123" |
| ConfigProperties.MissingServiceEnvNamesBoth | src/config/mod.rs:184-189 | the missing-server message names both service variables |

## Left out

- Locating and parsing the kubeconfig. `utils::find_kubeconfig` and
  `KubeConfigLoader::load` are inputs, and so are the selection of context,
  cluster and user, and the loader's `ca_bundle` and `p12`. kube_config.rs
  and utils.rs are not part of this model.
- Running the exec plugin. `exec::auth_exec` is an input from the exec
  section to a result. exec.rs is not part of this model.
- OpenSSL and reqwest internals. DER conversions, identity parsing and
  `build` are inputs that either succeed or fail. `Certificate` and
  `Identity` are known only by identity, and `Client` is the settings it was built from.
- Config.DataOrFile: only the behaviour the caller can observe is modelled
  (inline value, else a readable file, else nothing). The error of
  `utils::data_or_file` is discarded by its caller and is not modelled.
- `HeaderValue::from_str` is a predicate on the header text. The printable
  ASCII rule appears only as a hypothesis of BasicHeaderAlwaysValid.
- The in-cluster collaborators are one record. That record holds the
  server URL (present only when both variables are set), the CA, the token
  and the namespace. incluster_config.rs is not part of this model. The
  variable names `KUBERNETES_SERVICE_HOST` and `KUBERNETES_SERVICE_PORT` are
  the Kubernetes convention.
- The `apis` re-exports at the end of the module are declarations only.
- Error context chains. Each error is modelled by its kind and message
  only, not by the cause that `failure` attaches.
- Reqwest.ClientBuilder.DefaultHeaders: modelled as a map merge. The
  model's fresh builder has no default headers; the headers reqwest itself
  installs in a new builder (such as `Accept`) are not modelled.

## Behaviour of the code worth knowing


- The exec plugin's client certificate and key are ignored. Only
  `status.token` is used, and the identity comes from the loader alone.
- The exec token is passed to `data_or_file` as the inline value. So it is
  offered ahead of `token_file`.
- An unreadable `token_file` is passed over silently. A Basic header, or no
  header, follows.
- A rejected Basic header reports the message "Invalid bearer token", the
  same as a rejected Bearer header.
- `insecure_skip_tls_verify` has no effect when a PKCS #12 bundle loads,
  even when that bundle's conversion fails. A failed conversion is an SSL
  error.
