/** The part of reqwest that client construction drives: a `ClientBuilder`
    that accumulates trusted root certificates, a client identity, the
    accept-invalid-certificates switch and default headers, and `build`,
    which turns the accumulated settings into a `Client` or fails. The
    builder is an object whose setters each change one setting and leave
    the others as they were. */
module Reqwest {
  import opened Wrappers

  /** A certificate that `Certificate::from_der` accepted and a client
      identity that `Identity::from_pkcs12_der` produced, known here only
      by identity. */
  datatype Certificate = Certificate(handle: nat)
  datatype Identity = Identity(handle: nat)

  /** The name `header::AUTHORIZATION` stands for. */
  const Authorization := "authorization"

  /** Everything a builder has accumulated. */
  datatype ClientSettings = ClientSettings(
    roots: seq<Certificate>,
    identity: Option<Identity>,
    acceptInvalidCerts: bool,
    defaultHeaders: map<string, string>)

  /** The settings of a fresh `Client::builder()`: no extra roots, no
      identity, certificates verified, no default headers. */
  const DefaultSettings := ClientSettings([], None, false, map[])

  /** A built client; the transport itself is not modelled. */
  datatype Client = Client(settings: ClientSettings)

  class ClientBuilder {
    var roots: seq<Certificate>
    var identity: Option<Identity>
    var acceptInvalidCerts: bool
    var defaultHeaders: map<string, string>

    /** The settings accumulated so far. */
    function Settings(): ClientSettings
      reads this
    {
      ClientSettings(roots, identity, acceptInvalidCerts, defaultHeaders)
    }

    /** `Client::builder()`. */
    constructor ()
      ensures Settings() == DefaultSettings
    {
      roots := [];
      identity := None;
      acceptInvalidCerts := false;
      defaultHeaders := map[];
    }

    /** `add_root_certificate`: appends one trusted root. */
    method AddRootCertificate(cert: Certificate)
      modifies this
      ensures Settings() == old(Settings()).(roots := old(roots) + [cert])
    {
      roots := roots + [cert];
    }

    /** `identity`: sets the client identity presented in the TLS handshake. */
    method SetIdentity(id: Identity)
      modifies this
      ensures Settings() == old(Settings()).(identity := Some(id))
    {
      identity := Some(id);
    }

    /** `danger_accept_invalid_certs`. */
    method DangerAcceptInvalidCerts(accept: bool)
      modifies this
      ensures Settings() == old(Settings()).(acceptInvalidCerts := accept)
    {
      acceptInvalidCerts := accept;
    }

    /** `default_headers`: each given header is inserted, replacing a
        header of the same name. */
    method DefaultHeaders(headers: map<string, string>)
      modifies this
      ensures Settings() == old(Settings()).(defaultHeaders := old(defaultHeaders) + headers)
    {
      defaultHeaders := defaultHeaders + headers;
    }

    /** `build`: a client carrying exactly the accumulated settings, or
        nothing when the transport library rejects them (`accepts` stands
        for that library's own checks). */
    method Build(accepts: ClientSettings -> bool) returns (r: Option<Client>)
      ensures r.Some? <==> accepts(Settings())
      ensures r.Some? ==> r.value.settings == Settings()
    {
      if accepts(Settings()) {
        r := Some(Client(Settings()));
      } else {
        r := None;
      }
    }
  }
}
