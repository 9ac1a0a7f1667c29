/** The client configuration validators of hatchet_sdk/loader.py. The process
    environment is a map parameter (what `os.getenv` reads) and the JWT
    decoders are function parameters. */
module Loader {
  import opened Wrappers
  import opened Text
  import opened Python

  const DefaultHostPort: string := "localhost:7070"
  const DefaultServerUrl: string := "https://app.dev.hatchet-tools.com"
  const TlsServerNameVar: string := "HATCHET_CLIENT_TLS_SERVER_NAME"

  /** The process environment. */
  type Env = map<string, string>

  /** `os.getenv(name)`. */
  function GetEnv(env: Env, name: string): Option<string>
  {
    if name in env then Some(env[name]) else None
  }

  /** `os.getenv(name, default)`. */
  function GetEnvOr(env: Env, name: string, default: string): string
  {
    GetEnv(env, name).GetOr(default)
  }

  /** Python truthiness of an optional string. */
  predicate Truthy(s: Option<string>) { s.Some? && s.value != "" }

  datatype ClientTLSConfig = ClientTLSConfig(
    tlsStrategy: string,
    certFile: Option<string>,
    keyFile: Option<string>,
    caFile: Option<string>,
    serverName: string)

  /** What `get_addresses_from_jwt` reads from a token. */
  datatype Addresses = Addresses(serverUrl: string, grpcBroadcastAddress: string)

  /** `get_addresses_from_jwt` and `get_tenant_id_from_jwt`; an Err is the
      exception they raise on a token they cannot decode. */
  datatype Jwt = Jwt(addresses: string -> PyResult<Addresses>, tenantId: string -> PyResult<string>)

  /** The TLS server name `_load_tls_config` settles on. */
  function TlsServerName(env: Env, hostPort: Option<string>): (name: string)
    ensures name != ""
    ensures Truthy(GetEnv(env, TlsServerNameVar)) ==> name == GetEnv(env, TlsServerNameVar).value
    ensures !Truthy(GetEnv(env, TlsServerNameVar)) && Truthy(hostPort) && BeforeFirst(hostPort.value, ':') != ""
            ==> name == BeforeFirst(hostPort.value, ':') && StartsWith(hostPort.value, name) && ':' !in name
    ensures !Truthy(GetEnv(env, TlsServerNameVar)) && (!Truthy(hostPort) || BeforeFirst(hostPort.value, ':') == "")
            ==> name == "localhost"
  {
    var fromEnv := GetEnv(env, TlsServerNameVar);
    var name := if !Truthy(fromEnv) && Truthy(hostPort) then Some(BeforeFirst(hostPort.value, ':')) else fromEnv;
    if !Truthy(name) then "localhost" else name.value
  }

  /** `_load_tls_config(host_port)`. */
  function LoadTlsConfig(env: Env, hostPort: Option<string>): (c: ClientTLSConfig)
    ensures c.serverName != ""
    ensures c.tlsStrategy == GetEnvOr(env, "HATCHET_CLIENT_TLS_STRATEGY", "tls")
    ensures c.certFile == GetEnv(env, "HATCHET_CLIENT_TLS_CERT_FILE")
    ensures c.keyFile == GetEnv(env, "HATCHET_CLIENT_TLS_KEY_FILE")
    ensures c.caFile == GetEnv(env, "HATCHET_CLIENT_TLS_ROOT_CA_FILE")
    ensures c.serverName == TlsServerName(env, hostPort)
  {
    ClientTLSConfig(
      GetEnvOr(env, "HATCHET_CLIENT_TLS_STRATEGY", "tls"),
      GetEnv(env, "HATCHET_CLIENT_TLS_CERT_FILE"),
      GetEnv(env, "HATCHET_CLIENT_TLS_KEY_FILE"),
      GetEnv(env, "HATCHET_CLIENT_TLS_ROOT_CA_FILE"),
      TlsServerName(env, hostPort))
  }

  /** A `host_port` is taken as given only when it is set and not the default. */
  predicate ExplicitHostPort(hostPort: Option<string>)
  {
    Truthy(hostPort) && hostPort.value != DefaultHostPort
  }

  /** `validate_token`. */
  function ValidateToken(token: string): (r: PyResult<string>)
    ensures r.Ok? <==> token != ""
    ensures r.Ok? ==> r.value == token
    ensures r.Err? ==> r.error == ValueError("Token must be set")
  {
    if token == "" then Err(ValueError("Token must be set")) else Ok(token)
  }

  /** `validate_namespace`. */
  function ValidateNamespace(namespace: string): (r: string)
    ensures namespace == "" <==> r == ""
    ensures namespace != "" ==> EndsWith(r, "_") && IsLowerCase(r)
    ensures EndsWith(namespace, "_") ==> r == Lower(namespace)
    ensures namespace != "" && !EndsWith(namespace, "_") ==> r == Lower(namespace) + "_"
  {
    if namespace == "" then ""
    else
      var withSuffix := if EndsWith(namespace, "_") then namespace else namespace + "_";
      NamespaceSuffix(namespace, withSuffix);
      Lower(withSuffix)
  }

  lemma NamespaceSuffix(namespace: string, withSuffix: string)
    requires namespace != ""
    requires withSuffix == if EndsWith(namespace, "_") then namespace else namespace + "_"
    ensures EndsWith(Lower(withSuffix), "_") && IsLowerCase(Lower(withSuffix))
    ensures EndsWith(namespace, "_") ==> Lower(withSuffix) == Lower(namespace)
    ensures !EndsWith(namespace, "_") ==> Lower(withSuffix) == Lower(namespace) + "_"
  {
    LowerIsLowerCase(withSuffix);
    assert withSuffix[|withSuffix| - 1] == '_';
    var low := Lower(withSuffix);
    assert low[|low| - 1] == '_';
    assert low[|low| - 1..] == "_";
    if !EndsWith(namespace, "_") {
      LowerAppend(namespace, "_");
    }
  }

  /** A normalised namespace is left alone by a second normalisation. */
  lemma ValidateNamespaceIdempotent(namespace: string)
    ensures ValidateNamespace(ValidateNamespace(namespace)) == ValidateNamespace(namespace)
  {
    var once := ValidateNamespace(namespace);
    if once != "" {
      LowerOfLowerCase(once);
    }
  }

  /** The fixed points of `validate_namespace` are exactly "" and the
      lower-case names that end in "_". */
  lemma ValidateNamespaceFixedPoints(namespace: string)
    ensures ValidateNamespace(namespace) == namespace
            <==> namespace == "" || (EndsWith(namespace, "_") && IsLowerCase(namespace))
  {
    if namespace != "" && EndsWith(namespace, "_") && IsLowerCase(namespace) {
      LowerOfLowerCase(namespace);
    }
  }

  /** The value `listener_v2_timeout` is given as. */
  datatype TimeoutInput = TimeoutNone | TimeoutInt(i: int) | TimeoutStr(s: string)

  /** `validate_listener_timeout`: None stays None, an int is kept, a string
      goes through `int()`, whose ValueError is an Err here. */
  function ValidateListenerTimeout(value: TimeoutInput): (r: PyResult<Option<int>>)
    ensures value.TimeoutNone? ==> r == Ok(None)
    ensures value.TimeoutInt? ==> r == Ok(Some(value.i))
    ensures value.TimeoutStr? ==> (r.Ok? <==> ParseInt(value.s).Some?)
    ensures value.TimeoutStr? && r.Ok? ==> r.value == ParseInt(value.s)
  {
    match value
    case TimeoutNone => Ok(None)
    case TimeoutInt(i) => Ok(Some(i))
    case TimeoutStr(s) =>
      match ParseInt(s)
      case Some(i) => Ok(Some(i))
      case None => Err(ValueError("invalid literal for int() with base 10: " + s))
  }

  /** A timeout written out as `str(n)` validates to n. */
  lemma ListenerTimeoutRoundTrip(n: int)
    ensures ValidateListenerTimeout(TimeoutStr(FormatInt(n))) == Ok(Some(n))
  {
    ParseFormatInt(n);
  }

  /** `validate_tenant_id`; `token` is what the token field validated to
      (None when that validation failed). */
  function ValidateTenantId(tenantId: string, token: Option<string>, jwt: Jwt): (r: PyResult<string>)
    ensures tenantId != "" ==> r == Ok(tenantId)
    ensures tenantId == "" && !Truthy(token) ==> r == Err(ValueError("Either the token or tenant_id must be set"))
    ensures tenantId == "" && Truthy(token) ==> r == jwt.tenantId(token.value)
  {
    if tenantId == "" then
      if !Truthy(token) then Err(ValueError("Either the token or tenant_id must be set"))
      else jwt.tenantId(token.value)
    else Ok(tenantId)
  }

  /** `validate_host_port`. */
  function ValidateHostPort(hostPort: string, token: Option<string>, jwt: Jwt): (r: PyResult<string>)
    ensures ExplicitHostPort(Some(hostPort)) ==> r == Ok(hostPort)
    ensures !ExplicitHostPort(Some(hostPort)) && !Truthy(token) ==> r == Err(ValueError("Token must be set"))
    ensures !ExplicitHostPort(Some(hostPort)) && Truthy(token) ==> (r.Ok? <==> jwt.addresses(token.value).Ok?)
    ensures !ExplicitHostPort(Some(hostPort)) && Truthy(token) && r.Ok?
            ==> r.value == jwt.addresses(token.value).value.grpcBroadcastAddress
    ensures !ExplicitHostPort(Some(hostPort)) && Truthy(token) && r.Err?
            ==> r.error == jwt.addresses(token.value).error
  {
    if ExplicitHostPort(Some(hostPort)) then Ok(hostPort)
    else if !Truthy(token) then Err(ValueError("Token must be set"))
    else
      match jwt.addresses(token.value)
      case Ok(a) => Ok(a.grpcBroadcastAddress)
      case Err(e) => Err(e)
  }

  /** `validate_server_url`; the given `server_url` is never used. */
  function ValidateServerUrl(serverUrl: string, hostPort: Option<string>, token: Option<string>, jwt: Jwt)
    : (r: PyResult<string>)
    ensures ExplicitHostPort(hostPort) ==> r == Ok(hostPort.value)
    ensures !ExplicitHostPort(hostPort) && !Truthy(token) ==> r == Err(ValueError("Token must be set"))
    ensures !ExplicitHostPort(hostPort) && Truthy(token) ==> (r.Ok? <==> jwt.addresses(token.value).Ok?)
    ensures !ExplicitHostPort(hostPort) && Truthy(token) && r.Ok?
            ==> r.value == jwt.addresses(token.value).value.serverUrl
    ensures !ExplicitHostPort(hostPort) && Truthy(token) && r.Err?
            ==> r.error == jwt.addresses(token.value).error
  {
    if ExplicitHostPort(hostPort) then Ok(hostPort.value)
    else if !Truthy(token) then Err(ValueError("Token must be set"))
    else
      match jwt.addresses(token.value)
      case Ok(a) => Ok(a.serverUrl)
      case Err(e) => Err(e)
  }

  lemma ServerUrlIgnoresItsInput(a: string, b: string, hostPort: Option<string>, token: Option<string>, jwt: Jwt)
    ensures ValidateServerUrl(a, hostPort, token, jwt) == ValidateServerUrl(b, hostPort, token, jwt)
  {
  }

  /** `validate_tls_config`: the given TLS config is replaced by a fresh
      `_load_tls_config(host_port)`. */
  function ValidateTlsConfig(given: ClientTLSConfig, hostPort: Option<string>, env: Env): (c: ClientTLSConfig)
    ensures c == LoadTlsConfig(env, hostPort) && c.serverName != ""
  {
    LoadTlsConfig(env, hostPort)
  }

  /** What `validate_addresses` leaves in `host_port`, `server_url` and the
      TLS server name. */
  datatype ResolvedAddresses = ResolvedAddresses(hostPort: string, serverUrl: string, serverName: string)

  function ResolveAddresses(token: string, hostPort: string, serverName: string, jwt: Jwt)
    : (r: PyResult<ResolvedAddresses>)
    ensures hostPort != DefaultHostPort ==> r.Ok? && r.value.hostPort == hostPort && r.value.serverUrl == hostPort
    ensures hostPort == DefaultHostPort ==> (r.Ok? <==> jwt.addresses(token).Ok?)
    ensures hostPort == DefaultHostPort && r.Ok? ==>
              r.value.hostPort == jwt.addresses(token).value.grpcBroadcastAddress
              && r.value.serverUrl == jwt.addresses(token).value.serverUrl
    ensures r.Ok? ==> r.value.serverName != ""
    ensures r.Ok? && serverName != "" ==> r.value.serverName == serverName
    ensures r.Ok? && serverName == "" && BeforeFirst(r.value.hostPort, ':') != ""
            ==> r.value.serverName == BeforeFirst(r.value.hostPort, ':')
    ensures r.Ok? && serverName == "" && BeforeFirst(r.value.hostPort, ':') == "" ==> r.value.serverName == "localhost"
    ensures hostPort == DefaultHostPort && r.Err? ==> r.error == jwt.addresses(token).error
  {
    var addresses: PyResult<Addresses> :=
      if hostPort == DefaultHostPort then
        match jwt.addresses(token)
        case Ok(a) => Ok(Addresses(a.serverUrl, a.grpcBroadcastAddress))
        case Err(e) => Err(e)
      else Ok(Addresses(hostPort, hostPort));
    match addresses
    case Err(e) => Err(e)
    case Ok(a) =>
      var hp, url := a.grpcBroadcastAddress, a.serverUrl;
      var name1 := if serverName == "" then BeforeFirst(hp, ':') else serverName;
      var name2 := if name1 == "" then "localhost" else name1;
      Ok(ResolvedAddresses(hp, url, name2))
  }

  /** The validated configuration; `validate_addresses` updates it in place. */
  class ClientConfig {
    var token: string
    var tenantId: string
    var hostPort: string
    var serverUrl: string
    var namespace: string
    var tlsConfig: ClientTLSConfig
    var listenerV2Timeout: Option<int>

    constructor(token: string, tenantId: string, hostPort: string, serverUrl: string, namespace: string,
                tlsConfig: ClientTLSConfig, listenerV2Timeout: Option<int>)
      ensures this.token == token && this.tenantId == tenantId && this.hostPort == hostPort
      ensures this.serverUrl == serverUrl && this.namespace == namespace && this.tlsConfig == tlsConfig
      ensures this.listenerV2Timeout == listenerV2Timeout
    {
      this.token, this.tenantId, this.hostPort := token, tenantId, hostPort;
      this.serverUrl, this.namespace, this.tlsConfig := serverUrl, namespace, tlsConfig;
      this.listenerV2Timeout := listenerV2Timeout;
    }

    /** `validate_addresses`. When the token cannot be decoded nothing has
        been assigned yet, so the configuration is left as it was. */
    method ValidateAddresses(jwt: Jwt) returns (r: PyResult<()>)
      modifies this
      ensures var spec := ResolveAddresses(old(token), old(hostPort), old(tlsConfig.serverName), jwt);
              && (r.Ok? <==> spec.Ok?)
              && (spec.Ok? ==> hostPort == spec.value.hostPort && serverUrl == spec.value.serverUrl
                                && tlsConfig == old(tlsConfig).(serverName := spec.value.serverName))
              && (spec.Err? ==> r.error == spec.error && hostPort == old(hostPort) && serverUrl == old(serverUrl)
                                && tlsConfig == old(tlsConfig))
      ensures r.Ok? ==> tlsConfig.serverName != ""
      ensures token == old(token) && tenantId == old(tenantId) && namespace == old(namespace)
      ensures listenerV2Timeout == old(listenerV2Timeout)
    {
      if hostPort == DefaultHostPort {
        var a := jwt.addresses(token);
        if a.Err? {
          return Err(a.error);
        }
        hostPort := a.value.grpcBroadcastAddress;
        serverUrl := a.value.serverUrl;
      } else {
        serverUrl := hostPort;
      }
      if tlsConfig.serverName == "" {
        tlsConfig := tlsConfig.(serverName := BeforeFirst(hostPort, ':'));
      }
      if tlsConfig.serverName == "" {
        tlsConfig := tlsConfig.(serverName := "localhost");
      }
      r := Ok(());
    }
  }
}
