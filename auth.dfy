/** The client-credentials configuration and the bearer-token request of
    `src/auth.rs`. Reading the configuration file is the `load` oracle
    (`load_json`), the token endpoint is reached through a `Transport`. */
module Auth {
  import opened Wrappers
  import opened Json
  import opened Http

  datatype ClientConfig = ClientConfig(clientId: string, clientSecret: string, audience: string)

  const DefaultConfigFile: string := ".person-cli.json"
  const TokenUrl: string := "https://auth.mozilla.auth0.com/oauth/token"
  const GrantType: string := "client_credentials"
  const Scopes: string := "read:fullprofile display:all"

  const MissingClientId: string := "missing client_id in config"
  const MissingClientSecret: string := "missing client_secret in config"
  const MissingAudience: string := "missing audience in config"
  const NoToken: string := "no token :/"

  /** The configuration file used when none is named. */
  function ConfigPath(configFile: Option<string>): (path: string)
    ensures configFile.None? ==> path == DefaultConfigFile
    ensures configFile.Some? ==> path == configFile.value
  {
    configFile.GetOr(DefaultConfigFile)
  }

  /** The checks of `read_client_config` on the loaded value: the three
      keys are checked in the order client_id, client_secret, audience; the
      first one that is absent or not a string decides the error. */
  function ClientConfigOf(config: Json): (r: Result<ClientConfig, string>)
    ensures StrField(config, "client_id").None? ==> r == Failure(MissingClientId)
    ensures StrField(config, "client_id").Some? && StrField(config, "client_secret").None? ==>
      r == Failure(MissingClientSecret)
    ensures (StrField(config, "client_id").Some? && StrField(config, "client_secret").Some? &&
             StrField(config, "audience").None?) ==> r == Failure(MissingAudience)
    ensures r.Success? <==>
      StrField(config, "client_id").Some? && StrField(config, "client_secret").Some? &&
      StrField(config, "audience").Some?
    ensures r.Success? ==>
      && config.fields["client_id"] == Str(r.value.clientId)
      && config.fields["client_secret"] == Str(r.value.clientSecret)
      && config.fields["audience"] == Str(r.value.audience)
  {
    match StrField(config, "client_id")
    case None => Failure(MissingClientId)
    case Some(clientId) =>
      match StrField(config, "client_secret")
      case None => Failure(MissingClientSecret)
      case Some(clientSecret) =>
        match StrField(config, "audience")
        case None => Failure(MissingAudience)
        case Some(audience) => Success(ClientConfig(clientId, clientSecret, audience))
  }

  /** `read_client_config`: a load error is passed through before any key
      is looked at. */
  function ReadClientConfig(path: string, load: string -> Result<Json, string>): (r: Result<ClientConfig, string>)
    ensures load(path).Failure? ==> r == Failure(load(path).error)
    ensures load(path).Success? ==> r == ClientConfigOf(load(path).value)
  {
    match load(path)
    case Failure(e) => Failure(e)
    case Success(config) => ClientConfigOf(config)
  }

  /** The JSON body of the token request. */
  function TokenPayload(cfg: ClientConfig): (j: Json)
    ensures j.Obj? && j.fields.Keys == {"client_id", "client_secret", "audience", "grant_type", "scopes"}
    ensures StrField(j, "client_id") == Some(cfg.clientId)
    ensures StrField(j, "client_secret") == Some(cfg.clientSecret)
    ensures StrField(j, "audience") == Some(cfg.audience)
    ensures StrField(j, "grant_type") == Some(GrantType)
    ensures StrField(j, "scopes") == Some(Scopes)
  {
    Obj(map[
      "client_id" := Str(cfg.clientId),
      "client_secret" := Str(cfg.clientSecret),
      "audience" := Str(cfg.audience),
      "grant_type" := Str(GrantType),
      "scopes" := Str(Scopes)])
  }

  /** The POST to the token endpoint; it carries no bearer token. */
  function TokenRequest(cfg: ClientConfig): (req: Request)
    ensures req.verb == Post && req.url == TokenUrl && req.bearer.None? && req.headers == []
    ensures req.body == Some(TokenPayload(cfg))
  {
    Request(Post, TokenUrl, None, [], Some(TokenPayload(cfg)))
  }

  /** `j["access_token"].as_str()`, or the "no token" error. */
  function ExtractToken(j: Json): (r: Result<string, string>)
    ensures r.Success? <==> StrField(j, "access_token").Some?
    ensures r.Success? ==> j.fields["access_token"] == Str(r.value)
    ensures r.Failure? ==> r.error == NoToken
  {
    match StrField(j, "access_token")
    case Some(t) => Success(t)
    case None => Failure(NoToken)
  }

  /** `get_access_token`: read the configuration, post the payload, decode
      the reply and take its `access_token`. */
  function GetAccessToken(configFile: Option<string>, load: string -> Result<Json, string>, net: Transport): (r: Result<string, string>)
    ensures ReadClientConfig(ConfigPath(configFile), load).Failure? ==>
      r == Failure(ReadClientConfig(ConfigPath(configFile), load).error)
    ensures ReadClientConfig(ConfigPath(configFile), load).Success? ==>
      var req := TokenRequest(ReadClientConfig(ConfigPath(configFile), load).value);
      && (net.send(req).Failure? ==> r == Failure("can't get token: " + net.send(req).error))
      && (net.send(req).Success? && net.json(net.send(req).value).Failure? ==>
            r == Failure("can't parse token: " + net.json(net.send(req).value).error))
      && (net.send(req).Success? && net.json(net.send(req).value).Success? ==>
            r == ExtractToken(net.json(net.send(req).value).value))
  {
    match ReadClientConfig(ConfigPath(configFile), load)
    case Failure(e) => Failure(e)
    case Success(cfg) =>
      match net.send(TokenRequest(cfg))
      case Failure(e) => Failure("can't get token: " + e)
      case Success(res) =>
        match net.json(res)
        case Failure(e) => Failure("can't parse token: " + e)
        case Success(j) => ExtractToken(j)
  }

  /** A key whose value is present but is not a string is reported exactly
      as if the key were absent. */
  lemma NonStringIsMissing(config: Json, key: string)
    requires key in {"client_id", "client_secret", "audience"}
    requires config.Obj? && key in config.fields && !config.fields[key].Str?
    ensures ClientConfigOf(config) == ClientConfigOf(Obj(config.fields - {key}))
  {
  }

  /** The token payload is itself a configuration that reads back to the
      configuration it was built from. */
  lemma PayloadReadsBack(cfg: ClientConfig)
    ensures ClientConfigOf(TokenPayload(cfg)) == Success(cfg)
  {
  }

  /** A successful token always comes from a reply to the request built from
      the configuration read at the default or given path. */
  lemma TokenComesFromReply(configFile: Option<string>, load: string -> Result<Json, string>, net: Transport)
    requires GetAccessToken(configFile, load, net).Success?
    ensures var cfg := ReadClientConfig(ConfigPath(configFile), load);
      && cfg.Success?
      && net.send(TokenRequest(cfg.value)).Success?
      && var j := net.json(net.send(TokenRequest(cfg.value)).value);
      && j.Success? && StrField(j.value, "access_token") == Some(GetAccessToken(configFile, load, net).value)
  {
  }
}
