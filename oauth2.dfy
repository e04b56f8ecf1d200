/**
 * The OAuth2 request validator of the token service: client authentication,
 * grant-type and scope checks of the client-credentials grant (section 4.4
 * of RFC 6749), the three bearer-token validators (RFC 6750) and the
 * settings switch that picks one of them.
 *
 * The database session holds the client table and the token table; a query
 * `filter(column == x).first()` is the first row, in table order, whose
 * column equals `x`.
 */
module OAuth2 {
  import opened Common

  /** A point in time, in the unit in which tokens store their expiry. */
  type Time = int

  /** A registered client application. */
  datatype Client = Client(clientId: string, clientSecret: string, defaultScopes: seq<string>)

  /** A stored bearer token. A token whose `expires` is `None` never expires. */
  datatype Token = Token(
    clientId: Option<string>,
    tokenType: string,
    accessToken: string,
    refreshToken: Option<string>,
    expires: Option<Time>,
    scopes: seq<string>)

  /** The token dictionary handed to `save_bearer_token`, with its expiry as stored. */
  datatype TokenResponse = TokenResponse(
    tokenType: string,
    accessToken: string,
    refreshToken: Option<string>,
    expires: Option<Time>,
    scopes: seq<string>)

  /** The object assigned to `request.client` once the client is found. */
  datatype ClientRef = ClientRef(clientId: Option<string>)

  /** The validator `includeme` installs, with the settings it was built from. */
  datatype TokenKind =
    | RandomToken
    | SignedToken(cert: Option<string>, key: Option<string>, issuer: Option<string>)
    | CustomToken(secret: Option<string>, issuer: Option<string>)

  /**
   * What the JWT library does with a presented token under the configured
   * certificate or secret: it decodes it into a claims dictionary, which
   * may be empty, or it raises (bad signature, expired, malformed,
   * unreadable key file).
   */
  datatype JwtOutcome = Decoded(claimsEmpty: bool) | Raised(message: string)

  /** The grant types the validator accepts. */
  const DEFAULT_GRANTS: seq<string> := ["client_credentials"]

  /** The database session of a request: the client table and the token table. */
  class DbSession {
    var clients: seq<Client>
    var tokens: seq<Token>

    constructor (clients: seq<Client>, tokens: seq<Token>)
      ensures this.clients == clients && this.tokens == tokens
    {
      this.clients := clients;
      this.tokens := tokens;
    }

    /** `dbsession.add(token)`: a new row at the end of the token table. */
    method Add(token: Token)
      modifies this
      ensures tokens == old(tokens) + [token]
      ensures clients == old(clients)
    {
      tokens := tokens + [token];
    }
  }

  /** The parts of an OAuth request the validator reads and writes. */
  class OAuthRequest {
    const clientId: Option<string>
    const clientSecret: Option<string>
    const db: DbSession
    var client: Option<ClientRef>
    var user: Option<string>

    constructor (clientId: Option<string>, clientSecret: Option<string>, db: DbSession)
      ensures this.clientId == clientId && this.clientSecret == clientSecret && this.db == db
      ensures client == None && user == None
    {
      this.clientId := clientId;
      this.clientSecret := clientSecret;
      this.db := db;
      client := None;
      user := None;
    }
  }

  /** Row `j` is the first client row whose `client_id` is `clientId`. */
  ghost predicate FirstClientAt(clients: seq<Client>, clientId: Option<string>, j: int) {
    && 0 <= j < |clients|
    && Some(clients[j].clientId) == clientId
    && forall k :: 0 <= k < j ==> Some(clients[k].clientId) != clientId
  }

  /** No client row has `client_id` equal to `clientId`. */
  ghost predicate NoClient(clients: seq<Client>, clientId: Option<string>) {
    forall k :: 0 <= k < |clients| ==> Some(clients[k].clientId) != clientId
  }

  /** The index of the first client row whose `client_id` equals `clientId`. */
  function ClientIndex(clients: seq<Client>, clientId: Option<string>): (r: Option<nat>)
    ensures r.Some? ==> FirstClientAt(clients, clientId, r.value)
    ensures r.None? ==> NoClient(clients, clientId)
  {
    if clients == [] then None
    else if Some(clients[0].clientId) == clientId then Some(0)
    else
      match ClientIndex(clients[1..], clientId)
      case None => None
      case Some(i) => Some(i + 1)
  }

  /** `_get_client`: the first client row with that id, if any. */
  function GetClient(clients: seq<Client>, clientId: Option<string>): (r: Option<Client>)
    ensures r.None? <==> NoClient(clients, clientId)
    ensures forall j :: FirstClientAt(clients, clientId, j) ==> r == Some(clients[j])
  {
    match ClientIndex(clients, clientId)
    case None => None
    case Some(i) => Some(clients[i])
  }

  /**
   * `get_default_scopes`: the scopes of the client named by the REQUEST's
   * `client_id`, or none when there is no such client; the `clientId`
   * argument only appears in a log line.
   */
  function GetDefaultScopes(clients: seq<Client>, clientId: Option<string>, requestClientId: Option<string>): (r: seq<string>)
    ensures NoClient(clients, requestClientId) ==> r == []
    ensures forall j :: FirstClientAt(clients, requestClientId, j) ==> r == clients[j].defaultScopes
  {
    match GetClient(clients, requestClientId)
    case Some(c) => c.defaultScopes
    case None => []
  }

  /** `validate_grant_type`: only the client-credentials grant is accepted. */
  function ValidateGrantType(grantType: string): (r: bool)
    ensures r <==> grantType == "client_credentials"
  {
    grantType in DEFAULT_GRANTS
  }

  /** `all(scope in allowed for scope in scopes)` */
  function AllIn(scopes: seq<string>, allowed: seq<string>): (r: bool)
    ensures r <==> forall i :: 0 <= i < |scopes| ==> scopes[i] in allowed
  {
    if scopes == [] then true
    else scopes[0] in allowed && AllIn(scopes[1..], allowed)
  }

  /**
   * `validate_scopes`: false for an unknown client; otherwise every requested
   * scope must be one of the client's default scopes.
   */
  function ValidateScopes(clients: seq<Client>, clientId: Option<string>, scopes: seq<string>): (r: bool)
    ensures NoClient(clients, clientId) ==> !r
    ensures forall j :: FirstClientAt(clients, clientId, j) ==>
              (r <==> forall i :: 0 <= i < |scopes| ==> scopes[i] in clients[j].defaultScopes)
  {
    match GetClient(clients, clientId)
    case None => false
    case Some(c) => AllIn(scopes, c.defaultScopes)
  }

  /** A known client accepts the empty scope request. */
  lemma EmptyScopesAccepted(clients: seq<Client>, clientId: Option<string>)
    requires !NoClient(clients, clientId)
    ensures ValidateScopes(clients, clientId, [])
  {
  }

  /**
   * `authenticate_client`: an unknown client fails and leaves the request
   * alone; a known one is recorded on the request as client and user, and
   * succeeds iff the presented secret equals the stored one exactly.
   */
  method AuthenticateClient(request: OAuthRequest) returns (ok: bool)
    modifies request
    ensures NoClient(request.db.clients, request.clientId) ==>
              !ok && request.client == old(request.client) && request.user == old(request.user)
    ensures !NoClient(request.db.clients, request.clientId) ==>
              request.client == Some(ClientRef(request.clientId)) && request.user == request.clientId
    ensures forall j :: FirstClientAt(request.db.clients, request.clientId, j) ==>
              (ok <==> request.clientSecret == Some(request.db.clients[j].clientSecret))
  {
    var client := GetClient(request.db.clients, request.clientId);
    if client.None? {
      return false;
    }
    request.client := Some(ClientRef(request.clientId));
    request.user := request.clientId;
    ok := request.clientSecret == Some(client.value.clientSecret);
  }

  /** The row `models.Token(client_id=request.client_id, **token_response)`. */
  function TokenRow(clientId: Option<string>, response: TokenResponse): (r: Token)
    ensures r.clientId == clientId
    ensures r.accessToken == response.accessToken && r.tokenType == response.tokenType
    ensures r.refreshToken == response.refreshToken
    ensures r.expires == response.expires && r.scopes == response.scopes
  {
    Token(clientId, response.tokenType, response.accessToken, response.refreshToken, response.expires, response.scopes)
  }

  /**
   * `save_bearer_token`: the random-token validator adds the token to the
   * token table; the signed and custom validators keep the base class's
   * no-op.
   */
  method SaveBearerToken(kind: TokenKind, response: TokenResponse, request: OAuthRequest)
    modifies request.db
    ensures kind.RandomToken? ==> request.db.tokens == old(request.db.tokens) + [TokenRow(request.clientId, response)]
    ensures !kind.RandomToken? ==> request.db.tokens == old(request.db.tokens)
    ensures request.db.clients == old(request.db.clients)
  {
    if kind.RandomToken? {
      request.db.Add(TokenRow(request.clientId, response));
    }
  }

  /** Row `j` is the first token row whose `access_token` is `accessToken`. */
  ghost predicate FirstTokenAt(tokens: seq<Token>, accessToken: string, j: int) {
    && 0 <= j < |tokens|
    && tokens[j].accessToken == accessToken
    && forall k :: 0 <= k < j ==> tokens[k].accessToken != accessToken
  }

  /** No token row has that access token. */
  ghost predicate NoToken(tokens: seq<Token>, accessToken: string) {
    forall k :: 0 <= k < |tokens| ==> tokens[k].accessToken != accessToken
  }

  /** The index of the first token row whose `access_token` equals `accessToken`. */
  function TokenIndex(tokens: seq<Token>, accessToken: string): (r: Option<nat>)
    ensures r.Some? ==> FirstTokenAt(tokens, accessToken, r.value)
    ensures r.None? ==> NoToken(tokens, accessToken)
  {
    if tokens == [] then None
    else if tokens[0].accessToken == accessToken then Some(0)
    else
      match TokenIndex(tokens[1..], accessToken)
      case None => None
      case Some(i) => Some(i + 1)
  }

  /** The first stored token with that access token, if any. */
  function GetToken(tokens: seq<Token>, accessToken: string): (r: Option<Token>)
    ensures r.None? <==> NoToken(tokens, accessToken)
    ensures forall j :: FirstTokenAt(tokens, accessToken, j) ==> r == Some(tokens[j])
  {
    match TokenIndex(tokens, accessToken)
    case None => None
    case Some(i) => Some(tokens[i])
  }

  /**
   * The random-token `validate_bearer_token`: the token must be stored, must
   * not be past its expiry at `now`, and, when scopes are requested, must
   * share at least one of them.
   */
  function ValidateRandomToken(tokens: seq<Token>, accessToken: string, scopes: seq<string>, now: Time): (r: bool)
    ensures NoToken(tokens, accessToken) ==> !r
    ensures forall j :: FirstTokenAt(tokens, accessToken, j) ==>
              (r <==> (tokens[j].expires.None? || now <= tokens[j].expires.value)
                      && (scopes == [] || exists s :: s in scopes && s in tokens[j].scopes))
  {
    match GetToken(tokens, accessToken)
    case None => false
    case Some(tok) =>
      if tok.expires.Some? && now > tok.expires.value then false
      else if scopes != [] && (set s | s in tok.scopes) * (set s | s in scopes) == {} then
        assert forall s :: s in scopes && s in tok.scopes ==> s in (set x | x in tok.scopes) * (set x | x in scopes);
        false
      else true
  }

  /**
   * `validate_bearer_token` of the installed validator. The random one reads
   * the token table; the signed one returns what the JWT library decides and
   * lets its exception escape; the custom one turns any exception into false.
   */
  function ValidateBearerToken(kind: TokenKind, tokens: seq<Token>, accessToken: string, scopes: seq<string>,
                               now: Time, jwt: JwtOutcome): (r: Result<bool, string>)
    ensures kind.RandomToken? ==> r == Ok(ValidateRandomToken(tokens, accessToken, scopes, now))
    ensures kind.SignedToken? ==> (r.Ok? <==> jwt.Decoded?)
    ensures kind.SignedToken? && jwt.Decoded? ==> (r.value <==> !jwt.claimsEmpty)
    ensures kind.SignedToken? && jwt.Raised? ==> r == Err(jwt.message)
    ensures kind.CustomToken? ==> r.Ok? && (r.value <==> jwt.Decoded?)
  {
    match kind
    case RandomToken => Ok(ValidateRandomToken(tokens, accessToken, scopes, now))
    case SignedToken(_, _, _) =>
      (match jwt
       case Decoded(claimsEmpty) => Ok(!claimsEmpty)
       case Raised(message) => Err(message))
    case CustomToken(_, _) =>
      match jwt
      case Decoded(_) => Ok(true)
      case Raised(_) => Ok(false)
  }

  /** `settings.get(key)` */
  function Setting(settings: map<string, string>, key: string): (r: Option<string>)
    ensures r.Some? <==> key in settings
    ensures r.Some? ==> r.value == settings[key]
  {
    if key in settings then Some(settings[key]) else None
  }

  /**
   * The validator chosen by `twitcher.token.type` (default `random_token`);
   * an unknown value falls back to the random-token validator.
   */
  function SelectTokenKind(settings: map<string, string>): (k: TokenKind)
    ensures k.RandomToken? <==>
              ("twitcher.token.type" !in settings
               || settings["twitcher.token.type"] !in {"signed_token", "custom_token"})
    ensures k.SignedToken? <==> Setting(settings, "twitcher.token.type") == Some("signed_token")
    ensures k.CustomToken? <==> Setting(settings, "twitcher.token.type") == Some("custom_token")
    ensures k.SignedToken? ==>
              k == SignedToken(Setting(settings, "twitcher.token.certfile"),
                               Setting(settings, "twitcher.token.keyfile"),
                               Setting(settings, "twitcher.token.issuer"))
    ensures k.CustomToken? ==>
              k == CustomToken(Setting(settings, "twitcher.token.secret"), Setting(settings, "twitcher.token.issuer"))
  {
    var tokenType := Setting(settings, "twitcher.token.type").GetOr("random_token");
    if tokenType == "random_token" then RandomToken
    else if tokenType == "signed_token" then
      SignedToken(Setting(settings, "twitcher.token.certfile"),
                  Setting(settings, "twitcher.token.keyfile"),
                  Setting(settings, "twitcher.token.issuer"))
    else if tokenType == "custom_token" then
      CustomToken(Setting(settings, "twitcher.token.secret"), Setting(settings, "twitcher.token.issuer"))
    else RandomToken
  }

  /** Appending a token with a fresh access token makes it the one the query finds. */
  lemma {:induction false} GetTokenAppendFresh(tokens: seq<Token>, token: Token)
    requires NoToken(tokens, token.accessToken)
    ensures GetToken(tokens + [token], token.accessToken) == Some(token)
  {
    var all := tokens + [token];
    assert all[|tokens|] == token;
    match TokenIndex(all, token.accessToken)
    case None =>
      assert false;
    case Some(i) =>
      assert i == |tokens|;
  }

  /**
   * A random token saved for a request and then presented, unexpired, with
   * the scopes it was issued for, validates: issuance followed by immediate
   * validation succeeds.
   */
  lemma {:induction false} IssuedTokenValidates(tokens: seq<Token>, clientId: Option<string>,
                                                response: TokenResponse, now: Time)
    requires NoToken(tokens, response.accessToken)
    requires response.expires.None? || now <= response.expires.value
    ensures ValidateRandomToken(tokens + [TokenRow(clientId, response)], response.accessToken, response.scopes, now)
  {
    var row := TokenRow(clientId, response);
    GetTokenAppendFresh(tokens, row);
    if response.scopes != [] {
      assert response.scopes[0] in response.scopes && response.scopes[0] in row.scopes;
    }
  }

  /** Saving a further token with another access token does not change how a stored token validates. */
  lemma {:induction false} ValidationStableUnderInsert(tokens: seq<Token>, token: Token, accessToken: string,
                                                       scopes: seq<string>, now: Time)
    requires token.accessToken != accessToken
    ensures ValidateRandomToken(tokens + [token], accessToken, scopes, now)
            == ValidateRandomToken(tokens, accessToken, scopes, now)
  {
    var all := tokens + [token];
    assert forall j :: 0 <= j < |tokens| ==> all[j] == tokens[j];
    match TokenIndex(tokens, accessToken)
    case None =>
      assert TokenIndex(all, accessToken).None?;
    case Some(i) =>
      assert TokenIndex(all, accessToken) == Some(i);
  }
}
