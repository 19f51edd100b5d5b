/** The spreadsheet-platform OAuth broker: authorization-URL parameters, the
    callback that stores the exchanged token, token verification, and the
    refresh that merges the provider's credentials into the stored token.
    Each provider round trip is an oracle reply. */
module GoogleAuth {
  import opened Results
  import opened JsValues
  import opened Users

  const SpreadsheetsScope: string := "https://www.googleapis.com/auth/spreadsheets"
  const DriveScope: string := "https://www.googleapis.com/auth/drive"

  /** The options handed to the OAuth client's URL generator. */
  datatype AuthUrlRequest = AuthUrlRequest(accessType: string, scopes: seq<string>, state: string)

  function AuthUrl(domain: string): (request: AuthUrlRequest)
    ensures request.accessType == "offline"
    ensures SpreadsheetsScope in request.scopes && DriveScope in request.scopes && |request.scopes| == 2
    ensures request.state == domain
  {
    AuthUrlRequest("offline", [SpreadsheetsScope, DriveScope], domain)
  }

  /** The credentials the provider hands back; `expiryDate` is a timestamp. */
  datatype Credentials = Credentials(
    accessToken: Field,
    refreshToken: Field,
    scope: Field,
    tokenType: Field,
    expiryDate: Option<int>)

  /** The provider's answer to a code exchange or a refresh. */
  datatype GrantReply = Granted(credentials: Credentials) | Refused(message: string)

  /** The provider's answer to a token-info lookup. */
  datatype TokenInfoReply = TokenInfoOk | TokenInfoFailed(message: string)

  datatype AuthError = ExchangeFailed(message: string) | StoreFailed(cause: UserError)

  datatype Callback = Callback(store: Store, result: Result<(), AuthError>)

  /** The record the callback stores: the exchanged access token, scope, type
      and expiry, but the authorization `code` itself as the refresh token. */
  function CallbackToken(code: string, tokens: Credentials): (token: GoogleToken)
    ensures token.refreshToken == Some(code)
    ensures token.accessToken == tokens.accessToken
    ensures token.scope == tokens.scope && token.tokenType == tokens.tokenType
    ensures token.expiryDate == Some(Date(tokens.expiryDate))
  {
    GoogleToken(tokens.accessToken, Some(code), tokens.scope, tokens.tokenType, Some(Date(tokens.expiryDate)))
  }

  function HandleCallback(store: Store, code: string, state: string, exchange: GrantReply): (out: Callback)
    ensures exchange.Refused? ==> out == Callback(store, Err(ExchangeFailed(exchange.message)))
    ensures exchange.Granted? ==>
      var saved := UpdateTokens(store, state, Some(CallbackToken(code, exchange.credentials)), None);
      && out.store == saved.store
      && (out.result.Ok? <==> saved.result.Ok?)
      && (saved.result.Err? ==> out.result == Err(StoreFailed(saved.result.error)))
    ensures out.result.Ok? ==>
      && state in store
      && OnlyChanged(store, out.store, state)
      && out.store[state].token.Some?
      && out.store[state].token.value.googleToken.Some?
      && out.store[state].token.value.googleToken.value.refreshToken == Some(code)
      && out.store[state].token.value.bitrixToken == store[state].token.value.bitrixToken
    ensures out.result.Err? ==> out.store == store
    ensures WellKeyed(store) ==> WellKeyed(out.store)
  {
    match exchange
    case Refused(message) => Callback(store, Err(ExchangeFailed(message)))
    case Granted(tokens) =>
      var saved := UpdateTokens(store, state, Some(CallbackToken(code, tokens)), None);
      match saved.result
      case Ok(_) => Callback(saved.store, Ok(()))
      case Err(e) => Callback(store, Err(StoreFailed(e)))
  }

  /** `verifyToken` catches every failure of the lookup: it answers whether
      the lookup succeeded and never throws. */
  function VerifyToken(token: GoogleToken, lookup: TokenInfoReply): (valid: bool)
    ensures valid <==> lookup.TokenInfoOk?
  {
    lookup.TokenInfoOk?
  }

  /** The token a successful refresh stores: the provider's values, keeping
      the old refresh token when the provider sends none. */
  function RefreshedToken(token: GoogleToken, credentials: Credentials): (renewed: GoogleToken)
    ensures renewed.refreshToken == (if Truthy(credentials.refreshToken) then credentials.refreshToken else token.refreshToken)
    ensures renewed.accessToken == credentials.accessToken
    ensures renewed.scope == credentials.scope && renewed.tokenType == credentials.tokenType
    ensures renewed.expiryDate == Some(Date(credentials.expiryDate))
  {
    GoogleToken(
      credentials.accessToken,
      Or(credentials.refreshToken, token.refreshToken),
      credentials.scope,
      credentials.tokenType,
      Some(Date(credentials.expiryDate)))
  }

  datatype Refresh = Refresh(store: Store, refreshed: bool)

  /** `refreshToken`: every failure, of the provider or of the store write,
      becomes `false`. */
  function RefreshToken(store: Store, domain: string, token: GoogleToken, reply: GrantReply): (out: Refresh)
    ensures out.refreshed <==>
      reply.Granted? && UpdateTokens(store, domain, Some(RefreshedToken(token, reply.credentials)), None).result.Ok?
    ensures !out.refreshed ==> out.store == store
    ensures out.refreshed ==>
      out.store == UpdateTokens(store, domain, Some(RefreshedToken(token, reply.credentials)), None).store
    ensures WellKeyed(store) ==> WellKeyed(out.store)
    ensures out.refreshed ==>
      && domain in store
      && OnlyChanged(store, out.store, domain)
      && out.store[domain].token.Some?
      && out.store[domain].token.value.googleToken == Some(RefreshedToken(token, reply.credentials))
      && out.store[domain].token.value.bitrixToken == store[domain].token.value.bitrixToken
      && out.store[domain].subscription == store[domain].subscription
  {
    match reply
    case Refused(_) => Refresh(store, false)
    case Granted(credentials) =>
      var saved := UpdateTokens(store, domain, Some(RefreshedToken(token, credentials)), None);
      if saved.result.Ok? then Refresh(saved.store, true) else Refresh(store, false)
  }

  /** The refresh token a successful refresh persists is the provider's new
      one if it sent one, else the one the refresh started from; it is never
      lost when the old one was usable. */
  lemma RefreshKeepsRefreshToken(store: Store, domain: string, token: GoogleToken, reply: GrantReply)
    requires RefreshToken(store, domain, token, reply).refreshed
    ensures var stored := RefreshToken(store, domain, token, reply).store[domain].token.value.googleToken.value;
      && (Truthy(reply.credentials.refreshToken) ==> stored.refreshToken == reply.credentials.refreshToken)
      && (!Truthy(reply.credentials.refreshToken) ==> stored.refreshToken == token.refreshToken)
      && Truthy(stored.refreshToken)
  {
  }

  /** The consent URL names the tenant as `state`, and the callback carrying
      that state writes the token into that tenant's record and no other. */
  lemma ConsentStateRoundTrip(store: Store, domain: string, code: string, exchange: GrantReply)
    requires HandleCallback(store, code, AuthUrl(domain).state, exchange).result.Ok?
    ensures var after := HandleCallback(store, code, AuthUrl(domain).state, exchange).store;
      && domain in store
      && after[domain].token.value.googleToken == Some(CallbackToken(code, exchange.credentials))
      && forall d :: d in store && d != domain ==> after[d] == store[d]
  {
  }
}
