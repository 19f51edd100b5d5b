/** The two routes of the Google auth controller: the re-authentication
    decision (verify, then refresh, then the consent URL) and the callback's
    mapping of failures to a server error. */
module GoogleAuthController {
  import opened Results
  import opened Users
  import opened GoogleAuth

  datatype Message = AlreadyAuthenticated | TokenRefreshed | AuthenticationSucceeded

  datatype Response =
    | Sent(message: Message)
    | Redirect(target: AuthUrlRequest)
    | ServerError(cause: AuthError)

  /** The steps the decision takes, in the order they are taken. */
  datatype Step = FindRecord | VerifyStored | RefreshStored | BuildAuthUrl

  datatype Handled = Handled(store: Store, response: Response, steps: seq<Step>)

  function StepRank(step: Step): nat {
    match step
    case FindRecord => 0
    case VerifyStored => 1
    case RefreshStored => 2
    case BuildAuthUrl => 3
  }

  /** Each step happens at most once, and never after a later-ranked one. */
  predicate InOrder(steps: seq<Step>) {
    forall i, j :: 0 <= i < j < |steps| ==> StepRank(steps[i]) < StepRank(steps[j])
  }

  /** The stored Google token of a record, if the record has one. */
  function StoredGoogleToken(user: User): Option<GoogleToken> {
    if user.token.Some? then user.token.value.googleToken else None
  }

  function RedirectToGoogle(store: Store, domain: string, lookup: TokenInfoReply, refresh: GrantReply): (out: Handled)
    ensures InOrder(out.steps) && |out.steps| >= 1 && out.steps[0] == FindRecord
    ensures FindOne(store, domain).Err? ==>
      out == Handled(store, ServerError(StoreFailed(FindOne(store, domain).error)), [FindRecord])
    ensures out.response.Redirect? <==> BuildAuthUrl in out.steps
    ensures out.response.Redirect? ==> out.response.target == AuthUrl(domain)
    ensures RefreshStored in out.steps ==> VerifyStored in out.steps && lookup.TokenInfoFailed?
    ensures FindOne(store, domain).Ok? && StoredGoogleToken(store[domain]).None? ==>
      out == Handled(store, Redirect(AuthUrl(domain)), [FindRecord, BuildAuthUrl])
    ensures FindOne(store, domain).Ok? && StoredGoogleToken(store[domain]).Some? && lookup.TokenInfoOk? ==>
      out == Handled(store, Sent(AlreadyAuthenticated), [FindRecord, VerifyStored])
    ensures out.response == Sent(TokenRefreshed) <==>
      && FindOne(store, domain).Ok?
      && StoredGoogleToken(store[domain]).Some?
      && lookup.TokenInfoFailed?
      && GoogleAuth.RefreshToken(store, domain, StoredGoogleToken(store[domain]).value, refresh).refreshed
    ensures out.response == Sent(TokenRefreshed) ==>
      out.store == GoogleAuth.RefreshToken(store, domain, StoredGoogleToken(store[domain]).value, refresh).store
    ensures out.response != Sent(TokenRefreshed) ==> out.store == store
    ensures WellKeyed(store) ==> WellKeyed(out.store)
  {
    match FindOne(store, domain)
    case Err(e) => Handled(store, ServerError(StoreFailed(e)), [FindRecord])
    case Ok(user) =>
      match StoredGoogleToken(user)
      case None => Handled(store, Redirect(AuthUrl(domain)), [FindRecord, BuildAuthUrl])
      case Some(token) =>
        if VerifyToken(token, lookup) then
          Handled(store, Sent(AlreadyAuthenticated), [FindRecord, VerifyStored])
        else
          var r := GoogleAuth.RefreshToken(store, domain, token, refresh);
          if r.refreshed then
            Handled(r.store, Sent(TokenRefreshed), [FindRecord, VerifyStored, RefreshStored])
          else
            Handled(store, Redirect(AuthUrl(domain)), [FindRecord, VerifyStored, RefreshStored, BuildAuthUrl])
  }

  datatype Answered = Answered(store: Store, response: Response)

  function HandleGoogleCallback(store: Store, code: string, state: string, exchange: GrantReply): (out: Answered)
    ensures out.store == HandleCallback(store, code, state, exchange).store
    ensures out.response == Sent(AuthenticationSucceeded) <==> HandleCallback(store, code, state, exchange).result.Ok?
    ensures HandleCallback(store, code, state, exchange).result.Err? ==>
      out.response == ServerError(HandleCallback(store, code, state, exchange).result.error)
    ensures exchange.Refused? ==> out == Answered(store, ServerError(ExchangeFailed(exchange.message)))
    ensures WellKeyed(store) ==> WellKeyed(out.store)
  {
    var handled := HandleCallback(store, code, state, exchange);
    match handled.result
    case Ok(_) => Answered(handled.store, Sent(AuthenticationSucceeded))
    case Err(e) => Answered(handled.store, ServerError(e))
  }

  /** An unknown or empty domain always ends in a server error and never in a
      consent redirect, whatever the provider would answer. */
  lemma UnknownDomainNeverRedirects(store: Store, domain: string, lookup: TokenInfoReply, refresh: GrantReply)
    requires domain !in store || domain == ""
    ensures RedirectToGoogle(store, domain, lookup, refresh).response.ServerError?
    ensures BuildAuthUrl !in RedirectToGoogle(store, domain, lookup, refresh).steps
  {
  }

  /** A token that fails verification and cannot be refreshed leads to the
      consent URL after both attempts, and the store is left as it was. */
  lemma FailedRefreshRedirects(store: Store, domain: string, lookup: TokenInfoReply, refresh: GrantReply)
    requires FindOne(store, domain).Ok? && StoredGoogleToken(store[domain]).Some?
    requires lookup.TokenInfoFailed?
    requires !GoogleAuth.RefreshToken(store, domain, StoredGoogleToken(store[domain]).value, refresh).refreshed
    ensures RedirectToGoogle(store, domain, lookup, refresh)
         == Handled(store, Redirect(AuthUrl(domain)), [FindRecord, VerifyStored, RefreshStored, BuildAuthUrl])
  {
  }
}
