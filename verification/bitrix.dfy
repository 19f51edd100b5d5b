/** The CRM client: a credential state (OAuth config and/or webhook URL) chosen
    at construction, the OAuth refresh that updates the in-memory config, and
    `call`, which refreshes lazily and, after a failed request, refreshes once
    and retries once. Every remote step is answered by an oracle reply; each
    operation returns the requests it sent, in order. */
module Bitrix {
  import opened Results
  import opened JsValues

  datatype OAuthInput = OAuthInput(
    domain: Field,
    clientId: Field,
    clientSecret: Field,
    refreshToken: Field,
    accessToken: Field)

  datatype WebhookInput = WebhookInput(webhookUrl: string)

  datatype BitrixConfig = BitrixConfig(oauth: Option<OAuthInput>, webhook: Option<WebhookInput>)

  /** The application's own client credentials. */
  datatype FixedConfig = FixedConfig(clientId: string, clientSecret: string)

  /** The cached OAuth configuration; `accessToken` is the in-memory cache. */
  datatype OAuthConfig = OAuthConfig(
    domain: string,
    clientId: string,
    clientSecret: string,
    refreshToken: string,
    accessToken: Field)

  /** A constructed service: its cached OAuth config, its webhook URL, and the
      base URL its HTTP instance posts to. */
  datatype Service = Service(oauth: Option<OAuthConfig>, webhookUrl: Option<string>, baseUrl: string)

  datatype ConfigError = InvalidOAuthData | ConfigurationMissing

  const TokenEndpoint: string := "https://oauth.bitrix.info/oauth/token/"

  function RestUrl(domain: string): string {
    "https://" + domain + "/rest/"
  }

  /** What every constructed service satisfies: some mode is configured, and
      an OAuth config has a domain and a refresh token that are never empty. */
  predicate Valid(svc: Service) {
    && (svc.oauth.Some? || svc.webhookUrl.Some?)
    && (svc.oauth.Some? ==> svc.oauth.value.domain != "" && svc.oauth.value.refreshToken != "")
  }

  /** `call` takes the webhook branch only for a non-empty webhook URL. */
  predicate WebhookMode(svc: Service) {
    svc.webhookUrl.Some? && svc.webhookUrl.value != ""
  }

  predicate HasAccessToken(svc: Service) {
    svc.oauth.Some? && Truthy(svc.oauth.value.accessToken)
  }

  predicate OAuthAcceptable(o: OAuthInput) {
    Truthy(o.domain) && Truthy(o.refreshToken)
  }

  /** The constructor. An invalid OAuth config is rejected even when a webhook
      is also given; when both are valid the webhook URL becomes the base URL. */
  function New(config: BitrixConfig, fixed: FixedConfig): (r: Result<Service, ConfigError>)
    ensures config.oauth.Some? && !OAuthAcceptable(config.oauth.value) ==> r == Err(InvalidOAuthData)
    ensures config.oauth.None? && config.webhook.None? ==> r == Err(ConfigurationMissing)
    ensures r.Ok? <==>
      (config.oauth.Some? || config.webhook.Some?) && (config.oauth.Some? ==> OAuthAcceptable(config.oauth.value))
    ensures r.Ok? ==> Valid(r.value)
    ensures r.Ok? && config.oauth.Some? ==>
      var o := config.oauth.value;
      r.value.oauth == Some(OAuthConfig(o.domain.value, fixed.clientId, fixed.clientSecret, o.refreshToken.value, o.accessToken))
    ensures r.Ok? && config.oauth.None? ==> r.value.oauth.None?
    ensures r.Ok? && config.webhook.Some? ==>
      r.value.webhookUrl == Some(config.webhook.value.webhookUrl) && r.value.baseUrl == config.webhook.value.webhookUrl
    ensures r.Ok? && config.webhook.None? ==>
      r.value.webhookUrl.None? && r.value.baseUrl == RestUrl(config.oauth.value.domain.value)
  {
    if config.oauth.Some? && !OAuthAcceptable(config.oauth.value) then Err(InvalidOAuthData)
    else if config.oauth.None? && config.webhook.None? then Err(ConfigurationMissing)
    else
      var oauth :=
        if config.oauth.Some? then
          var o := config.oauth.value;
          Some(OAuthConfig(o.domain.value, fixed.clientId, fixed.clientSecret, o.refreshToken.value, o.accessToken))
        else None;
      var webhookUrl := if config.webhook.Some? then Some(config.webhook.value.webhookUrl) else None;
      var baseUrl := if config.webhook.Some? then config.webhook.value.webhookUrl else RestUrl(oauth.value.domain);
      Ok(Service(oauth, webhookUrl, baseUrl))
  }

  /** The provider's answer to a refresh request. A rejection may carry the
      response body (already serialised) and always carries a message. */
  datatype TokenReply =
    | TokenGranted(accessToken: Field, refreshToken: Field)
    | TokenRejected(payload: Field, message: string)

  /** The CRM's answer to a POST. */
  datatype PostReply =
    | Answered(body: string)
    | PostFailed(payload: Field, message: string)

  /** A request the client sends. `auth` is `None` for a webhook post and the
      access token passed as the `auth` query parameter otherwise. */
  datatype Request =
    | TokenRequest(endpoint: string, clientId: string, clientSecret: string, refreshToken: string)
    | Post(baseUrl: string, apiMethod: string, params: string, auth: Option<Field>)

  datatype BitrixError =
    | OAuthConfigMissing
    | RefreshFailed(detail: string)
    | RemoteFailed(payload: Field, message: string)

  /** The text a failed refresh embeds: the provider's body when there is one,
      else the transport message. */
  function ErrorDetail(payload: Field, message: string): string {
    if Truthy(payload) then payload.value else message
  }

  datatype Refreshed = Refreshed(service: Service, sent: seq<Request>, result: Result<OAuthConfig, BitrixError>)

  function RefreshToken(svc: Service, reply: TokenReply): (out: Refreshed)
    ensures svc.oauth.None? ==> out == Refreshed(svc, [], Err(OAuthConfigMissing))
    ensures svc.oauth.Some? ==>
      var c := svc.oauth.value;
      out.sent == [TokenRequest(TokenEndpoint, c.clientId, c.clientSecret, c.refreshToken)]
    ensures reply.TokenRejected? ==> out.service == svc && out.result.Err?
    ensures reply.TokenRejected? && svc.oauth.Some? ==>
      out.result == Err(RefreshFailed(ErrorDetail(reply.payload, reply.message)))
    ensures out.result.Ok? <==> svc.oauth.Some? && reply.TokenGranted?
    ensures out.result.Ok? ==>
      var c := svc.oauth.value;
      && out.service == svc.(oauth := Some(out.result.value))
      && out.result.value.accessToken == reply.accessToken
      && out.result.value.refreshToken == (if Truthy(reply.refreshToken) then reply.refreshToken.value else c.refreshToken)
      && out.result.value.domain == c.domain
      && out.result.value.clientId == c.clientId
      && out.result.value.clientSecret == c.clientSecret
    ensures Valid(svc) ==> Valid(out.service)
  {
    match svc.oauth
    case None => Refreshed(svc, [], Err(OAuthConfigMissing))
    case Some(c) =>
      var sent := [TokenRequest(TokenEndpoint, c.clientId, c.clientSecret, c.refreshToken)];
      match reply
      case TokenRejected(payload, message) =>
        Refreshed(svc, sent, Err(RefreshFailed(ErrorDetail(payload, message))))
      case TokenGranted(access, refresh) =>
        var c' := c.(accessToken := access, refreshToken := Or(refresh, Some(c.refreshToken)).value);
        Refreshed(svc.(oauth := Some(c')), sent, Ok(c'))
  }

  /** The reply each remote step of one `call` would get if it is reached. */
  datatype Replies = Replies(
    lazyRefresh: TokenReply,
    firstPost: PostReply,
    retryRefresh: TokenReply,
    retryPost: PostReply)

  datatype Called = Called(service: Service, sent: seq<Request>, result: Result<string, BitrixError>)

  function PostResult(reply: PostReply): Result<string, BitrixError> {
    match reply
    case Answered(body) => Ok(body)
    case PostFailed(payload, message) => Err(RemoteFailed(payload, message))
  }

  function CachedToken(svc: Service): Field {
    if svc.oauth.Some? then svc.oauth.value.accessToken else None
  }

  function Refreshes(sent: seq<Request>): nat {
    if sent == [] then 0 else (if sent[0].TokenRequest? then 1 else 0) + Refreshes(sent[1..])
  }

  function Posts(sent: seq<Request>): nat {
    if sent == [] then 0 else (if sent[0].Post? then 1 else 0) + Posts(sent[1..])
  }

  lemma {:induction false} CountsAppend(a: seq<Request>, b: seq<Request>)
    ensures Refreshes(a + b) == Refreshes(a) + Refreshes(b)
    ensures Posts(a + b) == Posts(a) + Posts(b)
  {
    if a == [] {
      assert a + b == b;
    } else {
      assert (a + b)[0] == a[0];
      assert (a + b)[1..] == a[1..] + b;
      CountsAppend(a[1..], b);
    }
  }

  /** The OAuth branch from the first request on: post with the cached token;
      on failure refresh once and retry once with the refreshed token. */
  function PostWithRetry(svc: Service, apiMethod: string, params: string, replies: Replies): (out: Called)
    requires svc.oauth.Some?
    ensures |out.sent| >= 1 && out.sent[0] == Post(svc.baseUrl, apiMethod, params, Some(CachedToken(svc)))
    ensures replies.firstPost.Answered? ==> out == Called(svc, out.sent[..1], Ok(replies.firstPost.body))
    ensures replies.firstPost.PostFailed? ==>
      |out.sent| >= 2 && out.sent[1] == RefreshToken(svc, replies.retryRefresh).sent[0]
    ensures replies.firstPost.PostFailed? && replies.retryRefresh.TokenGranted? ==>
      && out.sent == out.sent[..2] + [Post(svc.baseUrl, apiMethod, params, Some(replies.retryRefresh.accessToken))]
      && out.result == PostResult(replies.retryPost)
      && out.service == RefreshToken(svc, replies.retryRefresh).service
    ensures replies.firstPost.PostFailed? && replies.retryRefresh.TokenRejected? ==>
      |out.sent| == 2 && out.service == svc && out.result == Err(RefreshToken(svc, replies.retryRefresh).result.error)
    ensures out.result.Ok? ==> out.sent[|out.sent| - 1] == Post(svc.baseUrl, apiMethod, params, Some(CachedToken(out.service)))
    ensures out.service.baseUrl == svc.baseUrl && out.service.oauth.Some?
    ensures Refreshes(out.sent) <= 1 && Posts(out.sent) <= 2
    ensures forall i :: 0 <= i < |out.sent| && out.sent[i].Post? ==> out.sent[i].auth.Some?
  {
    var first := Post(svc.baseUrl, apiMethod, params, Some(CachedToken(svc)));
    match replies.firstPost
    case Answered(body) => Called(svc, [first], Ok(body))
    case PostFailed(_, _) =>
      var r := RefreshToken(svc, replies.retryRefresh);
      match r.result
      case Err(e) =>
        CountsAppend([first], r.sent);
        Called(r.service, [first] + r.sent, Err(e))
      case Ok(c) =>
        CountsAppend([first], r.sent);
        CountsAppend([first] + r.sent, [Post(svc.baseUrl, apiMethod, params, Some(c.accessToken))]);
        Called(r.service, [first] + r.sent + [Post(svc.baseUrl, apiMethod, params, Some(c.accessToken))], PostResult(replies.retryPost))
  }

  /** The OAuth branch without a cached access token: refresh first, then
      post (and retry) with the token the refresh produced. */
  function RefreshThenPost(svc: Service, apiMethod: string, params: string, replies: Replies): (out: Called)
    requires svc.oauth.Some? && !HasAccessToken(svc)
    ensures |out.sent| >= 1 && out.sent[0] == RefreshToken(svc, replies.lazyRefresh).sent[0]
    ensures replies.lazyRefresh.TokenRejected? ==>
      out == Called(svc, RefreshToken(svc, replies.lazyRefresh).sent, Err(RefreshToken(svc, replies.lazyRefresh).result.error))
    ensures replies.lazyRefresh.TokenGranted? ==>
      var lazy := RefreshToken(svc, replies.lazyRefresh);
      var rest := PostWithRetry(lazy.service, apiMethod, params, replies);
      out == Called(rest.service, lazy.sent + rest.sent, rest.result)
    ensures Refreshes(out.sent) <= 2 && Posts(out.sent) <= 2
    ensures forall i :: 0 <= i < |out.sent| && out.sent[i].Post? ==> out.sent[i].auth.Some?
    ensures out.result.Ok? ==>
      out.sent[|out.sent| - 1] == Post(svc.baseUrl, apiMethod, params, Some(CachedToken(out.service)))
    ensures Valid(svc) ==> Valid(out.service)
  {
    var lazy := RefreshToken(svc, replies.lazyRefresh);
    match lazy.result
    case Err(e) => Called(lazy.service, lazy.sent, Err(e))
    case Ok(_) =>
      var rest := PostWithRetry(lazy.service, apiMethod, params, replies);
      CountsAppend(lazy.sent, rest.sent);
      Called(rest.service, lazy.sent + rest.sent, rest.result)
  }

  function Call(svc: Service, apiMethod: string, params: string, replies: Replies): (out: Called)
    ensures WebhookMode(svc) ==>
      out == Called(svc, [Post(svc.baseUrl, apiMethod, params, None)], PostResult(replies.firstPost))
    ensures !WebhookMode(svc) ==> Refreshes(out.sent) <= 2 && Posts(out.sent) <= 2
    ensures !WebhookMode(svc) ==> forall i :: 0 <= i < |out.sent| && out.sent[i].Post? ==> out.sent[i].auth.Some?
    ensures !WebhookMode(svc) && svc.oauth.None? ==> out == Called(svc, [], Err(OAuthConfigMissing))
    ensures !WebhookMode(svc) && svc.oauth.Some? && !HasAccessToken(svc) ==>
      out == RefreshThenPost(svc, apiMethod, params, replies)
    ensures !WebhookMode(svc) && HasAccessToken(svc) ==> out == PostWithRetry(svc, apiMethod, params, replies)
    ensures !WebhookMode(svc) && HasAccessToken(svc) && replies.firstPost.Answered? ==>
      out == Called(svc, [Post(svc.baseUrl, apiMethod, params, Some(CachedToken(svc)))], Ok(replies.firstPost.body))
    ensures !WebhookMode(svc) && out.result.Ok? ==>
      |out.sent| >= 1 && out.sent[|out.sent| - 1] == Post(svc.baseUrl, apiMethod, params, Some(CachedToken(out.service)))
    ensures Valid(svc) ==> Valid(out.service)
  {
    if WebhookMode(svc) then
      Called(svc, [Post(svc.baseUrl, apiMethod, params, None)], PostResult(replies.firstPost))
    else if svc.oauth.None? then
      Called(svc, [], Err(OAuthConfigMissing))
    else if !HasAccessToken(svc) then
      RefreshThenPost(svc, apiMethod, params, replies)
    else
      PostWithRetry(svc, apiMethod, params, replies)
  }

  /** Both configurations given and valid: construction succeeds, and `call`
      posts once to the webhook URL without any token request. */
  lemma BothConfiguredUsesWebhook(o: OAuthInput, url: string, fixed: FixedConfig, apiMethod: string, params: string, replies: Replies)
    requires OAuthAcceptable(o) && url != ""
    ensures New(BitrixConfig(Some(o), Some(WebhookInput(url))), fixed).Ok?
    ensures var svc := New(BitrixConfig(Some(o), Some(WebhookInput(url))), fixed).value;
      && Call(svc, apiMethod, params, replies).sent == [Post(url, apiMethod, params, None)]
      && Refreshes(Call(svc, apiMethod, params, replies).sent) == 0
  {
  }

  /** A webhook configured with an empty URL passes construction, but `call`
      then takes the OAuth branch and throws for want of an OAuth config. */
  lemma EmptyWebhookUrlFails(fixed: FixedConfig, apiMethod: string, params: string, replies: Replies)
    ensures New(BitrixConfig(None, Some(WebhookInput(""))), fixed).Ok?
    ensures var svc := New(BitrixConfig(None, Some(WebhookInput(""))), fixed).value;
      Call(svc, apiMethod, params, replies) == Called(svc, [], Err(OAuthConfigMissing))
  {
  }

  /** With a cached token, a failed first request is followed by exactly one
      token request carrying the cached refresh token; when that refresh
      succeeds the one retry carries the new access token and its reply is
      the result, and the cache keeps the refreshed config. */
  lemma RetryAfterFailure(svc: Service, apiMethod: string, params: string, replies: Replies)
    requires !WebhookMode(svc) && HasAccessToken(svc)
    requires replies.firstPost.PostFailed?
    ensures var out := Call(svc, apiMethod, params, replies);
      && Refreshes(out.sent) == 1
      && |out.sent| >= 2
      && out.sent[1] == TokenRequest(TokenEndpoint, svc.oauth.value.clientId, svc.oauth.value.clientSecret, svc.oauth.value.refreshToken)
    ensures replies.retryRefresh.TokenGranted? ==>
      var out := Call(svc, apiMethod, params, replies);
      && |out.sent| == 3
      && out.sent[2] == Post(svc.baseUrl, apiMethod, params, Some(replies.retryRefresh.accessToken))
      && out.result == PostResult(replies.retryPost)
      && out.service == RefreshToken(svc, replies.retryRefresh).service
    ensures replies.retryRefresh.TokenRejected? ==>
      var out := Call(svc, apiMethod, params, replies);
      && Posts(out.sent) == 1
      && out.service == svc
      && out.result == Err(RefreshFailed(ErrorDetail(replies.retryRefresh.payload, replies.retryRefresh.message)))
  {
    var out := Call(svc, apiMethod, params, replies);
    var c := svc.oauth.value;
    var first := Post(svc.baseUrl, apiMethod, params, Some(CachedToken(svc)));
    var tokenRequest := TokenRequest(TokenEndpoint, c.clientId, c.clientSecret, c.refreshToken);
    if replies.retryRefresh.TokenGranted? {
      assert out.sent == [first, tokenRequest, Post(svc.baseUrl, apiMethod, params, Some(replies.retryRefresh.accessToken))];
    } else {
      assert out.sent == [first] + [tokenRequest];
      CountsAppend([first], [tokenRequest]);
    }
  }

  /** With no cached token, the lazy refresh asks with the configured refresh
      token and the first post carries the granted access token. A success
      ends the call after those two requests. A failure is followed by one
      token request with the refresh token the lazy refresh left (rotated if
      the provider sent a new one), and on a grant by one retry whose reply is
      the result. */
  lemma LazyRefreshThenPost(svc: Service, apiMethod: string, params: string, replies: Replies)
    requires !WebhookMode(svc) && svc.oauth.Some? && !HasAccessToken(svc)
    requires replies.lazyRefresh.TokenGranted?
    ensures var out := Call(svc, apiMethod, params, replies);
      var c := svc.oauth.value;
      && |out.sent| >= 2
      && out.sent[0] == TokenRequest(TokenEndpoint, c.clientId, c.clientSecret, c.refreshToken)
      && out.sent[1] == Post(svc.baseUrl, apiMethod, params, Some(replies.lazyRefresh.accessToken))
    ensures replies.firstPost.Answered? ==>
      var out := Call(svc, apiMethod, params, replies);
      && |out.sent| == 2
      && out.result == Ok(replies.firstPost.body)
      && out.service == RefreshToken(svc, replies.lazyRefresh).service
    ensures replies.firstPost.PostFailed? ==>
      var out := Call(svc, apiMethod, params, replies);
      var c := svc.oauth.value;
      var rotated := Or(replies.lazyRefresh.refreshToken, Some(c.refreshToken)).value;
      && |out.sent| >= 3
      && out.sent[2] == TokenRequest(TokenEndpoint, c.clientId, c.clientSecret, rotated)
      && Refreshes(out.sent) == 2
    ensures replies.firstPost.PostFailed? && replies.retryRefresh.TokenGranted? ==>
      var out := Call(svc, apiMethod, params, replies);
      && |out.sent| == 4
      && out.sent[3] == Post(svc.baseUrl, apiMethod, params, Some(replies.retryRefresh.accessToken))
      && out.result == PostResult(replies.retryPost)
    ensures replies.firstPost.PostFailed? && replies.retryRefresh.TokenRejected? ==>
      var out := Call(svc, apiMethod, params, replies);
      && |out.sent| == 3
      && out.result == Err(RefreshFailed(ErrorDetail(replies.retryRefresh.payload, replies.retryRefresh.message)))
      && out.service == RefreshToken(svc, replies.lazyRefresh).service
  {
    var c := svc.oauth.value;
    var lazy := RefreshToken(svc, replies.lazyRefresh);
    var c' := lazy.service.oauth.value;
    assert c'.accessToken == replies.lazyRefresh.accessToken;
    assert c'.refreshToken == Or(replies.lazyRefresh.refreshToken, Some(c.refreshToken)).value;
    var rest := PostWithRetry(lazy.service, apiMethod, params, replies);
    var out := Call(svc, apiMethod, params, replies);
    assert out.sent == lazy.sent + rest.sent;
    var first := Post(svc.baseUrl, apiMethod, params, Some(replies.lazyRefresh.accessToken));
    if replies.firstPost.PostFailed? {
      var retry := TokenRequest(TokenEndpoint, c.clientId, c.clientSecret, c'.refreshToken);
      if replies.retryRefresh.TokenGranted? {
        var second := Post(svc.baseUrl, apiMethod, params, Some(replies.retryRefresh.accessToken));
        assert rest.sent == [first, retry, second];
        assert out.sent == [lazy.sent[0], first, retry, second];
      } else {
        assert rest.sent == [first, retry];
        assert out.sent == [lazy.sent[0], first, retry];
      }
      CountsAppend(lazy.sent, rest.sent);
      CountsAppend([first], [retry]);
    }
  }

  /** First call of a tenant with no cached token: the token endpoint is asked
      with the configured refresh token, then the request carries the granted
      access token. The new token lives only in the service's cache. */
  lemma FirstCallScenario(replies: Replies)
    requires replies.lazyRefresh == TokenGranted(Some("A1"), None)
    requires replies.firstPost == Answered("created")
    ensures
      var svc := Service(Some(OAuthConfig("acme.example", "app", "secret", "R1", None)), None, RestUrl("acme.example"));
      var out := Call(svc, "crm.contact.add", "{NAME: Jane}", replies);
      && out.sent == [
           TokenRequest(TokenEndpoint, "app", "secret", "R1"),
           Post(RestUrl("acme.example"), "crm.contact.add", "{NAME: Jane}", Some(Some("A1")))]
      && out.result == Ok("created")
      && out.service.oauth.value.accessToken == Some("A1")
      && out.service.oauth.value.refreshToken == "R1"
  {
    var svc := Service(Some(OAuthConfig("acme.example", "app", "secret", "R1", None)), None, RestUrl("acme.example"));
    var lazy := RefreshToken(svc, replies.lazyRefresh);
    assert lazy.service.oauth.value == OAuthConfig("acme.example", "app", "secret", "R1", Some("A1"));
    var rest := PostWithRetry(lazy.service, "crm.contact.add", "{NAME: Jane}", replies);
    assert rest.sent == [Post(RestUrl("acme.example"), "crm.contact.add", "{NAME: Jane}", Some(Some("A1")))];
  }

  /** A stale cached token: the request fails, the refresh rotates both
      tokens, and the retry with the new access token succeeds. */
  lemma StaleTokenScenario(replies: Replies)
    requires replies.firstPost.PostFailed?
    requires replies.retryRefresh == TokenGranted(Some("A2"), Some("R2"))
    requires replies.retryPost == Answered("ok")
    ensures
      var svc := Service(Some(OAuthConfig("acme.example", "app", "secret", "R1", Some("A_stale"))), None, RestUrl("acme.example"));
      var out := Call(svc, "crm.contact.add", "{}", replies);
      && |out.sent| == 3
      && out.sent[1] == TokenRequest(TokenEndpoint, "app", "secret", "R1")
      && out.sent[2] == Post(RestUrl("acme.example"), "crm.contact.add", "{}", Some(Some("A2")))
      && out.result == Ok("ok")
      && out.service.oauth.value.accessToken == Some("A2")
      && out.service.oauth.value.refreshToken == "R2"
  {
    var svc := Service(Some(OAuthConfig("acme.example", "app", "secret", "R1", Some("A_stale"))), None, RestUrl("acme.example"));
    assert HasAccessToken(svc);
    RetryAfterFailure(svc, "crm.contact.add", "{}", replies);
  }
}
