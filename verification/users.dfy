/** The tenant token store: user records keyed by their CRM domain, with the
    validation `UsersService` performs before every write. The repository is a
    map; `save` writes the whole record back under its domain. */
module Users {
  import opened Results
  import opened JsValues

  datatype Subscription = Subscription(kind: Field, expiry: Option<Timestamp>)

  datatype BitrixToken = BitrixToken(accessToken: Field, refreshToken: Field)

  datatype GoogleToken = GoogleToken(
    accessToken: Field,
    refreshToken: Field,
    scope: Field,
    tokenType: Field,
    expiryDate: Option<Timestamp>)

  /** The `token` object of a record: one slot per platform. */
  datatype Tokens = Tokens(bitrixToken: Option<BitrixToken>, googleToken: Option<GoogleToken>)

  datatype User = User(domain: string, subscription: Option<Subscription>, token: Option<Tokens>)

  type Store = map<string, User>

  datatype CreateUserDto = CreateUserDto(domain: Field, subscription: Option<Subscription>, token: Option<Tokens>)

  /** The top-level keys an update body may carry, each absent, `null` or given. */
  datatype UpdateUserDto = UpdateUserDto(subscription: Patch<Subscription>, token: Patch<Tokens>)

  datatype BadRequestReason =
    | EmptyDomain
    | MissingFields(fields: seq<string>)
    | DomainExists(domain: string)
    | IncompleteSubscription
    | IncompleteBitrixToken
    | IncompleteGoogleToken

  datatype UserError =
    | BadRequest(reason: BadRequestReason)
    | NotFound(domain: string)
      /** A `TypeError` from writing into a record whose `token` object is absent. */
    | NoTokenObject

  /** The store after a write, and what the operation returned or threw. */
  datatype Saved = Saved(store: Store, result: Result<User, UserError>)

  datatype Removed = Removed(store: Store, result: Result<(), UserError>)

  /** Every record sits under its own domain. */
  predicate WellKeyed(store: Store) {
    forall d :: d in store ==> store[d].domain == d
  }

  /** `store'` differs from `store` at most in the record of `domain`. */
  predicate OnlyChanged(store: Store, store': Store, domain: string) {
    && store'.Keys == store.Keys
    && forall d :: d in store && d != domain ==> store'[d] == store[d]
  }

  function FindOne(store: Store, domain: string): (r: Result<User, UserError>)
    ensures r.Ok? <==> domain != "" && domain in store
    ensures domain == "" ==> r == Err(BadRequest(EmptyDomain))
    ensures domain != "" && domain !in store ==> r == Err(NotFound(domain))
    ensures r.Ok? ==> r.value == store[domain]
  {
    if domain == "" then Err(BadRequest(EmptyDomain))
    else if domain !in store then Err(NotFound(domain))
    else Ok(store[domain])
  }

  /** The required create fields, in the order they are reported. */
  const RequiredFields: seq<string> := ["domain", "subscription", "token.bitrix_token"]

  function FieldRank(field: string): nat {
    if field == RequiredFields[0] then 0
    else if field == RequiredFields[1] then 1
    else 2
  }

  predicate HasBitrixToken(token: Option<Tokens>) {
    token.Some? && token.value.bitrixToken.Some?
  }

  /** The names of the required fields `dto` lacks. */
  function MissingCreateFields(dto: CreateUserDto): (missing: seq<string>)
    ensures "domain" in missing <==> !Truthy(dto.domain)
    ensures "subscription" in missing <==> dto.subscription.None?
    ensures "token.bitrix_token" in missing <==> !HasBitrixToken(dto.token)
    ensures forall f :: f in missing ==> f in RequiredFields
    ensures forall i, j :: 0 <= i < j < |missing| ==> FieldRank(missing[i]) < FieldRank(missing[j])
  {
    (if !Truthy(dto.domain) then ["domain"] else [])
    + (if dto.subscription.None? then ["subscription"] else [])
    + (if !HasBitrixToken(dto.token) then ["token.bitrix_token"] else [])
  }

  function Create(store: Store, dto: CreateUserDto): (out: Saved)
    ensures MissingCreateFields(dto) != [] ==>
      out == Saved(store, Err(BadRequest(MissingFields(MissingCreateFields(dto)))))
    ensures out.result.Ok? <==> MissingCreateFields(dto) == [] && dto.domain.value !in store
    ensures MissingCreateFields(dto) == [] && dto.domain.value in store ==>
      out == Saved(store, Err(BadRequest(DomainExists(dto.domain.value))))
    ensures out.result.Ok? ==>
      && out.result.value == User(dto.domain.value, dto.subscription, dto.token)
      && out.store == store[dto.domain.value := out.result.value]
      && out.store.Keys == store.Keys + {dto.domain.value}
    ensures out.result.Err? ==> out.store == store
    ensures WellKeyed(store) ==> WellKeyed(out.store)
  {
    var missing := MissingCreateFields(dto);
    if missing != [] then Saved(store, Err(BadRequest(MissingFields(missing))))
    else
      var domain := dto.domain.value;
      if domain in store then Saved(store, Err(BadRequest(DomainExists(domain))))
      else
        var user := User(domain, dto.subscription, dto.token);
        Saved(store[domain := user], Ok(user))
  }

  predicate SubscriptionComplete(s: Subscription) {
    Truthy(s.kind) && TruthyTime(s.expiry)
  }

  predicate BitrixTokenComplete(t: BitrixToken) {
    Truthy(t.accessToken) && Truthy(t.refreshToken)
  }

  /** All five fields, as `update` demands. */
  predicate GoogleTokenComplete(t: GoogleToken) {
    Truthy(t.accessToken) && Truthy(t.refreshToken) && Truthy(t.scope) && Truthy(t.tokenType) && TruthyTime(t.expiryDate)
  }

  /** The three fields `updateTokens` demands; scope and token type are not checked. */
  predicate GoogleTokenUsable(t: GoogleToken) {
    Truthy(t.accessToken) && Truthy(t.refreshToken) && TruthyTime(t.expiryDate)
  }

  /** The first validation `update` fails on, if any. Only a given (truthy)
      subscription or token object is validated; a `null` one is not. */
  function UpdateProblem(dto: UpdateUserDto): (problem: Option<BadRequestReason>)
    ensures problem.None? <==>
      && (dto.subscription.Given? ==> SubscriptionComplete(dto.subscription.value))
      && (dto.token.Given? && dto.token.value.bitrixToken.Some? ==> BitrixTokenComplete(dto.token.value.bitrixToken.value))
      && (dto.token.Given? && dto.token.value.googleToken.Some? ==> GoogleTokenComplete(dto.token.value.googleToken.value))
    ensures dto.subscription.Given? && !SubscriptionComplete(dto.subscription.value) ==>
      problem == Some(IncompleteSubscription)
    ensures
      && (dto.subscription.Given? ==> SubscriptionComplete(dto.subscription.value))
      && dto.token.Given? && dto.token.value.bitrixToken.Some?
      && !BitrixTokenComplete(dto.token.value.bitrixToken.value)
      ==> problem == Some(IncompleteBitrixToken)
    ensures
      && (dto.subscription.Given? ==> SubscriptionComplete(dto.subscription.value))
      && (dto.token.Given? && dto.token.value.bitrixToken.Some? ==> BitrixTokenComplete(dto.token.value.bitrixToken.value))
      && dto.token.Given? && dto.token.value.googleToken.Some?
      && !GoogleTokenComplete(dto.token.value.googleToken.value)
      ==> problem == Some(IncompleteGoogleToken)
  {
    if dto.subscription.Given? && !SubscriptionComplete(dto.subscription.value) then
      Some(IncompleteSubscription)
    else if dto.token.Given? && dto.token.value.bitrixToken.Some? && !BitrixTokenComplete(dto.token.value.bitrixToken.value) then
      Some(IncompleteBitrixToken)
    else if dto.token.Given? && dto.token.value.googleToken.Some? && !GoogleTokenComplete(dto.token.value.googleToken.value) then
      Some(IncompleteGoogleToken)
    else None
  }

  /** One top-level key under `Object.assign`: an absent key keeps the stored
      value, `null` is copied over it, a given value replaces it. */
  function AssignKey<T>(stored: Option<T>, patch: Patch<T>): Option<T> {
    match patch
    case Absent => stored
    case Null => None
    case Given(v) => Some(v)
  }

  /** `Object.assign(user, dto)`: a shallow, top-level merge. */
  function Assign(user: User, dto: UpdateUserDto): User {
    user.(
      subscription := AssignKey(user.subscription, dto.subscription),
      token := AssignKey(user.token, dto.token))
  }

  function Update(store: Store, domain: string, dto: UpdateUserDto): (out: Saved)
    ensures FindOne(store, domain).Err? ==> out == Saved(store, Err(FindOne(store, domain).error))
    ensures FindOne(store, domain).Ok? && UpdateProblem(dto).Some? ==>
      out == Saved(store, Err(BadRequest(UpdateProblem(dto).value)))
    ensures out.result.Ok? <==> FindOne(store, domain).Ok? && UpdateProblem(dto).None?
    ensures out.result.Ok? ==>
      && OnlyChanged(store, out.store, domain)
      && out.store[domain] == out.result.value
      && out.result.value.domain == store[domain].domain
    ensures out.result.Ok? ==>
      && (dto.subscription.Absent? ==> out.result.value.subscription == store[domain].subscription)
      && (dto.subscription.Null? ==> out.result.value.subscription.None?)
      && (dto.subscription.Given? ==> out.result.value.subscription == Some(dto.subscription.value))
      && (dto.token.Absent? ==> out.result.value.token == store[domain].token)
      && (dto.token.Null? ==> out.result.value.token.None?)
      && (dto.token.Given? ==> out.result.value.token == Some(dto.token.value))
    ensures out.result.Err? ==> out.store == store
    ensures WellKeyed(store) ==> WellKeyed(out.store)
  {
    match FindOne(store, domain)
    case Err(e) => Saved(store, Err(e))
    case Ok(user) =>
      match UpdateProblem(dto)
      case Some(reason) => Saved(store, Err(BadRequest(reason)))
      case None =>
        var merged := Assign(user, dto);
        Saved(store[domain := merged], Ok(merged))
  }

  /** `updateTokens`: one token slot at a time; a Google token wins over a
      Bitrix token given alongside it. */
  function UpdateTokens(store: Store, domain: string, google: Option<GoogleToken>, bitrix: Option<BitrixToken>): (out: Saved)
    ensures FindOne(store, domain).Err? ==> out == Saved(store, Err(FindOne(store, domain).error))
    ensures out.result.Ok? <==>
      && FindOne(store, domain).Ok?
      && (google.Some? ==> GoogleTokenUsable(google.value) && store[domain].token.Some?)
      && (google.None? && bitrix.Some? ==> BitrixTokenComplete(bitrix.value) && store[domain].token.Some?)
    ensures FindOne(store, domain).Ok? && google.Some? && !GoogleTokenUsable(google.value) ==>
      out == Saved(store, Err(BadRequest(IncompleteGoogleToken)))
    ensures FindOne(store, domain).Ok? && google.None? && bitrix.Some? && !BitrixTokenComplete(bitrix.value) ==>
      out == Saved(store, Err(BadRequest(IncompleteBitrixToken)))
    ensures
      && FindOne(store, domain).Ok? && store[domain].token.None?
      && ((google.Some? && GoogleTokenUsable(google.value)) || (google.None? && bitrix.Some? && BitrixTokenComplete(bitrix.value)))
      ==> out == Saved(store, Err(NoTokenObject))
    ensures out.result.Ok? ==>
      && OnlyChanged(store, out.store, domain)
      && out.store[domain] == out.result.value
      && out.result.value.domain == store[domain].domain
      && out.result.value.subscription == store[domain].subscription
    ensures out.result.Ok? && google.Some? ==>
      out.result.value.token == Some(store[domain].token.value.(googleToken := google))
    ensures out.result.Ok? && google.None? && bitrix.Some? ==>
      out.result.value.token == Some(store[domain].token.value.(bitrixToken := bitrix))
    ensures out.result.Ok? && google.None? && bitrix.None? ==> out.store == store
    ensures out.result.Err? ==> out.store == store
    ensures WellKeyed(store) ==> WellKeyed(out.store)
  {
    match FindOne(store, domain)
    case Err(e) => Saved(store, Err(e))
    case Ok(user) =>
      if google.Some? then
        if !GoogleTokenUsable(google.value) then Saved(store, Err(BadRequest(IncompleteGoogleToken)))
        else if user.token.None? then Saved(store, Err(NoTokenObject))
        else
          var updated := user.(token := Some(user.token.value.(googleToken := google)));
          Saved(store[domain := updated], Ok(updated))
      else if bitrix.Some? then
        if !BitrixTokenComplete(bitrix.value) then Saved(store, Err(BadRequest(IncompleteBitrixToken)))
        else if user.token.None? then Saved(store, Err(NoTokenObject))
        else
          var updated := user.(token := Some(user.token.value.(bitrixToken := bitrix)));
          Saved(store[domain := updated], Ok(updated))
      else
        Saved(store[domain := user], Ok(user))
  }

  function Remove(store: Store, domain: string): (out: Removed)
    ensures FindOne(store, domain).Err? ==> out == Removed(store, Err(FindOne(store, domain).error))
    ensures FindOne(store, domain).Ok? ==> out.result.Ok? && out.store == store - {domain}
    ensures out.result.Ok? ==> domain !in out.store && out.store.Keys == store.Keys - {domain}
    ensures WellKeyed(store) ==> WellKeyed(out.store)
  {
    match FindOne(store, domain)
    case Err(e) => Removed(store, Err(e))
    case Ok(_) => Removed(store - {domain}, Ok(()))
  }

  /** A created record is what `findOne` then returns for its domain. */
  lemma CreateThenFind(store: Store, dto: CreateUserDto)
    requires Create(store, dto).result.Ok?
    ensures FindOne(Create(store, dto).store, dto.domain.value) == Create(store, dto).result
  {
  }

  /** Removing a freshly created record restores the store exactly. */
  lemma CreateThenRemove(store: Store, dto: CreateUserDto)
    requires Create(store, dto).result.Ok?
    ensures Remove(Create(store, dto).store, dto.domain.value) == Removed(store, Ok(()))
  {
    var d := dto.domain.value;
    var after := Create(store, dto).store;
    assert after - {d} == store;
  }

  /** After a removal the domain is unknown to `findOne`. */
  lemma RemoveThenFind(store: Store, domain: string)
    requires Remove(store, domain).result.Ok?
    ensures FindOne(Remove(store, domain).store, domain) == Err(NotFound(domain))
  {
  }

  /** A Google token given together with a Bitrix token is applied alone. */
  lemma GoogleTokenWins(store: Store, domain: string, google: GoogleToken, bitrix: Option<BitrixToken>)
    ensures UpdateTokens(store, domain, Some(google), bitrix) == UpdateTokens(store, domain, Some(google), None)
  {
  }

  /** Setting the Google token keeps the stored Bitrix token. */
  lemma GoogleTokenKeepsBitrixToken(store: Store, domain: string, google: GoogleToken)
    requires UpdateTokens(store, domain, Some(google), None).result.Ok?
    ensures UpdateTokens(store, domain, Some(google), None).result.value.token.value.bitrixToken
         == store[domain].token.value.bitrixToken
  {
  }

  /** A supplied `token` replaces the whole token object: an update carrying
      only a Google token drops the stored Bitrix token. */
  lemma UpdateReplacesWholeToken(store: Store, domain: string, google: GoogleToken)
    requires domain in store && domain != ""
    requires store[domain].token.Some? && store[domain].token.value.bitrixToken.Some?
    requires GoogleTokenComplete(google)
    ensures Update(store, domain, UpdateUserDto(Absent, Given(Tokens(None, Some(google))))).result.Ok?
    ensures Update(store, domain, UpdateUserDto(Absent, Given(Tokens(None, Some(google))))).store[domain].token.value.bitrixToken.None?
  {
  }

  /** A `null` token object passes validation and clears the stored tokens,
      Bitrix and Google alike. */
  lemma NullTokenClearsTokens(store: Store, domain: string)
    requires domain in store && domain != ""
    ensures Update(store, domain, UpdateUserDto(Absent, Null)).result.Ok?
    ensures Update(store, domain, UpdateUserDto(Absent, Null)).store[domain].token.None?
    ensures Update(store, domain, UpdateUserDto(Absent, Null)).store[domain].subscription == store[domain].subscription
  {
  }

  /** A raw expiry of 0 or "" is falsy, so `updateTokens` rejects a Google
      token carrying one, however complete its other fields are. */
  lemma FalsyExpiryRejected(store: Store, domain: string, google: GoogleToken)
    requires domain in store && domain != ""
    requires google.expiryDate == Some(Millis(0)) || google.expiryDate == Some(Text(""))
    ensures UpdateTokens(store, domain, Some(google), None) == Saved(store, Err(BadRequest(IncompleteGoogleToken)))
  {
  }
}
