# Bitrix24 ↔ Google Sheets sync: a Dafny model of the credential and store logic

This project models the sequential decision logic of a NestJS service. The service connects a Bitrix24 CRM portal (a tenant, identified by its domain) to Google Sheets. It covers five pieces:

- **Bitrix client** (`bitrix.dfy`, module `Bitrix`). The constructor chooses webhook mode or OAuth mode and rejects incomplete configurations. `refreshToken` merges the token endpoint's answer into the cached OAuth config. `call` refreshes lazily when no access token is cached. After a failed request it refreshes once and retries once.
- **Tenant store** (`users.dfy`, module `Users`). `findOne`, `create`, `update`, `updateTokens` and `remove` work over a store of records keyed by domain. They carry validation errors, a duplicate-domain rejection, the shallow merge of `update` and the one-slot-at-a-time rule of `updateTokens`.
- **Google OAuth provider** (`google_auth.dfy`, module `GoogleAuth`). It covers the consent-URL parameters, the record the callback stores, the never-throwing token verification and the refresh that turns every failure into `false`.
- **Google auth controller** (`google_auth_controller.dfy`, module `GoogleAuthController`). It covers the re-authentication decision (verify, then refresh, then the consent URL) and the callback's mapping to a success message or a server error.
- **Spreadsheet set-up** (`sheets.dfy`, module `Sheets`). It covers the column lettering `getColumnLetter`, a bijective base-26 numbering. It also covers the header range of each sheet, the batch of formatting requests, and the configured sheets and default grid.

`results.dfy` holds `Option` and `Result`. `js_values.dfy` holds the JavaScript truthiness the source relies on:

- An optional string field is falsy when it is absent or empty.
- `a || b` picks `a` when it is truthy.
- A timestamp is a `Date` object, which is truthy even when its timestamp is missing, or a raw number or string from a JSON body, which is falsy when it is 0 or "".
- A top-level key of an update body is absent, explicitly `null`, or given. Only a given one is validated, but `Object.assign` copies `null` as well.

Every remote step is an explicit oracle parameter: the token endpoint, a CRM post, the Google code exchange, the token-info lookup and the Google refresh. Each Bitrix operation that talks to a remote returns the list of requests it sent, in order. That is how bounds such as "at most two refreshes" are stated. The re-authentication decision returns the list of steps it took. The Google provider operations take the provider's reply but record no request. The store is a `map<string, User>`. A save writes the whole record back under the domain it was looked up by. `Users.WellKeyed` (every record sits under its own domain) is preserved by every operation that writes the store: the four `Users` writes, the Google callback and refresh, and both controller routes.

Three behaviours of the code that the model keeps:

- The Bitrix refresh updates only the in-memory OAuth config of the service. Nothing writes it to the tenant store. `Bitrix.RefreshToken` and `Bitrix.FirstCallScenario` show this.
- `update` is a top-level `Object.assign`. A supplied `token` object replaces the stored one whole, including a stored Bitrix token the patch does not mention. It is not a merge per token kind. `Users.UpdateReplacesWholeToken` proves it.
- The callback stores the authorization `code` as the refresh token, not a refresh token from the exchange.

## Model

| member | source | states |
|---|---|---|
| JsValues.Or | src/modules/google-sheet/providers/google-auth.provider.ts:94 | `a \|\| b` on optional strings: exactly `a` when `a` is truthy, exactly `b` otherwise, so truthy iff either side is (also used for the Bitrix refresh token) |
| Bitrix.New | src/modules/bitrix/bitrix.service.ts:39-68 | an OAuth config without domain or refresh token is rejected even when a webhook is also given; neither config is rejected; otherwise construction succeeds, the OAuth config takes the fixed client id and secret, and a webhook URL (even empty) overrides the REST base URL; every constructed service is Valid |
| Bitrix.RefreshToken | src/modules/bitrix/bitrix.service.ts:75-102 | without an OAuth config nothing is sent and the error is OAuthConfigMissing; otherwise exactly one token request carrying the cached refresh token; a rejection leaves the service unchanged and embeds the payload (else the message); success sets the access token and keeps the old refresh token unless a truthy new one came; domain and client credentials never change |
| Bitrix.PostWithRetry | src/modules/bitrix/bitrix.service.ts:120-139 | the first post carries the cached token; success means no further request; a failure is followed by exactly one refresh, and on a granted refresh by exactly one retry with the new token whose reply is the result; at most one refresh and two posts; on success the last post carries the token the service now caches |
| Bitrix.RefreshThenPost | src/modules/bitrix/bitrix.service.ts:116-139 | with no cached token the first request is the lazy token request; a rejected lazy refresh ends the call with its error; a granted one is followed by the post-and-retry protocol on the refreshed service, whose requests, result and cache are the call's; at most two refreshes and two posts, every post authenticated |
| Bitrix.Call | src/modules/bitrix/bitrix.service.ts:110-140 | webhook mode (non-empty URL) sends exactly one unauthenticated post and nothing else; otherwise at most two refreshes and two posts, each post carrying `auth`; no OAuth config fails with nothing sent; without a cached token the call is the lazy refresh followed by the post-and-retry protocol, with one the protocol alone; a cached token and a successful first post mean exactly one request; the service stays Valid |
| Bitrix.BothConfiguredUsesWebhook | src/modules/bitrix/bitrix.service.ts:42-63 | both configs given and valid: construction succeeds and `call` posts once to the webhook URL with no token request |
| Bitrix.EmptyWebhookUrlFails | src/modules/bitrix/bitrix.service.ts:110-118 | an empty webhook URL passes construction but `call` falls through to the OAuth branch and fails for want of an OAuth config, sending nothing |
| Bitrix.RetryAfterFailure | src/modules/bitrix/bitrix.service.ts:128-139 | after a failed first post with a cached token: exactly one refresh, with the cached refresh token; a granted refresh gives exactly three requests, the retry carrying the new token and deciding the result; a rejected one gives one post, an unchanged service and the refresh error |
| Bitrix.LazyRefreshThenPost | src/modules/bitrix/bitrix.service.ts:116-139 | with no cached token and a granted lazy refresh: the token request, then a post with the granted token; success ends there with the reply's body; a failure adds one token request with the possibly rotated refresh token (two refreshes in all), and on a grant one retry with the new token whose reply is the result; a rejected retry refresh ends with its error after three requests |
| Bitrix.FirstCallScenario | src/modules/bitrix/bitrix.service.ts:116-127 | a tenant with no cached token: the token request, then one post with the granted token; the new access token lives in the service and the refresh token is kept |
| Bitrix.StaleTokenScenario | src/modules/bitrix/bitrix.service.ts:120-139 | a stale cached token: failed post, refresh rotating both tokens, successful retry with the new access token |
| Users.FindOne | src/modules/database/users/users.service.ts:21-31 | BadRequest for an empty domain, NotFound for an unknown one, otherwise the stored record; Ok exactly for a known non-empty domain |
| Users.MissingCreateFields | src/modules/database/users/users.service.ts:34-38 | each required field is listed iff it is missing, nothing else is listed, and the list keeps the order domain, subscription, token.bitrix_token |
| Users.Create | src/modules/database/users/users.service.ts:33-55 | missing fields are reported before the duplicate check; an existing domain is rejected; success iff nothing is missing and the domain is new; success adds exactly that domain with the given record; errors leave the store unchanged |
| Users.UpdateProblem | src/modules/database/users/users.service.ts:64-84 | no problem iff the subscription (if given) has a truthy type and expiry, the Bitrix token (if given) both tokens, and the Google token (if given) all five fields; the first failing check in the order subscription, Bitrix token, Google token decides the error; a `null` subscription or token is not validated |
| Users.Update | src/modules/database/users/users.service.ts:57-88 | lookup errors come first, then validation errors, and neither changes the store; on success each top-level key the body omits is kept, a `null` one clears the stored field and a given one replaces it; no other record changes |
| Users.UpdateTokens | src/modules/database/users/users.service.ts:96-123 | lookup errors as `findOne`; a Google token needs only a truthy access token, refresh token and expiry and wins over a Bitrix token; only that token slot changes; a valid token for a record without a token object fails with NoTokenObject (the TypeError of the slot assignment), store unchanged; with neither token the store is unchanged |
| Users.NullTokenClearsTokens | src/modules/database/users/users.service.ts:72-87 | an update whose token is `null` skips validation, succeeds and clears the stored tokens, keeping the subscription |
| Users.FalsyExpiryRejected | src/modules/database/users/users.service.ts:103-108 | a Google token whose expiry is a raw 0 or "" is rejected by `updateTokens` and the store is unchanged |
| Users.Remove | src/modules/database/users/users.service.ts:125-132 | fails exactly as `findOne` does without changing the store; success removes exactly the named domain |
| Users.CreateThenFind | src/modules/database/users/users.service.ts:45-54 | a created record is what `findOne` returns for its domain |
| Users.CreateThenRemove | src/modules/database/users/users.service.ts:125-132 | removing a freshly created record restores the store exactly |
| Users.RemoveThenFind | src/modules/database/users/users.service.ts:125-131 | after a removal `findOne` reports the domain as not found |
| Users.GoogleTokenWins | src/modules/database/users/users.service.ts:103-120 | given both tokens, `updateTokens` behaves exactly as with the Google token alone |
| Users.GoogleTokenKeepsBitrixToken | src/modules/database/users/users.service.ts:109 | setting the Google token leaves the stored Bitrix token as it was |
| Users.UpdateReplacesWholeToken | src/modules/database/users/users.service.ts:86-87 | an `update` carrying only a Google token succeeds and drops the stored Bitrix token |
| GoogleAuth.AuthUrl | src/modules/google-sheet/providers/google-auth.provider.ts:34-45 | offline access, exactly the spreadsheets and drive scopes, and the domain as `state` |
| GoogleAuth.CallbackToken | src/modules/google-sheet/providers/google-auth.provider.ts:53-62 | the stored refresh token is the authorization code; access token, scope, token type and expiry (as a `Date`) come from the exchange |
| GoogleAuth.HandleCallback | src/modules/google-sheet/providers/google-auth.provider.ts:47-63 | a refused exchange fails without touching the store; otherwise the token is written via `updateTokens` under `state`; success changes only that tenant's Google token, whose refresh token is the code, and keeps its Bitrix token |
| GoogleAuth.RefreshedToken | src/modules/google-sheet/providers/google-auth.provider.ts:92-98 | the provider's access token, scope, type and expiry, and its refresh token if truthy, else the old one |
| GoogleAuth.RefreshToken | src/modules/google-sheet/providers/google-auth.provider.ts:84-104 | true iff the provider granted and the store update succeeded; false leaves the store unchanged; true leaves exactly the store that `updateTokens` writes with the refreshed token, so only that tenant's Google token changes and its Bitrix token and subscription are kept; the store stays well keyed |
| GoogleAuth.RefreshKeepsRefreshToken | src/modules/google-sheet/providers/google-auth.provider.ts:94 | after a successful refresh the stored refresh token is the new one if sent, else the old one, and is never empty |
| GoogleAuth.ConsentStateRoundTrip | src/modules/google-sheet/providers/google-auth.provider.ts:40-62 | the callback carrying the consent URL's state writes that tenant's Google token and no other record |
| GoogleAuthController.RedirectToGoogle | src/modules/google-sheet/controllers/google-auth.controller.ts:30-60 | steps run in the order lookup, verify, refresh, consent URL; a lookup error is a server error; no token redirects; a verified token is already authenticated without refresh; "refreshed" iff verification failed and the refresh succeeded; a redirect goes to the tenant's consent URL; only a refresh changes the store |
| GoogleAuthController.HandleGoogleCallback | src/modules/google-sheet/controllers/google-auth.controller.ts:16-28 | the success message iff the callback succeeded; otherwise a server error carrying its cause |
| GoogleAuthController.UnknownDomainNeverRedirects | src/modules/google-sheet/controllers/google-auth.controller.ts:35-36 | an unknown or empty domain ends in a server error, never a consent redirect |
| GoogleAuthController.FailedRefreshRedirects | src/modules/google-sheet/controllers/google-auth.controller.ts:38-56 | a token that fails verification and refresh leads to the consent URL after both attempts, with the store unchanged |
| Sheets.Letter | src/modules/google-sheet/providers/google-sheet.service.ts:160 | `String.fromCharCode(temp + 65)` is an upper-case letter whose offset from 'A' is `temp` |
| Sheets.SplitColumn | src/modules/google-sheet/providers/google-sheet.service.ts:159-161 | one loop step: the remainder is a digit 0..25 and `column - temp - 1` is a multiple of 26, so the division is exact |
| Sheets.PeelStep | src/modules/google-sheet/providers/google-sheet.service.ts:158-162 | one loop step strictly decreases a positive column to a non-negative one and removes exactly the last letter of its name |
| Sheets.ColumnLetter | src/modules/google-sheet/providers/google-sheet.service.ts:155-164 | "" for columns up to 0; a non-empty all-letter name for positive columns that reads back, in bijective base 26, as the column |
| Sheets.GetColumnLetter | src/modules/google-sheet/providers/google-sheet.service.ts:155-164 | the loop as written computes the column's name: "" for n ≤ 0, otherwise non-empty upper-case letters decoding back to n |
| Sheets.LettersRoundTrip | src/modules/google-sheet/providers/google-sheet.service.ts:155-164 | every string of upper-case letters is the name of the column it decodes to, so the lettering is onto all such strings |
| Sheets.ColumnLettersDistinct | src/modules/google-sheet/providers/google-sheet.service.ts:155-164 | distinct columns have distinct names, in both directions |
| Sheets.SingleLetter | src/modules/google-sheet/providers/google-sheet.service.ts:154 | columns 1..26 are the single letters A..Z |
| Sheets.NextLetter | src/modules/google-sheet/providers/google-sheet.service.ts:158-162 | past 26, a column's name is its leading part's name followed by one letter |
| Sheets.ColumnLetterExamples | src/modules/google-sheet/providers/google-sheet.service.ts:154 | 1 → A, 2 → B, 26 → Z, 27 → AA |
| Sheets.ContactWidthLetters | src/modules/google-sheet/providers/google-sheet.service.ts:27-38 | the CONTACT sheet's 47 columns end at AU |
| Sheets.RequisiteWidthLetters | src/modules/google-sheet/providers/google-sheet.service.ts:40-58 | the REQUISITE sheet's 75 columns end at BW |
| Sheets.HeaderRange | src/modules/google-sheet/providers/google-sheet.service.ts:98 | the range is the title, then `!A1:`, then a column name decoding to the header count, then `1` |
| Sheets.HeaderUpdates | src/modules/google-sheet/providers/google-sheet.service.ts:94-105 | one raw write per sheet, in sheet order, of its header row into its header range |
| Sheets.FormatRequests | src/modules/google-sheet/providers/google-sheet.service.ts:111-147 | exactly two requests per sheet, in sheet order: bold first row of width equal to the header count, then one frozen row, both for that sheet's id |
| Sheets.CreateSpreadsheetPlan | src/modules/google-sheet/providers/google-sheet.service.ts:71-152 | the spreadsheet is created with the given title and one sheet per configuration on the default grid; then one RAW write per sheet of its header row into its header range; then the formatting pairs indexed by the returned sheet ids |
| Sheets.ConfiguredSheets | src/modules/google-sheet/providers/google-sheet.service.ts:26-69 | three sheets with 47, 75 and 2 headers, each within the 100-column default grid |
| Sheets.ConfiguredHeaderRanges | src/modules/google-sheet/providers/google-sheet.service.ts:98 | the header ranges are CONTACT!A1:AU1, REQUISITE!A1:BW1 and LOG!A1:B1 |

## Left out

- HTTP and provider calls are oracle parameters, not models of the APIs: axios posts, the Bitrix token endpoint, `OAuth2Client.getToken`, `refreshAccessToken`, `getTokenInfo` and the `sheets.spreadsheets.*` calls. So are their response shapes beyond success-with-payload or failure.
- `findAll` is left out because it is a plain read of every record, with nothing to decide.
- TypeORM internals are left out. A save writes the whole record; a failing save or lookup in the database itself is not modelled.
- `update` is modelled with a body carrying only `subscription` and `token`. The DTO file is not part of this model, and a `domain` in the body is not modelled.
- Users.Update: inside a given token object, a `null` slot is treated like an absent one. Both are falsy and neither is validated, but `Object.assign` copies the whole token object either way.
- Users.UpdateTokens: a timestamp is a `Date`, a number or a string. Other JSON values in that place (booleans, objects, `NaN`) are not modelled.
- Concurrency is left out: `Promise.all` over the header writes, refreshes racing on one tenant, and the single shared `OAuth2Client` whose credentials are overwritten per request. None of these is sequential behaviour.
- The floating-point background colour of the header cells is left out. The `fields` mask that names it is kept.
- `getClient` and `setCredentials` are left out. They only hand the shared client around and have no observable result in the model.
- `console.log` output and the exact (Vietnamese) message texts are left out; errors are kinds with the data they carry.
- Module wiring, dependency injection and configuration loading from files and environment are left out.
- Sheets.CreateSpreadsheetPlan: the `spreadsheetId` from the create reply is left out. It only labels the header writes and the batch update and is returned unchanged. Failures are left out too: a rejected create, header write or batch update makes `createSpreadsheet` throw, and the plan assumes every step succeeds.
- GoogleAuth.HandleCallback and GoogleAuth.RefreshToken: the requests sent to the provider are not recorded. These are the code exchange, which carries `code`, and the refresh, which carries the stored refresh token. Only the provider's reply is modelled.
- Bitrix.Call: the request parameters are an opaque string, and the object spread `{ ...params }` is not modelled.
- GoogleAuth.HandleCallback: the exchanged token's `expiry_date` is kept as an optional timestamp inside a `JsValues.Timestamp` `Date`. Date parsing is not modelled.
