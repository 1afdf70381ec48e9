# Shopify app OAuth: a Dafny model of the flow's decision logic

This project models the server side of a Shopify app's OAuth
authorization-code flow, after the pattern of RFC 6749: an authorization
request in the spirit of section 4.1.1, `state` as the CSRF defence of
section 10.12, and a code-for-token exchange in the spirit of section 4.1.3.
The requests are Shopify's variants, not the RFC's:

- the authorize parameters carry no `response_type=code`;
- the scopes are joined with ", " (comma and space);
- the token form carries only `code`, `client_id` and `client_secret`, with
  no `grant_type=authorization_code` and no `redirect_uri`.

The model builds the requests exactly as the code does. It covers:

- `createShopifyAuth`: the default merge, the derived routes and the two
  cookie predicates (module `Auth`).
- `oAuthStart`: the shop-domain regex, the 400 rejection, and then the
  destroyed bounce marker, the nonce cookie and the authorize redirect
  (modules `ShopRegex`, `QueryString`, `OAuthStartHandler`).
- `oAuthCallback`: the nonce, shop and HMAC guards (the first failure wins),
  the token exchange and the `afterAuth` hook (module `OAuthCallbackHandler`).
- `verifyToken`, `redirectToAuth`, `clearSession` and `loginAgain`: the
  re-verification flow (modules `VerifyUtilities`, `TokenVerification`,
  `Relogin`).

The response object is the class `Http.Response`. It has a status and a
JSON error body, both written by `res.status(..).send(..)`. It also has an
append-only trace of effects: cookies set or destroyed, redirects, the two
outbound requests and the call of `afterAuth`. Each handler is a method that
appends to that trace. Its postcondition gives the whole new state: what is
appended, in order, and whether the status and body change. Helpers outside
the core become parameters:

- the HMAC validator is a total function `(hmac, secret, query) -> bool`;
- the nonce generator's number is a `nat` argument;
- the token endpoint is a function from the request to its
  `(status, access_token)`;
- the metafields or verify-URL probe is a function from the request to its
  status;
- whether `res` exists (server or browser) is a `bool`.

Queries and cookies are `map<string, string>`. A field the source may leave
`undefined` is an `Option`. `Types.Truthy` is JavaScript truthiness of an
optional string: present and not `""`.

The shop check gets a small semantics of its own. `ShopRegex.Matches` gives
the meaning of an anchored pattern made of character classes, some of them
starred. `ShopRegex.ShopPattern` is the pattern the source builds, with
`myShopifyDomain` spliced in unescaped, so each `.` of the domain matches
any character except a line terminator. Matching is case-insensitive.
`ShopRegex.ShopShapeOk` is a hand-written matcher, and `ShopShapeIsRegex`
proves that it accepts exactly what the pattern matches. `ShopRegex.ValidShop`
is the check the handler runs. It is computed by the matcher and carries that
agreement as its contract.

`Scenarios` holds client methods that follow from the contracts alone:

- a valid start in online mode;
- a one-character shop refused;
- a token endpoint answering 500;
- a nonce mismatch;
- a probe answering 401;
- a first visit;
- a shop with an empty token;
- `loginAgain` with a shop.

Notes on the code, which this model follows:

- The callback sets and destroys no cookie. It clears neither the
  `shopifyNonce` cookie nor the `shopifyTopLevelOAuth` marker. So after a
  successful callback the nonce cookie still holds the value that `state`
  matched, and the bounce marker is left as it was.
- A token exchange that fails at the network level is not turned into
  `AccessTokenFetchFailure`. The awaited `fetch` rejects and the exception
  leaves the handler. Only a non-2xx answer gives the 401.
- Because the domain is not escaped, the default pattern also accepts
  `test-shop.myshopifyXcom` (`ShopRegex.DefaultDomainDotIsWildcard`).
- The callback's guards test presence (`== null`), so an empty `state` that
  equals an empty cookie passes, and so does an empty `shop`.
  `redirectToAuth` and `verifyToken` test truthiness, so there `""` counts as
  missing.

## Model

| member | source | states |
|---|---|---|
| `Auth.HasCookieAccess` | src/auth/index.ts:14-16 | holds iff the cookies have `shopifyTestCookie` with a non-empty value |
| `Auth.ShouldPerformInlineOAuth` | src/auth/index.ts:18-20 | holds iff the cookies have `shopifyTopLevelOAuth` with a non-empty value |
| `Auth.MergeConfig` | src/auth/index.ts:23-29 | each field supplied by the options is kept; otherwise the domain is "myshopify.com", the access mode online, the prefix "" and the scopes empty; secret, api key, hook and app URL pass through |
| `Auth.AsOptions` | src/auth/index.ts:33 | the merged config handed to `createOAuthStart` as options merges back to itself, so merging again on each call changes nothing |
| `Auth.CreateShopifyAuth` | src/auth/index.ts:31-37 | the callback path is prefix + "/auth/callback", the enable-cookies path prefix + "/auth/enable-cookies", the inline path prefix + "/auth/inline"; the start handler merges to the same config as the raw options; the callback and enable-cookies handlers capture the raw options; the bounce pages get the api key and the raw app URL |
| `ShopRegex.ShopPattern` | src/auth/create-oauth-start.ts:23-26 | the pattern is the label part `[a-z0-9][a-z0-9\-]*[a-z0-9]`, a literal `.`, then one atom per domain character: a `.` of the domain becomes the any-character wildcard and every other character stands for itself; the label's middle class is the only starred atom |
| `ShopRegex.ShopShapeIsRegex` | src/auth/create-oauth-start.ts:23-28 | the hand-written matcher accepts a shop exactly when the pattern built from the domain matches it, both directions |
| `ShopRegex.ValidShop` | src/auth/create-oauth-start.ts:23-28 | `shopRegex.test(shop)` holds exactly when the pattern built from the domain matches the whole shop |
| `OAuthStartHandler.ShopAccepted` | src/auth/create-oauth-start.ts:28 | the start guard passes iff `shop` is present and matches the pattern built from the merged `myShopifyDomain` |
| `ShopRegex.SingleCharLabelRejected` | src/auth/create-oauth-start.ts:24 | a one-character shop name followed by "." and the domain is rejected, for every domain |
| `ShopRegex.AcceptsLabelDotDomain` | src/auth/create-oauth-start.ts:24 | every name of at least two letters, digits or inner dashes, starting and ending with a letter or digit, is accepted in front of "." and the domain |
| `ShopRegex.RegexIgnoresCase` | src/auth/create-oauth-start.ts:23-26 | matching gives the same answer for the ASCII lower case of the shop, and for the lower case of the domain |
| `ShopRegex.DefaultDomainDotIsWildcard` | src/auth/create-oauth-start.ts:24 | with the unescaped default domain, "test-shop.myshopifyXcom" is accepted |
| `ShopRegex.AcceptsDefaultDomainShop` | src/auth/create-oauth-start.ts:23-26 | "test-shop.myshopify.com" is accepted for the default domain |
| `ShopRegex.RejectsSingleCharShop` | src/auth/create-oauth-start.ts:24 | "a.myshopify.com" is rejected for the default domain |
| `ShopRegex.RejectsMalformedShops` | src/auth/create-oauth-start.ts:23-26 | a name starting with "-" is rejected, and so is a shop with text after the domain |
| `QueryString.DecimalString` | src/auth/oauth-query-string.ts:19-23 | the nonce's `toString()` is a non-empty string of decimal digits with no leading zero (a single digit below 10); with `DecimalRoundTrip` this fixes the string |
| `QueryString.DecimalRoundTrip` | src/auth/oauth-query-string.ts:19-23 | reading the rendered digits back gives the nonce |
| `QueryString.DistinctNoncesDistinctStates` | src/auth/oauth-query-string.ts:19-23 | distinct nonces give distinct cookie and `state` values |
| `QueryString.AuthorizeParams` | src/auth/oauth-query-string.ts:22-31 | the keys are exactly state, scope, client_id, redirect_uri, in that order, then grant_options[] exactly in online mode |
| `QueryString.AuthorizeParamValues` | src/auth/oauth-query-string.ts:17-31 | state is the nonce's rendering, scope the scopes joined with ", ", client_id the api key, redirect_uri "https://" + appUrl + callback path, and grant_options[] is "per-user" in online mode and absent otherwise |
| `QueryString.MissingScopesGiveEmptyScope` | src/auth/oauth-query-string.ts:17-24 | options without scopes give scope = "" |
| `QueryString.OAuthQueryString` | src/auth/oauth-query-string.ts:11-34 | exactly one effect, SetCookie("shopifyNonce", nonce string), and it returns the authorize parameters; the status and body are unchanged |
| `OAuthStartHandler.OAuthStart` | src/auth/create-oauth-start.ts:10-45 | for a missing or rejected shop: status 400, body {ShopParamMissing, shop}, and no effect; otherwise exactly DestroyCookie("shopifyTopLevelOAuth"), SetCookie("shopifyNonce", n), Redirect("https://" + shop + "/admin/oauth/authorize?" + the parameters built with the same n), and no status |
| `OAuthStartHandler.DefaultDomainWhenAbsent` | src/auth/create-oauth-start.ts:12-28 | options without a domain check the shop against the pattern for "myshopify.com" |
| `OAuthCallbackHandler.CheckCallback` | src/auth/create-oauth-callback.ts:14-45 | the request proceeds iff state is present and equals the nonce cookie, shop is present and the HMAC is accepted; otherwise the first failing guard decides: 403 NonceMatchFailed, then 400 ShopParamMissing, then 400 InvalidHmac |
| `OAuthCallbackHandler.HmacNotConsultedAfterEarlierFailure` | src/auth/create-oauth-callback.ts:14-36 | when the nonce or shop guard fails, the verdict is the same for every HMAC validator |
| `OAuthCallbackHandler.EmptyShopPassesPresenceGuard` | src/auth/create-oauth-callback.ts:25-34 | a present empty shop passes the shop guard |
| `OAuthCallbackHandler.AccessTokenRequest` | src/auth/create-oauth-callback.ts:47-54 | the token request goes to "https://" + shop + "/admin/oauth/access_token"; its form has the keys code, client_id, client_secret in that order, with code the query's code ("" when absent), client_id the api key and client_secret the secret |
| `OAuthCallbackHandler.OAuthCallback` | src/auth/create-oauth-callback.ts:9-82 | a guard failure writes its status and {error, shop} and has no effect; otherwise exactly one POST to "https://" + shop + "/admin/oauth/access_token" with code, client_id = api key and client_secret = secret; a non-2xx answer gives 401 AccessTokenFetchFailure and no hook call; a 2xx answer leaves the status alone and calls afterAuth(shop, access_token) once if configured; no cookie effect on any path |
| `VerifyUtilities.RouteForRedirect` | src/verify-request/utilities.ts:27 | a truthy shop gives authRoute + "?shop=" + shop, unencoded; an absent or empty one the fallback route |
| `VerifyUtilities.ShopRecoveredFromRoute` | src/verify-request/utilities.ts:27 | the shop is the suffix of its auth-route target after authRoute + "?shop=" |
| `VerifyUtilities.DistinctShopsDistinctRoutes` | src/verify-request/utilities.ts:27 | two different non-empty shops are sent to different targets |
| `VerifyUtilities.ClearSession` | src/verify-request/utilities.ts:7-11 | exactly DestroyCookie of shopSettingsId, shopOrigin and shopifyToken, in that order |
| `VerifyUtilities.RedirectToAuth` | src/verify-request/utilities.ts:13-30 | exactly one Redirect, to the route chosen for the shop, and no cookie effect |
| `TokenVerification.ProbeFor` | src/verify-request/verify-token.ts:24-45 | on the server, GET "https://" + shopOrigin + "/admin/metafields.json" with X-Shopify-Access-Token = token; in the browser, GET verifyTokenUrl with credentials included |
| `TokenVerification.VerifyToken` | src/verify-request/verify-token.ts:9-58 | with both values truthy: DestroyCookie("shopifyTopLevelOAuth"), one probe, and a Redirect to the shop's auth route only when the probe answers 401; otherwise exactly SetCookie("shopifyTestCookie", "1") then the redirectToAuth target for shopOrigin, with no probe; the status and body are never written |
| `Relogin.LoginAgain` | src/verify-request/login-again.ts:6-17 | exactly the three session-cookie destroys and then one Redirect to redirectToAuth's target for the same shop and routes, with or without a shop |

## Left out

- HMAC computation: `./validate-hmac` is not part of this model. The validator is an uninterpreted function parameter, so the round trip "sign then validate accepts" is not stated.
- Nonce generation: the `nonce` package's randomness and uniqueness are not modelled; the generated number is an argument. `toString()` is modelled for integers written in plain decimal; JavaScript's exponent notation (at 1e21 and above) is not.
- Network I/O: `fetch` and `isomorphic-fetch`, `await`, and JSON parsing of the token answer are left out. A rejected fetch or a body without `access_token` is not modelled. The `Content-Type` and `Content-Length` headers of the token request are left out.
- The `afterAuth` hook receives `req` and `res` and may write to them. The model records only that it was called and with which shop and token.
- Percent-encoding: `querystring.stringify` is abstract. `Http.Location.WithQuery(prefix, pairs)` stands for the prefix followed by the encoded pairs.
- Redirect primitive: the 302 status, the `Location` header, `res.end()` and the browser's `document.location` branch are all one `Redirect` effect. The effect does not change the response's status field.
- The HTML bounce pages (create-top-level-redirect.ts, create-top-level-oauth-redirect.ts, the redirection page) and the enable-cookies handlers are not part of this model. `Auth.CreateShopifyAuth` records only the arguments they are built with.
- `console.error` logging is dropped.
- A query or cookie value that is an array, which happens with a repeated parameter, is not modelled. Every value is one string.
- Auth.MergeConfig: an option key that is present with the value `undefined` overrides the default under the object spread. The model treats such a key as not supplied.
- ShopRegex.ShopPattern: only `.` in `myShopifyDomain` is read as a regex metacharacter; other metacharacters are taken literally. Case-insensitivity covers ASCII letters only. Domain characters outside ASCII are not folded.
- Strings are sequences of Unicode scalar values, not the UTF-16 code units of JavaScript.
