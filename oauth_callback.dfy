/** `oAuthCallback`: three guards, the first failure wins (nonce, shop,
    HMAC); then the code is exchanged for a token and the `afterAuth` hook
    is called with it. */
module OAuthCallbackHandler {
  import opened Types
  import opened Http
  import Auth

  /** The HMAC validator, as a verdict on `(hmac, secret, query)`. */
  type HmacCheck = (Option<string>, string, map<string, string>) -> bool

  /** The token endpoint's answer to a request. */
  type TokenEndpoint = TokenRequest -> TokenResponse

  /** `state` is present and the nonce cookie holds exactly the same value. */
  predicate NonceMatches(query: map<string, string>, cookies: map<string, string>) {
    "state" in query && Auth.NonceCookieName in cookies && cookies[Auth.NonceCookieName] == query["state"]
  }

  datatype Verdict = Proceed(shop: string) | Reject(status: int, error: ShopifyError)

  /** The guard chain. */
  function CheckCallback(query: map<string, string>, cookies: map<string, string>, secret: string, validHmac: HmacCheck): (v: Verdict)
    ensures v.Proceed? <==>
      NonceMatches(query, cookies) && "shop" in query && validHmac(Get(query, "hmac"), secret, query)
    ensures v.Proceed? ==> v.shop == query["shop"]
    ensures !NonceMatches(query, cookies) ==> v == Reject(403, NonceMatchFailed)
    ensures NonceMatches(query, cookies) && "shop" !in query ==> v == Reject(400, ShopParamMissing)
    ensures NonceMatches(query, cookies) && "shop" in query && !validHmac(Get(query, "hmac"), secret, query) ==>
      v == Reject(400, InvalidHmac)
  {
    if !("state" in query && Get(cookies, Auth.NonceCookieName) == Some(query["state"])) then
      Reject(403, NonceMatchFailed)
    else if "shop" !in query then
      Reject(400, ShopParamMissing)
    else if !validHmac(Get(query, "hmac"), secret, query) then
      Reject(400, InvalidHmac)
    else
      Proceed(query["shop"])
  }

  /** The later guards are not consulted once an earlier one has failed:
      any two HMAC validators give the same verdict. */
  lemma HmacNotConsultedAfterEarlierFailure(query: map<string, string>, cookies: map<string, string>,
                                            secret: string, check1: HmacCheck, check2: HmacCheck)
    requires !NonceMatches(query, cookies) || "shop" !in query
    ensures CheckCallback(query, cookies, secret, check1) == CheckCallback(query, cookies, secret, check2)
  {
  }

  /** The shop guard tests presence only: an empty `shop` passes it. */
  lemma EmptyShopPassesPresenceGuard(query: map<string, string>, cookies: map<string, string>,
                                     secret: string, validHmac: HmacCheck)
    requires NonceMatches(query, cookies) && Get(query, "shop") == Some("")
    requires validHmac(Get(query, "hmac"), secret, query)
    ensures CheckCallback(query, cookies, secret, validHmac) == Proceed("")
  {
  }

  /** POST `https://<shop>/admin/oauth/access_token` with the form
      `code`, `client_id`, `client_secret`; an absent code is stringified
      as an empty value. */
  function AccessTokenRequest(shop: string, code: Option<string>, apiKey: string, secret: string): (request: TokenRequest)
    ensures request.url == "https://" + shop + "/admin/oauth/access_token"
    ensures Keys(request.form) == ["code", "client_id", "client_secret"]
    ensures Lookup(request.form, "code") == Some(if code.Some? then code.value else "")
    ensures Lookup(request.form, "client_id") == Some(apiKey)
    ensures Lookup(request.form, "client_secret") == Some(secret)
  {
    var form := [("code", code.GetOr("")), ("client_id", apiKey), ("client_secret", secret)];
    assert |"code"| == 4 && |"client_id"| == 9 && |"client_secret"| == 13;
    LookupAt(form, 0);
    LookupAt(form, 1);
    LookupAt(form, 2);
    TokenRequest("https://" + shop + "/admin/oauth/access_token", form)
  }

  /** A rejected request gets its guard's error and no effect at all. A
      passing one makes exactly one exchange; a non-2xx answer gets a 401,
      a 2xx answer the hook call (when configured) and no status. */
  method OAuthCallback(res: Response, options: Options, query: map<string, string>, cookies: map<string, string>,
                       validHmac: HmacCheck, endpoint: TokenEndpoint)
    modifies res
    ensures forall i :: |old(res.effects)| <= i < |res.effects| ==> !IsCookieEffect(res.effects[i])
    ensures var v := CheckCallback(query, cookies, options.secret, validHmac);
      v.Reject? ==>
        && res.status == Some(v.status)
        && res.body == Some(ErrorResponse(v.error, Get(query, "shop")))
        && res.effects == old(res.effects)
    ensures var v := CheckCallback(query, cookies, options.secret, validHmac);
      v.Proceed? ==>
        var request := AccessTokenRequest(v.shop, Get(query, "code"), options.apiKey, options.secret);
        var answer := endpoint(request);
        && (!answer.Ok() ==>
              && res.status == Some(401)
              && res.body == Some(ErrorResponse(AccessTokenFetchFailure, Some(v.shop)))
              && res.effects == old(res.effects) + [FetchAccessToken(request)])
        && (answer.Ok() ==>
              && res.status == old(res.status) && res.body == old(res.body)
              && res.effects == old(res.effects) + [FetchAccessToken(request)]
                   + (if options.afterAuth then [CallAfterAuth(v.shop, answer.accessToken)] else []))
  {
    var shop := Get(query, "shop");
    var nonce := Get(query, "state");
    if nonce.None? || Get(cookies, Auth.NonceCookieName) != nonce {
      res.Send(403, ErrorResponse(NonceMatchFailed, shop));
      return;
    }
    if shop.None? {
      res.Send(400, ErrorResponse(ShopParamMissing, shop));
      return;
    }
    if !validHmac(Get(query, "hmac"), options.secret, query) {
      res.Send(400, ErrorResponse(InvalidHmac, shop));
      return;
    }
    var request := AccessTokenRequest(shop.value, Get(query, "code"), options.apiKey, options.secret);
    res.Perform(FetchAccessToken(request));
    var answer := endpoint(request);
    if !answer.Ok() {
      res.Send(401, ErrorResponse(AccessTokenFetchFailure, shop));
      return;
    }
    if options.afterAuth {
      res.Perform(CallAfterAuth(shop.value, answer.accessToken));
    }
  }
}
