/** Clients of the handlers: end-to-end scenarios whose outcomes follow from the
    handlers' contracts alone. */
module Scenarios {
  import opened Types
  import opened Http
  import Auth
  import QueryString
  import ShopRegex
  import OAuthStartHandler
  import OAuthCallbackHandler
  import TokenVerification
  import Relogin

  function AppOptions(mode: AccessMode): (options: Options) {
    Options("secret", "key", None, Some(mode), true, None, Some(["read_products", "write_orders"]), "app.example.com")
  }

  /** Starting with a valid shop in online mode: the nonce cookie and the
      `state` parameter agree, and the redirect asks for a per-user grant. */
  method StartOnline(nonce: nat) {
    var res := new Response();
    var options := AppOptions(Online);
    var query := map["shop" := "test-shop.myshopify.com"];
    assert OAuthStartHandler.ShopAccepted(options, query) by {
      ShopRegex.AcceptsDefaultDomainShop();
    }
    OAuthStartHandler.OAuthStart(res, options, "/auth/callback", query, nonce);
    assert |res.effects| == 3 && res.status == None;
    var params := res.effects[2].location.params;
    QueryString.AuthorizeParamValues(Auth.MergeConfig(options), "/auth/callback", nonce);
    assert res.effects[1] == SetCookie("shopifyNonce", QueryString.DecimalString(nonce));
    assert Lookup(params, "state") == Some(res.effects[1].value);
    assert Lookup(params, "grant_options[]") == Some("per-user");
    assert Lookup(params, "client_id") == Some("key");
  }

  /** A one-character shop name is refused before any cookie is touched. */
  method StartRejectsShortShop(nonce: nat) {
    var res := new Response();
    var query := map["shop" := "a.myshopify.com"];
    assert !OAuthStartHandler.ShopAccepted(AppOptions(Offline), query) by {
      ShopRegex.RejectsSingleCharShop();
    }
    OAuthStartHandler.OAuthStart(res, AppOptions(Offline), "/auth/callback", query, nonce);
    assert res.status == Some(400) && res.effects == [];
    assert res.body == Some(ErrorResponse(ShopParamMissing, Some("a.myshopify.com")));
  }

  /** A matching nonce and a valid HMAC, but the token endpoint answers
      500: the response is a 401 and the hook is not called. */
  method CallbackTokenFailure() {
    var res := new Response();
    var query := map["state" := "42", "shop" := "test-shop.myshopify.com", "code" := "c", "hmac" := "h"];
    var cookies := map["shopifyNonce" := "42"];
    var accept := (h: Option<string>, s: string, q: map<string, string>) => true;
    var failing := (r: TokenRequest) => TokenResponse(500, "");
    OAuthCallbackHandler.OAuthCallback(res, AppOptions(Online), query, cookies, accept, failing);
    assert res.status == Some(401);
    assert res.body == Some(ErrorResponse(AccessTokenFetchFailure, Some("test-shop.myshopify.com")));
    assert forall e | e in res.effects :: !e.CallAfterAuth?;
  }

  /** A nonce cookie that differs from `state` is refused with a 403 and no
      exchange, whatever the HMAC validator would say. */
  method CallbackNonceMismatch(validHmac: OAuthCallbackHandler.HmacCheck, endpoint: OAuthCallbackHandler.TokenEndpoint) {
    var res := new Response();
    var query := map["state" := "42", "shop" := "test-shop.myshopify.com"];
    var cookies := map["shopifyNonce" := "41"];
    OAuthCallbackHandler.OAuthCallback(res, AppOptions(Online), query, cookies, validHmac, endpoint);
    assert res.status == Some(403) && res.effects == [];
  }

  /** A server-side probe answering 401 sends the user to the auth route
      for the stored shop. */
  method VerifyRejectedToken(routes: Routes) {
    var res := new Response();
    var unauthorized := (p: ProbeRequest) => 401;
    TokenVerification.VerifyToken(res, Some("shop.myshopify.com"), Some("tok"), true, routes, "/verify", unauthorized);
    assert res.effects[|res.effects| - 1] == Redirect(Raw(routes.authRoute + "?shop=" + "shop.myshopify.com"));
  }

  /** Neither a shop nor a token: the test cookie, then the fallback route. */
  method VerifyFirstVisit(routes: Routes, probeStatus: ProbeRequest -> int) {
    var res := new Response();
    TokenVerification.VerifyToken(res, None, None, true, routes, "/verify", probeStatus);
    assert res.effects == [SetCookie("shopifyTestCookie", "1"), Redirect(Raw(routes.fallbackRoute))];
  }

  /** A shop whose token is missing still goes to the shop's auth route. */
  method VerifyMissingToken(routes: Routes, probeStatus: ProbeRequest -> int) {
    var res := new Response();
    TokenVerification.VerifyToken(res, Some("x.myshopify.com"), Some(""), false, routes, "/verify", probeStatus);
    assert res.effects[1] == Redirect(Raw(routes.authRoute + "?shop=" + "x.myshopify.com"));
  }

  method LoginAgainWithShop(routes: Routes) {
    var res := new Response();
    Relogin.LoginAgain(res, Some("x.myshopify.com"), routes);
    assert |res.effects| == 4 && forall i | 0 <= i < 3 :: res.effects[i].DestroyCookie?;
    assert res.effects[3] == Redirect(Raw(routes.authRoute + "?shop=" + "x.myshopify.com"));
  }
}
