/** `oAuthStart`: checks the shop, then clears the bounce marker, stores
    the nonce and redirects to the shop's authorize page. */
module OAuthStartHandler {
  import opened Types
  import opened Http
  import Auth
  import ShopRegex
  import QueryString

  /** The shop guard: `shop` is present and matches the shop pattern built
      from the merged `myShopifyDomain`. */
  function ShopAccepted(options: Options, query: map<string, string>): (accepted: bool)
    ensures accepted <==>
      "shop" in query && ShopRegex.Matches(ShopRegex.ShopPattern(Auth.MergeConfig(options).myShopifyDomain), query["shop"])
  {
    "shop" in query && ShopRegex.ValidShop(query["shop"], Auth.MergeConfig(options).myShopifyDomain)
  }

  /** `https://<shop>/admin/oauth/authorize?<parameters>`. */
  function AuthorizeLocation(shop: string, params: Pairs): (location: Location) {
    WithQuery("https://" + shop + "/admin/oauth/authorize?", params)
  }

  /** The defaults are merged in on every call, so options without a domain
      check the shop against `myshopify.com`, using the regex's meaning. */
  lemma DefaultDomainWhenAbsent(options: Options, query: map<string, string>)
    requires options.myShopifyDomain.None?
    ensures ShopAccepted(options, query) <==>
      "shop" in query && ShopRegex.Matches(ShopRegex.ShopPattern("myshopify.com"), query["shop"])
  {
  }

  /** A missing shop or one the pattern rejects gets a 400 and nothing else;
      an accepted one gets exactly three effects, in this order. */
  method OAuthStart(res: Response, options: Options, callbackPath: string, query: map<string, string>, nonce: nat)
    modifies res
    ensures !ShopAccepted(options, query) ==>
      && res.status == Some(400)
      && res.body == Some(ErrorResponse(ShopParamMissing, Get(query, "shop")))
      && res.effects == old(res.effects)
    ensures ShopAccepted(options, query) ==>
      && res.status == old(res.status) && res.body == old(res.body)
      && res.effects == old(res.effects) + [
           DestroyCookie(Auth.TopLevelOAuthCookieName),
           SetCookie(Auth.NonceCookieName, QueryString.DecimalString(nonce)),
           Redirect(AuthorizeLocation(query["shop"],
             QueryString.AuthorizeParams(Auth.MergeConfig(options), callbackPath, nonce)))]
  {
    var config := Auth.MergeConfig(options);
    var shop := Get(query, "shop");
    if shop.None? || !ShopRegex.ValidShop(shop.value, config.myShopifyDomain) {
      res.Send(400, ErrorResponse(ShopParamMissing, shop));
      return;
    }
    res.Perform(DestroyCookie(Auth.TopLevelOAuthCookieName));
    var params := QueryString.OAuthQueryString(res, config, callbackPath, nonce);
    res.Perform(Redirect(AuthorizeLocation(shop.value, params)));
  }
}
