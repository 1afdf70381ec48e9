/** The entry point `createShopifyAuth`: cookie names, defaults, the two
    cookie predicates, the default merge and the routes the handlers are
    built with. */
module Auth {
  import opened Types

  const TopLevelOAuthCookieName := "shopifyTopLevelOAuth"
  const TestCookieName := "shopifyTestCookie"
  /** Written by the OAuth start, compared with `state` by the callback. */
  const NonceCookieName := "shopifyNonce"

  const DefaultMyShopifyDomain := "myshopify.com"
  const DefaultAccessMode := Online

  /** Third-party cookies survived a round trip: the test cookie is set and truthy. */
  function HasCookieAccess(cookies: map<string, string>): (b: bool)
    ensures b <==> TestCookieName in cookies && cookies[TestCookieName] != ""
  {
    Truthy(Get(cookies, TestCookieName))
  }

  /** A top-level bounce happened: the bounce marker is set and truthy. */
  function ShouldPerformInlineOAuth(cookies: map<string, string>): (b: bool)
    ensures b <==> TopLevelOAuthCookieName in cookies && cookies[TopLevelOAuthCookieName] != ""
  {
    Truthy(Get(cookies, TopLevelOAuthCookieName))
  }

  /** `{myShopifyDomain, accessMode, prefix: "", scopes: [], ...options}`:
      every field supplied by the options wins, the defaults fill the rest. */
  function MergeConfig(options: Options): (config: Config)
    ensures options.myShopifyDomain.Some? ==> config.myShopifyDomain == options.myShopifyDomain.value
    ensures options.myShopifyDomain.None? ==> config.myShopifyDomain == "myshopify.com"
    ensures options.accessMode.Some? ==> config.accessMode == options.accessMode.value
    ensures options.accessMode.None? ==> config.accessMode == Online
    ensures options.prefix.Some? ==> config.prefix == options.prefix.value
    ensures options.prefix.None? ==> config.prefix == ""
    ensures options.scopes.Some? ==> config.scopes == options.scopes.value
    ensures options.scopes.None? ==> config.scopes == []
    ensures config.secret == options.secret && config.apiKey == options.apiKey
    ensures config.afterAuth == options.afterAuth && config.appUrl == options.appUrl
  {
    Config(
      options.secret,
      options.apiKey,
      options.myShopifyDomain.GetOr(DefaultMyShopifyDomain),
      options.accessMode.GetOr(DefaultAccessMode),
      options.afterAuth,
      options.prefix.GetOr(""),
      options.scopes.GetOr([]),
      options.appUrl)
  }

  /** A merged config handed on where options are expected: every field is
      present, so merging the defaults in again changes nothing. */
  function AsOptions(config: Config): (options: Options)
    ensures MergeConfig(options) == config
  {
    Options(
      config.secret,
      config.apiKey,
      Some(config.myShopifyDomain),
      Some(config.accessMode),
      config.afterAuth,
      Some(config.prefix),
      Some(config.scopes),
      config.appUrl)
  }

  /** A top-level bounce page handler, by what its factory captures. */
  datatype TopLevelRedirect = TopLevelRedirect(apiKey: string, path: string, appUrl: string)

  /** The OAuth start handler, by what `createOAuthStart` captures. */
  datatype StartHandler = StartHandler(options: Options, callbackPath: string)

  /** The handlers `createShopifyAuth` returns. The callback and the
      enable-cookies handler capture the options exactly as given. */
  datatype ShopifyAuth = ShopifyAuth(
    enableCookiesRedirect: TopLevelRedirect,
    oAuthStart: StartHandler,
    topLevelOAuthRedirect: TopLevelRedirect,
    oAuthCallback: Options,
    enableCookies: Options)

  function CreateShopifyAuth(options: Options): (auth: ShopifyAuth)
    ensures var prefix := if options.prefix.Some? then options.prefix.value else "";
      && auth.oAuthStart.callbackPath == prefix + "/auth/callback"
      && auth.enableCookiesRedirect.path == prefix + "/auth/enable-cookies"
      && auth.topLevelOAuthRedirect.path == prefix + "/auth/inline"
    ensures MergeConfig(auth.oAuthStart.options) == MergeConfig(options)
    ensures auth.oAuthCallback == options && auth.enableCookies == options
    ensures auth.enableCookiesRedirect.apiKey == options.apiKey && auth.enableCookiesRedirect.appUrl == options.appUrl
    ensures auth.topLevelOAuthRedirect.apiKey == options.apiKey && auth.topLevelOAuthRedirect.appUrl == options.appUrl
  {
    var config := MergeConfig(options);
    ShopifyAuth(
      TopLevelRedirect(config.apiKey, config.prefix + "/auth/enable-cookies", options.appUrl),
      StartHandler(AsOptions(config), config.prefix + "/auth/callback"),
      TopLevelRedirect(config.apiKey, config.prefix + "/auth/inline", options.appUrl),
      options,
      options)
  }
}
