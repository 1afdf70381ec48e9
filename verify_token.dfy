/** `verifyToken`: a returning user's stored token is probed and, when the
    probe answers 401, the user is sent back to auth; a user without a
    shop or token gets the test cookie and is sent to auth at once. */
module TokenVerification {
  import opened Types
  import opened Http
  import Auth
  import VerifyUtilities

  const Unauthorized := 401

  /** The probe: on the server, the shop's metafields endpoint with the
      token in `X-Shopify-Access-Token`; in the browser, the app's own
      verification URL with cookies included. */
  function ProbeFor(isServer: bool, shopOrigin: string, shopifyToken: string, verifyTokenUrl: string): (p: ProbeRequest)
    ensures isServer ==> p.url == "https://" + shopOrigin + "/admin/metafields.json" && !p.includeCredentials
    ensures isServer ==> Lookup(p.headers, "X-Shopify-Access-Token") == Some(shopifyToken)
    ensures !isServer ==> p == ProbeRequest(verifyTokenUrl, [], true)
  {
    if isServer then
      var headers := [("Content-Type", "application/json"), ("X-Shopify-Access-Token", shopifyToken)];
      assert |"Content-Type"| != |"X-Shopify-Access-Token"|;
      LookupAt(headers, 1);
      ProbeRequest("https://" + shopOrigin + "/admin/metafields.json", headers, false)
    else
      ProbeRequest(verifyTokenUrl, [], true)
  }

  /** With a truthy shop and token: the marker cookie is destroyed first,
      one probe is issued, and only a 401 leads to the auth redirect. With
      either missing or empty: the test cookie, then the auth redirect, and
      no probe. `res` being present (`isServer`) picks the probe. */
  method VerifyToken(res: Response, shopOrigin: Option<string>, shopifyToken: Option<string>,
                     isServer: bool, routes: Routes, verifyTokenUrl: string, probeStatus: ProbeRequest -> int)
    modifies res
    ensures res.status == old(res.status) && res.body == old(res.body)
    ensures Truthy(shopOrigin) && Truthy(shopifyToken) ==>
      var probe := ProbeFor(isServer, shopOrigin.value, shopifyToken.value, verifyTokenUrl);
      res.effects == old(res.effects)
        + [DestroyCookie(Auth.TopLevelOAuthCookieName), FetchProbe(probe)]
        + (if probeStatus(probe) == Unauthorized
           then [Redirect(Raw(VerifyUtilities.RouteForRedirect(shopOrigin, routes)))]
           else [])
    ensures !(Truthy(shopOrigin) && Truthy(shopifyToken)) ==>
      res.effects == old(res.effects)
        + [SetCookie(Auth.TestCookieName, "1"), Redirect(Raw(VerifyUtilities.RouteForRedirect(shopOrigin, routes)))]
  {
    if Truthy(shopOrigin) && Truthy(shopifyToken) {
      res.Perform(DestroyCookie(Auth.TopLevelOAuthCookieName));
      var probe := ProbeFor(isServer, shopOrigin.value, shopifyToken.value, verifyTokenUrl);
      res.Perform(FetchProbe(probe));
      var status := probeStatus(probe);
      if status == Unauthorized {
        VerifyUtilities.RedirectToAuth(res, shopOrigin, routes);
        return;
      }
      return;
    }
    res.Perform(SetCookie(Auth.TestCookieName, "1"));
    VerifyUtilities.RedirectToAuth(res, shopOrigin, routes);
  }
}
