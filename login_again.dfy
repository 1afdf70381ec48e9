/** `loginAgain`: tear the session down, then send the user to auth. */
module Relogin {
  import opened Types
  import opened Http
  import VerifyUtilities

  /** The three session cookies are destroyed whether or not a shop is
      given, all before the one redirect, which goes where
      `redirectToAuth` would send the same shop. */
  method LoginAgain(res: Response, shop: Option<string>, routes: Routes)
    modifies res
    ensures res.effects == old(res.effects) + [
      DestroyCookie("shopSettingsId"), DestroyCookie("shopOrigin"), DestroyCookie("shopifyToken"),
      Redirect(Raw(VerifyUtilities.RouteForRedirect(shop, routes)))]
    ensures res.status == old(res.status) && res.body == old(res.body)
  {
    VerifyUtilities.ClearSession(res);
    VerifyUtilities.RedirectToAuth(res, shop, routes);
  }
}
