/** `clearSession` and `redirectToAuth`, shared by the re-verification flow. */
module VerifyUtilities {
  import opened Types
  import opened Http

  /** Where `redirectToAuth` goes: the auth route with the shop appended
      unencoded when the shop is truthy, the fallback route otherwise. */
  function RouteForRedirect(shop: Option<string>, routes: Routes): (route: string)
    ensures Truthy(shop) ==> route == routes.authRoute + "?shop=" + shop.value
    ensures !Truthy(shop) ==> route == routes.fallbackRoute
  {
    if Truthy(shop) then routes.authRoute + "?shop=" + shop.value else routes.fallbackRoute
  }

  /** The shop can be read back from the auth-route target, so two
      different shops never share a target. */
  lemma ShopRecoveredFromRoute(shop: string, routes: Routes)
    requires shop != ""
    ensures var route := RouteForRedirect(Some(shop), routes);
      && route[..|routes.authRoute| + 6] == routes.authRoute + "?shop="
      && route[|routes.authRoute| + 6..] == shop
  {
    var route := RouteForRedirect(Some(shop), routes);
    assert route == (routes.authRoute + "?shop=") + shop;
  }

  lemma DistinctShopsDistinctRoutes(shop1: string, shop2: string, routes: Routes)
    requires shop1 != "" && shop2 != "" && shop1 != shop2
    ensures RouteForRedirect(Some(shop1), routes) != RouteForRedirect(Some(shop2), routes)
  {
    ShopRecoveredFromRoute(shop1, routes);
    ShopRecoveredFromRoute(shop2, routes);
  }

  /** Destroys the three session cookies, in order, and does nothing else. */
  method ClearSession(res: Response)
    modifies res
    ensures res.effects == old(res.effects) + [
      DestroyCookie("shopSettingsId"), DestroyCookie("shopOrigin"), DestroyCookie("shopifyToken")]
    ensures res.status == old(res.status) && res.body == old(res.body)
  {
    res.Perform(DestroyCookie("shopSettingsId"));
    res.Perform(DestroyCookie("shopOrigin"));
    res.Perform(DestroyCookie("shopifyToken"));
  }

  /** One redirect, to the route chosen for the shop, and no cookie effect. */
  method RedirectToAuth(res: Response, shop: Option<string>, routes: Routes)
    modifies res
    ensures res.effects == old(res.effects) + [Redirect(Raw(RouteForRedirect(shop, routes)))]
    ensures forall i :: |old(res.effects)| <= i < |res.effects| ==> !IsCookieEffect(res.effects[i])
    ensures res.status == old(res.status) && res.body == old(res.body)
  {
    res.Perform(Redirect(Raw(RouteForRedirect(shop, routes))));
  }
}
