/** Value types shared by the handlers: optional values, the app
    configuration before and after defaults are merged, the error kinds
    and the two routes the re-verification flow redirects to. */
module Types {

  /** An optional value; `None` stands for a JavaScript `undefined`. */
  datatype Option<+T> = None | Some(value: T) {
    function GetOr(default: T): (v: T) {
      match this
      case Some(v) => v
      case None => default
    }
  }

  /** Looking a key up in a query or cookie record: `None` when the key is absent. */
  function Get<V>(m: map<string, V>, key: string): (r: Option<V>)
    ensures r.Some? <==> key in m
    ensures r.Some? ==> r.value == m[key]
  {
    if key in m then Some(m[key]) else None
  }

  /** JavaScript truthiness of an optional string: present and not `""`. */
  predicate Truthy(s: Option<string>) {
    s.Some? && s.value != ""
  }

  datatype AccessMode = Online | Offline

  /** The options an app passes in (an `OAuthStartOptions`, which extends
      `AuthConfig`). Optional fields are `Option`s; `afterAuth` records only
      whether the hook is configured. */
  datatype Options = Options(
    secret: string,
    apiKey: string,
    myShopifyDomain: Option<string>,
    accessMode: Option<AccessMode>,
    afterAuth: bool,
    prefix: Option<string>,
    scopes: Option<seq<string>>,
    appUrl: string)

  /** Options once the defaults have been merged in: every field is present. */
  datatype Config = Config(
    secret: string,
    apiKey: string,
    myShopifyDomain: string,
    accessMode: AccessMode,
    afterAuth: bool,
    prefix: string,
    scopes: seq<string>,
    appUrl: string)

  datatype ShopifyError = NonceMatchFailed | ShopParamMissing | InvalidHmac | AccessTokenFetchFailure

  /** The JSON error body `{errorMessage, shopOrigin}`; `shopOrigin` is the
      query's `shop`, which may be absent. */
  datatype ErrorResponse = ErrorResponse(errorMessage: ShopifyError, shopOrigin: Option<string>)

  datatype Routes = Routes(authRoute: string, fallbackRoute: string)
}
