/** `oAuthQueryString`: stores the nonce in the `shopifyNonce` cookie and
    builds the parameters of the authorize redirect. */
module QueryString {
  import opened Types
  import opened Http
  import Auth

  function Digit(d: nat): (c: char)
    requires d < 10
    ensures '0' <= c <= '9'
    ensures c == '0' <==> d == 0
  {
    (48 + d) as char
  }

  /** `Number.prototype.toString()` of a non-negative integer: its decimal digits. */
  function DecimalString(n: nat): (s: string)
    ensures |s| > 0
    ensures forall i :: 0 <= i < |s| ==> '0' <= s[i] <= '9'
    ensures n < 10 ==> s == [Digit(n)]
    ensures n >= 10 ==> s[0] != '0'
    decreases n
  {
    (if n < 10 then [] else DecimalString(n / 10)) + [Digit(n % 10)]
  }

  /** `Array.prototype.join`. */
  function Join(parts: seq<string>, separator: string): (joined: string) {
    if |parts| == 0 then ""
    else if |parts| == 1 then parts[0]
    else parts[0] + separator + Join(parts[1..], separator)
  }

  /** The authorize parameters, in insertion order. */
  function AuthorizeParams(config: Config, callbackPath: string, nonce: nat): (params: Pairs)
    ensures Keys(params) == ["state", "scope", "client_id", "redirect_uri"]
                            + (if config.accessMode == Online then ["grant_options[]"] else [])
  {
    var base := [
      ("state", DecimalString(nonce)),
      ("scope", Join(config.scopes, ", ")),
      ("client_id", config.apiKey),
      ("redirect_uri", "https://" + config.appUrl + callbackPath)];
    if config.accessMode == Online then base + [("grant_options[]", "per-user")] else base
  }

  /** Each parameter carries the value the source gives it: the nonce as
      `state`, the joined scopes, the api key, the callback URL, and
      `grant_options[]` exactly for online access. */
  lemma AuthorizeParamValues(config: Config, callbackPath: string, nonce: nat)
    ensures var params := AuthorizeParams(config, callbackPath, nonce);
      && Lookup(params, "state") == Some(DecimalString(nonce))
      && Lookup(params, "scope") == Some(Join(config.scopes, ", "))
      && Lookup(params, "client_id") == Some(config.apiKey)
      && Lookup(params, "redirect_uri") == Some("https://" + config.appUrl + callbackPath)
      && Lookup(params, "grant_options[]") == if config.accessMode == Online then Some("per-user") else None
  {
    StateAndScopeValues(config, callbackPath, nonce);
    ClientAndRedirectValues(config, callbackPath, nonce);
    GrantValue(config, callbackPath, nonce);
  }

  lemma StateAndScopeValues(config: Config, callbackPath: string, nonce: nat)
    ensures var params := AuthorizeParams(config, callbackPath, nonce);
      && Lookup(params, "state") == Some(DecimalString(nonce))
      && Lookup(params, "scope") == Some(Join(config.scopes, ", "))
  {
    var params := AuthorizeParams(config, callbackPath, nonce);
    LookupAt(params, 0);
    assert "state"[1] != "scope"[1];
    LookupAt(params, 1);
  }

  lemma ClientAndRedirectValues(config: Config, callbackPath: string, nonce: nat)
    ensures var params := AuthorizeParams(config, callbackPath, nonce);
      && Lookup(params, "client_id") == Some(config.apiKey)
      && Lookup(params, "redirect_uri") == Some("https://" + config.appUrl + callbackPath)
  {
    var params := AuthorizeParams(config, callbackPath, nonce);
    assert |"client_id"| == 9 && |"redirect_uri"| == 12;
    LookupAt(params, 2);
    LookupAt(params, 3);
  }

  lemma GrantValue(config: Config, callbackPath: string, nonce: nat)
    ensures Lookup(AuthorizeParams(config, callbackPath, nonce), "grant_options[]")
      == if config.accessMode == Online then Some("per-user") else None
  {
    var params := AuthorizeParams(config, callbackPath, nonce);
    assert |"grant_options[]"| == 15;
    if config.accessMode == Online {
      LookupAt(params, 4);
    } else {
      assert forall j :: 0 <= j < |params| ==> |params[j].0| < 15;
      LookupAbsent(params, "grant_options[]");
    }
  }

  /** Sets the nonce cookie, then builds the parameters, adding the
      per-user grant to them for online access. */
  method OAuthQueryString(res: Response, config: Config, callbackPath: string, nonce: nat)
    returns (params: Pairs)
    modifies res
    ensures params == AuthorizeParams(config, callbackPath, nonce)
    ensures res.effects == old(res.effects) + [SetCookie(Auth.NonceCookieName, DecimalString(nonce))]
    ensures res.status == old(res.status) && res.body == old(res.body)
  {
    var requestNonce := DecimalString(nonce);
    res.Perform(SetCookie(Auth.NonceCookieName, requestNonce));
    params := [
      ("state", requestNonce),
      ("scope", Join(config.scopes, ", ")),
      ("client_id", config.apiKey),
      ("redirect_uri", "https://" + config.appUrl + callbackPath)];
    if config.accessMode == Online {
      params := params + [("grant_options[]", "per-user")];
    }
  }

  /** Options without scopes give an empty `scope` parameter. */
  lemma MissingScopesGiveEmptyScope(options: Options, callbackPath: string, nonce: nat)
    requires options.scopes.None?
    ensures Lookup(AuthorizeParams(Auth.MergeConfig(options), callbackPath, nonce), "scope") == Some("")
  {
    AuthorizeParamValues(Auth.MergeConfig(options), callbackPath, nonce);
  }

  /** Reading decimal digits back as a number. */
  function DecimalValue(s: string): (n: int) {
    if |s| == 0 then 0 else DecimalValue(s[..|s| - 1]) * 10 + (s[|s| - 1] as int - 48)
  }

  /** The rendering loses nothing: its digits read back as the nonce. */
  lemma {:induction false} DecimalRoundTrip(n: nat)
    ensures DecimalValue(DecimalString(n)) == n
    decreases n
  {
    var q, r := n / 10, n % 10;
    assert n == 10 * q + r && r < 10;
    var prefix := if n < 10 then [] else DecimalString(q);
    var s := prefix + [Digit(r)];
    assert s == DecimalString(n);
    assert s[..|s| - 1] == prefix;
    assert s[|s| - 1] as int - 48 == r;
    if n >= 10 {
      DecimalRoundTrip(q);
    }
    assert DecimalValue(s) == DecimalValue(prefix) * 10 + r;
  }

  /** Distinct nonces give distinct `state` and cookie values. */
  lemma DistinctNoncesDistinctStates(n1: nat, n2: nat)
    requires n1 != n2
    ensures DecimalString(n1) != DecimalString(n2)
  {
    DecimalRoundTrip(n1);
    DecimalRoundTrip(n2);
  }
}
