/** The response object the handlers write to, and the observable effects
    they have: cookie changes, redirects, outbound requests and the call of
    the app's `afterAuth` hook, recorded in the order they happen. */
module Http {
  import opened Types

  /** An ordered list of key/value pairs, as in a query string or a form body. */
  type Pairs = seq<(string, string)>

  function Keys(pairs: Pairs): (keys: seq<string>)
    ensures |keys| == |pairs|
    ensures forall i :: 0 <= i < |pairs| ==> keys[i] == pairs[i].0
  {
    seq(|pairs|, i requires 0 <= i < |pairs| => pairs[i].0)
  }

  /** The value of the first pair with the given key. */
  function Lookup(pairs: Pairs, key: string): (r: Option<string>) {
    if |pairs| == 0 then None
    else if pairs[0].0 == key then Some(pairs[0].1)
    else Lookup(pairs[1..], key)
  }

  /** A key that no earlier pair has is looked up to its own value. */
  lemma {:induction false} LookupAt(pairs: Pairs, i: nat)
    requires i < |pairs|
    requires forall j :: 0 <= j < i ==> pairs[j].0 != pairs[i].0
    ensures Lookup(pairs, pairs[i].0) == Some(pairs[i].1)
  {
    if i > 0 {
      assert pairs[1..][i - 1] == pairs[i];
      LookupAt(pairs[1..], i - 1);
    }
  }

  /** A key that no pair has is looked up to nothing. */
  lemma {:induction false} LookupAbsent(pairs: Pairs, key: string)
    requires forall j :: 0 <= j < |pairs| ==> pairs[j].0 != key
    ensures Lookup(pairs, key) == None
  {
    if |pairs| > 0 {
      assert forall j :: 0 <= j < |pairs| - 1 ==> pairs[1..][j] == pairs[j + 1];
      LookupAbsent(pairs[1..], key);
    }
  }

  /** Where a redirect points: a string taken as it is, or a prefix followed
      by the URL-encoded rendering of an ordered parameter list (what Node's
      `querystring.stringify` produces; the encoding itself is abstract). */
  datatype Location = Raw(url: string) | WithQuery(prefix: string, params: Pairs)

  /** A form-encoded POST (`Content-Type: application/x-www-form-urlencoded`). */
  datatype TokenRequest = TokenRequest(url: string, form: Pairs)

  /** What the token endpoint answers: its HTTP status and the `access_token`
      field of its JSON body. */
  datatype TokenResponse = TokenResponse(status: int, accessToken: string) {
    /** `Response.ok` of the Fetch API: a 2xx status. */
    predicate Ok() {
      200 <= status < 300
    }
  }

  /** A GET issued to check that a stored token still works. */
  datatype ProbeRequest = ProbeRequest(url: string, headers: Pairs, includeCredentials: bool)

  datatype Effect =
    | SetCookie(name: string, value: string)
    | DestroyCookie(name: string)
    /** A 302 with a `Location` header on the server, a navigation in the browser. */
    | Redirect(location: Location)
    | FetchAccessToken(request: TokenRequest)
    | FetchProbe(probe: ProbeRequest)
    | CallAfterAuth(shopOrigin: string, shopifyToken: string)

  predicate IsCookieEffect(e: Effect) {
    e.SetCookie? || e.DestroyCookie?
  }

  /** The response of one request: the status and JSON body written by
      `res.status(..).send(..)`, and the effects in the order they happened. */
  class Response {
    var status: Option<int>
    var body: Option<ErrorResponse>
    var effects: seq<Effect>

    constructor ()
      ensures status == None && body == None && effects == []
    {
      status, body, effects := None, None, [];
    }

    /** `res.status(code).send(error)`. */
    method Send(code: int, error: ErrorResponse)
      modifies this
      ensures status == Some(code) && body == Some(error)
      ensures effects == old(effects)
    {
      status, body := Some(code), Some(error);
    }

    /** A cookie change, a redirect, an outbound request or the hook call. */
    method Perform(e: Effect)
      modifies this
      ensures effects == old(effects) + [e]
      ensures status == old(status) && body == old(body)
    {
      effects := effects + [e];
    }
  }
}
