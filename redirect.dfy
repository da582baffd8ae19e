/** The return route of the payment form: it picks the payment-intent id and
    the redirect status out of the query, redirects to the confirmation page and
    remembers each non-empty value in a short-lived cookie. */
module Redirect {
  import opened Common

  /** The query string as its (name, value) pairs, in order. */
  type Query = seq<(string, string)>

  /** `searchParams.get(name)`: the first value for `name`, or null. */
  function Get(q: Query, name: string): (r: Option<string>)
    ensures r.Some? <==> exists i :: 0 <= i < |q| && q[i].0 == name
    ensures r.Some? ==> exists i :: 0 <= i < |q| && q[i] == (name, r.value)
                           && forall j :: 0 <= j < i ==> q[j].0 != name
  {
    if q == [] then None
    else if q[0].0 == name then Some(q[0].1)
    else
      var r := Get(q[1..], name);
      assert forall i :: 1 <= i < |q| ==> q[i] == q[1..][i - 1];
      r
  }

  /** `get("payment_intent") || get("pi") || ""` */
  function PiParam(q: Query): (r: string)
    ensures Truthy(Get(q, "payment_intent")) ==> r == Get(q, "payment_intent").value
    ensures !Truthy(Get(q, "payment_intent")) ==> r == OrElse(Get(q, "pi"), "")
  {
    OrElse(Get(q, "payment_intent"), OrElse(Get(q, "pi"), ""))
  }

  /** `get("redirect_status") || ""` */
  function StatusParam(q: Query): string {
    OrElse(Get(q, "redirect_status"), "")
  }

  const CONFIRMATION_PATH: string := "/checkout/confirmation"
  const PI_COOKIE: string := "last_pi"
  const STATUS_COOKIE: string := "last_redirect_status"

  datatype CookieOptions = CookieOptions(httpOnly: bool, secure: bool, sameSite: string, maxAge: int, path: string)

  /** Both cookies: server-only, HTTPS-only, lax, for the whole site, for half an hour. */
  const REDIRECT_COOKIE: CookieOptions := CookieOptions(true, true, "lax", 60 * 30, "/")

  datatype Cookie = Cookie(value: string, options: CookieOptions)

  /** The redirect response and its cookie jar. */
  class RedirectResponse {
    const location: string
    var cookies: map<string, Cookie>

    constructor(location: string)
      ensures this.location == location && cookies == map[]
    {
      this.location := location;
      cookies := map[];
    }

    /** `res.cookies.set(name, value, options)` */
    method Set(name: string, value: string, options: CookieOptions)
      modifies this
      ensures cookies == old(cookies)[name := Cookie(value, options)]
    {
      cookies := cookies[name := Cookie(value, options)];
    }
  }

  /** `GET`: always the confirmation page; a cookie for the id exactly when there
      is one, and for the status exactly when there is one, both with the same
      options; no other cookie. */
  method HandleGet(q: Query) returns (res: RedirectResponse)
    ensures fresh(res) && res.location == CONFIRMATION_PATH
    ensures PI_COOKIE in res.cookies <==> PiParam(q) != ""
    ensures PI_COOKIE in res.cookies ==> res.cookies[PI_COOKIE] == Cookie(PiParam(q), REDIRECT_COOKIE)
    ensures STATUS_COOKIE in res.cookies <==> StatusParam(q) != ""
    ensures STATUS_COOKIE in res.cookies ==> res.cookies[STATUS_COOKIE] == Cookie(StatusParam(q), REDIRECT_COOKIE)
    ensures res.cookies.Keys <= {PI_COOKIE, STATUS_COOKIE}
  {
    var pi := PiParam(q);
    var redirectStatus := StatusParam(q);
    res := new RedirectResponse(CONFIRMATION_PATH);
    if pi != "" {
      res.Set(PI_COOKIE, pi, REDIRECT_COOKIE);
    }
    if redirectStatus != "" {
      res.Set(STATUS_COOKIE, redirectStatus, REDIRECT_COOKIE);
    }
  }

  /** The id falls back to `pi` only when `payment_intent` is missing or empty. */
  lemma PiFallback(id: string, other: string)
    ensures PiParam([("pi", other), ("payment_intent", id)]) == if id != "" then id else other
    ensures PiParam([("payment_intent", ""), ("payment_intent", id)]) == ""
  {
    var q := [("pi", other), ("payment_intent", id)];
    assert q[1..] == [("payment_intent", id)];
    assert Get(q, "payment_intent") == Some(id);
    assert Get(q, "pi") == Some(other);
    var q2 := [("payment_intent", ""), ("payment_intent", id)];
    assert q2[1..][1..] == [];
    assert Get(q2, "pi") == None;
  }
}
