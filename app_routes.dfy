/**
  The front end's token check and the route guards built on it. A token passes
  the structural check when it splits into three dot-separated segments; its
  payload segment is turned from base64url into base64 and decoded. Decoding
  (`atob`, `decodeURIComponent`, `JSON.parse`) is a parameter that yields the
  payload's `exp`, or `None` when any step throws or `exp` is not coercible to a number.
 */
module AppRoutes {
  import opened Common

  /** `s.split(sep)`: the pieces between separators, one more than there are
      separators. */
  function Split(s: string, sep: char): (parts: seq<string>)
    ensures |parts| >= 1
  {
    if s == [] then [""]
    else
      var rest := Split(s[1..], sep);
      if s[0] == sep then [""] + rest else [[s[0]] + rest[0]] + rest[1..]
  }

  lemma {:induction false} SplitCount(s: string, sep: char)
    ensures |Split(s, sep)| == multiset(s)[sep] + 1
  {
    if s != [] {
      SplitCount(s[1..], sep);
      assert s == [s[0]] + s[1..];
    }
  }

  /** `!token.includes('.') || token.split('.').length !== 3`, negated. */
  predicate WellShaped(token: string) {
    '.' in token && |Split(token, '.')| == 3
  }

  /** The structural check accepts exactly the tokens with two dots; the
      `includes('.')` half adds nothing to the split test. */
  lemma WellShapedIffTwoDots(token: string)
    ensures WellShaped(token) <==> multiset(token)['.'] == 2
    ensures |Split(token, '.')| == 3 ==> '.' in token
  {
    SplitCount(token, '.');
  }

  /** `.replace(/-/g, '+').replace(/_/g, '/')` */
  function Base64UrlToBase64(s: string): (r: string)
    ensures |r| == |s|
    ensures forall i :: 0 <= i < |s| ==> r[i] == (if s[i] == '-' then '+' else if s[i] == '_' then '/' else s[i])
    ensures '-' !in r && '_' !in r
  {
    seq(|s|, i requires 0 <= i < |s| => if s[i] == '-' then '+' else if s[i] == '_' then '/' else s[i])
  }

  /** `isTokenValid`. `token` is what `localStorage` holds, `now` is `Date.now()`. */
  function IsTokenValid(token: Option<string>, now: real, decodeExp: string -> Option<real>): (valid: bool)
    ensures token.None? || token.value == "" ==> !valid
    ensures valid ==> multiset(token.value)['.'] == 2
    ensures valid <==>
      && token.Some? && WellShaped(token.value)
      && var exp := decodeExp(Base64UrlToBase64(Split(token.value, '.')[1]));
         exp.Some? && exp.value * 1000.0 > now
  {
    WellShapedIffTwoDots(if token.Some? then token.value else "");
    if token.None? || token.value == "" then false
    else if !WellShaped(token.value) then false
    else
      match decodeExp(Base64UrlToBase64(Split(token.value, '.')[1]))
      case None => false
      case Some(exp) => exp * 1000.0 > now
  }

  datatype Screen = Render | RedirectTo(path: string)

  /** `ProtectedRoute`: the guarded page, or a redirect to the login page. */
  function ProtectedRoute(valid: bool): (s: Screen)
    ensures s == Render <==> valid
    ensures !valid ==> s == RedirectTo("/login")
  {
    if valid then Render else RedirectTo("/login")
  }

  /** `PublicRoute`: the login or registration page, unless already signed in. */
  function PublicRoute(valid: bool): (s: Screen)
    ensures s == RedirectTo("/dashboard") <==> valid
    ensures !valid ==> s == Render
  {
    if valid then RedirectTo("/dashboard") else Render
  }

  /** The screen for a path; `/` and every unknown path redirect by the token. */
  function Route(path: string, valid: bool): (s: Screen)
    ensures path !in {"/login", "/register", "/dashboard", "/budget-summary"} ==>
      s == RedirectTo(if valid then "/dashboard" else "/login")
  {
    match path
    case "/login" => PublicRoute(valid)
    case "/register" => PublicRoute(valid)
    case "/dashboard" => ProtectedRoute(valid)
    case "/budget-summary" => ProtectedRoute(valid)
    case _ => RedirectTo(if valid then "/dashboard" else "/login")
  }

  /** Every redirect lands on a page that renders for the same token, so no path
      bounces more than once. */
  lemma RedirectsSettle(path: string, valid: bool)
    ensures Route(path, valid).RedirectTo? ==> Route(Route(path, valid).path, valid) == Render
  {
  }

  /** The guarded pages render exactly when the token is valid, and the public ones
      exactly when it is not. */
  lemma GuardsAreComplementary(valid: bool)
    ensures Route("/dashboard", valid) == Render <==> valid
    ensures Route("/login", valid) == Render <==> !valid
    ensures Route("/budget-summary", valid) == Route("/dashboard", valid)
    ensures Route("/register", valid) == Route("/login", valid)
  {
  }
}
