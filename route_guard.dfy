/** The client route guard (client/src/components/ProtectedRoute.jsx): with
    no token, go to the login page; on an admin-only route, decode the token
    and send non-admins home, dropping a token that does not decode; else
    render the protected page. The JWT decoder is a parameter. */
module RouteGuard {
  import opened Common

  /** The `user` claim of a decoded token, when there is one. */
  datatype ClaimsUser = ClaimsUser(role: Option<string>)
  datatype Claims = Claims(user: Option<ClaimsUser>)

  datatype Navigation = RedirectToLogin | RedirectToHome | RenderChildren

  /** Where to go, and whether the stored token is removed. */
  datatype Verdict = Verdict(nav: Navigation, removeToken: bool)

  /** `if (!token)`: a missing token and an empty string are both falsy. */
  predicate HasToken(token: Option<string>) {
    token.Some? && token.value != ""
  }

  /** `decoded.user && decoded.user.role === 'admin'`. */
  predicate ClaimsAdmin(c: Claims) {
    c.user.Some? && c.user.value.role == Some("admin")
  }

  /** The decision table. `decode` answers `None` where `jwtDecode` throws. */
  function Guard(token: Option<string>, adminOnly: bool, decode: string -> Option<Claims>): (v: Verdict)
    ensures !HasToken(token) ==> v.nav == RedirectToLogin
    ensures HasToken(token) && !adminOnly ==> v.nav == RenderChildren
    ensures v.nav == RenderChildren <==>
      HasToken(token) && (adminOnly ==> decode(token.value).Some? && ClaimsAdmin(decode(token.value).value))
    ensures v.nav == RedirectToHome <==>
      HasToken(token) && adminOnly && decode(token.value).Some? && !ClaimsAdmin(decode(token.value).value)
    ensures v.removeToken <==> HasToken(token) && adminOnly && decode(token.value).None?
    ensures v.removeToken ==> v.nav == RedirectToLogin
  {
    if !HasToken(token) then Verdict(RedirectToLogin, false)
    else if !adminOnly then Verdict(RenderChildren, false)
    else
      match decode(token.value)
      case None => Verdict(RedirectToLogin, true)
      case Some(c) => if ClaimsAdmin(c) then Verdict(RenderChildren, false) else Verdict(RedirectToHome, false)
  }

  /** A route that is not admin-only never looks inside the token: any two
      decoders give the same verdict. */
  lemma PlainRouteIgnoresDecoder(token: Option<string>, d1: string -> Option<Claims>, d2: string -> Option<Claims>)
    ensures Guard(token, false, d1) == Guard(token, false, d2)
  {
  }

  /** The browser's `localStorage` entry `token`. */
  class TokenStorage {
    var token: Option<string>

    constructor (initial: Option<string>)
      ensures token == initial
    {
      token := initial;
    }

    /** `ProtectedRoute`: decide, and on a token that fails to decode remove it. */
    method ProtectedRoute(adminOnly: bool, decode: string -> Option<Claims>) returns (nav: Navigation)
      modifies this
      ensures nav == Guard(old(token), adminOnly, decode).nav
      ensures token == if Guard(old(token), adminOnly, decode).removeToken then None else old(token)
    {
      if !HasToken(token) {
        return RedirectToLogin;
      }
      if adminOnly {
        var decoded := decode(token.value);
        match decoded
        case None =>
          token := None;
          return RedirectToLogin;
        case Some(c) =>
          if !ClaimsAdmin(c) {
            return RedirectToHome;
          }
      }
      nav := RenderChildren;
    }
  }
}
