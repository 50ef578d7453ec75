/**
 * The route guard that runs before the admin and account pages: a request
 * without an `auth_token` cookie is sent to the login page with `from` set to
 * the requested path, a token that does not verify or carries no string role
 * is sent to the login page and the cookie deleted, a non-admin on an admin
 * path is sent home, and everything else passes. Token verification is a
 * foreign call; its result is an input here.
 */
module Middleware {
  import opened Wrappers

  /** The `role` claim of a verified token: a string, or anything else (absent included). */
  datatype Claim = RoleString(role: string) | RoleOther

  /** What `jwtVerify` gives: the payload's role claim, or a throw. */
  datatype VerifyResult = Verified(claim: Claim) | VerifyFailed

  datatype Decision =
    | Pass
      /** Redirect to `/login`, with `from` when present, deleting `auth_token` when `clearToken`. */
    | RedirectLogin(from: Option<string>, clearToken: bool)
      /** Redirect to `/`. */
    | RedirectHome

  const AdminRole := "admin"

  predicate StartsWith(s: string, prefix: string)
  {
    |prefix| <= |s| && s[..|prefix|] == prefix
  }

  /** `pathname.startsWith('/admin')`: a plain prefix test, not a segment test. */
  predicate IsAdminPath(pathname: string)
    ensures IsAdminPath(pathname) ==> |pathname| >= 6 && pathname[0] == '/' && pathname[1] == 'a'
    ensures pathname == "/admin" ==> IsAdminPath(pathname)
  {
    StartsWith(pathname, "/admin")
  }

  /**
   * The decision for a request with cookie value `token` on `pathname`;
   * `verify` is what verifying that token gives (it is not consulted when
   * there is no token).
   */
  function Decide(token: Option<string>, verify: VerifyResult, pathname: string): (d: Decision)
    ensures (token.None? || token.value == "") <==> d == RedirectLogin(Some(pathname), false)
    ensures d == RedirectLogin(None, true) <==>
      token.Some? && token.value != "" && (verify.VerifyFailed? || verify.claim.RoleOther?)
    ensures d == RedirectHome <==>
      token.Some? && token.value != "" && verify.Verified? && verify.claim.RoleString? &&
      IsAdminPath(pathname) && verify.claim.role != AdminRole
    ensures d == Pass <==>
      token.Some? && token.value != "" && verify.Verified? && verify.claim.RoleString? &&
      (IsAdminPath(pathname) ==> verify.claim.role == AdminRole)
  {
    if token.None? || token.value == "" then RedirectLogin(Some(pathname), false)
    else if verify.VerifyFailed? || verify.claim.RoleOther? then RedirectLogin(None, true)
    else if IsAdminPath(pathname) && verify.claim.role != AdminRole then RedirectHome
    else Pass
  }

  /** `config.matcher`: `/admin/:path*` and `/account/:path*`, that is the
      section itself or anything below it. */
  predicate Matched(pathname: string)
    ensures Matched(pathname) ==> StartsWith(pathname, "/admin") || StartsWith(pathname, "/account")
  {
    PrefixOfPrefix(pathname, "/admin", "/admin/");
    PrefixOfPrefix(pathname, "/account", "/account/");
    pathname == "/admin" || StartsWith(pathname, "/admin/") ||
    pathname == "/account" || StartsWith(pathname, "/account/")
  }

  lemma PrefixOfPrefix(s: string, p: string, q: string)
    requires StartsWith(q, p)
    ensures StartsWith(s, q) ==> StartsWith(s, p)
  {
    if StartsWith(s, q) {
      assert s[..|p|] == s[..|q|][..|p|];
    }
  }

  /** The matcher takes whole path segments: `/administrator` is not guarded
      although it starts with `/admin`, and neither is `/`. */
  lemma MatcherSegments()
    ensures Matched("/admin") && Matched("/admin/products") && Matched("/account/orders")
    ensures !Matched("/administrator") && IsAdminPath("/administrator")
    ensures !Matched("/") && !Matched("/login")
  {
    assert "/admin/products"[..7] == "/admin/";
    assert "/account/orders"[..9] == "/account/";
    assert "/administrator"[..7] != "/admin/" by {
      assert "/administrator"[6] == 'i';
    }
    assert "/administrator"[..8] != "/account" by {
      assert "/administrator"[2] == 'd';
    }
    assert "/administrator"[..6] == "/admin";
  }

  /** The guard as deployed: paths outside the matcher are not inspected. */
  function Guard(token: Option<string>, verify: VerifyResult, pathname: string): (d: Decision)
    ensures !Matched(pathname) ==> d == Pass
    ensures Matched(pathname) ==> d == Decide(token, verify, pathname)
  {
    if Matched(pathname) then Decide(token, verify, pathname) else Pass
  }

  /** Every guarded path starting with `/admin` lets through only a verified admin. */
  lemma AdminAreaNeedsAdmin(token: Option<string>, verify: VerifyResult, pathname: string)
    requires Matched(pathname) && IsAdminPath(pathname)
    ensures Guard(token, verify, pathname) == Pass <==>
      token.Some? && token.value != "" && verify == Verified(RoleString(AdminRole))
  {
  }

  /** On a guarded path outside the admin section (the account pages) a
      verified token with a string role passes, and nothing else does. */
  lemma AccountAreaNeedsLogin(token: Option<string>, verify: VerifyResult, pathname: string)
    requires Matched(pathname) && !IsAdminPath(pathname)
    ensures Guard(token, verify, pathname) == Pass <==>
      token.Some? && token.value != "" && verify.Verified? && verify.claim.RoleString?
  {
  }

  /** Among guarded paths, the `/admin` prefix test picks out exactly the
      admin section, so the account pages never need the admin role. */
  lemma MatchedSections(pathname: string)
    requires Matched(pathname)
    ensures IsAdminPath(pathname) <==> (pathname == "/admin" || StartsWith(pathname, "/admin/"))
  {
    if StartsWith(pathname, "/account/") || pathname == "/account" {
      assert pathname[..6] != "/admin" by {
        assert pathname[2] == 'c';
      }
    }
    if StartsWith(pathname, "/admin/") {
      assert pathname[..6] == pathname[..7][..6];
    }
  }
}
