/** The route guard wrapped around protected views: it renders its
    children, or redirects to `/login` or to `/unauthorized`. */
module Guard {
  import opened Common
  import Session

  datatype Route = Render | ToLogin | ToUnauthorized

  /** The guard's decision: the authentication check first, then the role
      check against `allowedRoles` (`Array.prototype.includes`). */
  function Decide(auth: bool, role: string, allowedRoles: seq<string>): (r: Route)
    ensures r == ToLogin <==> !auth
    ensures r == ToUnauthorized <==> auth && role !in allowedRoles
    ensures r == Render <==> auth && role in allowedRoles
  {
    if !auth then ToLogin
    else if role !in allowedRoles then ToUnauthorized
    else Render
  }

  /** The decision of the guard for the session's current user. */
  function DecideFor(u: Session.User, allowedRoles: seq<string>): Route {
    Decide(u.auth, u.role, allowedRoles)
  }

  /** Only the set of allowed roles matters: order and repetition in
      `allowedRoles` do not. */
  lemma {:induction false} DecideDependsOnRoleSet(auth: bool, role: string, a: seq<string>, b: seq<string>)
    requires (set x | x in a) == (set x | x in b)
    ensures Decide(auth, role, a) == Decide(auth, role, b)
  {
    var sa, sb := set x | x in a, set x | x in b;
    if role in a {
      assert role in sa;
    }
    if role in b {
      assert role in sb;
    }
  }

  /** Allowing more roles never turns a rendered view into a redirect, and
      never changes a redirect to `/login`. */
  lemma WideningRolesOnlyGrantsAccess(auth: bool, role: string, a: seq<string>, extra: seq<string>)
    ensures Decide(auth, role, a) == Render ==> Decide(auth, role, a + extra) == Render
    ensures Decide(auth, role, a) == ToLogin <==> Decide(auth, role, a + extra) == ToLogin
  {
  }

  /** After `logout` every protected view redirects to `/login`, whatever
      roles it allows. */
  lemma LoggedOutIsSentToLogin(s: Session.Store, allowedRoles: seq<string>)
    ensures DecideFor(Session.LoggedOut(s).user, allowedRoles) == ToLogin
  {
  }

  /** After a successful registration or login the guard renders exactly the
      views whose allowed roles include the returned role. */
  lemma SignedInRendersPermittedViews(s: Session.Store, req: Session.Request, d: Session.Identity, t: string, allowedRoles: seq<string>)
    ensures var u := Session.Settled(s, req, Session.Ok(d, t)).user;
      DecideFor(u, allowedRoles) == (if d.role in allowedRoles then Render else ToUnauthorized)
  {
    var u := Session.Settled(s, req, Session.Ok(d, t)).user;
    assert Session.IdentityOf(u) == Some(d);
  }
}
