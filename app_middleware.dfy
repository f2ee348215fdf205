/**
 * The route guard of the application: a session user's role gates the
 * admin, client and job-seeker areas.
 */
module AppMiddleware {
  import opened Wrappers
  import opened Text
  import opened Seqs
  import opened Http

  /** `session?.user`, of which only the role is read. */
  datatype SessionUser = SessionUser(role: string)

  const ProtectedPaths: seq<string> := ["/admin", "/client", "/jobseeker"]

  /** `p => url.pathname.startsWith(p)`. */
  function PrefixOf(pathname: string): string -> bool {
    (p: string) => StartsWith(pathname, p)
  }

  /** `protectedPaths.some(...)`. */
  predicate IsProtected(pathname: string) {
    Any(ProtectedPaths, PrefixOf(pathname))
  }

  /** `middleware`: the response for a request to `pathname` with the session's user, if any. */
  function Decide(user: Option<SessionUser>, pathname: string): Response {
    if !IsProtected(pathname) then Next
    else if user.None? then Redirect("/signin")
    else if StartsWith(pathname, "/admin") && user.value.role != "ADMIN" then Redirect("/")
    else if StartsWith(pathname, "/client") && user.value.role != "CLIENT" && user.value.role != "ADMIN" then Redirect("/")
    else if StartsWith(pathname, "/jobseeker") && user.value.role != "JOBSEEKER" && user.value.role != "ADMIN" then Redirect("/")
    else Next
  }

  /** A path is protected exactly when it starts with one of the three area prefixes. */
  lemma ProtectedExactly(pathname: string)
    ensures IsProtected(pathname) <==>
      StartsWith(pathname, "/admin") || StartsWith(pathname, "/client") || StartsWith(pathname, "/jobseeker")
  {
    if StartsWith(pathname, "/admin") {
      assert PrefixOf(pathname)(ProtectedPaths[0]);
    } else if StartsWith(pathname, "/client") {
      assert PrefixOf(pathname)(ProtectedPaths[1]);
    } else if StartsWith(pathname, "/jobseeker") {
      assert PrefixOf(pathname)(ProtectedPaths[2]);
    }
  }

  /** Outside the three areas every request passes, signed in or not. */
  lemma UnprotectedPasses(user: Option<SessionUser>, pathname: string)
    requires !StartsWith(pathname, "/admin") && !StartsWith(pathname, "/client") && !StartsWith(pathname, "/jobseeker")
    ensures Decide(user, pathname) == Next
  {
    ProtectedExactly(pathname);
  }

  /** Inside the areas, a request without a session user is sent to sign in. */
  lemma ProtectedNeedsSignIn(pathname: string)
    requires StartsWith(pathname, "/admin") || StartsWith(pathname, "/client") || StartsWith(pathname, "/jobseeker")
    ensures Decide(None, pathname) == Redirect("/signin")
  {
    ProtectedExactly(pathname);
  }

  /** The role gates: a signed-in request passes exactly when every area it falls under admits the role (ADMIN everywhere, CLIENT the client area, JOBSEEKER the job-seeker area); otherwise it is sent home. */
  lemma RoleGates(user: SessionUser, pathname: string)
    ensures Decide(Some(user), pathname) == Next <==>
      (StartsWith(pathname, "/admin") ==> user.role == "ADMIN") &&
      (StartsWith(pathname, "/client") ==> user.role == "CLIENT" || user.role == "ADMIN") &&
      (StartsWith(pathname, "/jobseeker") ==> user.role == "JOBSEEKER" || user.role == "ADMIN")
    ensures Decide(Some(user), pathname) != Next ==> Decide(Some(user), pathname) == Redirect("/")
  {
    ProtectedExactly(pathname);
  }

  /** A signed-in ADMIN is never redirected. */
  lemma AdminNeverRedirected(pathname: string)
    ensures Decide(Some(SessionUser("ADMIN")), pathname) == Next
  {
    RoleGates(SessionUser("ADMIN"), pathname);
  }

  /** Both redirect targets lie outside the areas, so following a redirect is let through. */
  lemma RedirectSettles(user: Option<SessionUser>, pathname: string, target: string)
    requires Decide(user, pathname) == Redirect(target)
    ensures Decide(user, target) == Next
  {
    assert target == "/signin" || target == "/";
    assert "/signin"[1] != "/admin"[1] && "/signin"[1] != "/client"[1] && "/signin"[1] != "/jobseeker"[1];
    UnprotectedPasses(user, target);
  }
}
