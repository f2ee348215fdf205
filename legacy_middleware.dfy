/**
 * The route guard of the single-page prototype: the user comes from the
 * `plugplayers-user` cookie, and each role has the path prefix of its portal.
 */
module LegacyMiddleware {
  import opened Wrappers
  import opened Text
  import opened Domain
  import opened Http

  /** The parsed cookie; only its role matters here, and it may hold any string. */
  datatype CookieUser = CookieUser(role: string)

  /** The names of the methods every object inherits from `Object.prototype`, besides `constructor`. */
  const InheritedMethods: seq<string> := [
    "hasOwnProperty", "isPrototypeOf", "propertyIsEnumerable", "toString", "toLocaleString", "valueOf",
    "__defineGetter__", "__defineSetter__", "__lookupGetter__", "__lookupSetter__"]

  /** A key that a plain object literal answers from `Object.prototype`. */
  predicate IsInheritedKey(role: string) {
    role == "__proto__" || role == "constructor" || role in InheritedMethods
  }

  /**
   * `roleRedirects[role]`, as the string `startsWith` and `new URL` turn it
   * into: the portal prefix of each known role; for an inherited key, the text
   * of the inherited value (`Object.prototype` prints as `[object Object]`, a
   * built-in function as its native-code source); nothing for any other string.
   */
  function RoleRedirect(role: string): Option<string> {
    if role == "ADMIN" then Some("/admin")
    else if role == "CLIENT_ADMIN" || role == "CLIENT_MEMBER" then Some("/client")
    else if role == "CANDIDATE" then Some("/candidate")
    else if IsInheritedKey(role) then Some(InheritedValue(role))
    else None
  }

  /** The source text a built-in function prints as. */
  function NativeSource(name: string): string {
    "function " + name + "() { [native code] }"
  }

  /** What an inherited member prints as: `Object.prototype` itself, the `Object` constructor, or a built-in method. */
  function InheritedValue(role: string): string
    requires IsInheritedKey(role)
  {
    if role == "__proto__" then "[object Object]"
    else if role == "constructor" then NativeSource("Object")
    else NativeSource(role)
  }

  /** The portal of each role of the application. */
  function Portal(r: Role): string {
    match r
    case Admin => "/admin"
    case ClientAdmin => "/client"
    case ClientMember => "/client"
    case Candidate => "/candidate"
  }

  /** One character of a URL path, percent-encoded where the URL standard's path percent-encode set asks for it. */
  function EncodeChar(c: char): string {
    if c == ' ' then "%20"
    else if c == '"' then "%22"
    else if c == '<' then "%3C"
    else if c == '>' then "%3E"
    else if c == '`' then "%60"
    else if c == '{' then "%7B"
    else if c == '}' then "%7D"
    else [c]
  }

  /** A path segment as it appears in a parsed URL. */
  function Encode(s: string): string {
    if s == [] then [] else Encode(s[..|s| - 1]) + EncodeChar(s[|s| - 1])
  }

  /** The directory of a path: everything up to and including its last `/`. */
  function Dir(pathname: string): string {
    if pathname == [] then "/"
    else if pathname[|pathname| - 1] == '/' then pathname
    else Dir(pathname[..|pathname| - 1])
  }

  /**
   * The path of `new URL(location, request.url)` for a request to `pathname`:
   * an absolute path is kept, a relative one replaces the last segment of the
   * request's path.
   */
  function Resolve(pathname: string, location: string): string {
    if StartsWith(location, "/") then Encode(location) else Dir(pathname) + Encode(location)
  }

  /** A character the path percent-encode set leaves alone. */
  predicate Plain(c: char) {
    EncodeChar(c) == [c]
  }

  /** Encoding keeps a segment free of `/`, and keeps its `[`. */
  lemma {:induction false} EncodeSegment(s: string)
    requires '/' !in s
    ensures '/' !in Encode(s)
    ensures '[' in s ==> '[' in Encode(s)
  {
    if s != [] {
      var init := s[..|s| - 1];
      assert s == init + [s[|s| - 1]];
      EncodeSegment(init);
    }
  }

  lemma {:induction false} EncodePlain(s: string)
    requires forall k :: 0 <= k < |s| ==> Plain(s[k])
    ensures Encode(s) == s
  {
    if s != [] {
      EncodePlain(s[..|s| - 1]);
    }
  }

  lemma {:induction false} DirOfSegment(dir: string, segment: string)
    requires dir != [] && dir[|dir| - 1] == '/'
    requires '/' !in segment
    ensures Dir(dir + segment) == dir
    decreases |segment|
  {
    if segment != [] {
      assert (dir + segment)[..|dir + segment| - 1] == dir + segment[..|segment| - 1];
      assert segment == segment[..|segment| - 1] + [segment[|segment| - 1]];
      DirOfSegment(dir, segment[..|segment| - 1]);
    } else {
      assert dir + segment == dir;
    }
  }

  /** The paths an anonymous visitor is sent to log in for. */
  predicate NeedsLogin(pathname: string) {
    StartsWith(pathname, "/admin") || StartsWith(pathname, "/client") ||
    StartsWith(pathname, "/candidate") || pathname == "/dashboard"
  }

  /** `middleware`: the response for a request to `pathname` with the cookie's user, if any. */
  function Decide(user: Option<CookieUser>, pathname: string): Response {
    if user.None? && NeedsLogin(pathname) then Redirect("/login")
    else if user.Some? then
      if pathname == "/login" || pathname == "/register" then Redirect("/dashboard")
      else match RoleRedirect(user.value.role)
        case Some(requiredPrefix) =>
          if !StartsWith(pathname, requiredPrefix) then
            if pathname == "/dashboard" then Next else Redirect(Resolve(pathname, requiredPrefix))
          else Next
        case None => Next
    else Next
  }

  /** Each role of the application has its portal: ADMIN the admin portal, both client roles the client portal, CANDIDATE the candidate portal. */
  lemma RoleRedirectTable(r: Role)
    ensures RoleRedirect(RoleName(r)) == Some(Portal(r))
    ensures IsClientRole(r) <==> Portal(r) == "/client"
    ensures !IsInheritedKey(RoleName(r))
  {
    ClientRoles(r);
  }

  /** A visitor without a cookie is sent to log in exactly on the portal paths and the dashboard; every other path passes. */
  lemma AnonymousAccess(pathname: string)
    ensures NeedsLogin(pathname) ==> Decide(None, pathname) == Redirect("/login")
    ensures !NeedsLogin(pathname) ==> Decide(None, pathname) == Next
  {
  }

  /** A logged-in user asking for the login or the registration page is sent to the dashboard, whatever the role. */
  lemma LoggedInSkipsLogin(user: CookieUser, pathname: string)
    requires pathname == "/login" || pathname == "/register"
    ensures Decide(Some(user), pathname) == Redirect("/dashboard")
  {
  }

  /** A portal prefix is its own location. */
  lemma PortalResolves(prefix: string, pathname: string)
    requires prefix in {"/admin", "/client", "/candidate"}
    ensures Resolve(pathname, prefix) == prefix
  {
    assert prefix[..1] == "/";
    EncodePlain(prefix);
  }

  /** The role gate: a user of the application passes exactly on the paths under its portal and on the dashboard, and is sent to the portal otherwise. */
  lemma RoleGate(r: Role, pathname: string)
    requires pathname != "/login" && pathname != "/register"
    ensures Decide(Some(CookieUser(RoleName(r))), pathname) == Next <==> StartsWith(pathname, Portal(r)) || pathname == "/dashboard"
    ensures Decide(Some(CookieUser(RoleName(r))), pathname) != Next ==> Decide(Some(CookieUser(RoleName(r))), pathname) == Redirect(Portal(r))
  {
    RoleRedirectTable(r);
    PortalResolves(Portal(r), pathname);
  }

  /** A logged-in user whose role is neither a role of the application nor an inherited key is only turned away from the login and registration pages. */
  lemma UnknownRolePasses(user: CookieUser, pathname: string)
    requires RoleRedirect(user.role).None?
    requires pathname != "/login" && pathname != "/register"
    ensures Decide(Some(user), pathname) == Next
  {
  }

  /** An inherited key is none of the roles of the application (theirs start with a capital letter). */
  lemma InheritedLookup(role: string)
    requires IsInheritedKey(role)
    ensures RoleRedirect(role) == Some(InheritedValue(role))
  {
    assert role[0] != 'A' && role[0] != 'C';
  }

  lemma MethodNamesHaveNoSlash()
    ensures forall m :: m in InheritedMethods ==> '/' !in m
  {
  }

  lemma NativeSourceShape(name: string)
    requires '/' !in name
    ensures NativeSource(name)[0] == 'f'
    ensures '[' in NativeSource(name) && '/' !in NativeSource(name)
  {
    var tail := "() { [native code] }";
    assert NativeSource(name) == "function " + (name + tail);
    assert '[' == tail[5];
  }

  /** What an inherited key looks up is not a path: it does not start with `/`, holds no `/` at all, and holds a `[`. */
  lemma InheritedValueShape(role: string)
    requires IsInheritedKey(role)
    ensures InheritedValue(role) != [] && InheritedValue(role)[0] != '/'
    ensures '[' in InheritedValue(role) && '/' !in InheritedValue(role)
  {
    if role == "__proto__" {
      assert "[object Object]"[0] == '[';
    } else if role == "constructor" {
      NativeSourceShape("Object");
    } else {
      MethodNamesHaveNoSlash();
      NativeSourceShape(role);
    }
  }

  /** The role gate for whatever text the lookup gives: a path that does not start with it, other than the dashboard, is sent to it. */
  lemma GateRedirects(user: CookieUser, pathname: string, text: string)
    requires RoleRedirect(user.role) == Some(text)
    requires pathname != "/login" && pathname != "/register" && pathname != "/dashboard"
    requires !StartsWith(pathname, text)
    ensures Decide(Some(user), pathname) == Redirect(Resolve(pathname, text))
  {
  }

  /**
   * A role naming an inherited member passes only on the dashboard: on every
   * other path it is sent to a page beside the requested one, named after the
   * inherited value.
   */
  lemma InheritedRoleRedirects(user: CookieUser, pathname: string)
    requires IsInheritedKey(user.role)
    requires StartsWith(pathname, "/") && pathname != "/login" && pathname != "/register" && pathname != "/dashboard"
    ensures Decide(Some(user), pathname) == Redirect(Dir(pathname) + Encode(InheritedValue(user.role)))
  {
    InheritedLookup(user.role);
    InheritedValueShape(user.role);
    var text := InheritedValue(user.role);
    assert pathname[0] == '/';
    assert !StartsWith(pathname, text) && !StartsWith(text, "/");
    GateRedirects(user, pathname, text);
  }

  lemma NoBracketPages(page: string)
    requires '[' in page
    ensures page != "/login" && page != "/register" && page != "/dashboard"
  {
  }

  /**
   * Every inherited key loops: the page a request is sent to, in any
   * directory, is sent to itself again. With `__proto__` in `/admin/` that page
   * is `/admin/[object%20Object]`.
   */
  lemma InheritedRoleLoops(user: CookieUser, dir: string)
    requires IsInheritedKey(user.role)
    requires StartsWith(dir, "/") && dir[|dir| - 1] == '/'
    ensures var page := dir + Encode(InheritedValue(user.role));
            Decide(Some(user), page) == Redirect(page)
  {
    InheritedValueShape(user.role);
    var text := InheritedValue(user.role);
    EncodeSegment(text);
    var page := dir + Encode(text);
    assert page[..1] == dir[..1];
    assert '[' in page;
    NoBracketPages(page);
    InheritedRoleRedirects(user, page);
    DirOfSegment(dir, Encode(text));
  }

  lemma PortalIsOwnPrefix(prefix: string)
    requires prefix in {"/admin", "/client", "/candidate"}
    ensures StartsWith(prefix, prefix)
    ensures prefix != "/login" && prefix != "/register" && prefix != "/dashboard"
  {
    assert prefix[1] != "/login"[1] && prefix[1] != "/register"[1] && prefix[1] != "/dashboard"[1];
  }

  lemma LoginPageIsOpen()
    ensures !NeedsLogin("/login")
  {
    assert "/login"[1] != "/admin"[1] && "/login"[1] != "/client"[1] && "/login"[1] != "/candidate"[1];
  }

  /**
   * Redirects settle: requesting the target of a redirect, with the same
   * cookie, is let through, unless the role names an inherited member (see
   * `InheritedRoleLoops`).
   */
  lemma RedirectSettles(user: Option<CookieUser>, pathname: string, target: string)
    requires user.Some? ==> !IsInheritedKey(user.value.role)
    requires Decide(user, pathname) == Redirect(target)
    ensures Decide(user, target) == Next
  {
    if user.None? {
      LoginPageIsOpen();
    } else if target != "/dashboard" {
      var prefix := RoleRedirect(user.value.role).value;
      PortalResolves(prefix, pathname);
      PortalIsOwnPrefix(prefix);
    }
  }

  /** No request is redirected to itself, unless the role names an inherited member (see `InheritedRoleLoops`). */
  lemma NoSelfRedirect(user: Option<CookieUser>, pathname: string)
    requires user.Some? ==> !IsInheritedKey(user.value.role)
    ensures Decide(user, pathname) != Redirect(pathname)
  {
    if Decide(user, pathname) == Redirect(pathname) {
      RedirectSettles(user, pathname, pathname);
    }
  }
}
