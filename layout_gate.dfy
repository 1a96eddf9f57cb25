/**
 * The layout-level authorization gate that runs before every page: it looks
 * at the current session and the requested path and either redirects or lets
 * the navigation through, handing the session to the pages.
 */
module LayoutGate {
  import opened Wrappers
  import opened Navigation

  /**
   * An authenticated session, issued by the external auth service. The gate
   * never looks inside it; only whether one is present matters.
   */
  datatype Session = Session(userId: string, accessToken: string)

  /** The data the layout hands to its pages: `{ session }`. */
  datatype LayoutData = LayoutData(session: Option<Session>)

  /** 303 See Other, the status of both of the gate's redirects. */
  const SeeOther: int := 303
  const Home: string := "/"
  const Login: string := "/auth/login"
  const Register: string := "/auth/register"

  /** Paths an anonymous visitor may open. */
  const PublicRoutes: seq<string> := [Home, Login, Register]

  /** Pages a signed-in visitor is sent away from. */
  const AuthPages: seq<string> := [Login, Register]

  /** Declared as staff-only, but never consulted by the gate. */
  const StaffRoutes: seq<string> := ["/admin", "/organizations", "/tournaments/create", "/leagues/create"]

  /** Whether `path` is one of the public routes: exact equality, no prefix matching. */
  function IsPublic(path: string): (r: bool)
    ensures r <==> path == "/" || path == "/auth/login" || path == "/auth/register"
  {
    Includes(PublicRoutes, path)
  }

  /** Whether `path` is the sign-in or sign-up page, by exact string equality. */
  function IsAuthPage(path: string): (r: bool)
    ensures r <==> path == "/auth/login" || path == "/auth/register"
    ensures r ==> IsPublic(path)
  {
    Includes(AuthPages, path)
  }

  /**
   * The layout's `load`: no session on a non-public path sends the visitor to
   * the login page; a session on an auth page sends them home; anything else
   * passes and exposes the session unchanged.
   */
  function Gate(session: Option<Session>, path: string): (r: Outcome<LayoutData>)
    ensures r.Redirect? ==> r.status == SeeOther
    ensures r.Redirect? ==> r.location in PublicRoutes
    ensures r.Pass? ==> r.data.session == session
  {
    if session.None? && !IsPublic(path) then Redirect(SeeOther, Login)
    else if session.Some? && IsAuthPage(path) then Redirect(SeeOther, Home)
    else Pass(LayoutData(session))
  }

  /**
   * Reference policy, stated without the gate's list lookups: who may view
   * which path. Anonymous visitors see exactly the three public paths;
   * signed-in visitors see everything but the two auth pages.
   */
  ghost predicate MayView(session: Option<Session>, path: string)
  {
    if session.None? then path == "/" || path == "/auth/login" || path == "/auth/register"
    else path != "/auth/login" && path != "/auth/register"
  }

  /** Where the policy sends a visitor who may not view a path. */
  ghost function Destination(session: Option<Session>): string
  {
    if session.None? then "/auth/login" else "/"
  }

  /** The gate agrees with the reference policy on every session and path. */
  lemma GateMatchesPolicy(session: Option<Session>, path: string)
    ensures Gate(session, path).Pass? <==> MayView(session, path)
    ensures Gate(session, path) == if MayView(session, path)
                                   then Pass(LayoutData(session))
                                   else Redirect(303, Destination(session))
  {
  }

  /** Rule A: an anonymous request to a non-public path goes to the login page. */
  lemma AnonymousProtectedRedirects(path: string)
    requires path != "/" && path != "/auth/login" && path != "/auth/register"
    ensures Gate(None, path) == Redirect(303, "/auth/login")
  {
  }

  /** An anonymous request to a public path passes, carrying the absent session. */
  lemma AnonymousPublicPasses(path: string)
    requires path in ["/", "/auth/login", "/auth/register"]
    ensures Gate(None, path) == Pass(LayoutData(None))
  {
  }

  /** Rule B: a signed-in request to an auth page goes home. */
  lemma SignedInAuthPageRedirects(s: Session, path: string)
    requires path == "/auth/login" || path == "/auth/register"
    ensures Gate(Some(s), path) == Redirect(303, "/")
  {
  }

  /** A signed-in request to any other path passes with exactly that session. */
  lemma SignedInOtherPasses(s: Session, path: string)
    requires path != "/auth/login" && path != "/auth/register"
    ensures Gate(Some(s), path) == Pass(LayoutData(Some(s)))
  {
  }

  /**
   * No prefix, suffix or case matching: near-misses of the public paths are
   * protected.
   */
  lemma NearMissesAreProtected()
    ensures Gate(None, "/auth/login/") == Redirect(303, "/auth/login")
    ensures Gate(None, "/auth") == Redirect(303, "/auth/login")
    ensures Gate(None, "/Auth/login") == Redirect(303, "/auth/login")
    ensures Gate(None, "") == Redirect(303, "/auth/login")
  {
  }

  /** Any path that extends a public path by at least one character, other than another public path, is protected. */
  lemma ExtensionsAreProtected(route: string, suffix: string)
    requires route in PublicRoutes && |suffix| > 0
    requires route + suffix !in PublicRoutes
    ensures Gate(None, route + suffix) == Redirect(303, "/auth/login")
  {
  }

  /**
   * The staff list has no effect: for either session state, a staff path gets
   * the same outcome as any path that is neither public nor an auth page.
   */
  lemma StaffRoutesHaveNoEffect(session: Option<Session>, i: nat, other: string)
    requires i < |StaffRoutes|
    requires !IsPublic(other) && !IsAuthPage(other)
    ensures Gate(session, StaffRoutes[i]) == Gate(session, other)
  {
  }

  /** Staff paths are protected from anonymous visitors only in the generic way, and open to every signed-in visitor. */
  lemma StaffRoutesOpenToAnySession(s: Session, i: nat)
    requires i < |StaffRoutes|
    ensures Gate(Some(s), StaffRoutes[i]) == Pass(LayoutData(Some(s)))
    ensures Gate(None, StaffRoutes[i]) == Redirect(303, "/auth/login")
  {
  }

  /** The two redirect rules never both apply: one needs no session, the other a session. */
  lemma RulesExclusive(session: Option<Session>, path: string)
    ensures !(session.None? && !IsPublic(path) && session.Some? && IsAuthPage(path))
    ensures Gate(session, path).Redirect? ==>
              (Gate(session, path).location == "/auth/login" <==> session.None?)
  {
  }

  /**
   * No redirect loop: following a redirect once, with the same session,
   * always lands on a page the gate lets through.
   */
  lemma NoRedirectLoop(session: Option<Session>, path: string)
    ensures Gate(session, path).Redirect? ==>
              Gate(session, Gate(session, path).location).Pass?
  {
  }

  /** The two redirect targets are fixed points of the gate for the session that was sent there. */
  lemma RedirectTargetsPass(s: Session)
    ensures Gate(None, "/auth/login") == Pass(LayoutData(None))
    ensures Gate(Some(s), "/") == Pass(LayoutData(Some(s)))
  {
  }

  /** Only the presence of a session matters, not which session it is. */
  lemma OnlyPresenceMatters(a: Session, b: Session, path: string)
    ensures Gate(Some(a), path).Redirect? <==> Gate(Some(b), path).Redirect?
    ensures Gate(Some(a), path).Redirect? ==> Gate(Some(a), path) == Gate(Some(b), path)
  {
  }
}
