/**
 * The profile page's guard: it reads the current user from the session store
 * and sends a visitor without one to the auth page.
 */
module ProfilePage {
  import opened Wrappers
  import opened Navigation
  import LayoutGate

  /** The signed-in user held in the session store; opaque to the guard. */
  datatype User = User(id: string, email: string)

  /** The data the page receives: `{ user }`. */
  datatype ProfileData = ProfileData(user: User)

  /** 307 Temporary Redirect. */
  const TemporaryRedirect: int := 307
  const AuthPath: string := "/auth"

  /**
   * The page's `load`. The store read becomes the parameter `currentUser`;
   * an absent user (the only falsy value the store holds) throws a redirect.
   */
  function Load(currentUser: Option<User>): (r: Outcome<ProfileData>)
    ensures r.Redirect? <==> currentUser.None?
    ensures r.Redirect? ==> r.status == 307 && r.location == "/auth"
    ensures r.Pass? ==> currentUser == Some(r.data.user)
  {
    if currentUser.None? then Redirect(TemporaryRedirect, AuthPath)
    else Pass(ProfileData(currentUser.value))
  }

  /** The outcome loses nothing: different user values give different outcomes. */
  lemma LoadInjective(u: Option<User>, v: Option<User>)
    requires Load(u) == Load(v)
    ensures u == v
  {
  }

  /** The guard's target is `/auth`, not the layout's `/auth/login`. */
  lemma TargetIsNotLoginPage()
    ensures Load(None).location != LayoutGate.Login
  {
  }

  /**
   * `/auth` is not a public path, so an anonymous visitor the guard sends
   * there is sent on to the login page by the layout gate, while a signed-in
   * visitor (whose user store is empty) is let through.
   */
  lemma TargetUnderLayoutGate(s: LayoutGate.Session)
    ensures LayoutGate.Gate(None, Load(None).location) == Redirect(303, "/auth/login")
    ensures LayoutGate.Gate(Some(s), Load(None).location).Pass?
  {
  }
}
