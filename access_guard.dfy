/**
 * The redirect rule shared, character for character, by the four admin pages
 * (car list, dashboard, add car, edit car). It runs as an effect whenever
 * the sign-in lookup or the admin-role lookup changes.
 */
module AccessGuard {
  import opened Wrappers

  datatype User = User(id: string)

  /** What the two lookups have reported so far. */
  datatype Session = Session(authLoading: bool, user: Option<User>, adminLoading: bool, isAdmin: bool)

  /** `navigate('/auth')`, `navigate('/')`, or no navigation. */
  datatype Redirect = ToAuth | ToHome | NoRedirect

  /** A rendered admin page: the redirect its effect issues, and what it shows. */
  datatype Page<S> = Page(redirect: Redirect, screen: S)

  /** A finished sign-in lookup that found nobody. */
  predicate SignedOut(s: Session) {
    !s.authLoading && s.user.None?
  }

  /**
   * The guard: sign-in first, then the admin role. The role check does not
   * wait for the sign-in lookup to finish.
   */
  function Decide(s: Session): (r: Redirect)
    ensures r == ToAuth <==> SignedOut(s)
    ensures r == ToHome <==> !SignedOut(s) && !s.adminLoading && !s.isAdmin
    ensures r == NoRedirect <==> (s.authLoading || s.user.Some?) && (s.adminLoading || s.isAdmin)
    ensures !s.authLoading && s.user.Some? && !s.adminLoading && s.isAdmin ==> r == NoRedirect
  {
    if SignedOut(s) then ToAuth
    else if !s.adminLoading && !s.isAdmin then ToHome
    else NoRedirect
  }

  /** The loading gate of the dashboard and the add-car page. */
  predicate LookupsPending(s: Session) {
    s.authLoading || s.adminLoading
  }

  /** A reference decision that holds every verdict back until both lookups are done. */
  datatype Verdict = Pending | SignIn | Home | Allow

  function SettledVerdict(s: Session): (v: Verdict)
    ensures v == Pending <==> LookupsPending(s)
    ensures v == Allow ==> s.user.Some? && s.isAdmin
  {
    if LookupsPending(s) then Pending
    else if s.user.None? then SignIn
    else if !s.isAdmin then Home
    else Allow
  }

  function VerdictRedirect(v: Verdict): Redirect {
    match v
    case SignIn => ToAuth
    case Home => ToHome
    case _ => NoRedirect
  }

  /** Once both lookups are done, the page's guard and the reference decision agree. */
  lemma AgreesOnceSettled(s: Session)
    requires !LookupsPending(s)
    ensures Decide(s) == VerdictRedirect(SettledVerdict(s))
  {
  }

  /**
   * While the sign-in lookup is still running, a settled "not an admin"
   * already sends the visitor home, where the reference decision would wait.
   */
  lemma RedirectsHomeBeforeSignInSettles(s: Session)
    requires s.authLoading && !s.adminLoading && !s.isAdmin
    ensures Decide(s) == ToHome
    ensures SettledVerdict(s) == Pending
  {
  }
}
