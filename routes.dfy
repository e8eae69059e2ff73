/** The application's routes and the two guards around them: pages for signed-in
    users only, and the login and sign-up pages for visitors only. */
module Routes {
  import opened Records

  /** `useAuth()`: the signed-in user's id, if any, and whether the session is
      still being restored. */
  datatype Session = Session(user: Option<string>, loading: bool)

  datatype Page =
    | Login | Signup | Dashboard | Analytics | Insights | Profile | EditProfile
    | Categories | Budgets | Settings | Support | About | ContactSupport
    | CategoryDetail(id: string)
    | NotFound

  /** The wrapper around a route's page. */
  datatype Guard = Public | Visitors | Members

  /** A route's element: a redirect, or a page behind a guard. */
  datatype Element = Go(to: string) | Guarded(guard: Guard, page: Page)

  /** The routes with a fixed path, as they are declared. */
  function FixedRoute(path: string): Option<Element> {
    match path
    case "/" => Some(Go("/dashboard"))
    case "/auth" => Some(Guarded(Visitors, Login))
    case "/signup" => Some(Guarded(Visitors, Signup))
    case "/dashboard" => Some(Guarded(Members, Dashboard))
    case "/analytics" => Some(Guarded(Members, Analytics))
    case "/insights" => Some(Guarded(Members, Insights))
    case "/profile" => Some(Guarded(Members, Profile))
    case "/edit-profile" => Some(Guarded(Members, EditProfile))
    case "/categories" => Some(Guarded(Members, Categories))
    case "/budgets" => Some(Guarded(Members, Budgets))
    case "/settings" => Some(Guarded(Members, Settings))
    case "/support" => Some(Guarded(Members, Support))
    case "/about" => Some(Guarded(Members, About))
    case "/contact-support" => Some(Guarded(Members, ContactSupport))
    case _ => None
  }

  const DetailPrefix := "/categories/"

  /** `/categories/:id`: one non-empty path segment after the prefix. */
  predicate IsDetailPath(path: string) {
    && DetailPrefix <= path
    && |path| > |DetailPrefix|
    && '/' !in path[|DetailPrefix|..]
  }

  /** No fixed path has the shape of the detail pattern, so the order in which
      the router tries them does not matter. */
  lemma FixedPathsAreNotDetailPaths(path: string)
    requires FixedRoute(path).Some?
    ensures !IsDetailPath(path)
  {
    if |path| > |DetailPrefix| {
      assert path == "/edit-profile" || path == "/contact-support";
      assert path[1] != DetailPrefix[1] || path[2] != DetailPrefix[2];
    }
  }

  /** The element the router picks: the detail pattern, a fixed path, or
      the catch-all `*`. */
  function ElementFor(path: string): (e: Element)
    ensures IsDetailPath(path) ==> e == Guarded(Members, CategoryDetail(path[|DetailPrefix|..]))
    ensures !IsDetailPath(path) && FixedRoute(path).Some? ==> e == FixedRoute(path).value
    ensures !IsDetailPath(path) && FixedRoute(path).None? ==> e == Guarded(Public, NotFound)
  {
    if IsDetailPath(path) then Guarded(Members, CategoryDetail(path[|DetailPrefix|..]))
    else if FixedRoute(path).Some? then FixedRoute(path).value
    else Guarded(Public, NotFound)
  }

  /** What the browser shows. */
  datatype Screen = Spinner | Redirect(to: string) | Show(page: Page)

  /** `ProtectedRoute` and `AuthRoute` around a page. */
  function Guarding(guard: Guard, page: Page, session: Session): (s: Screen)
    ensures guard != Public && session.loading ==> s == Spinner
    ensures guard == Members && !session.loading && session.user.None? ==> s == Redirect("/auth")
    ensures guard == Visitors && !session.loading && session.user.Some? ==> s == Redirect("/dashboard")
    ensures s.Show? ==> s.page == page
    ensures s.Show? && guard == Members ==> session.user.Some? && !session.loading
    ensures s.Show? && guard == Visitors ==> session.user.None? && !session.loading
  {
    match guard
    case Public => Show(page)
    case Visitors =>
      if session.loading then Spinner
      else if session.user.Some? then Redirect("/dashboard")
      else Show(page)
    case Members =>
      if session.loading then Spinner
      else if session.user.None? then Redirect("/auth")
      else Show(page)
  }

  function Render(path: string, session: Session): Screen {
    match ElementFor(path)
    case Go(to) => Redirect(to)
    case Guarded(guard, page) => Guarding(guard, page, session)
  }

  /** The pages that hold a user's data. */
  predicate Private(p: Page) { !(p.Login? || p.Signup? || p.NotFound?) }

  /** A fixed route guards its page as the page needs: the private pages for
      members, the login and sign-up pages for visitors. */
  predicate GuardFits(e: Element) {
    e.Guarded? ==> e.guard != Public && !e.page.NotFound? && (Private(e.page) <==> e.guard == Members)
  }

  lemma FixedRoutesFit(path: string)
    requires FixedRoute(path).Some?
    ensures GuardFits(FixedRoute(path).value)
  {
  }

  /** No page with a user's data is shown without a signed-in user, and the
      login and sign-up pages are shown only to visitors. */
  lemma GuardsHold(path: string, session: Session)
    ensures Render(path, session).Show? && Private(Render(path, session).page) ==>
      session.user.Some? && !session.loading
    ensures Render(path, session).Show? && !Private(Render(path, session).page) && !Render(path, session).page.NotFound? ==>
      session.user.None? && !session.loading
  {
    if !IsDetailPath(path) && FixedRoute(path).Some? {
      FixedRoutesFit(path);
    }
  }

  /** Following the redirects of what is shown, at most hops times. */
  function Follow(path: string, session: Session, hops: nat): Screen
    decreases hops
  {
    var s := Render(path, session);
    if s.Redirect? && hops > 0 then Follow(s.to, session, hops - 1) else s
  }

  /** The only redirect route is `/`, to the dashboard. */
  lemma OnlyRootRedirects(path: string)
    requires ElementFor(path).Go?
    ensures path == "/" && ElementFor(path) == Go("/dashboard")
  {
  }

  /** From the dashboard or the login page, one redirect at most reaches a
      page. */
  lemma FromDashboardOrLogin(session: Session)
    requires !session.loading
    ensures Follow("/dashboard", session, 1) == if session.user.None? then Show(Login) else Show(Dashboard)
    ensures Follow("/auth", session, 1) == if session.user.None? then Show(Login) else Show(Dashboard)
  {
    assert !IsDetailPath("/dashboard") && !IsDetailPath("/auth");
  }

  /** Once the session is restored, every path ends on a page after at most
      two redirects: `/` leads to the dashboard, from which a visitor is sent
      on to the login page, and the login page sends a member back to the
      dashboard. */
  lemma RedirectsEnd(path: string, session: Session)
    requires !session.loading
    ensures Follow(path, session, 2).Show?
    ensures Render(path, session).Redirect? ==>
      Follow(path, session, 2) == if session.user.None? then Show(Login) else Show(Dashboard)
  {
    var e := ElementFor(path);
    var s := Render(path, session);
    if e.Go? {
      OnlyRootRedirects(path);
      FromDashboardOrLogin(session);
    } else if s.Redirect? {
      assert s.to == "/auth" || s.to == "/dashboard";
      FromDashboardOrLogin(session);
    }
  }
}
