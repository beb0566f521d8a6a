/** Properties of the access rules. */
module PageAuthLemmas {
  import opened Wrappers
  import opened Js
  import opened PageAuth

  /** The redirect target is always served, so a refused visitor is never
      sent round a redirect loop. */
  lemma LoginPageAlwaysServed(session: Session)
    ensures PageAccess(LOGIN_PAGE, session) == Serve
    ensures PageAccess("admin_login", session) == Serve
  {
    assert EndsWith(LOGIN_PAGE, ".html");
    assert LOGIN_PAGE[..|LOGIN_PAGE| - 5] == "admin_login";
  }

  /** A page is reached the same way with or without its `.html` suffix. */
  lemma SuffixDoesNotMatter(page: string, session: Session)
    requires !EndsWith(page, ".html")
    ensures PageAccess(page + ".html", session) == PageAccess(page, session)
  {
    var p := page + ".html";
    assert p[|p| - 5..] == ".html";
    assert p[..|p| - 5] == page;
  }

  /** A refused page is exactly a non-public page mentioning 'admin' opened
      without an admin session; such a visitor would also get a 401 or 403
      from the admin API. */
  lemma RedirectOnlyForAdminPages(page: string, session: Session)
    ensures PageAccess(page, session) == RedirectToLogin <==>
      PageName(page) !in PUBLIC_PAGES && Contains(PageName(page), "admin") && !IsAdminSession(session)
    ensures PageAccess(page, session) == RedirectToLogin ==> AdminApiAccess(session) != Pass
  {
  }

  /** The dashboard page needs the same session as the admin API. */
  lemma DashboardMatchesApi(session: Session)
    ensures PageAccess("admin_dashboard.html", session) == Serve <==> AdminApiAccess(session) == Pass
  {
    var p := "admin_dashboard.html";
    assert EndsWith(p, ".html") && p[..|p| - 5] == "admin_dashboard";
    assert OccursAt("admin_dashboard", "admin", 0);
  }

  /** A signed-in user who is not an admin gets a 403, never a 401. */
  lemma SignedInNonAdminForbidden(userId: string, role: Option<string>)
    requires userId != "" && role != Some("admin")
    ensures AdminApiAccess(Some(SessionData(Some(userId), role))) == Forbidden
  {
  }
}
