/** The access rules of the server: `requirePageAuth` in front of
    `/pages/:page`, and `requireAuth` / `requireAdmin` in front of the
    admin API routes. The session is a parameter. */
module PageAuth {
  import opened Wrappers
  import opened Js

  /** `req.session`: absent, or its user id and role when set. */
  datatype SessionData = SessionData(userId: Option<string>, role: Option<string>)
  type Session = Option<SessionData>

  datatype PageDecision = Serve | RedirectToLogin
  datatype ApiDecision = Pass | Unauthorized | Forbidden

  /** The pages anyone may open. */
  const PUBLIC_PAGES: seq<string> :=
    ["admin_login", "public_tracking_interface", "homepage", "shipment_creation_portal", "support_hub"]

  /** The `page` parameter of the redirect `/pages/admin_login.html`. */
  const LOGIN_PAGE: string := "admin_login.html"

  /** `page.replace(/\.html$/, '')`. */
  function PageName(page: string): (r: string)
    ensures EndsWith(page, ".html") ==> page == r + ".html"
    ensures !EndsWith(page, ".html") ==> r == page
  {
    if EndsWith(page, ".html") then page[..|page| - 5] else page
  }

  /** `req.session && req.session.userId && req.session.role === 'admin'`. */
  predicate IsAdminSession(session: Session) {
    session.Some? && TruthyStr(session.value.userId) && session.value.role == Some("admin")
  }

  /** `requirePageAuth`: public pages and pages whose name does not mention
      'admin' are served; the other admin pages need an admin session. */
  function PageAccess(page: string, session: Session): (d: PageDecision)
    ensures PageName(page) in PUBLIC_PAGES ==> d == Serve
    ensures PageName(page) !in PUBLIC_PAGES && Contains(PageName(page), "admin") ==>
      (d == Serve <==> IsAdminSession(session))
    ensures !Contains(PageName(page), "admin") ==> d == Serve
  {
    var name := PageName(page);
    if name in PUBLIC_PAGES then Serve
    else if Contains(name, "admin") then (if IsAdminSession(session) then Serve else RedirectToLogin)
    else Serve
  }

  /** `requireAuth` then `requireAdmin`, as the admin API routes chain them:
      no user id is a 401, a user who is not an admin a 403. */
  function AdminApiAccess(session: Session): (d: ApiDecision)
    ensures d == Pass <==> IsAdminSession(session)
    ensures d == Unauthorized <==> session.None? || !TruthyStr(session.value.userId)
  {
    if session.None? || !TruthyStr(session.value.userId) then Unauthorized
    else if session.value.role != Some("admin") then Forbidden
    else Pass
  }
}
