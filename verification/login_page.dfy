/** The sign-in / sign-up page (pages/Login.tsx): one form in two modes. */
module LoginPage {
  import opened Base
  import opened Api
  import opened AuthContext

  datatype Page = Page(isLogin: bool, email: string, password: string, name: string, loading: bool, error: string)

  const DefaultError := "An unexpected error occurred"
  const RegisteredAlert := "Registration successful! Please login."
  const HomeRoute := "/"

  /** What `handleSubmit` leaves behind: the page, the session, the route it
      navigates to and the alert it raises, if any. */
  datatype Submitted = Submitted(page: Page, auth: AuthState, navigateTo: Option<string>, alert: Option<string>)

  /** `handleSubmit`: the error is cleared first; in login mode the session's
      `login` is awaited, otherwise its `register`; a rejection surfaces the
      server's message or the fixed default. */
  function Submit(p: Page, a: AuthState, login: Settled<LoginResponse>, register: Settled<()>): (r: Submitted)
    ensures !r.page.loading
    ensures r.page.email == p.email && r.page.password == p.password && r.page.name == p.name
    ensures var ok := if p.isLogin then login.Resolved? else register.Resolved?;
            (r.page.error == "" <==> ok)
    ensures p.isLogin && login.Resolved? ==>
              r.navigateTo == Some(HomeRoute) && r.page.isLogin && r.alert.None? && r.auth == Login(a, login)
    ensures !p.isLogin && register.Resolved? ==>
              r.navigateTo.None? && r.page.isLogin && r.alert == Some(RegisteredAlert) && r.auth == a
    ensures p.isLogin && login.Rejected? ==>
              r.page.error == StringOr(ServerMessage(login.error), DefaultError)
              && r.navigateTo.None? && r.alert.None? && r.page.isLogin && r.auth == a
    ensures !p.isLogin && register.Rejected? ==>
              r.page.error == StringOr(ServerMessage(register.error), DefaultError)
              && r.navigateTo.None? && r.alert.None? && !r.page.isLogin && r.auth == a
  {
    var cleared := p.(error := "", loading := true);
    if p.isLogin then
      match login
      case Resolved(_) => Submitted(cleared.(loading := false), Login(a, login), Some(HomeRoute), None)
      case Rejected(e) =>
        Submitted(cleared.(loading := false, error := StringOr(ServerMessage(e), DefaultError)), a, None, None)
    else
      match register
      case Resolved(_) =>
        Submitted(cleared.(loading := false, isLogin := true), Register(a, register), None, Some(RegisteredAlert))
      case Rejected(e) =>
        Submitted(cleared.(loading := false, error := StringOr(ServerMessage(e), DefaultError)), a, None, None)
  }

  /** The link under the form flips the mode and nothing else. */
  function ToggleMode(p: Page): (r: Page)
    ensures r.isLogin != p.isLogin
    ensures r.(isLogin := p.isLogin) == p
  {
    p.(isLogin := !p.isLogin)
  }
}
