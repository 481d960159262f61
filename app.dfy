/**
 * The top-level screen choice: a spinner while the session is being restored, the sign-in or
 * sign-up screen for a visitor, and the dashboard for a signed-in user.
 */
module App {
  import opened Wrappers
  import Backend

  datatype View = Spinner | RegisterView | LoginView | DashboardView

  /** `AppContent`'s render. */
  function AppView(authLoading: bool, user: Option<Backend.User>, showRegister: bool): View {
    if authLoading then Spinner
    else if user.None? then (if showRegister then RegisterView else LoginView)
    else DashboardView
  }

  /** Each screen is shown in exactly one situation. */
  lemma AppViewIff(authLoading: bool, user: Option<Backend.User>, showRegister: bool)
    ensures AppView(authLoading, user, showRegister) == Spinner <==> authLoading
    ensures AppView(authLoading, user, showRegister) == RegisterView <==> !authLoading && user.None? && showRegister
    ensures AppView(authLoading, user, showRegister) == LoginView <==> !authLoading && user.None? && !showRegister
    ensures AppView(authLoading, user, showRegister) == DashboardView <==> !authLoading && user.Some?
  {
  }

  class AppContent {
    var showRegister: bool

    /** A visitor first sees the sign-in screen. */
    constructor ()
      ensures !showRegister
      ensures AppView(false, None, showRegister) == LoginView
    {
      showRegister := false;
    }

    /** The sign-in screen's toggle. */
    method ToggleFromLogin()
      modifies this
      ensures showRegister
      ensures AppView(false, None, showRegister) == RegisterView
    {
      showRegister := true;
    }

    /** The sign-up screen's toggle. */
    method ToggleFromRegister()
      modifies this
      ensures !showRegister
      ensures AppView(false, None, showRegister) == LoginView
    {
      showRegister := false;
    }
  }
}
