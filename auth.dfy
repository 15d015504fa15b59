/** The session gate of `src/contexts/AuthProvider.tsx`: the current user, the startup
    request that sets it, and the decision of what to render or where to redirect. */
module Auth {
  import opened Wrappers
  import opened UserDto
  import opened Axios
  import opened Toasts
  import Messages

  /** What the provider renders: nothing, nothing plus a redirect, or its children. */
  datatype Screen = Blank | Redirect(to: string) | Children

  /** The gate: blank while loading; a visitor away from /login is sent there; a signed-in
      user on /login is sent to /; everything else renders the children. */
  function Gate(isLoading: bool, user: Option<User>, pathname: string): (s: Screen)
    ensures isLoading ==> s == Blank
    ensures !isLoading && user.None? && pathname != "/login" ==> s == Redirect("/login")
    ensures !isLoading && user.Some? && pathname == "/login" ==> s == Redirect("/")
    ensures s == Children <==> !isLoading && (user.None? <==> pathname == "/login")
  {
    if isLoading then Blank
    else if user.None? && pathname != "/login" then Redirect("/login")
    else if user.Some? && pathname == "/login" then Redirect("/")
    else Children
  }

  /** A redirect never points at the current page, and following it settles: with the same
      user, the gate renders the children on the target page. */
  lemma RedirectSettles(user: Option<User>, pathname: string)
    requires Gate(false, user, pathname).Redirect?
    ensures Gate(false, user, pathname).to != pathname
    ensures Gate(false, user, Gate(false, user, pathname).to) == Children
  {
  }

  class AuthProvider {
    var user: Option<User>
    var isLoading: bool

    constructor ()
      ensures user.None? && isLoading
    {
      user := None;
      isLoading := true;
    }

    /** The startup effect: `GET /api/users/me` and its status dispatch. 200 sets the user,
        401 clears it, 404 only reports, and anything else reports a server failure; loading
        ends in every case. `toastId` stands for the toast's fresh id. */
    method Startup(reply: Reply<User>, toaster: Toaster, toastId: string)
      modifies this, toaster
      ensures !isLoading
      ensures user == if Delivers(reply, 200) then Some(reply.data)
                      else if Delivers(reply, 401) then None
                      else old(user)
      ensures toaster.toasts ==
        if Delivers(reply, 200) || Delivers(reply, 401) then old(toaster.toasts)
        else if Delivers(reply, 404) then Added(old(toaster.toasts), toastId, Messages.UserNotFound, Error, None)
        else Added(old(toaster.toasts), toastId, Messages.ServerFailure, Error, None)
    ensures toaster.timers ==
      if Delivers(reply, 200) || Delivers(reply, 401) then old(toaster.timers)
      else ScheduledDefault(old(toaster.timers), toastId)
    {
      if Delivers(reply, 200) {
        user := Some(reply.data);
      } else if Delivers(reply, 401) {
        user := None;
      } else if Delivers(reply, 404) {
        toaster.AddToast(toastId, Messages.UserNotFound, Error, None);
      } else {
        toaster.AddToast(toastId, Messages.ServerFailure, Error, None);
      }
      isLoading := false;
    }
  }

  /** `useAuth()`: the provider's value, or the error thrown outside a provider. */
  function UseAuth(context: Option<AuthProvider>): (r: Result<AuthProvider>)
    ensures r.Err? <==> context.None?
    ensures r.Ok? ==> r.value == context.value
    ensures r.Err? ==> r.error == "useAuth must be used within a AuthProvider"
  {
    match context
    case None => Err("useAuth must be used within a AuthProvider")
    case Some(c) => Ok(c)
  }
}
