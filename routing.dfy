/** The route guard of App.tsx (`ProtectedRoute`) and the routes that use it. */
module Routing {
  import opened Types
  import Api
  import Context

  /** What `ProtectedRoute` returns. */
  datatype Decision = RedirectToLogin | RedirectToHome | RenderChildren

  datatype Path = Home | Shop | Cart | LoginPage | Orders | AdminDashboard

  /** `auth.user?.role === 'admin'`: false for an absent user. */
  predicate IsAdmin(user: Option<User>): (b: bool)
    ensures b ==> user.Some?
    ensures user.Some? ==> (b <==> user.value.role == Admin)
  {
    user.Some? && user.value.role == Admin
  }

  /** `ProtectedRoute`: the authentication check first, then the admin check. */
  function ProtectedRoute(auth: AuthState, adminOnly: bool := false): (d: Decision)
    ensures d == RedirectToLogin <==> !auth.isAuthenticated
    ensures d == RedirectToHome <==> auth.isAuthenticated && adminOnly && !IsAdmin(auth.user)
    ensures d == RenderChildren <==> auth.isAuthenticated && (!adminOnly || IsAdmin(auth.user))
  {
    if !auth.isAuthenticated then RedirectToLogin
    else if adminOnly && !IsAdmin(auth.user) then RedirectToHome
    else RenderChildren
  }

  /** The element each route renders: `/orders` is wrapped with the default
      `adminOnly`, `/admin` with `adminOnly` set, the rest are not wrapped. */
  function Route(path: Path, auth: AuthState): (d: Decision)
    ensures d == RedirectToLogin <==> (path == Orders || path == AdminDashboard) && !auth.isAuthenticated
    ensures d == RedirectToHome <==> path == AdminDashboard && auth.isAuthenticated && !IsAdmin(auth.user)
    ensures d == RenderChildren <==>
      (path != Orders && path != AdminDashboard)
      || (path == Orders && auth.isAuthenticated)
      || (path == AdminDashboard && auth.isAuthenticated && IsAdmin(auth.user))
  {
    match path
    case Orders => ProtectedRoute(auth)
    case AdminDashboard => ProtectedRoute(auth, adminOnly := true)
    case _ => RenderChildren
  }

  /** The unguarded routes are rendered for everyone. */
  lemma OpenRoutesRender(path: Path, auth: AuthState)
    requires path != Orders && path != AdminDashboard
    ensures Route(path, auth) == RenderChildren
  {
  }

  /** `/orders` needs a session and nothing more. */
  lemma OrdersNeedsLogin(auth: AuthState)
    ensures Route(Orders, auth) == (if auth.isAuthenticated then RenderChildren else RedirectToLogin)
  {
  }

  /** `/admin` renders exactly for a session whose user has the admin role;
      other sessions are sent home, visitors to the login page. */
  lemma AdminNeedsAdminRole(auth: AuthState)
    ensures Route(AdminDashboard, auth) ==
      if !auth.isAuthenticated then RedirectToLogin
      else if IsAdmin(auth.user) then RenderChildren
      else RedirectToHome
  {
  }

  /** After a start-up, `/orders` renders exactly when a pointer was stored. */
  lemma OrdersAfterStartup(stored: Option<User>)
    ensures Route(Orders, Context.Startup(stored)) == RenderChildren <==> stored.Some?
  {
  }

  /** After a logout neither guarded route renders. */
  lemma NothingGuardedAfterLogout(path: Path)
    requires path == Orders || path == AdminDashboard
    ensures Route(path, Context.LoggedOut()) == RedirectToLogin
  {
  }

  /** A user freshly registered by a verification reaches `/admin` exactly when
      their phone is the admin number. */
  lemma RegisteredUserReachesAdminIff(freshId: string, phone: string)
    ensures Route(AdminDashboard, Context.Login(Api.Register(freshId, phone))) == RenderChildren
      <==> phone == Api.AdminPhone
  {
  }

  /** When every stored user follows the role rule, a user signed in from the
      store reaches `/admin` exactly when their phone is the admin number.
      Verification keeps the rule; a profile update keeps it only when the
      record it stores follows it (`Api.ReplaceUserKeepsRoleRule`). */
  lemma StoredUserReachesAdminIff(users: seq<User>, k: nat)
    requires Api.RolesFollowPhones(users)
    requires k < |users|
    ensures Route(AdminDashboard, Context.Login(users[k])) == RenderChildren
      <==> users[k].phone == Api.AdminPhone
  {
  }

  /** A stored customer without the admin phone is sent home from `/admin`;
      a profile update giving them the admin role also stores the pointer, so
      the next start-up renders `/admin`, whatever the phone. */
  method ProfileUpdateCanGrantAdmin(store: Api.LocalStore, a: User) returns (before: Decision, after: Decision)
    modifies store
    requires a in store.users && a.phone != Api.AdminPhone && a.role == Customer
    ensures before == RedirectToHome && after == RenderChildren
  {
    before := Route(AdminDashboard, Context.Login(a));
    var _ := store.UpdateProfile(a.(role := Admin));
    after := Route(AdminDashboard, Context.Startup(store.GetCurrentUser()));
  }

  /** The login page's submit: a successful verification followed by `login`
      grants `/admin` exactly for the admin number, as long as the stored users
      followed the role rule; a rejected code leaves the auth state `before`
      and the store's users and pointer as they were. */
  method VerifyThenLogin(store: Api.LocalStore, before: AuthState, phone: string, otp: string, freshId: string)
    returns (auth: AuthState)
    modifies store
    ensures otp != Api.ValidOtp ==>
      auth == before && store.users == old(store.users) && store.currentUser == old(store.currentUser)
    ensures otp == Api.ValidOtp ==> auth.isAuthenticated && auth.user == store.currentUser
    ensures otp == Api.ValidOtp ==> auth.user == Some(Api.LookupOrRegister(old(store.users), phone, freshId).0)
    ensures otp == Api.ValidOtp && Api.RolesFollowPhones(old(store.users)) ==>
      (Route(AdminDashboard, auth) == RenderChildren <==> phone == Api.AdminPhone)
  {
    var r := store.VerifyOtp(phone, otp, freshId);
    if r.Ok? {
      auth := Context.Login(r.value);
      if Api.RolesFollowPhones(old(store.users)) {
        Api.LookupOrRegisterKeepsRoleRule(old(store.users), phone, freshId);
      }
    } else {
      auth := before;
    }
  }
}
