/**
 * The role helpers of `auth`: the login and home route of each role, and the session getters,
 * which have no authentication behind them yet and report that nobody is signed in.
 */
module AuthRoutes {
  import opened JsText

  /** `UserRole`. */
  datatype UserRole = Mensajero | Cliente | Admin

  /** `getLoginRoute(role)`. */
  function GetLoginRoute(role: UserRole): (route: string)
    ensures role == Mensajero <==> route == "/mensajeros/acceso"
    ensures role == Admin <==> route == "/admin"
    ensures role == Cliente <==> route == "/clientes"
  {
    match role
    case Mensajero => "/mensajeros/acceso"
    case Admin => "/admin"
    case Cliente => "/clientes"
  }

  /** `getHomeRoute(role)`. */
  function GetHomeRoute(role: UserRole): (route: string)
    ensures role == Mensajero <==> route == "/mensajeros"
    ensures role == Admin <==> route == "/admin"
    ensures role == Cliente <==> route == "/clientes"
  {
    match role
    case Mensajero => "/mensajeros"
    case Admin => "/admin"
    case Cliente => "/clientes"
  }

  /** Admins and clients sign in where they land; couriers sign in on a page of their own. */
  lemma LoginIsHomeExceptForCouriers(role: UserRole)
    ensures GetLoginRoute(role) == GetHomeRoute(role) <==> role != Mensajero
  {
  }

  /** Each role has its own home: the route tells the role. */
  lemma HomeRouteDeterminesRole(a: UserRole, b: UserRole)
    requires GetHomeRoute(a) == GetHomeRoute(b)
    ensures a == b
  {
  }

  /** The courier's login page lies under the courier's home. */
  lemma CourierLoginUnderHome()
    ensures StartsWith(GetLoginRoute(Mensajero), GetHomeRoute(Mensajero) + "/")
  {
  }

  /** `getCurrentRole()`: no session is read, so there is no role. */
  function GetCurrentRole(): Option<UserRole>
  {
    None
  }

  /** A signed-in user as the getters would report one. */
  datatype AuthUser = AuthUser(id: string, email: string, role: UserRole)

  /** `getCurrentUser()`: no session is read, so there is no user. */
  function GetCurrentUser(): Option<AuthUser>
  {
    None
  }

  /** `isAuthenticated()`. */
  predicate IsAuthenticated()
  {
    false
  }

  /** `hasRole(requiredRole)`: the current role is the required one. */
  predicate HasRole(requiredRole: UserRole)
  {
    GetCurrentRole() == Some(requiredRole)
  }

  /** Nobody is signed in, so no role check ever passes. */
  lemma NoRoleCheckPasses(role: UserRole)
    ensures !HasRole(role) && !IsAuthenticated() && GetCurrentUser().None?
  {
  }
}
