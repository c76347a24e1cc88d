/**
 * context/UserContext.tsx: the signed-in user, a single nullable field that
 * `login` overwrites and `logout` clears.
 */
module UserContext {
  import opened Wrappers

  /** The two roles a user can have ("Gerente" | "Operador"). */
  datatype Role = Gerente | Operador

  /** A signed-in user; `null` is `None` in `Option<Usuario>`. */
  datatype Usuario = Usuario(nome: string, id: string, funcao: Role)

  /** The two operations the provider exposes. */
  datatype Action = Login(user: Option<Usuario>) | Logout

  /** The user after one action: the argument of `login`, or null. */
  function Apply(current: Option<Usuario>, a: Action): (next: Option<Usuario>)
    ensures a.Logout? ==> next == None
    ensures a.Login? ==> next == a.user
  {
    match a
    case Login(u) => u
    case Logout => None
  }

  /** The user after a sequence of actions, oldest first. */
  function Replay(current: Option<Usuario>, actions: seq<Action>): Option<Usuario>
    decreases |actions|
  {
    if actions == [] then current else Replay(Apply(current, actions[0]), actions[1..])
  }

  /** `logout` twice is `logout` once, and `login(null)` is `logout`. */
  lemma LogoutIdempotent(current: Option<Usuario>)
    ensures Apply(Apply(current, Logout), Logout) == Apply(current, Logout)
    ensures Apply(current, Login(None)) == Apply(current, Logout)
  {
  }

  /**
   * Last write wins: after any non-empty sequence of actions the user is
   * whatever the last action set, whoever was signed in before.
   */
  lemma {:induction false} LastActionWins(current: Option<Usuario>, actions: seq<Action>)
    requires actions != []
    ensures Replay(current, actions) == Apply(current, actions[|actions| - 1])
    decreases |actions|
  {
    if |actions| > 1 {
      LastActionWins(Apply(current, actions[0]), actions[1..]);
    }
  }

  /** The state of a mounted AuthProvider. */
  class AuthProvider {
    var usuario: Option<Usuario>

    /** Mounting: `useState<Usuario>(null)`. */
    constructor()
      ensures usuario == None
    {
      usuario := None;
    }

    /** `login(user)`: the current user becomes exactly `user`. */
    method Login(user: Option<Usuario>)
      modifies this
      ensures usuario == Apply(old(usuario), Action.Login(user))
      ensures usuario == user
    {
      usuario := user;
    }

    /** `logout()`: no user is signed in afterwards. */
    method Logout()
      modifies this
      ensures usuario == Apply(old(usuario), Action.Logout)
      ensures usuario == None
    {
      usuario := None;
    }
  }

  const UseAuthError := "useAuth must be used inside AuthProvider"

  /**
   * `useAuth`: the nearest provider, or the error it throws when the
   * component is not inside an AuthProvider.
   */
  function UseAuth(provider: Option<AuthProvider>): (r: Result<AuthProvider, string>)
    ensures r.Failure? <==> provider.None?
    ensures r.Success? ==> r.value == provider.value
    ensures r.Failure? ==> r.error == UseAuthError
  {
    match provider
    case None => Failure(UseAuthError)
    case Some(p) => Success(p)
  }
}
