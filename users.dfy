/**
 * The user record and the user directory's pure queries (lib/user.js).
 *
 * lib/user.js and lib/app.js each keep their own `users` dictionary with the same
 * login, logout and token check; the model keeps ONE directory, owned by the
 * registry (`App.Registry.users`), and the registry's operations use the functions
 * below. A `User` is a value in that map: it is reachable only through it, so
 * updating its `games` array in place and storing an updated copy are the same.
 */
module Users {
  import opened Types

  /** A logged-in user: its name and the names of the games it has connected to, in order. */
  datatype User = User(name: string, games: seq<string>)

  const InvalidTokenParam: string := "Invalid authToken param"
  const NoSuchUser: string := "No user found with that auth-token"

  /** `new User(name)`. */
  function NewUser(name: string): (u: User)
    ensures u.name == name && u.games == []
  {
    User(name, [])
  }

  /** `isAuthTokenValid(authToken)`: `users.hasOwnProperty(authToken)`. */
  function IsAuthTokenValid(directory: map<Token, User>, token: Token): (valid: bool)
    ensures valid <==> token in directory
  {
    token in directory
  }

  /**
   * The two guards of `logout`, in order: a falsy (empty) token, then a token with no user.
   * `None` means logout proceeds.
   */
  function LogoutCheck(directory: map<Token, User>, token: Token): (err: Option<string>)
    ensures token == "" ==> err == Some(InvalidTokenParam)
    ensures token != "" && !IsAuthTokenValid(directory, token) ==> err == Some(NoSuchUser)
    ensures err == None <==> token != "" && IsAuthTokenValid(directory, token)
  {
    if token == "" then Some(InvalidTokenParam)
    else if token !in directory then Some(NoSuchUser)
    else None
  }

  /** `delete users[authToken]`: that token is no longer valid, and every other entry is kept. */
  function Deleted(directory: map<Token, User>, token: Token): (d: map<Token, User>)
    ensures !IsAuthTokenValid(d, token)
    ensures forall t :: t != token ==> (t in d <==> t in directory)
    ensures forall t :: t in d ==> d[t] == directory[t]
  {
    directory - {token}
  }
}
