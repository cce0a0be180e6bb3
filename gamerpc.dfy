/**
 * The JSON-RPC handlers of lib/game.js: `connect`, `chat` and `move`, each looking the
 * game up by name in the registry and delegating to it.
 *
 * The handlers reply only on failure: a successful `connect`, `chat` or `move` never calls
 * its callback, so `None` below means "no reply". The `user` and `game` arguments are
 * taken from the named form of the arguments; a missing argument (which would throw) is
 * not modelled.
 *
 * Source repairs (the code as written cannot run):
 * - the module refers to `games` and `users` without defining them; the model reads them
 *   as the registry's two dictionaries;
 * - lib/app.js requires this module before it sets its own `Internal` export, so the
 *   module's `App` is undefined when lib/app.js is loaded first (as index.js does) and
 *   `App.isAuthTokenValid` would throw; the model reads it as the registry's token check.
 */
module GameRpc {
  import opened Types
  import Session
  import App

  const NoGame: string := "No game exists by that name."

  /**
   * `connect(user, game)`: refused for an unknown token, then for an unknown game; then the
   * game's `listen` decides (its refusal is the reply). Only after a successful listen is
   * the game's name appended to the user's list of games. No other game changes.
   */
  method Connect(reg: App.Registry, user: Session.Caller, gameName: string, conn: Session.ConnId)
    returns (err: Option<string>)
    requires reg.Valid()
    modifies reg, reg.games.Values
    ensures reg.Valid() && reg.games == old(reg.games)
    ensures user.authToken !in old(reg.users) ==>
              err == Some(App.NotAuthorized) && reg.users == old(reg.users) && unchanged(reg.games.Values)
    ensures user.authToken in old(reg.users) && gameName !in reg.games ==>
              err == Some(NoGame) && reg.users == old(reg.users) && unchanged(reg.games.Values)
    ensures user.authToken in old(reg.users) && gameName in reg.games ==>
              var r := Session.ListenResult(old(reg.games[gameName].State()), reg.games[gameName].maxUsers,
                                            user.authToken, conn);
              && (r.Failure? ==> err == Some(r.error) && reg.users == old(reg.users)
                                 && reg.games[gameName].State() == old(reg.games[gameName].State()))
              && (r.Success? ==> err == None && reg.games[gameName].State() == r.value
                                 && reg.users == old(reg.users)[user.authToken :=
                                      old(reg.users)[user.authToken].(games :=
                                        old(reg.users)[user.authToken].games + [gameName])])
    ensures forall n :: n in reg.games ==> reg.games[n].units == old(reg.games[n].units)
    ensures forall n :: n in reg.games && n != gameName ==> reg.games[n].State() == old(reg.games[n].State())
  {
    if !reg.IsAuthTokenValid(user.authToken) {
      return Some(App.NotAuthorized);
    }
    if gameName !in reg.games {
      return Some(NoGame);
    }
    err := Join(reg, user.authToken, gameName, conn);
  }

  /**
   * The part of `connect` after its two guards: the game's `listen` decides, and only after
   * a successful listen is the game's name appended to the user's list of games.
   */
  method Join(reg: App.Registry, token: Token, gameName: string, conn: Session.ConnId)
    returns (err: Option<string>)
    requires reg.Valid() && token in reg.users && gameName in reg.games
    modifies reg, reg.games.Values
    ensures reg.Valid() && reg.games == old(reg.games)
    ensures var r := Session.ListenResult(old(reg.games[gameName].State()), reg.games[gameName].maxUsers, token, conn);
      && (r.Failure? ==> err == Some(r.error) && reg.users == old(reg.users)
                         && reg.games[gameName].State() == old(reg.games[gameName].State()))
      && (r.Success? ==> err == None && reg.games[gameName].State() == r.value
                         && reg.users == old(reg.users)[token := old(reg.users)[token].(games :=
                              old(reg.users)[token].games + [gameName])])
    ensures forall n :: n in reg.games ==> reg.games[n].units == old(reg.games[n].units)
    ensures forall n :: n in reg.games && n != gameName ==> reg.games[n].State() == old(reg.games[n].State())
  {
    ghost var before := reg.games[gameName].State();
    var ok;
    ok, err := ListenOne(reg, gameName, token, conn);
    if !ok {
      return;
    }
    reg.RecordGame(token, gameName, conn, before);
  }

  /** `games[name].listen(token, connection)`, with the frame the registry's invariant needs. */
  method ListenOne(reg: App.Registry, gameName: string, token: Token, conn: Session.ConnId)
    returns (ok: bool, err: Option<string>)
    requires reg.GamesValid() && gameName in reg.games
    modifies reg.games[gameName]
    ensures reg.GamesValid() && reg.games == old(reg.games)
    ensures var r := Session.ListenResult(old(reg.games[gameName].State()), reg.games[gameName].maxUsers, token, conn);
      && ok == r.Success?
      && (r.Failure? ==> err == Some(r.error) && reg.games[gameName].State() == old(reg.games[gameName].State()))
      && (r.Success? ==> err == None && reg.games[gameName].State() == r.value)
    ensures forall n :: n in reg.games ==> reg.games[n].units == old(reg.games[n].units)
    ensures forall n :: n in reg.games && n != gameName ==> reg.games[n].State() == old(reg.games[n].State())
  {
    var g := reg.games[gameName];
    ok, err := g.Listen(token, conn);
  }

  /**
   * `chat(user, game, message)`: refused for an unknown game; otherwise the game's `chat`
   * decides (its refusal is the reply). There is no token check at this level.
   */
  method Chat(reg: App.Registry, user: Session.Caller, gameName: string, text: string)
    returns (err: Option<string>)
    requires reg.Valid()
    modifies reg.games.Values
    ensures reg.Valid() && reg.games == old(reg.games) && reg.users == old(reg.users)
    ensures gameName !in reg.games ==> err == Some(NoGame) && unchanged(reg.games.Values)
    ensures gameName in reg.games ==>
              var r := Session.ChatResult(old(reg.games[gameName].State()), user, text);
              && (r.Failure? ==> err == Some(r.error)
                                 && reg.games[gameName].State() == old(reg.games[gameName].State()))
              && (r.Success? ==> err == None && reg.games[gameName].State() == r.value)
    ensures forall n :: n in reg.games ==> reg.games[n].units == old(reg.games[n].units)
    ensures forall n :: n in reg.games && n != gameName ==> reg.games[n].State() == old(reg.games[n].State())
  {
    if gameName !in reg.games {
      return Some(NoGame);
    }
    var g := reg.games[gameName];
    err := g.Chat(user, text);
  }

  /**
   * `move(user, game, unit, move)`: refused for an unknown game; otherwise the game
   * broadcasts the move. Neither this handler nor the game checks the token.
   */
  method Move(reg: App.Registry, user: Session.Caller, gameName: string, unit: Json, move: Json)
    returns (err: Option<string>)
    requires reg.Valid()
    modifies reg.games.Values
    ensures reg.Valid() && reg.games == old(reg.games) && reg.users == old(reg.users)
    ensures gameName !in reg.games ==> err == Some(NoGame) && unchanged(reg.games.Values)
    ensures gameName in reg.games ==>
              err == None &&
              reg.games[gameName].State() == Session.MoveResult(old(reg.games[gameName].State()), user, unit, move)
    ensures forall n :: n in reg.games ==> reg.games[n].units == old(reg.games[n].units)
    ensures forall n :: n in reg.games && n != gameName ==> reg.games[n].State() == old(reg.games[n].State())
  {
    if gameName !in reg.games {
      return Some(NoGame);
    }
    var g := reg.games[gameName];
    g.Move(user, unit, move);
    return None;
  }
}
