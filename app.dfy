/**
 * The registry of logged-in users and live games (lib/app.js).
 *
 * The module-level dictionaries `users` (token to user) and `games` (name to game)
 * become the two fields of one `Registry` object; the JSON-RPC handlers become its
 * methods, each returning the `(err, result)` its callback receives as a `Result`.
 *
 * Source repairs (the code as written cannot run):
 * - `logout` calls `forEach` on the User object and indexes an undefined `game`;
 *   the model iterates over the user's `games` list and looks each name up in `games`.
 * - `create` calls `new Game.Game(...)` on a module that is not the Game class; the
 *   model constructs the game of game.js (`Session.Game`).
 * - `leave` is called without a callback in `logout`, so a refused leave (a name listed
 *   twice) would throw; the model lets the refused leave change nothing.
 */
module App {
  import opened Types
  import Users
  import Session
  import Checkers
  import CheckersMan

  const NotAuthorized: string := "User not authorized."
  const NoPlayers: string := "Can't have a game with no players!"
  const NameTaken: string := "A game with that name already exists."
  const NoSystem: string := "system undefined or does not exist."
  const BadArguments: string := "Bad arguments"
  const BadCredentials: string := "Username or password incorrect."

  /** The filter object of `listGames`. */
  datatype Filters = Filters(myGames: bool, notFull: bool, notEmpty: bool, isPublic: bool)

  /** One entry of the `listGames` result. */
  datatype Summary = Summary(id: string, name: string, isPublic: bool, numUsers: nat, maxUsers: int)

  /** The summary `listGames` reports for a game, with `numUsers` its number of members. */
  function SummaryOf(g: Session.Game): Summary
    reads g
  {
    Summary("", g.name, g.isPublic, |g.users|, g.maxUsers)
  }

  /** A game passes the filters unless one of the three `continue` conditions applies. */
  predicate Listed(g: Session.Game, f: Filters)
    reads g
  {
    && !(f.notFull && |g.users| >= g.maxUsers)
    && !(f.notEmpty && |g.users| <= 0)
    && !(f.isPublic && !g.isPublic)
  }

  function NamesOf(list: seq<Summary>): set<string>
  {
    set i | 0 <= i < |list| :: list[i].name
  }

  lemma NamesOfAppend(list: seq<Summary>, s: Summary)
    ensures NamesOf(list + [s]) == NamesOf(list) + {s.name}
  {
    var l := list + [s];
    assert l[|list|] == s;
    forall n | n in NamesOf(list) ensures n in NamesOf(l) {
      var i :| 0 <= i < |list| && list[i].name == n;
      assert l[i] == list[i];
    }
  }

  /**
   * The guards of `create`, in the order they are tried, given whether the requester is
   * authorized, whether the name is taken, and which systems are installed. `None` means
   * the game is created.
   */
  function CreateCheck(authorized: bool, maxUsers: Option<int>, nameTaken: bool,
                       system: Option<string>, installed: set<string>): (err: Option<string>)
    ensures !authorized ==> err == Some(NotAuthorized)
    ensures authorized && (maxUsers.None? || maxUsers.value <= 0) ==> err == Some(NoPlayers)
    ensures authorized && maxUsers.Some? && maxUsers.value > 0 && nameTaken ==> err == Some(NameTaken)
    ensures (authorized && maxUsers.Some? && maxUsers.value > 0 && !nameTaken &&
             (system.None? || system.value == "" || system.value !in installed)) ==> err == Some(NoSystem)
    ensures err == None <==>
            authorized && maxUsers.Some? && maxUsers.value > 0 && !nameTaken &&
            system.Some? && system.value != "" && system.value in installed
  {
    if !authorized then Some(NotAuthorized)
    else if maxUsers.None? || maxUsers.value <= 0 then Some(NoPlayers)
    else if nameTaken then Some(NameTaken)
    else if system.None? || system.value == "" || system.value !in installed then Some(NoSystem)
    else None
  }

  /** `for (k in game.users) n++`: counts the members of a game. */
  method NumUsers(g: Session.Game) returns (n: nat)
    ensures n == |g.users|
  {
    n := 0;
    var remaining := g.users.Keys;
    while remaining != {}
      invariant remaining <= g.users.Keys
      invariant n + |remaining| == |g.users.Keys|
      decreases |remaining|
    {
      var k :| k in remaining;
      n := n + 1;
      remaining := remaining - {k};
    }
    assert |g.users| == |g.users.Keys|;
  }

  /**
   * The game states after `token` leaves each game of `names` in turn (a name with no
   * game is skipped), starting from `states`.
   */
  function AfterLeaves(states: map<string, Session.SessionState>, names: seq<string>, token: Token)
    : (r: map<string, Session.SessionState>)
    ensures forall n :: n in r <==> n in states
  {
    if names == [] then states
    else
      var m := AfterLeaves(states, names[..|names| - 1], token);
      var n := names[|names| - 1];
      if n in m then m[n := Session.AfterLeave(m[n], token)] else m
  }

  /**
   * Leaving the games of a list in turn leaves each listed game once, however often it is
   * listed, and leaves the others as they were.
   */
  lemma {:induction false} AfterLeavesAt(states: map<string, Session.SessionState>, names: seq<string>,
                                         token: Token, n: string)
    requires n in states
    ensures AfterLeaves(states, names, token)[n] ==
            if n in names then Session.AfterLeave(states[n], token) else states[n]
  {
    if names != [] {
      var init := names[..|names| - 1];
      AfterLeavesAt(states, init, token, n);
      assert names == init + [names[|names| - 1]];
      if n in init {
        Session.AfterLeaveIdempotent(states[n], token);
      }
    }
  }

  /** Every member of the game `n` is a user of the directory with `n` in their list of games. */
  predicate MembersListedIn(users: map<Token, Users.User>, n: string, members: map<Token, Session.ConnId>)
  {
    forall t :: t in members ==> t in users && n in users[t].games
  }

  /**
   * `logout`'s step for one game: once `token` has left it (when it is listed), no member is
   * the logged-out token and every member is still listed in the directory without it.
   */
  lemma LeaveKeepsListed(users: map<Token, Users.User>, token: Token, n: string,
                         before: Session.SessionState, after: Session.SessionState)
    requires token in users && MembersListedIn(users, n, before.users)
    requires after == if n in users[token].games then Session.AfterLeave(before, token) else before
    ensures token !in after.users
    ensures MembersListedIn(users - {token}, n, after.users)
  {
    Session.AfterLeaveMembers(before, token);
  }

  /** `connect` for the game `n`: the joiner is a member and has `n` appended to its list. */
  lemma ListenKeepsListed(users: map<Token, Users.User>, token: Token, n: string, maxUsers: int,
                          conn: Session.ConnId, before: Session.SessionState)
    requires token in users && MembersListedIn(users, n, before.users)
    requires Session.ListenResult(before, maxUsers, token, conn).Success?
    ensures MembersListedIn(users[token := users[token].(games := users[token].games + [n])], n,
                            Session.ListenResult(before, maxUsers, token, conn).value.users)
  {
    var u := users[token := users[token].(games := users[token].games + [n])];
    forall t | t in Session.ListenResult(before, maxUsers, token, conn).value.users
      ensures t in u && n in u[t].games
    {
      if t != token {
        assert t in before.users;
      } else {
        assert u[t].games[|u[t].games| - 1] == n;
      }
    }
  }

  /** Appending a game name to one user's list keeps every game's members listed. */
  lemma AppendKeepsListed(users: map<Token, Users.User>, token: Token, g: string, n: string,
                          members: map<Token, Session.ConnId>)
    requires token in users && MembersListedIn(users, n, members)
    ensures MembersListedIn(users[token := users[token].(games := users[token].games + [g])], n, members)
  {
    var u := users[token := users[token].(games := users[token].games + [g])];
    forall t | t in members
      ensures t in u && n in u[t].games
    {
      assert t == token ==> u[t].games[..|users[t].games|] == users[t].games;
    }
  }

  class Registry {
    /** key = auth token, value = user */
    var users: map<Token, Users.User>
    /** key = game name, value = game */
    var games: map<string, Session.Game>

    /**
     * Each game is registered under its own name (so distinct names hold distinct games)
     * and keeps its own invariant; every game a user has connected to is registered; and
     * every member of a game is a logged-in user who has connected to it.
     */
    ghost predicate Valid()
      reads this, games.Values
    {
      && GamesValid()
      && (forall t, n :: t in users && n in users[t].games ==> n in games)
      && MembersListed()
    }

    /** Every member of a registered game is a logged-in user with that game in their list. */
    ghost predicate MembersListed()
      reads this, games.Values
    {
      forall n :: n in games ==> MembersListedIn(users, n, games[n].users)
    }

    ghost predicate GamesValid()
      reads this`games, games.Values
    {
      forall n :: n in games ==> games[n].name == n && games[n].Valid()
    }

    /** The session state of every registered game, by name. */
    ghost function Sessions(): (m: map<string, Session.SessionState>)
      reads this`games, games.Values
      ensures forall n :: n in m <==> n in games
      ensures forall n :: n in games ==> m[n] == games[n].State()
    {
      map n | n in games :: games[n].State()
    }

    /** The units of every registered game, by name. */
    ghost function Boards(): (m: map<string, map<int, CheckersMan.Man>>)
      reads this`games, games.Values
      ensures forall n :: n in m <==> n in games
      ensures forall n :: n in games ==> m[n] == games[n].units
    {
      map n | n in games :: games[n].units
    }

    constructor ()
      ensures Valid() && users == map[] && games == map[]
    {
      users := map[];
      games := map[];
    }

    /** `Internal.isAuthTokenValid(authToken)`. */
    function IsAuthTokenValid(token: Token): (valid: bool)
      reads this
      ensures valid <==> token in users
    {
      Users.IsAuthTokenValid(users, token)
    }

    /**
     * The dummy `login`: the password check and the random token are inputs. Missing
     * (empty) name or password is refused first, then wrong credentials; on success a
     * fresh user with no games is stored under the token, which is returned. The random
     * sha256 token is taken to be one no logged-in user holds.
     */
    method Login(name: string, password: string, token: Token, credentialsOk: bool) returns (r: Result<Token, string>)
      requires Valid() && token !in users
      modifies this
      ensures Valid() && games == old(games)
      ensures name == "" || password == "" ==> r == Failure(BadArguments) && users == old(users)
      ensures name != "" && password != "" && !credentialsOk ==> r == Failure(BadCredentials) && users == old(users)
      ensures name != "" && password != "" && credentialsOk ==>
                r == Success(token) && users == old(users)[token := Users.NewUser(name)]
    {
      if name == "" || password == "" {
        return Failure(BadArguments);
      }
      if !credentialsOk {
        return Failure(BadCredentials);
      }
      users := users[token := Users.NewUser(name)];
      return Success(token);
    }

    /**
     * `logout(authToken)`: after the two guards, leaves every game in the user's list
     * (in list order) and then deletes only that token. Since every member of a game lists
     * it, the logged-out token is then a member of no game.
     */
    method Logout(token: Token) returns (err: Option<string>)
      requires Valid()
      modifies this, games.Values
      ensures Valid()
      ensures games == old(games)
      ensures err == Users.LogoutCheck(old(users), token)
      ensures err != None ==> users == old(users) && unchanged(games.Values)
      ensures err == None ==> token in old(users) && users == Users.Deleted(old(users), token)
      ensures err == None ==> forall n :: n in games ==>
                games[n].units == old(games[n].units) &&
                games[n].State() == if n in old(users[token].games)
                                    then Session.AfterLeave(old(games[n].State()), token)
                                    else old(games[n].State())
      ensures err == None ==> forall n :: n in games ==> token !in games[n].users
    {
      err := Users.LogoutCheck(users, token);
      if err != None {
        return;
      }
      ghost var before := Sessions();
      ghost var oldUsers := users;
      LeaveAll(token, users[token].games);
      users := users - {token};
      forall n | n in games
        ensures token !in games[n].users && MembersListedIn(users, n, games[n].users)
      {
        LeaveKeepsListed(oldUsers, token, n, before[n], games[n].State());
      }
    }

    /** The loop of `logout`: `token` leaves each named game in turn; nothing else changes. */
    method LeaveAll(token: Token, names: seq<string>)
      requires GamesValid() && forall n :: n in names ==> n in games
      modifies games.Values
      ensures GamesValid()
      ensures forall n :: n in games ==>
                games[n].units == old(games[n].units) &&
                games[n].State() == if n in names
                                    then Session.AfterLeave(old(games[n].State()), token)
                                    else old(games[n].State())
    {
      ghost var sessions := Sessions();
      ghost var boards := Boards();
      var i := 0;
      while i < |names|
        invariant 0 <= i <= |names|
        invariant LeftUpTo(sessions, boards, names[..i], token)
      {
        LeaveNext(sessions, boards, names, i, token);
        i := i + 1;
      }
      assert names[..i] == names;
      forall n | n in games
        ensures games[n].State() == if n in names
                                    then Session.AfterLeave(old(games[n].State()), token)
                                    else old(games[n].State())
      {
        AfterLeavesAt(sessions, names, token, n);
      }
    }

    /**
     * The loop invariant of `logout`'s loop: every game's units are as in `boards` and its
     * state is what leaving the games of `done` in turn makes of `sessions`.
     */
    ghost predicate LeftUpTo(sessions: map<string, Session.SessionState>,
                             boards: map<string, map<int, CheckersMan.Man>>, done: seq<string>, token: Token)
      reads this`games, games.Values
    {
      && GamesValid()
      && (forall n :: n in games ==> n in sessions && n in boards)
      && (forall n :: n in games ==>
            games[n].units == boards[n] && games[n].State() == AfterLeaves(sessions, done, token)[n])
    }

    /** One iteration of `logout`'s loop, leaving the game `names[i]`. */
    method LeaveNext(ghost sessions: map<string, Session.SessionState>,
                     ghost boards: map<string, map<int, CheckersMan.Man>>, names: seq<string>, i: nat,
                     token: Token)
      requires i < |names| && names[i] in games && LeftUpTo(sessions, boards, names[..i], token)
      modifies games[names[i]]
      ensures LeftUpTo(sessions, boards, names[..i + 1], token)
    {
      assert names[..i + 1][..i] == names[..i];
      LeaveOne(token, names[i]);
    }

    /** One step of the loop of `logout`: `token` leaves the game `name`; no other game changes. */
    method LeaveOne(token: Token, name: string)
      requires GamesValid() && name in games
      modifies games[name]
      ensures GamesValid()
      ensures forall n :: n in games ==> games[n].units == old(games[n].units)
      ensures games[name].State() == Session.AfterLeave(old(games[name].State()), token)
      ensures forall n :: n in games && n != name ==> games[n].State() == old(games[n].State())
    {
      var g := games[name];
      var ignored := g.Leave(token);
    }

    /**
     * The last step of `connect`, once the game `name` has accepted `token`: the name is
     * appended to the user's list of games, and the registry's invariant holds again.
     */
    method RecordGame(token: Token, name: string, conn: Session.ConnId, ghost before: Session.SessionState)
      requires GamesValid() && (forall t, n :: t in users && n in users[t].games ==> n in games)
      requires token in users && name in games
      requires Session.ListenResult(before, games[name].maxUsers, token, conn).Success?
      requires games[name].State() == Session.ListenResult(before, games[name].maxUsers, token, conn).value
      requires MembersListedIn(users, name, before.users)
      requires forall n :: n in games && n != name ==> MembersListedIn(users, n, games[n].users)
      modifies this`users
      ensures Valid() && games == old(games)
      ensures users == old(users)[token := old(users)[token].(games := old(users)[token].games + [name])]
    {
      ghost var oldUsers := users;
      users := users[token := users[token].(games := users[token].games + [name])];
      forall n | n in games
        ensures MembersListedIn(users, n, games[n].users)
      {
        if n == name {
          ListenKeepsListed(oldUsers, token, name, games[name].maxUsers, conn, before);
        } else {
          AppendKeepsListed(oldUsers, token, name, n, games[n].users);
        }
      }
    }

    /**
     * `listGames(user, filters)`: refused for an unknown token. With `myGames`, one summary
     * per name in the user's list, in list order, the other filters ignored; otherwise one
     * summary per registered game that passes the filters, each game once.
     */
    method ListGames(token: Token, filters: Filters) returns (r: Result<seq<Summary>, string>)
      requires Valid()
      ensures token !in users ==> r == Failure(NotAuthorized)
      ensures token in users ==> r.Success?
      ensures token in users && filters.myGames ==>
                |r.value| == |users[token].games| &&
                forall i :: 0 <= i < |r.value| ==> r.value[i] == SummaryOf(games[users[token].games[i]])
      ensures token in users && !filters.myGames ==>
                && (forall i :: 0 <= i < |r.value| ==>
                      r.value[i].name in games && Listed(games[r.value[i].name], filters) &&
                      r.value[i] == SummaryOf(games[r.value[i].name]))
                && (forall n :: n in games && Listed(games[n], filters) ==> n in NamesOf(r.value))
                && (forall i, j :: 0 <= i < j < |r.value| ==> r.value[i].name != r.value[j].name)
    {
      if token !in users {
        return Failure(NotAuthorized);
      }
      var list;
      if filters.myGames {
        list := MyGames(users[token].games);
      } else {
        list := FilteredGames(filters);
      }
      return Success(list);
    }

    /**
     * What the filtering loop of `listGames` has built after scanning the names in `scanned`:
     * every entry summarises a scanned game that passes `f`, every scanned game that passes
     * `f` has an entry, and no name has two.
     */
    ghost predicate Scanned(list: seq<Summary>, scanned: set<string>, f: Filters)
      reads this`games, games.Values
    {
      && (forall i :: 0 <= i < |list| ==>
            && list[i].name in scanned && list[i].name in games
            && Listed(games[list[i].name], f) && list[i] == SummaryOf(games[list[i].name]))
      && (forall n :: n in scanned && n in games && Listed(games[n], f) ==> n in NamesOf(list))
      && (forall i, j :: 0 <= i < j < |list| ==> list[i].name != list[j].name)
    }

    /** Scanning a game the filters reject adds nothing. */
    lemma ScannedSkip(list: seq<Summary>, scanned: set<string>, f: Filters, n: string)
      requires Scanned(list, scanned, f)
      requires n in games && !Listed(games[n], f)
      ensures Scanned(list, scanned + {n}, f)
    {
    }

    /** Scanning a new game the filters accept appends its summary. */
    lemma ScannedAppend(list: seq<Summary>, scanned: set<string>, f: Filters, n: string, s: Summary)
      requires Scanned(list, scanned, f) && n !in scanned
      requires n in games && Listed(games[n], f) && s == SummaryOf(games[n]) && s.name == n
      ensures Scanned(list + [s], scanned + {n}, f)
    {
      var l := list + [s];
      NamesOfAppend(list, s);
      forall i | 0 <= i < |l|
        ensures && l[i].name in scanned + {n} && l[i].name in games
                && Listed(games[l[i].name], f) && l[i] == SummaryOf(games[l[i].name])
      {
        if i < |list| {
          assert l[i] == list[i];
        }
      }
      forall i, j | 0 <= i < j < |l|
        ensures l[i].name != l[j].name
      {
        assert l[i] == list[i];
        if j < |list| {
          assert l[j] == list[j];
        }
      }
    }

    /** The `myGames` branch of `listGames`: one summary per name, in order. */
    method MyGames(names: seq<string>) returns (list: seq<Summary>)
      requires forall n :: n in names ==> n in games
      ensures |list| == |names|
      ensures forall i :: 0 <= i < |names| ==> list[i] == SummaryOf(games[names[i]])
    {
      list := [];
      var i := 0;
      while i < |names|
        invariant 0 <= i <= |names|
        invariant |list| == i
        invariant forall k :: 0 <= k < i ==> list[k] == SummaryOf(games[names[k]])
      {
        var game := games[names[i]];
        var numUsers := NumUsers(game);
        list := list + [Summary("", game.name, game.isPublic, numUsers, game.maxUsers)];
        i := i + 1;
      }
    }

    /** The filtering branch of `listGames`: each registered game that passes the filters, once. */
    method FilteredGames(filters: Filters) returns (list: seq<Summary>)
      requires forall n :: n in games ==> games[n].name == n
      ensures forall i :: 0 <= i < |list| ==>
                list[i].name in games && Listed(games[list[i].name], filters) &&
                list[i] == SummaryOf(games[list[i].name])
      ensures forall n :: n in games && Listed(games[n], filters) ==> n in NamesOf(list)
      ensures forall i, j :: 0 <= i < j < |list| ==> list[i].name != list[j].name
    {
      list := [];
      var remaining := games.Keys;
      ghost var done: set<string> := {};
      while remaining != {}
        invariant forall n :: n in games <==> n in done || n in remaining
        invariant done !! remaining
        invariant Scanned(list, done, filters)
        decreases |remaining|
      {
        var gameName :| gameName in remaining;
        var game := games[gameName];
        var numUsers := NumUsers(game);
        remaining := remaining - {gameName};
        if || (filters.notFull && numUsers >= game.maxUsers)
           || (filters.notEmpty && numUsers <= 0)
           || (filters.isPublic && !game.isPublic)
        {
          ScannedSkip(list, done, filters, gameName);
          done := done + {gameName};
          continue;
        }
        var summary := Summary("", game.name, game.isPublic, numUsers, game.maxUsers);
        ScannedAppend(list, done, filters, gameName, summary);
        done := done + {gameName};
        list := list + [summary];
      }
    }

    /**
     * `create(user, game)`: the guards of `CreateCheck` in order, each leaving `games` as it
     * was; on success exactly one entry is added, `name` to a new public, empty game with
     * that name and `maxUsers` and the checkers board, and the name is returned. The
     * installed systems (a check that the system's directory exists, in the source) are an input.
     */
    method Create(token: Token, name: string, maxUsers: Option<int>, system: Option<string>,
                  installed: set<string>) returns (r: Result<string, string>)
      requires Valid()
      modifies this
      ensures Valid() && users == old(users)
      ensures var err := CreateCheck(token in old(users), maxUsers, name in old(games), system, installed);
        && (err.Some? ==> r == Failure(err.value) && games == old(games))
        && (err.None? ==> r == Success(name))
      ensures r.Success? ==>
                && (forall n :: n in games <==> n in old(games) || n == name)
                && (forall n :: n in old(games) ==> games[n] == old(games)[n])
                && fresh(games[name])
                && games[name].maxUsers == maxUsers.value && games[name].isPublic
                && games[name].State() == Session.SessionState(map[], [], [])
                && Checkers.IsInitialBoard(games[name].units)
    {
      var err := CreateCheck(token in users, maxUsers, name in games, system, installed);
      if err.Some? {
        return Failure(err.value);
      }
      var game := new Session.Game(name, maxUsers.value);
      games := games[name := game];
      return Success(game.name);
    }
  }
}
