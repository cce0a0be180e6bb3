# wargames-node: a Dafny model of the game server core

This project models the core of the wargames-node server. That server lets logged-in clients create, list and join board-game sessions over JSON-RPC. Inside a session, clients chat and broadcast moves. The model covers:

- **Registry** (`App.Registry`, lib/app.js and lib/user.js). It holds two dictionaries: auth token to user, and game name to game. On top of them it implements `login`, `logout`, `listGames` and `create`.
- **Game session** (`Session.Game`, game.js). A game has a name, a capacity and a public flag. The clients listening to it are modelled as an ordered list of subscribers, and the calls its event emitter makes to each connection are modelled as an ordered delivery trace. The operations are `listen`, `leave`, `chat` and `move`.
- **Game RPC guards** (`GameRpc`, lib/game.js). These are the handlers `connect`, `chat` and `move`, which look the game up by name and delegate to it.
- **Checkers plug-in** (`Checkers`, `CheckersMan`, `Units`, `Errors`). It covers the initial board of 24 men, the diagonal-move rule of a man, the base unit, and the `WargamesError` prototype chain.

The parts that change state in place are Dafny classes: the registry and each game. Every game operation is specified twice:

- once by a pure function on a `SessionState` value: `ListenResult`, `LeaveResult`/`AfterLeave`, `ChatResult` and `MoveResult`;
- once by a method of `Game`, whose `ensures` ties the new state to that function.

The lemmas beside the functions prove what the source promises: capacity, membership and connection binding, fan-out of each event to every subscriber, that a leaver hears nothing further, idempotence, and preservation of the session invariants.

Some behaviours of the code are easy to miss, and the model keeps them as written:

- **`joined` and `left` carry no data.** Both events are emitted with the bare token string (game.js:79, game.js:107). Each listener forwards `event.data`, which is undefined for a string, so these calls carry no data (`JoinedCall`, `LeftCall`).
- **`move` broadcasts the whole `user` object**, including its auth token (game.js:135). Neither the handler nor the game checks membership or the token.
- **A repeated `listen` is not refused as a duplicate.** Below capacity, a token that is already a member adds a second subscriber entry and rebinds its connection (game.js:82-87); at capacity it is refused with "Game is full" like any other `listen`.
- **The RPC handlers reply only on failure.** The handlers of lib/game.js never call their callback on success, so `None` in the model means "no reply".

Where the code cannot run as written, each module's header comment says which repair the model makes. Examples: undefined `games`/`users` in lib/game.js, `this.users.length` on a dictionary, `leave` removing out-of-scope listeners and never removing the member (the model removes it), `logout` iterating over a User object.

## Model

| member | source | states |
|---|---|---|
| Errors.Chain | systems/wargames/error.js:6-7 | every prototype chain starts at its own prototype and ends at `Error.prototype` |
| Errors.NewError | systems/wargames/error.js:6-7 | stands for JavaScript's built-in `Error` constructor, whose prototype `WargamesError` chains to: a plain `Error` keeps its message, is an `Error` and is not a `WargamesError` |
| Errors.NewWargamesError | systems/wargames/error.js:9-12 | a `WargamesError` keeps its message and is both a `WargamesError` and an `Error` |
| Errors.WargamesErrorDistinguishable | test/errortest.js:10-15 | every error is an `Error`; it is a `WargamesError` exactly when it was built by that constructor |
| Units.NewUnit | lib/systems/wargames/unit.js:13-18 | a new unit stands at the given coordinates and belongs to no game |
| Units.Move | lib/systems/wargames/unit.js:20-22 | the base unit accepts every move and is left unchanged |
| CheckersMan.NewMan | systems/checkers/man.js:14-16 | a man is a unit at the given coordinates with no game |
| CheckersMan.Move | systems/checkers/man.js:24-29 | a move is refused exactly when it keeps the man's row or column; the refusal is a `WargamesError` with the diagonal message; an accepted move leaves the man as it was |
| CheckersMan.MoveIgnoresZ | systems/checkers/man.js:27 | the outcome of a move does not depend on the target's z coordinate |
| CheckersMan.MoveAcceptsKnightStep | systems/checkers/man.js:27-28 | the check accepts a knight's step, which is not a diagonal move |
| Checkers.PreStart | systems/checkers/setup.js:13-14 | `preStart` leaves the units unchanged |
| Checkers.Setup | systems/checkers/setup.js:20-34 | the two loops build exactly the initial board |
| Checkers.FilledSize | systems/checkers/setup.js:24-31 | the number of men placed after each index of the two loops |
| Checkers.BoardKeys | systems/checkers/setup.js:24-31 | the board is keyed by 0..11 and 20..31 and holds 24 men |
| Checkers.BoardLayout | systems/checkers/setup.js:24-31 | key `4r+m` of rows 0-2 and 5-7 holds the man at `(2m + r mod 2, r, 0)` |
| Checkers.BoardSquares | systems/checkers/setup.js:24-31 | light men stand on rows 0-2 and dark men on rows 5-7, all on the board, on squares of one colour, at z = 0, with no game |
| Checkers.BoardSquaresDistinct | systems/checkers/setup.js:24-31 | no two men share a square |
| Session.Forwarded | game.js:67-78 | each event becomes the call of its own name; `chatted` and `moved` forward their payload, and `joined` and `left` forward nothing |
| Session.Deliveries | game.js:79-85 | an emitted event reaches every subscriber, in subscription order, one call each |
| Session.Repeat | game.js:79-85 | n copies of one call |
| Session.Unsubscribed | game.js:103-106 | removing a token's listeners keeps exactly the subscribers of other tokens |
| Session.UnsubscribedAppend | game.js:103-106 | the removal works entry by entry over a concatenation, so the kept subscribers keep their order and their number |
| Session.UnsubscribedSingle | game.js:103-106 | one entry is kept exactly when it belongs to another token |
| Session.DeliveriesLog | game.js:79-85 | a connection receives one copy of the forwarded call per subscription it holds |
| Session.BroadcastTrace | game.js:79-85 | an emit keeps the old trace as a prefix and appends one delivery per subscriber after it, in subscription order |
| Session.BroadcastLog | game.js:79-85 | after an emit, a connection's log is its old log plus one call per subscription it holds |
| Session.LogOfAppend | game.js:79-85 | a connection's log of two trace segments is the concatenation of its logs |
| Session.CountMember | game.js:82-85 | a subscribed connection holds at least one subscription |
| Session.CountAbsent | game.js:82-85 | a connection with no subscriber entry holds none |
| Session.ListenCapacity | game.js:57-60 | `listen` is refused exactly when the game is full, with "Game is full", and then nothing changes |
| Session.ListenBinds | game.js:79-88 | after `listen` the token is a member bound to the connection, a subscriber entry for it is appended last, and every other member stays a member on its own connection |
| Session.ListenKeepsInvariants | game.js:82-88 | `listen` keeps every member subscribed and every subscriber a member, and keeps the game within capacity |
| Session.ListenJoinedFanOut | game.js:79-85 | every client already subscribed hears `joined` once per subscription; the joining connection hears it only if it was already subscribed |
| Session.LeaveNonMember | game.js:98-101 | `leave` by a non-member is refused with "Invalid authToken" and changes nothing |
| Session.LeaveUnsubscribes | game.js:103-107 | `leave` by a member succeeds, removes the token and all its subscriptions, and the remaining subscribers each hear `left` |
| Session.LeaveKeepsConsistent | game.js:103-107 | leaving keeps the membership and the subscriber list consistent |
| Session.LeaveWithinCapacity | game.js:96-108 | leaving never takes a game over capacity |
| Session.LeaverHearsNothing | game.js:103-107 | a leaver whose connection served only its own token receives neither its own `left` nor any later broadcast |
| Session.AfterLeaveMembers | game.js:96-108 | after a leave, refused or not, the members are the old members other than the leaver |
| Session.AfterLeaveIdempotent | game.js:98-101 | leaving twice is the same as leaving once |
| Session.ChatNonMember | game.js:118-121 | a chat from a non-member is refused with "Invalid authToken" |
| Session.ChatEchoes | game.js:118-123 | a member's chat succeeds, changes no membership, and every subscribed client, the sender included, hears it |
| Session.MoveFanOut | game.js:133-136 | a move changes no membership and reaches every subscribed client with the user, unit and move |
| Session.Game.constructor | game.js:21-46 | a new game has its name, capacity and the public flag, no members, no subscribers, nothing delivered, and the checkers initial board |
| Session.Game.Emit | game.js:79 | an emit appends one delivery per subscriber to the trace |
| Session.Game.Listen | game.js:55-89 | `listen` performs `ListenResult` in place: the reply is "Game is full" exactly when it is refused, and the units never change |
| Session.Game.Leave | game.js:96-108 | `leave` performs `AfterLeave` in place and replies "Invalid authToken" exactly for a non-member |
| Session.Game.Chat | game.js:116-124 | `chat` performs `ChatResult` in place, with the refusal as the reply |
| Session.Game.Move | game.js:133-136 | `move` performs `MoveResult` in place |
| Users.NewUser | lib/user.js:16-19 | a new user has the given name and no games |
| Users.IsAuthTokenValid | lib/user.js:23-25 | a token is valid exactly when it is in the directory |
| Users.LogoutCheck | lib/user.js:85-93 | logout refuses an empty token first, then an unknown one, and passes exactly the valid non-empty tokens |
| Users.Deleted | lib/user.js:99-100 | deleting a user removes exactly that token and keeps every other entry |
| App.CreateCheck | lib/app.js:178-199 | `create`'s guards in order: unauthorized, no positive player count, name taken, system missing or not installed; a game is created exactly when all pass |
| App.NumUsers | lib/app.js:128 | the counting loop returns the number of members |
| App.NamesOfAppend | lib/app.js:133-139 | appending a summary adds exactly its name to the listed names |
| App.AfterLeaves | lib/app.js:87-89 | leaving listed games in turn keeps the set of game names |
| App.AfterLeavesAt | lib/app.js:87-89 | leaving the user's games in turn leaves each listed game once, however often it is listed, and leaves the others as they were |
| App.Registry.constructor | lib/app.js:9-10 | the registry starts with no users and no games |
| App.Registry.IsAuthTokenValid | lib/app.js:13-15 | a token is valid exactly when a user is stored under it |
| App.Registry.Login | lib/app.js:218-235 | missing name or password gives "Bad arguments", then bad credentials give the credentials message, and neither changes anything; otherwise a new user with no games is stored under the token that is returned |
| App.Registry.Logout | lib/app.js:73-92 | the reply is the logout guard's; on refusal nothing changes; on success the user is deleted, each of the user's games (and only those) is in the state `leave` makes of it, the logged-out token is a member of no game, and all boards are unchanged |
| App.LeaveKeepsListed | lib/app.js:86-90 | once a logged-out user has left a game it is listed for, the token is no member of it and every remaining member is still a listed user |
| App.ListenKeepsListed | lib/game.js:43-45 | after a successful listen and the name's append, every member of the joined game is a user with that game in their list |
| App.AppendKeepsListed | lib/game.js:45 | appending a game name to one user's list keeps every game's members listed |
| App.Registry.LeaveAll | lib/app.js:87-89 | the loop leaves exactly the listed games, each as one `leave`, and changes no board |
| App.Registry.LeaveNext | lib/app.js:87-89 | one loop iteration extends the games left by the next listed name |
| App.Registry.LeaveOne | lib/app.js:88 | one `leave` changes only its own game's session state |
| App.Registry.RecordGame | lib/game.js:45 | the user's list gets the joined game appended, and the registry's invariant, including that every member of a game is a user listing it, holds again |
| App.Registry.ListGames | lib/app.js:100-145 | an unknown token is refused; `myGames` gives the user's games in list order; otherwise the result is exactly the games passing the filters, each once |
| App.Registry.MyGames | lib/app.js:111-121 | one summary per name in the user's list, in list order |
| App.Registry.FilteredGames | lib/app.js:125-140 | every listed summary is a registered game that passes the filters, every such game is listed, and no name is listed twice |
| App.Registry.ScannedSkip | lib/app.js:129-131 | skipping a game that a filter rejects keeps the scan invariant |
| App.Registry.ScannedAppend | lib/app.js:133-139 | listing a game that passes the filters keeps the scan invariant |
| App.Registry.Create | lib/app.js:173-214 | the reply is `CreateCheck`'s; on refusal the games are unchanged; on success the name is returned and a fresh game is added under it with the given capacity, public, empty, on the checkers initial board, and every other game is kept |
| GameRpc.Connect | lib/game.js:27-46 | unknown token, then unknown game, are refused and change nothing; otherwise the game's `listen` decides, and only after a successful listen is the name appended to the user's games; no other game changes |
| GameRpc.Join | lib/game.js:42-45 | after the guards, the game's `listen` decides; only a successful listen appends the name to the user's games and makes the user a member; the registry invariant holds again and no other game changes |
| GameRpc.ListenOne | lib/game.js:43 | the named game performs `listen` and no other game changes |
| GameRpc.Chat | lib/game.js:54-65 | an unknown game is refused; otherwise the game's `chat` decides; the users never change |
| GameRpc.Move | lib/game.js:73-85 | an unknown game is refused; otherwise the move is broadcast with no reply |

## Left out

- **Sockets and transport.** Network I/O, the JSON-RPC transport and the `connection.stream` hook are not modelled. A connection is an identity (`ConnId`), and a `connection.call` is a delivery recorded in the game's trace. The trace is kept per game, so when one connection listens to two games, the order of the calls it receives from the two games relative to each other is not modelled.
- **Logging.** Console logging is not modelled.
- **Login inputs.** The bcrypt credential check and the random sha256 token of `login` are parameters: `credentialsOk` and `token`.
- **Installed systems.** The `lstatSync(...).isDirectory()` check of `create` (lib/app.js:196) is the `installed` parameter. A system that is not installed gets the "system undefined" reply. The exception `lstatSync` throws for a missing directory is not modelled.
- **listSystems.** `listSystems` (lib/app.js:153-165) only reads the file system and is not modelled.
- **Sandbox.** The vm2 sandbox and game timeouts (commented out in the source) are not modelled.
- **Server startup.** wargames-server.js and index.js (module wiring) are not part of this model.
- **Concurrency.** Node's single-threaded event loop makes each handler atomic, which is what the model assumes.
- **Malformed arguments.** A missing or malformed RPC argument throws in the source. The model takes the named arguments as given.
- **Key order of `listGames`.** App.Registry.FilteredGames: the result is stated as a set of distinct names, not in the JavaScript key order of `for…in`.
- **Prototype keys.** Object property lookup of keys such as `"constructor"` (prototype properties that are truthy) is not modelled. The dictionaries are maps.
- **Payloads.** Unit and move payloads of `move` are opaque `Json` values.
- **Man's prototype.** `Man.prototype` is built from the `WargamesUnit` constructor function rather than its prototype, so a man does not inherit the unit's `move`. The model gives `Man` its own `Move` and does not model JavaScript prototype lookup beyond the error chain.
- **Checkers for every system.** Every created game gets the checkers board, whichever installed system is named. Checkers is the only system in this model.
- **King.** The checkers King unit is not part of this model.
- **Unit objects as values.** `Man` and `Unit` are values, because no code of the core updates their fields after construction.
- App.Registry.Logout: a `leave` refused inside `logout` throws in the source, because no callback is given. That throw ends the whole logout: the remaining games are not left, `delete users[authToken]` never runs and no reply is sent. The model instead lets the refused leave change nothing and goes on to log the user out. A leave is refused when a name is listed twice, which a second `connect` to the same game causes.
- App.Registry.Login: requires a token that no logged-in user holds, standing for the fresh random sha256 token; a collision of two random tokens, which would overwrite a user, is not modelled.
- GameRpc.Chat: the handler's token argument is not checked at this level, as in the source. Membership is checked by the game.
- GameRpc.Move: neither the handler nor the game checks the token, as in the source.
