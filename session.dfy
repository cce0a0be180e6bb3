/**
 * One game session (game.js): membership, capacity and the event fan-out to
 * the clients listening to the game.
 *
 * The `EventEmitter` of a game is modelled as its ordered list of subscribers:
 * `listen` registers the four listeners of a client together and `leave` removes
 * them together, so one `Subscriber` entry stands for the four. `emit` calls the
 * listeners in registration order; each call is `connection.call(event, data)`,
 * which the model records as one `Delivery` appended to the game's delivery trace.
 * The log of a connection is the subsequence of the trace addressed to it.
 *
 * The state changes are specified twice: by pure functions on a `SessionState`
 * value (`ListenResult`, `LeaveResult`, `ChatResult`, `MoveResult`), about which
 * the lemmas below prove what the source promises, and by the methods of class
 * `Game`, which perform them in place and are proved to agree with those functions.
 *
 * Source repairs (the code as written cannot run):
 * - `this.users` is never initialised and is used as a dictionary whose `.length`
 *   is compared with `maxUsers`; the model makes it a map from token to connection
 *   and compares its number of keys.
 * - `leave` removes listener closures that are not in scope and never deletes
 *   `users[authToken]`; the model removes every subscriber entry of that token,
 *   then emits `left`, then deletes the token from `users`.
 */
module Session {
  import opened Types
  import CheckersMan
  import Checkers

  /** The identity of a client's connection object. */
  type ConnId = nat

  /** The `user` argument a client sends with a request: its token and the name it gives. */
  datatype Caller = Caller(authToken: Token, name: string)

  /** The events a game emits, with the data each carries. */
  datatype Event =
    | Joined(token: Token)
    | Left(token: Token)
    | Chatted(name: string, text: string)
    | Moved(user: Caller, unit: Json, move: Json)

  /** The listeners one `listen` call registered: for this token, delivering to this connection. */
  datatype Subscriber = Subscriber(token: Token, conn: ConnId)

  /**
   * What a listener passes to `connection.call`: the event's name and the `data` property of
   * the value the event was emitted with. `joined` and `left` are emitted with the bare token
   * string, whose `data` property is undefined, so those calls carry no data.
   */
  datatype Call =
    | JoinedCall
    | LeftCall
    | ChattedCall(name: string, text: string)
    | MovedCall(user: Caller, unit: Json, move: Json)

  /** The call every listener makes for an emitted event. */
  function Forwarded(e: Event): (c: Call)
    ensures e.Joined? <==> c == JoinedCall
    ensures e.Left? <==> c == LeftCall
    ensures e.Chatted? ==> c == ChattedCall(e.name, e.text)
    ensures e.Moved? ==> c == MovedCall(e.user, e.unit, e.move)
  {
    match e
    case Joined(_) => JoinedCall
    case Left(_) => LeftCall
    case Chatted(name, text) => ChattedCall(name, text)
    case Moved(user, unit, move) => MovedCall(user, unit, move)
  }

  /** One `connection.call(...)` made by a listener. */
  datatype Delivery = Delivery(conn: ConnId, call: Call)

  /** What one `emit(e)` delivers: one call per subscriber, in subscription order. */
  function Deliveries(subs: seq<Subscriber>, e: Event): (d: seq<Delivery>)
    ensures |d| == |subs|
    ensures forall i :: 0 <= i < |subs| ==> d[i] == Delivery(subs[i].conn, Forwarded(e))
  {
    seq(|subs|, i requires 0 <= i < |subs| => Delivery(subs[i].conn, Forwarded(e)))
  }

  /** The calls of `trace` made on connection `c`, in order. */
  function LogOf(trace: seq<Delivery>, c: ConnId): seq<Call>
  {
    if trace == [] then []
    else
      var last := trace[|trace| - 1];
      LogOf(trace[..|trace| - 1], c) + (if last.conn == c then [last.call] else [])
  }

  /** The number of subscriber entries that deliver to connection `c`. */
  function Count(subs: seq<Subscriber>, c: ConnId): nat
  {
    if subs == [] then 0
    else Count(subs[..|subs| - 1], c) + (if subs[|subs| - 1].conn == c then 1 else 0)
  }

  /** `n` copies of `e`. */
  function Repeat(e: Call, n: nat): (r: seq<Call>)
    ensures |r| == n && forall i :: 0 <= i < n ==> r[i] == e
  {
    if n == 0 then [] else Repeat(e, n - 1) + [e]
  }

  /** The subscriber list after the listeners of `token` have been removed; the others keep their order. */
  function Unsubscribed(subs: seq<Subscriber>, token: Token): (r: seq<Subscriber>)
    ensures forall s :: s in r <==> s in subs && s.token != token
  {
    if subs == [] then []
    else
      var last := subs[|subs| - 1];
      Unsubscribed(subs[..|subs| - 1], token) + (if last.token == token then [] else [last])
  }

  /**
   * Removing a token's listeners works entry by entry: the list of a concatenation is the
   * concatenation of the lists, so the kept entries keep their order and their number.
   */
  lemma {:induction false} UnsubscribedAppend(a: seq<Subscriber>, b: seq<Subscriber>, token: Token)
    ensures Unsubscribed(a + b, token) == Unsubscribed(a, token) + Unsubscribed(b, token)
    decreases |b|
  {
    if b == [] {
      assert a + b == a;
    } else {
      var init, last := b[..|b| - 1], b[|b| - 1];
      var kept := if last.token == token then [] else [last];
      assert b == init + [last];
      assert a + b == (a + init) + [last];
      var ua, ui := Unsubscribed(a, token), Unsubscribed(init, token);
      UnsubscribedAppend(a, init, token);
      UnsubscribedSnoc(a + init, last, token);
      UnsubscribedSnoc(init, last, token);
      SubscribersAssoc(ua, ui, kept);
    }
  }

  lemma SubscribersAssoc(x: seq<Subscriber>, y: seq<Subscriber>, z: seq<Subscriber>)
    ensures (x + y) + z == x + (y + z)
  {
  }

  /** One entry is kept exactly when it belongs to another token. */
  lemma UnsubscribedSingle(sub: Subscriber, token: Token)
    ensures Unsubscribed([sub], token) == if sub.token == token then [] else [sub]
  {
    UnsubscribedSnoc([], sub, token);
    assert [] + [sub] == [sub];
  }

  /** Appending one entry to the list appends it to the kept entries when it belongs to another token. */
  lemma UnsubscribedSnoc(subs: seq<Subscriber>, sub: Subscriber, token: Token)
    ensures Unsubscribed(subs + [sub], token) == Unsubscribed(subs, token) + (if sub.token == token then [] else [sub])
  {
    assert (subs + [sub])[..|subs|] == subs;
  }

  // ---------------------------------------------------------------------------
  // Delivery logs

  lemma {:induction false} LogOfAppend(t1: seq<Delivery>, t2: seq<Delivery>, c: ConnId)
    ensures LogOf(t1 + t2, c) == LogOf(t1, c) + LogOf(t2, c)
    decreases |t2|
  {
    if t2 != [] {
      var init := t2[..|t2| - 1];
      assert (t1 + t2)[..|t1 + t2| - 1] == t1 + init;
      LogOfAppend(t1, init, c);
    } else {
      assert t1 + t2 == t1;
    }
  }

  /**
   * Appending a broadcast to a trace keeps the old trace as a prefix and adds one delivery per
   * subscriber after it, in subscription order.
   */
  lemma BroadcastTrace(trace: seq<Delivery>, subs: seq<Subscriber>, e: Event)
    ensures var t := trace + Deliveries(subs, e);
      && |t| == |trace| + |subs| && t[..|trace|] == trace
      && forall i :: 0 <= i < |subs| ==> t[|trace| + i] == Delivery(subs[i].conn, Forwarded(e))
  {
    var d := Deliveries(subs, e);
    var t := trace + d;
    assert t[..|trace|] == trace;
    forall i | 0 <= i < |subs|
      ensures t[|trace| + i] == Delivery(subs[i].conn, Forwarded(e))
    {
      assert t[|trace| + i] == d[i];
    }
  }

  /** The calls one broadcast makes to connection `c`: one per subscriber entry of `c`. */
  lemma {:induction false} DeliveriesLog(subs: seq<Subscriber>, e: Event, c: ConnId)
    ensures LogOf(Deliveries(subs, e), c) == Repeat(Forwarded(e), Count(subs, c))
    decreases |subs|
  {
    if subs != [] {
      var init := subs[..|subs| - 1];
      var d := Deliveries(subs, e);
      assert d[..|d| - 1] == Deliveries(init, e);
      DeliveriesLog(init, e, c);
    }
  }

  /**
   * Broadcasting `e` to `subs` appends to the log of every connection exactly as many copies
   * of `e` as it has subscriber entries, and nothing to any other connection.
   */
  lemma BroadcastLog(trace: seq<Delivery>, subs: seq<Subscriber>, e: Event, c: ConnId)
    ensures LogOf(trace + Deliveries(subs, e), c) == LogOf(trace, c) + Repeat(Forwarded(e), Count(subs, c))
  {
    LogOfAppend(trace, Deliveries(subs, e), c);
    DeliveriesLog(subs, e, c);
  }

  lemma {:induction false} CountMember(subs: seq<Subscriber>, s: Subscriber)
    requires s in subs
    ensures Count(subs, s.conn) >= 1
    decreases |subs|
  {
    var init := subs[..|subs| - 1];
    if subs[|subs| - 1] != s {
      assert subs == init + [subs[|subs| - 1]];
      CountMember(init, s);
    }
  }

  lemma {:induction false} CountAbsent(subs: seq<Subscriber>, c: ConnId)
    requires forall s :: s in subs ==> s.conn != c
    ensures Count(subs, c) == 0
    decreases |subs|
  {
    if subs != [] {
      var init := subs[..|subs| - 1];
      assert forall s :: s in init ==> s in subs;
      CountAbsent(init, c);
    }
  }

  // ---------------------------------------------------------------------------
  // The session state and its operations as functions

  /** A game's mutable state: members (token to connection), subscribers, and every delivery so far. */
  datatype SessionState = SessionState(users: map<Token, ConnId>, subscribers: seq<Subscriber>, delivered: seq<Delivery>)

  /** Every subscriber is a member, and every member is subscribed with its current connection. */
  ghost predicate Consistent(s: SessionState)
  {
    && (forall i :: 0 <= i < |s.subscribers| ==> s.subscribers[i].token in s.users)
    && (forall t :: t in s.users ==> Subscriber(t, s.users[t]) in s.subscribers)
  }

  /** No more members than `maxUsers` (a game whose `maxUsers` is not positive stays empty). */
  predicate WithinCapacity(s: SessionState, maxUsers: int)
  {
    |s.users| == 0 || |s.users| <= maxUsers
  }

  /**
   * `listen(authToken, connection)`: refused with "Game is full" at capacity; otherwise
   * `joined` is emitted to the current subscribers BEFORE the new client subscribes,
   * and then the token is bound to the connection.
   */
  function ListenResult(s: SessionState, maxUsers: int, token: Token, conn: ConnId): Result<SessionState, string>
  {
    if |s.users| >= maxUsers then Failure("Game is full")
    else Success(SessionState(
      s.users[token := conn],
      s.subscribers + [Subscriber(token, conn)],
      s.delivered + Deliveries(s.subscribers, Joined(token))))
  }

  /**
   * `leave(authToken)`: refused with "Invalid authToken" for a non-member; otherwise the
   * client's listeners are removed BEFORE `left` is emitted, and the token is no longer a member.
   */
  function LeaveResult(s: SessionState, token: Token): Result<SessionState, string>
  {
    if token !in s.users then Failure("Invalid authToken")
    else
      var subs := Unsubscribed(s.subscribers, token);
      Success(SessionState(s.users - {token}, subs, s.delivered + Deliveries(subs, Left(token))))
  }

  /** `chat(user, message)`: refused with "Invalid authToken" for a non-member; otherwise `chatted` goes to every subscriber. */
  function ChatResult(s: SessionState, user: Caller, text: string): Result<SessionState, string>
  {
    if user.authToken !in s.users then Failure("Invalid authToken")
    else Success(s.(delivered := s.delivered + Deliveries(s.subscribers, Chatted(user.name, text))))
  }

  /** `move(user, unit, move)`: `moved` goes to every subscriber; there is no membership check. */
  function MoveResult(s: SessionState, user: Caller, unit: Json, move: Json): SessionState
  {
    s.(delivered := s.delivered + Deliveries(s.subscribers, Moved(user, unit, move)))
  }

  /** The state after `leave` whether or not it succeeded (a refused leave changes nothing). */
  function AfterLeave(s: SessionState, token: Token): SessionState
  {
    match LeaveResult(s, token)
    case Success(s') => s'
    case Failure(_) => s
  }

  // ---------------------------------------------------------------------------
  // Properties of the operations

  /** A listen at or above capacity fails with "Game is full"; below capacity it succeeds. */
  lemma ListenCapacity(s: SessionState, maxUsers: int, token: Token, conn: ConnId)
    ensures ListenResult(s, maxUsers, token, conn).Failure? <==> |s.users| >= maxUsers
    ensures ListenResult(s, maxUsers, token, conn).Failure? ==>
              ListenResult(s, maxUsers, token, conn).error == "Game is full"
  {
  }

  /**
   * A successful listen binds the token to the connection, adds one member (none when the
   * token was already a member), keeps every other member on its own connection, and
   * subscribes the client last.
   */
  lemma ListenBinds(s: SessionState, maxUsers: int, token: Token, conn: ConnId)
    requires ListenResult(s, maxUsers, token, conn).Success?
    ensures var s' := ListenResult(s, maxUsers, token, conn).value;
      && token in s'.users && s'.users[token] == conn
      && (forall t :: t != token ==> (t in s'.users <==> t in s.users))
      && (forall t :: t in s.users && t != token ==> s'.users[t] == s.users[t])
      && |s'.users| == |s.users| + (if token in s.users then 0 else 1)
      && s'.subscribers[..|s.subscribers|] == s.subscribers
      && s'.subscribers[|s.subscribers|] == Subscriber(token, conn)
  {
    var s' := ListenResult(s, maxUsers, token, conn).value;
    assert s'.subscribers == s.subscribers + [Subscriber(token, conn)];
    if token !in s.users {
      assert s'.users.Keys == s.users.Keys + {token};
      assert |s'.users.Keys| == |s.users.Keys| + 1;
    } else {
      assert s'.users.Keys == s.users.Keys;
    }
  }

  /** A successful listen keeps every subscriber a member and the members within capacity. */
  lemma ListenKeepsInvariants(s: SessionState, maxUsers: int, token: Token, conn: ConnId)
    requires Consistent(s) && WithinCapacity(s, maxUsers)
    requires ListenResult(s, maxUsers, token, conn).Success?
    ensures var s' := ListenResult(s, maxUsers, token, conn).value;
      Consistent(s') && WithinCapacity(s', maxUsers)
  {
    var s' := ListenResult(s, maxUsers, token, conn).value;
    ListenBinds(s, maxUsers, token, conn);
    forall i | 0 <= i < |s'.subscribers|
      ensures s'.subscribers[i].token in s'.users
    {
      if i < |s.subscribers| {
        assert s'.subscribers[i] == s.subscribers[i];
      }
    }
    forall t | t in s'.users
      ensures Subscriber(t, s'.users[t]) in s'.subscribers
    {
      if t != token {
        assert Subscriber(t, s.users[t]) in s.subscribers;
      } else {
        assert s'.subscribers[|s.subscribers|] == Subscriber(token, conn);
      }
    }
  }

  /**
   * A successful listen delivers one `joined` call (with no data) per subscriber entry
   * that existed BEFORE the call: a connection that was not subscribed, the joiner's own
   * among them, receives nothing.
   */
  lemma ListenJoinedFanOut(s: SessionState, maxUsers: int, token: Token, conn: ConnId, c: ConnId)
    requires ListenResult(s, maxUsers, token, conn).Success?
    ensures var s' := ListenResult(s, maxUsers, token, conn).value;
      LogOf(s'.delivered, c) == LogOf(s.delivered, c) + Repeat(JoinedCall, Count(s.subscribers, c))
    ensures (forall sub :: sub in s.subscribers ==> sub.conn != c) ==>
      LogOf(ListenResult(s, maxUsers, token, conn).value.delivered, c) == LogOf(s.delivered, c)
  {
    BroadcastLog(s.delivered, s.subscribers, Joined(token), c);
    if forall sub :: sub in s.subscribers ==> sub.conn != c {
      CountAbsent(s.subscribers, c);
    }
  }

  /** A leave by a non-member fails with "Invalid authToken". */
  lemma LeaveNonMember(s: SessionState, token: Token)
    requires token !in s.users
    ensures LeaveResult(s, token) == Failure("Invalid authToken")
    ensures AfterLeave(s, token) == s
  {
  }

  /**
   * A successful leave removes the token from the members and all of its listeners, keeps the
   * other subscribers, and delivers one `left` event per REMAINING subscriber entry.
   */
  lemma LeaveUnsubscribes(s: SessionState, token: Token, c: ConnId)
    requires token in s.users
    ensures LeaveResult(s, token).Success?
    ensures var s' := LeaveResult(s, token).value;
      && s'.users == s.users - {token}
      && |s'.users| == |s.users| - 1
      && (forall sub :: sub in s'.subscribers <==> sub in s.subscribers && sub.token != token)
      && LogOf(s'.delivered, c) == LogOf(s.delivered, c) + Repeat(LeftCall, Count(s'.subscribers, c))
  {
    var s' := LeaveResult(s, token).value;
    BroadcastLog(s.delivered, s'.subscribers, Left(token), c);
    assert s'.users.Keys == s.users.Keys - {token};
  }

  /** A leave keeps every subscriber a member and every member subscribed. */
  lemma LeaveKeepsConsistent(s: SessionState, token: Token)
    requires Consistent(s)
    ensures Consistent(AfterLeave(s, token))
  {
    if token in s.users {
      var s' := LeaveResult(s, token).value;
      forall i | 0 <= i < |s'.subscribers|
        ensures s'.subscribers[i].token in s'.users
      {
        assert s'.subscribers[i] in s.subscribers;
      }
    }
  }

  /** A leave keeps the member count within capacity. */
  lemma LeaveWithinCapacity(s: SessionState, maxUsers: int, token: Token)
    requires WithinCapacity(s, maxUsers)
    ensures WithinCapacity(AfterLeave(s, token), maxUsers)
  {
    if token in s.users {
      assert AfterLeave(s, token).users.Keys == s.users.Keys - {token};
    }
  }

  /**
   * After leaving, a client whose connection served only its own token receives nothing
   * more from the game: neither its own `left` event nor any later broadcast.
   */
  lemma LeaverHearsNothing(s: SessionState, token: Token, e: Event)
    requires Consistent(s) && token in s.users
    requires forall sub :: sub in s.subscribers && sub.conn == s.users[token] ==> sub.token == token
    ensures var s' := LeaveResult(s, token).value;
      && LogOf(s'.delivered, s.users[token]) == LogOf(s.delivered, s.users[token])
      && LogOf(s'.delivered + Deliveries(s'.subscribers, e), s.users[token]) == LogOf(s'.delivered, s.users[token])
  {
    var s' := LeaveResult(s, token).value;
    var c := s.users[token];
    CountAbsent(s'.subscribers, c);
    BroadcastLog(s.delivered, s'.subscribers, Left(token), c);
    BroadcastLog(s'.delivered, s'.subscribers, e, c);
  }

  /** After a leave, refused or not, the members are the old members other than the leaver. */
  lemma AfterLeaveMembers(s: SessionState, token: Token)
    ensures forall t :: t in AfterLeave(s, token).users <==> t in s.users && t != token
  {
  }

  /** Leaving twice is leaving once: the second call is refused and changes nothing. */
  lemma AfterLeaveIdempotent(s: SessionState, token: Token)
    ensures AfterLeave(AfterLeave(s, token), token) == AfterLeave(s, token)
  {
  }

  /** A chat by a non-member fails with "Invalid authToken". */
  lemma ChatNonMember(s: SessionState, user: Caller, text: string)
    requires user.authToken !in s.users
    ensures ChatResult(s, user, text) == Failure("Invalid authToken")
  {
  }

  /**
   * A chat by a member leaves membership and subscriptions alone and delivers `chatted
   * [name, text]` once per subscriber entry of each connection; the sender's own connection
   * is among them.
   */
  lemma ChatEchoes(s: SessionState, user: Caller, text: string, c: ConnId)
    requires Consistent(s) && user.authToken in s.users
    ensures ChatResult(s, user, text).Success?
    ensures var s' := ChatResult(s, user, text).value;
      && s'.users == s.users && s'.subscribers == s.subscribers
      && LogOf(s'.delivered, c) == LogOf(s.delivered, c) + Repeat(ChattedCall(user.name, text), Count(s.subscribers, c))
      && Count(s.subscribers, s.users[user.authToken]) >= 1
  {
    BroadcastLog(s.delivered, s.subscribers, Chatted(user.name, text), c);
    CountMember(s.subscribers, Subscriber(user.authToken, s.users[user.authToken]));
  }

  /**
   * A move leaves membership and subscriptions alone and appends one `moved [user, unit,
   * move]` delivery per subscriber, in subscription order.
   */
  lemma MoveFanOut(s: SessionState, user: Caller, unit: Json, move: Json, c: ConnId)
    ensures var s' := MoveResult(s, user, unit, move);
      && s'.users == s.users && s'.subscribers == s.subscribers
      && |s'.delivered| == |s.delivered| + |s.subscribers|
      && s'.delivered[..|s.delivered|] == s.delivered
      && (forall i :: 0 <= i < |s.subscribers| ==>
            s'.delivered[|s.delivered| + i] == Delivery(s.subscribers[i].conn, MovedCall(user, unit, move)))
      && LogOf(s'.delivered, c) == LogOf(s.delivered, c) + Repeat(MovedCall(user, unit, move), Count(s.subscribers, c))
  {
    var e := Moved(user, unit, move);
    assert Forwarded(e) == MovedCall(user, unit, move);
    BroadcastTrace(s.delivered, s.subscribers, e);
    BroadcastLog(s.delivered, s.subscribers, e, c);
  }

  // ---------------------------------------------------------------------------
  // The game object

  class Game {
    const name: string
    const isPublic: bool
    const maxUsers: int
    /** The rule system's units, as its `setup` returned them. */
    var units: map<int, CheckersMan.Man>
    /** Members: token to the connection it listens on. */
    var users: map<Token, ConnId>
    /** The event emitter's listeners, in registration order. */
    var subscribers: seq<Subscriber>
    /** Every `connection.call` the listeners made, in order. */
    var delivered: seq<Delivery>

    function State(): SessionState
      reads this
    {
      SessionState(users, subscribers, delivered)
    }

    ghost predicate Valid()
      reads this
    {
      Consistent(State()) && WithinCapacity(State(), maxUsers)
    }

    /**
     * The state of a game just built for `n` and `m`: public, with that name and capacity,
     * no members, no subscribers, nothing delivered, and the checkers starting board.
     */
    ghost predicate Initial(n: string, m: int)
      reads this
    {
      && name == n && maxUsers == m && isPublic
      && State() == SessionState(map[], [], [])
      && Checkers.IsInitialBoard(units)
    }

    /**
     * `new Game(name, maxUsers, system)`: public, with no members or subscribers, and with the
     * units the rule system's `setup` returns. Loading the system's code into the sandbox is
     * not modelled; checkers is the only rule system, so its `setup` is called directly.
     */
    constructor (name: string, maxUsers: int)
      ensures Initial(name, maxUsers)
      ensures Valid()
    {
      var board := Checkers.Setup();
      this.name := name;
      this.isPublic := true;
      this.maxUsers := maxUsers;
      this.units := board;
      this.users := map[];
      this.subscribers := [];
      this.delivered := [];
    }

    /** `this.events.emit(e)`: calls each listener in turn. */
    method Emit(e: Event)
      modifies this`delivered
      ensures delivered == old(delivered) + Deliveries(subscribers, e)
    {
      var i := 0;
      while i < |subscribers|
        invariant 0 <= i <= |subscribers|
        invariant delivered == old(delivered) + Deliveries(subscribers[..i], e)
      {
        assert Deliveries(subscribers[..i + 1], e) == Deliveries(subscribers[..i], e) + [Delivery(subscribers[i].conn, Forwarded(e))];
        delivered := delivered + [Delivery(subscribers[i].conn, Forwarded(e))];
        i := i + 1;
      }
      assert subscribers[..i] == subscribers;
    }

    method Listen(token: Token, conn: ConnId) returns (ok: bool, err: Option<string>)
      requires Valid()
      modifies this
      ensures Valid() && units == old(units)
      ensures ok == ListenResult(old(State()), maxUsers, token, conn).Success?
      ensures ok ==> err == None && State() == ListenResult(old(State()), maxUsers, token, conn).value
      ensures !ok ==> err == Some("Game is full") && State() == old(State())
    {
      if |users| >= maxUsers {
        return false, Some("Game is full");
      }
      ghost var next := ListenResult(State(), maxUsers, token, conn).value;
      ListenKeepsInvariants(State(), maxUsers, token, conn);
      Emit(Joined(token));
      subscribers := subscribers + [Subscriber(token, conn)];
      users := users[token := conn];
      assert State() == next;
      return true, None;
    }

    method Leave(token: Token) returns (err: Option<string>)
      requires Valid()
      modifies this
      ensures Valid() && units == old(units)
      ensures State() == AfterLeave(old(State()), token)
      ensures err == (if LeaveResult(old(State()), token).Failure? then Some("Invalid authToken") else None)
    {
      if token !in users {
        return Some("Invalid authToken");
      }
      LeaveKeepsConsistent(State(), token);
      LeaveWithinCapacity(State(), maxUsers, token);
      subscribers := Unsubscribed(subscribers, token);
      Emit(Left(token));
      users := users - {token};
      return None;
    }

    /** `chat(user, message)`, where `text` is `message.text`. */
    method Chat(user: Caller, text: string) returns (err: Option<string>)
      requires Valid()
      modifies this`delivered
      ensures Valid()
      ensures var r := ChatResult(old(State()), user, text);
        && (r.Success? ==> err == None && State() == r.value)
        && (r.Failure? ==> err == Some(r.error) && State() == old(State()))
    {
      if user.authToken !in users {
        return Some("Invalid authToken");
      }
      Emit(Chatted(user.name, text));
      return None;
    }

    method Move(user: Caller, unit: Json, move: Json)
      requires Valid()
      modifies this`delivered
      ensures Valid()
      ensures State() == MoveResult(old(State()), user, unit, move)
    {
      Emit(Moved(user, unit, move));
    }
  }
}
