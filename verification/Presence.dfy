// src/services/presence.service.js: which users are online, by the sockets that they hold and a grace period after
// the last one closes.

module PresenceSpec {
  import opened Options

  type User = string
  type Socket = nat
  type TimerId = nat

  const OFFLINE_GRACE_MS := 25000

  datatype Timer = Timer(user: User, due: nat)

  /** The three module maps, reduced to what decides about presence, and what surrounds them: the clock, the timeouts
      that the event loop still holds, the users whose `lastSeenAt` is being saved, and the users whose newest
      presence event said that they are online. */
  datatype World = World(
    now: nat,
    online: map<User, set<Socket>>,
    timers: map<User, TimerId>,
    pending: map<TimerId, Timer>,
    nextId: TimerId,
    saving: multiset<User>,
    announced: set<User>)

  const START := World(0, map[], map[], map[], 0, multiset{}, {})

  function ClearTimer(w: World, u: User): World {
    if u in w.timers then w.(timers := w.timers - {u}, pending := w.pending - {w.timers[u]}) else w
  }

  function SetTimer(w: World, u: User): World {
    w.(timers := w.timers[u := w.nextId], pending := w.pending[w.nextId := Timer(u, w.now + OFFLINE_GRACE_MS)],
       nextId := w.nextId + 1)
  }

  /** `markUserOffline` up to the moment when it awaits the database; the event follows when the save is done. */
  function GoOffline(w: World, u: User): World {
    w.(online := w.online - {u}, timers := w.timers - {u}, saving := w.saving + multiset{u})
  }

  function SocketsOf(w: World, u: User): set<Socket> {
    if u in w.online then w.online[u] else {}
  }

  /** `markSocketOnline` */
  function Connect(w: World, u: User, s: Socket): World {
    ClearTimer(w, u).(online := w.online[u := SocketsOf(w, u) + {s}],
                      announced := if u in w.online then w.announced else w.announced + {u})
  }

  /** `markSocketDisconnected` */
  function Disconnect(w: World, u: User, s: Socket): World {
    if u !in w.online then w
    else
      var removed := w.(online := w.online[u := w.online[u] - {s}]);
      if w.online[u] - {s} != {} then removed else SetTimer(ClearTimer(removed, u), u)
  }

  /** `handleSocketLogout` */
  function Logout(w: World, u: User, s: Socket): World {
    var cleared := ClearTimer(w, u);
    if u in w.online && w.online[u] - {s} != {} then cleared.(online := w.online[u := w.online[u] - {s}])
    else GoOffline(cleared, u)
  }

  function DueTimers(w: World, late: set<User>): set<TimerId> {
    set t | t in w.pending && w.pending[t].due <= w.now && w.pending[t].user !in late
  }

  function UsersOf(w: World, timers: set<TimerId>): set<User> {
    set t | t in timers && t in w.pending :: w.pending[t].user
  }

  /** All due timers run, except those of the late users. */
  function FireDue(w: World, late: set<User>): World {
    var users := UsersOf(w, DueTimers(w, late));
    w.(pending := w.pending - DueTimers(w, late), online := w.online - users, timers := w.timers - users,
       saving := w.saving + multiset(users))
  }

  function Tick(w: World, late: set<User>): World {
    FireDue(w.(now := w.now + 1), late)
  }

  // The save is done and `presence:user_offline` goes out.
  function Saved(w: World, u: User): World {
    if u in w.saving then w.(saving := w.saving - multiset{u}, announced := w.announced - {u}) else w
  }

  datatype Action =
    | AConnect(user: User, socket: Socket)
    | ADisconnect(user: User, socket: Socket)
    | ALogout(user: User, socket: Socket)
    | ATick(late: set<User>)
    | ASaved(user: User)

  function Step(w: World, a: Action): World {
    match a
    case AConnect(u, s) => Connect(w, u, s)
    case ADisconnect(u, s) => Disconnect(w, u, s)
    case ALogout(u, s) => Logout(w, u, s)
    case ATick(late) => Tick(w, late)
    case ASaved(u) => Saved(w, u)
  }

  function Run(w: World, actions: seq<Action>): World
    decreases |actions|
  {
    if actions == [] then w else Run(Step(w, actions[0]), actions[1..])
  }

  // ---------------------------------------------------------------------------------------------
  // Timers and tracked users
  // ---------------------------------------------------------------------------------------------

  /** A user has a timer exactly when tracked without sockets, and the event loop holds exactly those timers. */
  ghost predicate Valid(w: World) {
    && (forall u :: u in w.timers <==> u in w.online && w.online[u] == {})
    && (forall u :: u in w.timers ==> w.timers[u] in w.pending && w.pending[w.timers[u]].user == u)
    && (forall t :: t in w.pending ==>
        t < w.nextId && w.pending[t].user in w.timers && w.timers[w.pending[t].user] == t)
    && (forall t :: t in w.pending ==> w.pending[t].due <= w.now + OFFLINE_GRACE_MS)
  }

  lemma StepKeepsValid(w: World, a: Action)
    requires Valid(w)
    ensures Valid(Step(w, a))
  {
    hide Connect, Disconnect, Logout, Tick;
    match a
    case AConnect(u, s) => ConnectKeepsValid(w, u, s);
    case ADisconnect(u, s) => DisconnectKeepsValid(w, u, s);
    case ALogout(u, s) => LogoutKeepsValid(w, u, s);
    case ATick(late) => TickKeepsValid(w, late);
    case ASaved(u) =>
  }

  lemma ConnectKeepsValid(w: World, u: User, s: Socket)
    requires Valid(w)
    ensures Valid(Connect(w, u, s))
  {}

  lemma DisconnectKeepsValid(w: World, u: User, s: Socket)
    requires Valid(w)
    ensures Valid(Disconnect(w, u, s))
  {}

  lemma LogoutKeepsValid(w: World, u: User, s: Socket)
    requires Valid(w)
    ensures Valid(Logout(w, u, s))
  {}

  lemma TickKeepsValid(w: World, late: set<User>)
    requires Valid(w)
    ensures Valid(Tick(w, late))
  {}

  lemma {:induction false} RunKeepsValid(w: World, actions: seq<Action>)
    requires Valid(w)
    ensures Valid(Run(w, actions))
    decreases |actions|
  {
    if actions != [] {
      StepKeepsValid(w, actions[0]);
      RunKeepsValid(Step(w, actions[0]), actions[1..]);
    }
  }

  /** In every run, a timer is pending for a user if and only if the user is tracked with an empty set of sockets; so
      no timer ever fires for a user who holds a socket again. */
  lemma TimerIffNoSockets(actions: seq<Action>, u: User)
    ensures var w := Run(START, actions);
            && (u in w.timers <==> u in w.online && w.online[u] == {})
            && (u in w.timers <==> exists t :: t in w.pending && w.pending[t].user == u)
            && (forall t, t' | t in w.pending && t' in w.pending :: w.pending[t].user == w.pending[t'].user ==> t == t')
            && (forall t | t in w.pending :: SocketsOf(w, w.pending[t].user) == {})
  {
    RunKeepsValid(START, actions);
  }

  // ---------------------------------------------------------------------------------------------
  // Presence as a function of a user's own events
  // ---------------------------------------------------------------------------------------------

  /** A machine without timers, for one user, that looks at the clock only when something happens. */
  datatype Status = Gone | Here(sockets: set<Socket>) | Leaving(since: nat)

  function Settle(r: Status, now: nat): Status {
    if r.Leaving? && now >= r.since + OFFLINE_GRACE_MS then Gone else r
  }

  function Held(r: Status): set<Socket> {
    if r.Here? then r.sockets else {}
  }

  function Follow(r: Status, now: nat, u: User, a: Action): Status {
    var settled := Settle(r, now);
    match a
    case AConnect(user, s) => if user == u then Here(Held(settled) + {s}) else r
    case ADisconnect(user, s) =>
      if user != u || settled.Gone? then r
      else if Held(settled) - {s} != {} then Here(Held(settled) - {s}) else Leaving(now)
    case ALogout(user, s) =>
      if user != u then r
      else if Held(settled) - {s} != {} then Here(Held(settled) - {s}) else Gone
    case ATick(_) => r
    case ASaved(_) => r
  }

  function Clock(now: nat, a: Action): nat {
    if a.ATick? then now + 1 else now
  }

  function StatusAfter(r: Status, now: nat, u: User, actions: seq<Action>): Status
    decreases |actions|
  {
    if actions == [] then Settle(r, now)
    else StatusAfter(Follow(r, now, u, actions[0]), Clock(now, actions[0]), u, actions[1..])
  }

  /** Whether the user is online, from the trace alone. */
  predicate OnlineByTrace(u: User, actions: seq<Action>) {
    !StatusAfter(Gone, 0, u, actions).Gone?
  }

  // The maps say of a user what the machine says, up to timers that are overdue.
  ghost predicate Agrees(w: World, r: Status, u: User) {
    match Settle(r, w.now)
    case Gone => SocketsOf(w, u) == {}
    case Here(sockets) => sockets != {} && u in w.online && w.online[u] == sockets
    case Leaving(since) => u in w.online && w.online[u] == {} && DueOf(w, u) == Some(since + OFFLINE_GRACE_MS)
  }

  function DueOf(w: World, u: User): Option<nat> {
    if u in w.timers && w.timers[u] in w.pending then Some(w.pending[w.timers[u]].due) else None
  }

  predicate Concerns(a: Action, u: User) {
    (a.AConnect? || a.ADisconnect? || a.ALogout?) && a.user == u
  }

  // The maps hold the same about the user.
  ghost predicate SameFor(w: World, w': World, u: User) {
    && w'.now == w.now && (u in w'.online <==> u in w.online) && SocketsOf(w', u) == SocketsOf(w, u)
    && DueOf(w', u) == DueOf(w, u)
  }

  lemma Elsewhere(w: World, a: Action, u: User)
    requires Valid(w) && !Concerns(a, u) && !a.ATick?
    ensures SameFor(w, Step(w, a), u)
  {
    hide Connect, Disconnect, Logout;
    match a
    case AConnect(other, s) => ConnectElsewhere(w, other, s, u);
    case ADisconnect(other, s) => DisconnectElsewhere(w, other, s, u);
    case ALogout(other, s) => LogoutElsewhere(w, other, s, u);
    case ASaved(_) =>
  }

  lemma ConnectElsewhere(w: World, other: User, s: Socket, u: User)
    requires Valid(w) && other != u
    ensures SameFor(w, Connect(w, other, s), u)
  {}

  lemma DisconnectElsewhere(w: World, other: User, s: Socket, u: User)
    requires Valid(w) && other != u
    ensures SameFor(w, Disconnect(w, other, s), u)
  {}

  lemma LogoutElsewhere(w: World, other: User, s: Socket, u: User)
    requires Valid(w) && other != u
    ensures SameFor(w, Logout(w, other, s), u)
  {}

  predicate OnTime(a: Action) {
    a.ATick? ==> a.late == {}
  }

  predicate Prompt(actions: seq<Action>) {
    forall i :: 0 <= i < |actions| ==> OnTime(actions[i])
  }

  lemma StepAgrees(w: World, r: Status, u: User, a: Action)
    requires Valid(w) && Agrees(w, r, u)
    ensures Valid(Step(w, a)) && Agrees(Step(w, a), Follow(r, w.now, u, a), u)
    ensures OnTime(a) && (Settle(r, w.now).Gone? ==> u !in w.online) ==>
              (Settle(Follow(r, w.now, u, a), Clock(w.now, a)).Gone? ==> u !in Step(w, a).online)
  {
    StepKeepsValid(w, a);
    if a.ATick? {
      TickAgrees(w, r, u, a.late);
    } else if Concerns(a, u) {
      OwnStepAgrees(w, r, u, a);
    } else {
      Elsewhere(w, a, u);
      hide Valid;
    }
  }

  lemma OwnStepAgrees(w: World, r: Status, u: User, a: Action)
    requires Valid(w) && Agrees(w, r, u) && Concerns(a, u)
    ensures Agrees(Step(w, a), Follow(r, w.now, u, a), u)
    ensures (Settle(r, w.now).Gone? ==> u !in w.online) ==>
              (Settle(Follow(r, w.now, u, a), w.now).Gone? ==> u !in Step(w, a).online)
  {}

  lemma TickAgrees(w: World, r: Status, u: User, late: set<User>)
    requires Valid(w) && Agrees(w, r, u)
    ensures Valid(Tick(w, late)) && Agrees(Tick(w, late), r, u)
    ensures late == {} && (Settle(r, w.now).Gone? ==> u !in w.online) ==>
              (Settle(r, w.now + 1).Gone? ==> u !in Tick(w, late).online)
  {}

  lemma {:induction false} RunAgrees(w: World, r: Status, u: User, actions: seq<Action>)
    requires Valid(w) && Agrees(w, r, u)
    ensures !StatusAfter(r, w.now, u, actions).Gone? ==> u in Run(w, actions).online
    ensures Prompt(actions) && (Settle(r, w.now).Gone? ==> u !in w.online) ==>
              (u in Run(w, actions).online <==> !StatusAfter(r, w.now, u, actions).Gone?)
    decreases |actions|
  {
    if actions != [] {
      StepAgrees(w, r, u, actions[0]);
      assert Step(w, actions[0]).now == Clock(w.now, actions[0]);
      RunAgrees(Step(w, actions[0]), Follow(r, w.now, u, actions[0]), u, actions[1..]);
    }
  }

  /** When timers run on time, `isUserOnline` is that function of the trace. */
  lemma OnlineIsTheTrace(u: User, actions: seq<Action>)
    requires Prompt(actions)
    ensures u in Run(START, actions).online <==> OnlineByTrace(u, actions)
  {
    RunAgrees(START, Gone, u, actions);
  }

  /** However late timers run, no user who is online by the trace is taken for offline. */
  lemma NeverOfflineEarly(u: User, actions: seq<Action>)
    requires OnlineByTrace(u, actions)
    ensures u in Run(START, actions).online
  {
    RunAgrees(START, Gone, u, actions);
  }

  // ---------------------------------------------------------------------------------------------
  // The grace period
  // ---------------------------------------------------------------------------------------------

  function Ticks(actions: seq<Action>): nat {
    if actions == [] then 0 else (if actions[0].ATick? then 1 else 0) + Ticks(actions[1..])
  }

  lemma {:induction false} QuietStatus(r: Status, now: nat, u: User, actions: seq<Action>)
    requires forall i :: 0 <= i < |actions| ==> !Concerns(actions[i], u)
    ensures StatusAfter(r, now, u, actions) == Settle(r, now + Ticks(actions))
    decreases |actions|
  {
    if actions != [] {
      QuietStatus(r, Clock(now, actions[0]), u, actions[1..]);
    }
  }

  lemma LastSocketLeaves(w: World, u: User, s: Socket)
    requires Valid(w) && u in w.online && w.online[u] == {s}
    ensures Agrees(Disconnect(w, u, s), Leaving(w.now), u)
    ensures u in Disconnect(w, u, s).online && Disconnect(w, u, s).now == w.now
  {}

  lemma GraceSettles(now: nat, ms: nat)
    ensures !Settle(Leaving(now), now).Gone?
    ensures Settle(Leaving(now), now + ms).Gone? <==> ms >= OFFLINE_GRACE_MS
  {}

  /** After the last socket has closed and while the user does nothing else, the user is online for exactly the grace
      period, whatever the others do. */
  lemma GraceIsExact(w: World, u: User, s: Socket, rest: seq<Action>)
    requires Valid(w) && u in w.online && w.online[u] == {s}
    requires Prompt(rest) && forall i :: 0 <= i < |rest| ==> !Concerns(rest[i], u)
    ensures u in Run(Disconnect(w, u, s), rest).online <==> Ticks(rest) < OFFLINE_GRACE_MS
  {
    hide *;
    DisconnectKeepsValid(w, u, s);
    LastSocketLeaves(w, u, s);
    GraceSettles(w.now, Ticks(rest));
    RunAgrees(Disconnect(w, u, s), Leaving(w.now), u, rest);
    QuietStatus(Leaving(w.now), w.now, u, rest);
  }

  /** A user leaves the map only in a tick, a full grace period after the timer was set and without sockets, or in
      the logout of the last socket. */
  lemma OnlyGraceOrLogout(w: World, a: Action, u: User)
    requires Valid(w) && u in w.online && u !in Step(w, a).online
    ensures (a.ALogout? && a.user == u && w.online[u] <= {a.socket})
         || (a.ATick? && w.online[u] == {} && w.pending[w.timers[u]].due <= w.now + 1)
  {}

  // ---------------------------------------------------------------------------------------------
  // Events
  // ---------------------------------------------------------------------------------------------

  /** The newest presence event about a user is right, unless an offline event is still on its way. */
  ghost predicate EventsRight(w: World) {
    forall u :: u !in w.saving ==> (u in w.announced <==> u in w.online)
  }

  /** The last save of a user ends while the user is online, so that its offline event is wrong. The service could ask
      `isUserOnline` before it emits. */
  predicate WrongEvent(w: World, a: Action) {
    a.ASaved? && w.saving[a.user] == 1 && a.user in w.online
  }

  ghost predicate AlwaysRight(w: World, actions: seq<Action>)
    decreases |actions|
  {
    EventsRight(w) && (actions == [] || AlwaysRight(Step(w, actions[0]), actions[1..]))
  }

  predicate NoWrongEvent(w: World, actions: seq<Action>)
    decreases |actions|
  {
    actions == [] || (!WrongEvent(w, actions[0]) && NoWrongEvent(Step(w, actions[0]), actions[1..]))
  }

  lemma StepKeepsEvents(w: World, a: Action)
    requires EventsRight(w)
    ensures EventsRight(Step(w, a)) <==> !WrongEvent(w, a)
  {
    hide Connect, Disconnect, Logout, Tick, Saved;
    match a
    case AConnect(u, s) => ConnectKeepsEvents(w, u, s);
    case ADisconnect(u, s) => DisconnectKeepsEvents(w, u, s);
    case ALogout(u, s) => LogoutKeepsEvents(w, u, s);
    case ATick(late) => TickKeepsEvents(w, late);
    case ASaved(u) => SavedKeepsEvents(w, u);
  }

  lemma ConnectKeepsEvents(w: World, u: User, s: Socket)
    requires EventsRight(w)
    ensures EventsRight(Connect(w, u, s))
  {}

  lemma DisconnectKeepsEvents(w: World, u: User, s: Socket)
    requires EventsRight(w)
    ensures EventsRight(Disconnect(w, u, s))
  {}

  lemma LogoutKeepsEvents(w: World, u: User, s: Socket)
    requires EventsRight(w)
    ensures EventsRight(Logout(w, u, s))
  {}

  lemma TickKeepsEvents(w: World, late: set<User>)
    requires EventsRight(w)
    ensures EventsRight(Tick(w, late))
  {
    hide UsersOf;
    var w1 := w.(now := w.now + 1);
    var users := UsersOf(w1, DueTimers(w1, late));
    assert forall u :: u in Tick(w, late).saving <==> u in w.saving || u in users;
  }

  lemma SavedKeepsEvents(w: World, u: User)
    requires EventsRight(w)
    ensures EventsRight(Saved(w, u)) <==> !(w.saving[u] == 1 && u in w.online)
  {
    var w' := Saved(w, u);
    if w.saving[u] == 1 {
      assert u !in w'.saving && u !in w'.announced;
    }
  }

  lemma {:induction false} RunKeepsEvents(w: World, actions: seq<Action>)
    requires EventsRight(w)
    ensures AlwaysRight(w, actions) <==> NoWrongEvent(w, actions)
    decreases |actions|
  {
    if actions != [] {
      StepKeepsEvents(w, actions[0]);
      hide Step, EventsRight, WrongEvent;
      if !WrongEvent(w, actions[0]) {
        RunKeepsEvents(Step(w, actions[0]), actions[1..]);
      } else {
        NotRightNow(Step(w, actions[0]), actions[1..]);
      }
    }
  }

  lemma NotRightNow(w: World, actions: seq<Action>)
    requires !EventsRight(w)
    ensures !AlwaysRight(w, actions)
  {}

  /** In every run, the newest event about every user is right at every moment at which no offline event about the user
      is on its way, if and only if no user's last save ever ends while the user is online. */
  lemma EventsRightExactly(actions: seq<Action>)
    ensures AlwaysRight(START, actions) <==> NoWrongEvent(START, actions)
  {
    RunKeepsEvents(START, actions);
  }

  /** A run that fails it: the user logs out and connects again before the save is done. */
  lemma ReconnectDuringSave(u: User, s: Socket, t: Socket)
    ensures var actions := [AConnect(u, s), ALogout(u, s), AConnect(u, t), ASaved(u)];
            var w := Run(START, actions);
            u in w.online && u !in w.announced && u !in w.saving && !AlwaysRight(START, actions)
  {
    var w1 := Step(START, AConnect(u, s));
    var w2 := Step(w1, ALogout(u, s));
    var w3 := Step(w2, AConnect(u, t));
    var w4 := Step(w3, ASaved(u));
    assert w2.saving == multiset{u} && u !in w2.online;
    assert w3.saving == multiset{u} && u in w3.online && w4.saving == multiset{};
    hide Step;
    UnrollFour(START, AConnect(u, s), ALogout(u, s), AConnect(u, t), ASaved(u));
  }

  lemma UnrollFour(w: World, a: Action, b: Action, c: Action, d: Action)
    ensures var w3 := Step(Step(Step(w, a), b), c);
            Run(w, [a, b, c, d]) == Step(w3, d) && (!EventsRight(Step(w3, d)) ==> !AlwaysRight(w, [a, b, c, d]))
  {
    var w1 := Step(w, a);
    var w2 := Step(w1, b);
    var w3 := Step(w2, c);
    hide Step, EventsRight;
    assert [a, b, c, d][1..] == [b, c, d] && [b, c, d][1..] == [c, d] && [c, d][1..] == [d];
    assert Run(w3, [d]) == Run(Step(w3, d), []) && Run(w2, [c, d]) == Run(w3, [d])
           && Run(w1, [b, c, d]) == Run(w2, [c, d]);
    assert AlwaysRight(w3, [d]) ==> AlwaysRight(Step(w3, d), []);
    assert AlwaysRight(w2, [c, d]) ==> AlwaysRight(w3, [d]);
    assert AlwaysRight(w1, [b, c, d]) ==> AlwaysRight(w2, [c, d]);
  }
}

/** The service as the source writes it, with its module maps as fields. */
module Presence {
  import opened PresenceSpec

  class PresenceService {
    var now: nat
    var onlineSocketIdsByUser: map<User, set<Socket>>
    var offlineTimersByUser: map<User, TimerId>
    var pending: map<TimerId, Timer>
    var nextId: TimerId
    var saving: multiset<User>
    var announced: set<User>

    ghost function View(): World
      reads this
    {
      World(now, onlineSocketIdsByUser, offlineTimersByUser, pending, nextId, saving, announced)
    }

    constructor ()
      ensures View() == START
    {
      now, nextId := 0, 0;
      onlineSocketIdsByUser, offlineTimersByUser, pending := map[], map[], map[];
      saving, announced := multiset{}, {};
    }

    predicate IsUserOnline(u: User)
      reads this
    {
      u in onlineSocketIdsByUser
    }

    method ClearOfflineTimer(u: User) returns (cleared: bool)
      modifies this
      ensures View() == ClearTimer(old(View()), u) && cleared == (u in old(offlineTimersByUser))
    {
      cleared := u in offlineTimersByUser;
      if cleared {
        pending := pending - {offlineTimersByUser[u]};
        offlineTimersByUser := offlineTimersByUser - {u};
      }
    }

    method MarkUserOffline(u: User)
      modifies this
      ensures View() == GoOffline(old(View()), u)
    {
      onlineSocketIdsByUser := onlineSocketIdsByUser - {u};
      offlineTimersByUser := offlineTimersByUser - {u};
      saving := saving + multiset{u};
    }

    method MarkSocketOnline(u: User, s: Socket)
      modifies this
      ensures View() == Connect(old(View()), u, s)
    {
      var wasOffline := u !in onlineSocketIdsByUser;
      var cancelledGracePeriod := ClearOfflineTimer(u);
      var socketIds := if u in onlineSocketIdsByUser then onlineSocketIdsByUser[u] else {};
      socketIds := socketIds + {s};
      onlineSocketIdsByUser := onlineSocketIdsByUser[u := socketIds];
      if wasOffline {
        announced := announced + {u};
      }
    }

    method MarkSocketDisconnected(u: User, s: Socket)
      modifies this
      ensures View() == Disconnect(old(View()), u, s)
    {
      if u !in onlineSocketIdsByUser {
        return;
      }
      var socketIds := onlineSocketIdsByUser[u] - {s};
      onlineSocketIdsByUser := onlineSocketIdsByUser[u := socketIds];
      if |socketIds| > 0 {
        return;
      }
      var cleared := ClearOfflineTimer(u);
      pending := pending[nextId := Timer(u, now + OFFLINE_GRACE_MS)];
      offlineTimersByUser := offlineTimersByUser[u := nextId];
      nextId := nextId + 1;
    }

    method HandleSocketLogout(u: User, s: Socket) returns (isOnline: bool)
      modifies this
      ensures View() == Logout(old(View()), u, s) && isOnline == IsUserOnline(u)
    {
      var cancelledGracePeriod := ClearOfflineTimer(u);
      if u in onlineSocketIdsByUser {
        var socketIds := onlineSocketIdsByUser[u] - {s};
        onlineSocketIdsByUser := onlineSocketIdsByUser[u := socketIds];
        if |socketIds| > 0 {
          return true;
        }
      }
      MarkUserOffline(u);
      isOnline := false;
      assert onlineSocketIdsByUser == old(onlineSocketIdsByUser) - {u};
    }

    /** The callback of a timer. It never finds the user reconnected. */
    method OnGraceElapsed(t: TimerId) returns (reconnected: bool)
      requires Valid(View()) && t in pending
      modifies this
      ensures !reconnected && Valid(View())
      ensures View() == GoOffline(old(View()).(pending := old(pending) - {t}), old(pending[t].user))
    {
      var u := pending[t].user;
      pending := pending - {t};
      if u in onlineSocketIdsByUser && |onlineSocketIdsByUser[u]| > 0 {
        return true;
      }
      MarkUserOffline(u);
      reconnected := false;
    }

    // The event loop runs the callbacks of these timers, in some order.
    method RunTimers(due: set<TimerId>)
      requires Valid(View()) && due <= pending.Keys
      modifies this
      ensures View() == Fired(old(View()), due) && Valid(View())
    {
      ghost var w := View();
      var waiting := due;
      ghost var done: set<TimerId> := {};
      FiredNone(w);
      hide Valid, GoOffline, Fired, UsersOf;
      while waiting != {}
        invariant Valid(View()) && waiting == due - done && done <= due
        invariant View() == Fired(w, done) && pending == w.pending - done
        decreases |waiting|
      {
        var t :| t in waiting;
        FireOne(w, done, t);
        assert View() == Fired(w, done);
        var reconnected := OnGraceElapsed(t);
        waiting := waiting - {t};
        done := done + {t};
      }
      assert done == due;
    }

    /** One millisecond of the event loop. */
    method TickClock(late: set<User>)
      requires Valid(View())
      modifies this
      ensures View() == Tick(old(View()), late) && Valid(View())
    {
      TickKeepsValid(View(), late);
      LaterIsValid(View());
      now := now + 1;
      RunTimers(set t | t in pending && pending[t].due <= now && pending[t].user !in late);
    }
  }

  lemma FiredNone(w: World)
    ensures Fired(w, {}) == w && w.pending - {} == w.pending
  {}

  lemma LaterIsValid(w: World)
    requires Valid(w)
    ensures Valid(w.(now := w.now + 1))
  {}

  // The world after some of its due timers have run.
  ghost function Fired(w: World, done: set<TimerId>): World {
    w.(pending := w.pending - done, online := w.online - UsersOf(w, done), timers := w.timers - UsersOf(w, done),
       saving := w.saving + multiset(UsersOf(w, done)))
  }

  lemma FiresAnother(w: World, done: set<TimerId>, t: TimerId)
    requires Valid(w) && t in w.pending && t !in done && done <= w.pending.Keys
    ensures UsersOf(w, done + {t}) == UsersOf(w, done) + {w.pending[t].user}
    ensures w.pending[t].user !in UsersOf(w, done)
  {}

  lemma FireOne(w: World, done: set<TimerId>, t: TimerId)
    requires Valid(w) && t in w.pending && t !in done && done <= w.pending.Keys
    ensures Fired(w, done + {t}) == GoOffline(Fired(w, done).(pending := w.pending - done - {t}), w.pending[t].user)
    ensures Fired(w, done + {t}).pending == w.pending - (done + {t})
  {
    FiresAnother(w, done, t);
    hide Valid, UsersOf;
    var u, users := w.pending[t].user, UsersOf(w, done);
    assert w.pending - (done + {t}) == w.pending - done - {t};
    assert w.online - (users + {u}) == w.online - users - {u};
    assert w.timers - (users + {u}) == w.timers - users - {u};
    assert multiset(users + {u}) == multiset(users) + multiset{u};
  }
}
