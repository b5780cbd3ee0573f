/**
 Reconnection of the RAG client. A socket that closes abnormally schedules a
 reconnect ten seconds later, at most three in a row per room; opening a socket
 resets the count, and giving up forgets the room. Sockets and armed timers are
 part of the state, so that a lost timer or an extra attempt would be visible.
 */
module RagReconnect {
  import opened Common

  const MAX_RECONNECT_ATTEMPTS := 3

  type Room = string

  /**
   `alive` holds every socket that has not reported its close yet, and `open` those
   of them that are ready. `armed` is the runtime's table of reconnect timers.
   */
  datatype Client = Client(
    alive: map<nat, Room>, open: set<nat>, connections: map<Room, nat>, attempts: map<Room, nat>,
    timers: map<Room, nat>, armed: map<nat, Room>, created: nat)

  const NEW_CLIENT := Client(map[], {}, map[], map[], map[], map[], 0)

  datatype Event =
    | ConnectCalled(room: Room)
    | SocketOpened(socket: nat)
    | SocketClosed(socket: nat, normal: bool)
    | TimerFired(timer: nat)
    | DisconnectCalled(room: Room)

  // ---------------------------------------------------------------------------
  // Handlers
  // ---------------------------------------------------------------------------

  predicate IsConnected(c: Client, room: Room) {
    room in c.connections && c.connections[room] in c.open
  }

  function Connect(c: Client, room: Room): Client {
    if IsConnected(c, room) then c else c.(alive := c.alive[c.created := room], created := c.created + 1)
  }

  function OnOpen(c: Client, socket: nat): Client
    requires socket in c.alive
  {
    var room := c.alive[socket];
    c.(open := c.open + {socket}, connections := c.connections[room := socket], attempts := c.attempts - {room})
  }

  function AttemptsOf(c: Client, room: Room): nat {
    if room in c.attempts then c.attempts[room] else 0
  }

  function ScheduleReconnect(c: Client, room: Room): Client {
    if room in c.timers then c
    else if AttemptsOf(c, room) >= MAX_RECONNECT_ATTEMPTS then
      c.(connections := c.connections - {room}, attempts := c.attempts - {room})
    else
      c.(attempts := c.attempts[room := AttemptsOf(c, room) + 1], timers := c.timers[room := c.created],
         armed := c.armed[c.created := room], created := c.created + 1)
  }

  function OnClose(c: Client, socket: nat, normal: bool): Client
    requires socket in c.alive
  {
    var room := c.alive[socket];
    var gone := c.(alive := c.alive - {socket}, open := c.open - {socket});
    if normal then gone.(connections := gone.connections - {room}) else ScheduleReconnect(gone, room)
  }

  function OnTimer(c: Client, timer: nat): Client
    requires timer in c.armed
  {
    var room := c.armed[timer];
    Connect(c.(timers := c.timers - {room}, armed := c.armed - {timer}), room)
  }

  function Disconnect(c: Client, room: Room): Client {
    var d := if room in c.timers then c.(armed := c.armed - {c.timers[room]}, timers := c.timers - {room}) else c;
    var e := d.(attempts := d.attempts - {room});
    if room in e.connections
    then e.(open := e.open - {e.connections[room]}, connections := e.connections - {room})
    else e
  }

  // ---------------------------------------------------------------------------
  // Runs
  // ---------------------------------------------------------------------------

  ghost predicate Enabled(c: Client, e: Event) {
    match e
    case SocketOpened(socket) => socket in c.alive && socket !in c.open
    case SocketClosed(socket, _) => socket in c.alive
    case TimerFired(timer) => timer in c.armed
    case _ => true
  }

  ghost function Step(c: Client, e: Event): Client
    requires Enabled(c, e)
  {
    match e
    case ConnectCalled(room) => Connect(c, room)
    case SocketOpened(socket) => OnOpen(c, socket)
    case SocketClosed(socket, normal) => OnClose(c, socket, normal)
    case TimerFired(timer) => OnTimer(c, timer)
    case DisconnectCalled(room) => Disconnect(c, room)
  }

  /** `events` can happen from `c` on. */
  ghost predicate IsRunFrom(c: Client, events: seq<Event>)
    decreases |events|, 0
  {
    events == [] || (IsRunFrom(c, Init(events)) && Enabled(RunFrom(c, Init(events)), Last(events)))
  }

  ghost function RunFrom(c: Client, events: seq<Event>): Client
    requires IsRunFrom(c, events)
    decreases |events|, 1
  {
    if events == [] then c else Step(RunFrom(c, Init(events)), Last(events))
  }

  // ---------------------------------------------------------------------------
  // What every run keeps
  // ---------------------------------------------------------------------------

  /** One recorded timer per room, and no other armed: none is lost, none is doubled. */
  ghost predicate TimersRecorded(c: Client) {
    && (forall t :: t in c.armed ==> t < c.created && c.armed[t] in c.timers && c.timers[c.armed[t]] == t)
    && (forall room :: room in c.timers ==> c.timers[room] in c.armed && c.armed[c.timers[room]] == room)
  }

  /** Sockets of a room stay that room's, and a room's connection is one of them while it lives. */
  ghost predicate SocketsOwned(c: Client) {
    && (forall s :: s in c.alive ==> s < c.created)
    && (forall s :: s in c.open ==> s in c.alive)
    && (forall room :: room in c.connections ==>
          && c.connections[room] < c.created
          && (c.connections[room] in c.alive ==> c.alive[c.connections[room]] == room))
  }

  ghost predicate Counted(c: Client) {
    forall room :: room in c.attempts ==> 1 <= c.attempts[room] <= MAX_RECONNECT_ATTEMPTS
  }

  ghost predicate Inv(c: Client) {
    TimersRecorded(c) && SocketsOwned(c) && Counted(c)
  }

  lemma ScheduleRecords(c: Client, room: Room)
    requires TimersRecorded(c)
    ensures TimersRecorded(ScheduleReconnect(c, room))
  {
  }

  lemma UnscheduleRecords(c: Client, d: Client, room: Room)
    requires TimersRecorded(c) && room in c.timers
    requires d.timers == c.timers - {room} && d.armed == c.armed - {c.timers[room]} && d.created >= c.created
    ensures TimersRecorded(d)
  {
  }

  lemma TimersStayRecorded(c: Client, e: Event)
    requires TimersRecorded(c) && Enabled(c, e)
    ensures TimersRecorded(Step(c, e))
  {
    match e
    case ConnectCalled(room) =>
    case SocketOpened(socket) =>
    case SocketClosed(socket, normal) =>
      ScheduleRecords(c.(alive := c.alive - {socket}, open := c.open - {socket}), c.alive[socket]);
    case TimerFired(timer) => UnscheduleRecords(c, Step(c, e), c.armed[timer]);
    case DisconnectCalled(room) =>
      if room in c.timers {
        UnscheduleRecords(c, Step(c, e), room);
      }
  }

  lemma CloseOwned(c: Client, socket: nat, normal: bool)
    requires SocketsOwned(c) && socket in c.alive
    ensures SocketsOwned(OnClose(c, socket, normal))
  {
  }

  lemma ConnectOwned(c: Client, room: Room)
    requires SocketsOwned(c)
    ensures SocketsOwned(Connect(c, room))
  {
  }

  lemma SocketsStayOwned(c: Client, e: Event)
    requires SocketsOwned(c) && Enabled(c, e)
    ensures SocketsOwned(Step(c, e))
  {
    match e
    case ConnectCalled(room) => ConnectOwned(c, room);
    case SocketOpened(socket) =>
    case SocketClosed(socket, normal) => CloseOwned(c, socket, normal);
    case TimerFired(timer) =>
      var room := c.armed[timer];
      ConnectOwned(c.(timers := c.timers - {room}, armed := c.armed - {timer}), room);
    case DisconnectCalled(room) =>
  }

  lemma StaysCounted(c: Client, e: Event)
    requires Counted(c) && Enabled(c, e)
    ensures Counted(Step(c, e))
  {
  }

  lemma StepKeeps(c: Client, e: Event)
    requires Inv(c) && Enabled(c, e)
    ensures Inv(Step(c, e))
  {
    TimersStayRecorded(c, e);
    SocketsStayOwned(c, e);
    StaysCounted(c, e);
  }

  lemma {:induction false} RunKeeps(c: Client, events: seq<Event>)
    requires Inv(c) && IsRunFrom(c, events)
    ensures Inv(RunFrom(c, events))
  {
    if events != [] {
      RunKeeps(c, Init(events));
      StepKeeps(RunFrom(c, Init(events)), Last(events));
    }
  }

  ghost predicate AtMostOneTimer(c: Client, room: Room) {
    forall t, u :: t in c.armed && u in c.armed && c.armed[t] == room && c.armed[u] == room ==> t == u
  }

  /** The counter stays within 0..3 in every run of a new client. */
  lemma AttemptsBounded(events: seq<Event>, room: Room)
    requires IsRunFrom(NEW_CLIENT, events)
    ensures AttemptsOf(RunFrom(NEW_CLIENT, events), room) <= MAX_RECONNECT_ATTEMPTS
    ensures AtMostOneTimer(RunFrom(NEW_CLIENT, events), room)
  {
    RunKeeps(NEW_CLIENT, events);
  }

  // ---------------------------------------------------------------------------
  // Rooms whose retries fail
  // ---------------------------------------------------------------------------

  ghost function SocketsOf(c: Client, room: Room): set<nat> {
    OfRoom(c.alive, room)
  }

  ghost function OfRoom(alive: map<nat, Room>, room: Room): set<nat> {
    set s | s in alive && alive[s] == room
  }

  /** The room of the event, in the state where it happens. */
  ghost function RoomOf(c: Client, e: Event): Room
    requires Enabled(c, e)
  {
    match e
    case ConnectCalled(room) => room
    case SocketOpened(socket) => c.alive[socket]
    case SocketClosed(socket, _) => c.alive[socket]
    case TimerFired(timer) => c.armed[timer]
    case DisconnectCalled(room) => room
  }

  /** In the room nobody calls connect or disconnect, no socket opens, and sockets close abnormally. */
  ghost predicate Failing(c: Client, e: Event, room: Room)
    requires Enabled(c, e)
  {
    RoomOf(c, e) == room ==> e.TimerFired? || (e.SocketClosed? && !e.normal)
  }

  ghost predicate AllFailing(c: Client, events: seq<Event>, room: Room)
    requires IsRunFrom(c, events)
  {
    events != [] ==> AllFailing(c, Init(events), room) && Failing(RunFrom(c, Init(events)), Last(events), room)
  }

  ghost predicate Reconnecting(d: Client, e: Event, room: Room)
    requires Enabled(d, e)
  {
    e.TimerFired? && RoomOf(d, e) == room
  }

  /** How many automatic reconnects the room has seen. */
  ghost function Reconnects(c: Client, events: seq<Event>, room: Room): nat
    requires IsRunFrom(c, events)
  {
    if events == [] then 0
    else
      Reconnects(c, Init(events), room) + if Reconnecting(RunFrom(c, Init(events)), Last(events), room) then 1 else 0
  }

  /** How many events the room has seen. */
  ghost function RoomEvents(c: Client, events: seq<Event>, room: Room): nat
    requires IsRunFrom(c, events)
  {
    if events == [] then 0
    else
      RoomEvents(c, Init(events), room) + if RoomOf(RunFrom(c, Init(events)), Last(events)) == room then 1 else 0
  }

  /** The event is a close that finds the attempts used up. */
  ghost predicate GivesUp(c: Client, e: Event, room: Room)
    requires Enabled(c, e)
  {
    e.SocketClosed? && RoomOf(c, e) == room && room !in c.timers && AttemptsOf(c, room) >= MAX_RECONNECT_ATTEMPTS
  }

  /** How often the client has given the room up. */
  ghost function GiveUps(c: Client, events: seq<Event>, room: Room): nat
    requires IsRunFrom(c, events)
  {
    if events == [] then 0
    else
      GiveUps(c, Init(events), room) + if GivesUp(RunFrom(c, Init(events)), Last(events), room) then 1 else 0
  }

  ghost function SocketCount(c: Client, room: Room): nat {
    |SocketsOf(c, room)|
  }

  ghost function TimerCount(c: Client, room: Room): nat {
    if room in c.timers then 1 else 0
  }

  /** Nothing more can happen in the room by itself. */
  ghost predicate Quiescent(c: Client, room: Room) {
    SocketsOf(c, room) == {} && room !in c.timers
  }

  /** The client has given the room up: nothing about it is left. */
  ghost predicate GivenUp(c: Client, room: Room) {
    Quiescent(c, room) && room !in c.attempts && room !in c.connections
  }

  /** Something of the room's own can still happen. */
  ghost predicate MayGoOn(c: Client, room: Room) {
    (exists s :: s in c.alive && c.alive[s] == room) || (exists t :: t in c.armed && c.armed[t] == room)
  }

  /** All that the room's retries depend on is the same. */
  ghost predicate SameFor(c: Client, d: Client, room: Room) {
    && SocketsOf(d, room) == SocketsOf(c, room)
    && (room in d.timers <==> room in c.timers)
    && (room in d.attempts <==> room in c.attempts) && AttemptsOf(d, room) == AttemptsOf(c, room)
    && (room in d.connections <==> room in c.connections)
  }

  lemma OtherSocketsUntouched(c: Client, e: Event, room: Room)
    requires SocketsOwned(c) && Enabled(c, e) && RoomOf(c, e) != room
    ensures SocketsOf(Step(c, e), room) == SocketsOf(c, room)
  {
  }

  lemma OtherRoomsUntouched(c: Client, e: Event, room: Room)
    requires SocketsOwned(c) && Enabled(c, e) && RoomOf(c, e) != room
    ensures SameFor(c, Step(c, e), room)
  {
    OtherSocketsUntouched(c, e, room);
    match e
    case ConnectCalled(_) =>
    case SocketOpened(_) =>
    case SocketClosed(socket, normal) => CloseElsewhere(c, socket, normal, room);
    case TimerFired(_) =>
    case DisconnectCalled(_) =>
  }

  lemma CloseElsewhere(c: Client, socket: nat, normal: bool, room: Room)
    requires socket in c.alive && c.alive[socket] != room
    ensures
      var d := OnClose(c, socket, normal);
      && (room in d.timers <==> room in c.timers)
      && (room in d.attempts <==> room in c.attempts) && AttemptsOf(d, room) == AttemptsOf(c, room)
      && (room in d.connections <==> room in c.connections)
  {
  }

  lemma OneSocketLess(alive: map<nat, Room>, socket: nat, room: Room)
    requires socket in alive && alive[socket] == room
    ensures |OfRoom(alive - {socket}, room)| == |OfRoom(alive, room)| - 1
  {
    assert OfRoom(alive - {socket}, room) == OfRoom(alive, room) - {socket};
  }

  lemma OneSocketMore(alive: map<nat, Room>, socket: nat, room: Room)
    requires socket !in alive
    ensures |OfRoom(alive[socket := room], room)| == |OfRoom(alive, room)| + 1
  {
    assert OfRoom(alive[socket := room], room) == OfRoom(alive, room) + {socket};
  }

  lemma CloseTakesSocket(c: Client, socket: nat, room: Room)
    requires socket in c.alive && c.alive[socket] == room
    ensures SocketCount(OnClose(c, socket, false), room) == SocketCount(c, room) - 1
  {
    OneSocketLess(c.alive, socket, room);
    assert OnClose(c, socket, false).alive == c.alive - {socket};
  }

  lemma ConnectMakesSocket(c: Client, room: Room)
    requires SocketsOwned(c) && !IsConnected(c, room)
    ensures SocketCount(Connect(c, room), room) == SocketCount(c, room) + 1
  {
    OneSocketMore(c.alive, c.created, room);
  }

  lemma ConnectedHasSocket(c: Client, room: Room)
    requires SocketsOwned(c) && IsConnected(c, room)
    ensures SocketCount(c, room) > 0
  {
    assert c.connections[room] in SocketsOf(c, room);
  }

  /** An abnormal close takes a socket and arms a timer, unless one waits already or the room is given up. */
  lemma CloseSchedules(c: Client, socket: nat, room: Room)
    requires Inv(c) && socket in c.alive && c.alive[socket] == room
    ensures
      var d := OnClose(c, socket, false);
      && SocketCount(d, room) == SocketCount(c, room) - 1
      && (room in d.connections ==> room in c.connections && d.connections[room] == c.connections[room])
      && d.open == c.open - {socket}
      && if room in c.timers then room in d.timers && AttemptsOf(d, room) == AttemptsOf(c, room)
         else if AttemptsOf(c, room) == MAX_RECONNECT_ATTEMPTS then
           room !in d.timers && room !in d.attempts && room !in d.connections
         else room in d.timers && AttemptsOf(d, room) == AttemptsOf(c, room) + 1
  {
    CloseTakesSocket(c, socket, room);
  }

  /** A reconnect timer fires once and leaves the room with a socket: a new one unless it is connected after all. */
  lemma TimerReconnects(c: Client, timer: nat, room: Room)
    requires Inv(c) && timer in c.armed && c.armed[timer] == room
    ensures
      var d := OnTimer(c, timer);
      && room in c.timers && room !in d.timers
      && SocketCount(d, room) == SocketCount(c, room) + (if IsConnected(c, room) then 0 else 1)
      && SocketCount(d, room) > 0
      && AttemptsOf(d, room) == AttemptsOf(c, room)
      && d.connections == c.connections && d.open == c.open
  {
    var fired := c.(timers := c.timers - {room}, armed := c.armed - {timer});
    assert SocketsOf(fired, room) == SocketsOf(c, room);
    if IsConnected(c, room) {
      ConnectedHasSocket(c, room);
    } else {
      ConnectMakesSocket(fired, room);
    }
  }

  // ---------------------------------------------------------------------------
  // The ledger of a failing room
  // ---------------------------------------------------------------------------

  /**
   From `c` to `d`, with `r` reconnects and `g` give-ups. Every reconnect was counted
   as an attempt, and three attempts make a give-up; every give-up has used up a socket.
   */
  ghost predicate Balanced(c: Client, d: Client, room: Room, r: nat, g: nat) {
    && r + TimerCount(d, room) + AttemptsOf(c, room) == 3 * g + AttemptsOf(d, room) + TimerCount(c, room)
    && SocketCount(d, room) + TimerCount(d, room) + g <= SocketCount(c, room) + TimerCount(c, room)
  }

  /** The room comes to rest only by being given up. */
  ghost predicate RestsGivenUp(c: Client, d: Client, room: Room, g: nat) {
    && (Quiescent(d, room) && !Quiescent(c, room) ==> g > 0 && room !in d.attempts)
    && (g > 0 ==> room !in d.connections)
  }

  lemma CloseBalances(c: Client, d: Client, socket: nat, room: Room, r: nat, g: nat)
    requires Inv(d) && socket in d.alive && d.alive[socket] == room && Balanced(c, d, room, r, g)
    ensures Balanced(c, OnClose(d, socket, false), room, r,
                     g + if GivesUp(d, SocketClosed(socket, false), room) then 1 else 0)
  {
    CloseSchedules(d, socket, room);
  }

  lemma CloseRests(c: Client, d: Client, socket: nat, room: Room, g: nat)
    requires Inv(d) && socket in d.alive && d.alive[socket] == room && RestsGivenUp(c, d, room, g)
    ensures RestsGivenUp(c, OnClose(d, socket, false), room,
                         g + if GivesUp(d, SocketClosed(socket, false), room) then 1 else 0)
  {
    CloseSchedules(d, socket, room);
  }

  lemma TimerBalances(c: Client, d: Client, timer: nat, room: Room, r: nat, g: nat)
    requires Inv(d) && timer in d.armed && d.armed[timer] == room
    requires Balanced(c, d, room, r, g) && RestsGivenUp(c, d, room, g)
    ensures Balanced(c, OnTimer(d, timer), room, r + 1, g) && RestsGivenUp(c, OnTimer(d, timer), room, g)
  {
    TimerReconnects(d, timer, room);
  }

  lemma StepBalances(c: Client, d: Client, e: Event, room: Room, r: nat, g: nat)
    requires Inv(d) && Enabled(d, e) && Failing(d, e, room)
    requires Balanced(c, d, room, r, g) && RestsGivenUp(c, d, room, g)
    ensures Balanced(c, Step(d, e), room, r + (if Reconnecting(d, e, room) then 1 else 0),
                     g + if GivesUp(d, e, room) then 1 else 0)
    ensures RestsGivenUp(c, Step(d, e), room, g + if GivesUp(d, e, room) then 1 else 0)
  {
    if RoomOf(d, e) != room {
      OtherRoomsUntouched(d, e, room);
    } else if e.TimerFired? {
      TimerBalances(c, d, e.timer, room, r, g);
    } else {
      CloseBalances(c, d, e.socket, room, r, g);
      CloseRests(c, d, e.socket, room, g);
    }
  }

  lemma {:induction false} LedgerBalances(c: Client, events: seq<Event>, room: Room)
    requires Inv(c) && IsRunFrom(c, events) && AllFailing(c, events, room)
    ensures Balanced(c, RunFrom(c, events), room, Reconnects(c, events, room), GiveUps(c, events, room))
    ensures RestsGivenUp(c, RunFrom(c, events), room, GiveUps(c, events, room))
  {
    if events != [] {
      var before := Init(events);
      LedgerBalances(c, before, room);
      RunKeeps(c, before);
      StepBalances(c, RunFrom(c, before), Last(events), room, Reconnects(c, before, room), GiveUps(c, before, room));
    }
  }

  /** Closes come from the sockets there were and the ones reconnects made; each attempt and give-up took one. */
  ghost predicate EventsCounted(c: Client, d: Client, room: Room, n: nat, r: nat, g: nat) {
    && n + SocketCount(d, room) <= SocketCount(c, room) + 2 * r
    && 2 * r + TimerCount(d, room) + g <= n + TimerCount(c, room)
  }

  lemma {:induction false} LedgerCounts(c: Client, events: seq<Event>, room: Room)
    requires Inv(c) && IsRunFrom(c, events) && AllFailing(c, events, room)
    ensures EventsCounted(c, RunFrom(c, events), room, RoomEvents(c, events, room), Reconnects(c, events, room),
                          GiveUps(c, events, room))
  {
    if events != [] {
      var before, e := Init(events), Last(events);
      LedgerCounts(c, before, room);
      RunKeeps(c, before);
      var d := RunFrom(c, before);
      if RoomOf(d, e) != room {
        OtherRoomsUntouched(d, e, room);
      } else if e.TimerFired? {
        TimerReconnects(d, e.timer, room);
      } else {
        CloseSchedules(d, e.socket, room);
      }
    }
  }

  // ---------------------------------------------------------------------------
  // How many reconnects
  // ---------------------------------------------------------------------------

  /**
   From any state, while every retry of the room fails and nobody steps in: each
   socket and each armed timer is good for at most three reconnects, less what has
   been tried already.
   */
  lemma ReconnectsBounded(c: Client, events: seq<Event>, room: Room)
    requires Inv(c) && IsRunFrom(c, events) && AllFailing(c, events, room)
    ensures
      var m := SocketCount(c, room) + TimerCount(c, room);
      && (m == 0 ==> Reconnects(c, events, room) == 0)
      && (m > 0 ==> Reconnects(c, events, room) + AttemptsOf(c, room) <= 3 * m + TimerCount(c, room))
  {
    LedgerBalances(c, events, room);
    RunKeeps(c, events);
    if Quiescent(c, room) {
      StaysAtRest(c, events, room);
    }
  }

  lemma {:induction false} StaysAtRest(c: Client, events: seq<Event>, room: Room)
    requires Inv(c) && Quiescent(c, room) && IsRunFrom(c, events) && AllFailing(c, events, room)
    ensures Quiescent(RunFrom(c, events), room) && Reconnects(c, events, room) == 0
  {
    if events != [] {
      StaysAtRest(c, Init(events), room);
      RunKeeps(c, Init(events));
      var d, e := RunFrom(c, Init(events)), Last(events);
      RestOrGoOn(d, room);
      if RoomOf(d, e) == room {
        assert false;
      }
      OtherRoomsUntouched(d, e, room);
    }
  }

  /** The room goes on until it is given up, and then there were three reconnects for each give-up. */
  lemma EndsGivenUp(c: Client, events: seq<Event>, room: Room)
    requires Inv(c) && IsRunFrom(c, events) && AllFailing(c, events, room) && !Quiescent(c, room)
    ensures MayGoOn(RunFrom(c, events), room) <==> !GivenUp(RunFrom(c, events), room)
    ensures GivenUp(RunFrom(c, events), room) ==>
              && 1 <= GiveUps(c, events, room) <= SocketCount(c, room) + TimerCount(c, room)
              && Reconnects(c, events, room) + AttemptsOf(c, room) == 3 * GiveUps(c, events, room) + TimerCount(c, room)
  {
    LedgerBalances(c, events, room);
    RunKeeps(c, events);
    RestOrGoOn(RunFrom(c, events), room);
  }

  lemma RestOrGoOn(d: Client, room: Room)
    requires Inv(d)
    ensures MayGoOn(d, room) <==> !Quiescent(d, room)
  {
    if SocketsOf(d, room) != {} {
      var s :| s in SocketsOf(d, room);
      assert s in d.alive && d.alive[s] == room;
    } else if room in d.timers {
      assert d.timers[room] in d.armed;
    } else {
      assert forall s :: s in d.alive && d.alive[s] == room ==> s in SocketsOf(d, room);
    }
  }

  /** The room has `m` sockets, open or still connecting, and no retry behind it. */
  ghost predicate Settled(c: Client, room: Room, m: nat) {
    SocketCount(c, room) == m && room !in c.timers && room !in c.attempts
  }

  /** With one socket, the usual case: seven events, three of them reconnects, and the room is forgotten. */
  lemma ThreeAttempts(c: Client, events: seq<Event>, room: Room)
    requires Inv(c) && Settled(c, room, 1) && IsRunFrom(c, events) && AllFailing(c, events, room)
    ensures Reconnects(c, events, room) <= 3 && RoomEvents(c, events, room) <= 7
    ensures
      var d := RunFrom(c, events);
      && (Quiescent(d, room) <==> GivenUp(d, room))
      && (Quiescent(d, room) <==> RoomEvents(c, events, room) == 7)
      && (Quiescent(d, room) ==> Reconnects(c, events, room) == 3)
      && (MayGoOn(d, room) <==> RoomEvents(c, events, room) < 7)
  {
    ReconnectsBounded(c, events, room);
    EndsGivenUp(c, events, room);
    LedgerBalances(c, events, room);
    LedgerCounts(c, events, room);
    RunKeeps(c, events);
    RestOrGoOn(RunFrom(c, events), room);
  }

  /** With `m` sockets there are at most 3m reconnects and 7m events; at rest, three reconnects per give-up. */
  lemma ThreePerSocket(c: Client, events: seq<Event>, room: Room, m: nat)
    requires Inv(c) && Settled(c, room, m) && m > 0 && IsRunFrom(c, events) && AllFailing(c, events, room)
    ensures Reconnects(c, events, room) <= 3 * m && RoomEvents(c, events, room) <= 7 * m
    ensures Quiescent(RunFrom(c, events), room) ==>
              && GivenUp(RunFrom(c, events), room)
              && 1 <= GiveUps(c, events, room) <= m
              && Reconnects(c, events, room) == 3 * GiveUps(c, events, room)
  {
    ReconnectsBounded(c, events, room);
    EndsGivenUp(c, events, room);
    LedgerCounts(c, events, room);
    RunKeeps(c, events);
    RestOrGoOn(RunFrom(c, events), room);
  }

  // ---------------------------------------------------------------------------
  // The bound is reached
  // ---------------------------------------------------------------------------

  ghost predicate FailingRun(c: Client, events: seq<Event>, room: Room) {
    IsRunFrom(c, events) && AllFailing(c, events, room)
  }

  /** A failing run has left the room with `n` sockets, a timer or not, `a` attempts, and `r` reconnects seen. */
  ghost predicate Reached(c: Client, events: seq<Event>, room: Room, n: nat, waiting: bool, a: nat, r: nat) {
    && FailingRun(c, events, room)
    && Reconnects(c, events, room) == r
    && var d := RunFrom(c, events);
       SocketCount(d, room) == n && (room in d.timers <==> waiting) && AttemptsOf(d, room) == a
  }

  /** The run goes on with one more event of the room. */
  lemma Extends(c: Client, events: seq<Event>, e: Event, room: Room)
    requires Inv(c) && FailingRun(c, events, room) && Enabled(RunFrom(c, events), e)
    requires Failing(RunFrom(c, events), e, room)
    ensures FailingRun(c, events + [e], room) && RunFrom(c, events + [e]) == Step(RunFrom(c, events), e)
    ensures Reconnects(c, events + [e], room) ==
              Reconnects(c, events, room) + if e.TimerFired? && RoomOf(RunFrom(c, events), e) == room then 1 else 0
    ensures Inv(RunFrom(c, events))
  {
    assert Init(events + [e]) == events;
    RunKeeps(c, events);
  }

  /** One more close: of the connection in use, if there is one. */
  lemma CloseNext(c: Client, events: seq<Event>, room: Room, n: nat, a: nat, r: nat) returns (longer: seq<Event>)
    requires Inv(c) && n > 0 && Reached(c, events, room, n, false, a, r)
    ensures a < 3 ==> Reached(c, longer, room, n - 1, true, a + 1, r)
    ensures a == 3 ==> Reached(c, longer, room, n - 1, false, 0, r)
    ensures FailingRun(c, longer, room) && !IsConnected(RunFrom(c, longer), room)
  {
    RunKeeps(c, events);
    var d := RunFrom(c, events);
    var s;
    if IsConnected(d, room) {
      s := d.connections[room];
    } else {
      s :| s in SocketsOf(d, room);
    }
    Extends(c, events, SocketClosed(s, false), room);
    CloseSchedules(d, s, room);
    longer := events + [SocketClosed(s, false)];
  }

  /** One more reconnect. */
  lemma FireNext(c: Client, events: seq<Event>, room: Room, n: nat, a: nat, r: nat) returns (longer: seq<Event>)
    requires Inv(c) && Reached(c, events, room, n, true, a, r) && !IsConnected(RunFrom(c, events), room)
    ensures Reached(c, longer, room, n + 1, false, a, r + 1)
  {
    RunKeeps(c, events);
    var d := RunFrom(c, events);
    var t := d.timers[room];
    Extends(c, events, TimerFired(t), room);
    TimerReconnects(d, t, room);
    longer := events + [TimerFired(t)];
  }

  /** A close and the reconnect it schedules. */
  lemma Round(c: Client, events: seq<Event>, room: Room, n: nat, a: nat, r: nat) returns (longer: seq<Event>)
    requires Inv(c) && n > 0 && a < 3 && Reached(c, events, room, n, false, a, r)
    ensures Reached(c, longer, room, n, false, a + 1, r + 1)
  {
    var closed := CloseNext(c, events, room, n, a, r);
    longer := FireNext(c, closed, room, n - 1, a + 1, r);
  }

  /** Closing one socket at a time and waiting for the reconnect, each of `n` sockets costs three reconnects. */
  lemma {:induction false} SpendAll(c: Client, events: seq<Event>, room: Room, n: nat, r: nat)
    returns (longer: seq<Event>)
    requires Inv(c) && Reached(c, events, room, n, false, 0, r)
    ensures Reached(c, longer, room, 0, false, 0, r + 3 * n)
    decreases n
  {
    longer := events;
    if n > 0 {
      longer := Round(c, longer, room, n, 0, r);
      longer := Round(c, longer, room, n, 1, r + 1);
      longer := Round(c, longer, room, n, 2, r + 2);
      longer := CloseNext(c, longer, room, n, 3, r + 3);
      longer := SpendAll(c, longer, room, n - 1, r + 3);
    }
  }

  /** From every state of a room with `m` sockets and no retry behind it, 3m reconnects are possible. */
  lemma BoundReached(c: Client, room: Room, m: nat) returns (events: seq<Event>)
    requires Inv(c) && Settled(c, room, m)
    ensures FailingRun(c, events, room) && Quiescent(RunFrom(c, events), room)
    ensures Reconnects(c, events, room) == 3 * m
  {
    assert Reached(c, [], room, m, false, 0, 0);
    events := SpendAll(c, [], room, m, 0);
  }

  /** However its retries fail, the room comes to rest after exactly three of them. */
  ghost predicate AlwaysThree(c: Client, room: Room) {
    forall events :: FailingRun(c, events, room) && Quiescent(RunFrom(c, events), room) ==>
      Reconnects(c, events, room) == 3
  }

  lemma ExactlyThreeIffOneSocket(c: Client, room: Room, m: nat)
    requires Inv(c) && Settled(c, room, m) && m > 0
    ensures AlwaysThree(c, room) <==> m == 1
  {
    if m == 1 {
      forall events | FailingRun(c, events, room) && Quiescent(RunFrom(c, events), room)
        ensures Reconnects(c, events, room) == 3
      {
        ThreeAttempts(c, events, room);
      }
    } else {
      var events := BoundReached(c, room, m);
    }
  }

  lemma OneMoreEvent(c: Client, events: seq<Event>, e: Event)
    requires IsRunFrom(c, events) && Enabled(RunFrom(c, events), e)
    ensures IsRunFrom(c, events + [e]) && RunFrom(c, events + [e]) == Step(RunFrom(c, events), e)
  {
    assert Init(events + [e]) == events;
  }

  /** Connecting twice before the first socket opens gives a room two sockets, and six reconnects when both are lost. */
  lemma TwoConnects() returns (losses: seq<Event>)
    ensures
      var events := [ConnectCalled("r"), ConnectCalled("r"), SocketOpened(0), SocketOpened(1)];
      && IsRunFrom(NEW_CLIENT, events) && Settled(RunFrom(NEW_CLIENT, events), "r", 2)
      && FailingRun(RunFrom(NEW_CLIENT, events), losses, "r")
      && Quiescent(RunFrom(RunFrom(NEW_CLIENT, events), losses), "r")
      && Reconnects(RunFrom(NEW_CLIENT, events), losses, "r") == 6
  {
    var events := [];
    OneMoreEvent(NEW_CLIENT, events, ConnectCalled("r"));
    events := events + [ConnectCalled("r")];
    OneMoreEvent(NEW_CLIENT, events, ConnectCalled("r"));
    events := events + [ConnectCalled("r")];
    OneMoreEvent(NEW_CLIENT, events, SocketOpened(0));
    events := events + [SocketOpened(0)];
    OneMoreEvent(NEW_CLIENT, events, SocketOpened(1));
    events := events + [SocketOpened(1)];
    assert events == [ConnectCalled("r"), ConnectCalled("r"), SocketOpened(0), SocketOpened(1)];
    var c := RunFrom(NEW_CLIENT, events);
    assert SocketsOf(c, "r") == {0, 1};
    RunKeeps(NEW_CLIENT, events);
    losses := BoundReached(c, "r", 2);
  }

  // ---------------------------------------------------------------------------
  // What opening and disconnecting do
  // ---------------------------------------------------------------------------

  /** An opened socket is the room's connection, ready for use, and no retry stands behind it. */
  lemma OpenResets(c: Client, socket: nat)
    requires Inv(c) && Enabled(c, SocketOpened(socket))
    ensures
      var d, room := Step(c, SocketOpened(socket)), c.alive[socket];
      && room in d.connections && d.connections[room] == socket && IsConnected(d, room)
      && room !in d.attempts
      && (room in d.timers <==> room in c.timers) && SocketCount(d, room) == SocketCount(c, room)
  {
  }

  /** So a room whose only socket has opened gets three more reconnects when it is lost, however many it had before. */
  lemma ReopenedHasThree(c: Client, socket: nat)
    requires Inv(c) && Enabled(c, SocketOpened(socket))
    requires SocketCount(c, c.alive[socket]) == 1 && c.alive[socket] !in c.timers
    ensures AlwaysThree(Step(c, SocketOpened(socket)), c.alive[socket])
  {
    OpenResets(c, socket);
    StepKeeps(c, SocketOpened(socket));
    ExactlyThreeIffOneSocket(Step(c, SocketOpened(socket)), c.alive[socket], 1);
  }

  /** A normal close forgets the room's connection and schedules nothing; attempts and other sockets stay. */
  lemma NormalCloseForgets(c: Client, socket: nat)
    requires Inv(c) && socket in c.alive
    ensures
      var d, room := Step(c, SocketClosed(socket, true)), c.alive[socket];
      && room !in d.connections && socket !in d.alive && socket !in d.open
      && d.timers == c.timers && d.armed == c.armed && d.attempts == c.attempts
      && forall other :: other != room ==> (other in d.connections <==> other in c.connections)
  {
  }

  /** No socket of the room is lost. */
  ghost predicate NoLoss(c: Client, events: seq<Event>, room: Room)
    requires IsRunFrom(c, events)
  {
    events != [] ==>
      NoLoss(c, Init(events), room) &&
      !(Last(events).SocketClosed? && RoomOf(RunFrom(c, Init(events)), Last(events)) == room)
  }

  lemma DisconnectForgets(c: Client, room: Room)
    requires Inv(c)
    ensures
      var d := Step(c, DisconnectCalled(room));
      && room !in d.timers && room !in d.attempts && room !in d.connections
      && (forall t :: t in d.armed ==> d.armed[t] != room)
      && (room in c.connections ==> c.connections[room] !in d.open)
  {
    StepKeeps(c, DisconnectCalled(room));
  }

  lemma NoTimerStep(c: Client, e: Event, room: Room)
    requires Inv(c) && Enabled(c, e) && room !in c.timers && !(e.SocketClosed? && RoomOf(c, e) == room)
    ensures room !in Step(c, e).timers && !Reconnecting(c, e, room)
  {
    if RoomOf(c, e) != room {
      OtherRoomsUntouched(c, e, room);
    }
  }

  /** After a disconnect there is no automatic reconnect until a socket of the room is lost again. */
  lemma {:induction false} DisconnectSilences(c: Client, events: seq<Event>, room: Room)
    requires Inv(c) && room !in c.timers && IsRunFrom(c, events) && NoLoss(c, events, room)
    ensures room !in RunFrom(c, events).timers && Reconnects(c, events, room) == 0
  {
    if events != [] {
      DisconnectSilences(c, Init(events), room);
      RunKeeps(c, Init(events));
      NoTimerStep(RunFrom(c, Init(events)), Last(events), room);
    }
  }

  /** The event arms a timer of the room. */
  ghost predicate Arms(c: Client, e: Event, room: Room)
    requires Enabled(c, e)
  {
    room !in c.timers && room in Step(c, e).timers
  }

  /** The event ends the row of attempts: a socket opens, the room is disconnected or given up. */
  ghost predicate Resets(c: Client, e: Event, room: Room)
    requires Enabled(c, e)
  {
    RoomOf(c, e) == room && (e.SocketOpened? || e.DisconnectCalled? || (GivesUp(c, e, room) && !e.normal))
  }

  /** Timers armed for the room since the row of attempts last ended. */
  ghost function ArmedSince(c: Client, events: seq<Event>, room: Room): nat
    requires IsRunFrom(c, events)
  {
    if events == [] then 0
    else
      var d, e := RunFrom(c, Init(events)), Last(events);
      if Resets(d, e, room) then 0 else ArmedSince(c, Init(events), room) + if Arms(d, e, room) then 1 else 0
  }

  lemma StepCountsTries(c: Client, e: Event, room: Room)
    requires Inv(c) && Enabled(c, e)
    ensures
      AttemptsOf(Step(c, e), room) ==
      if Resets(c, e, room) then 0 else AttemptsOf(c, room) + if Arms(c, e, room) then 1 else 0
  {
    if RoomOf(c, e) != room {
      OtherRoomsUntouched(c, e, room);
    } else {
      match e
      case ConnectCalled(_) =>
      case SocketOpened(_) =>
      case SocketClosed(_, _) =>
      case TimerFired(_) =>
      case DisconnectCalled(_) =>
    }
  }

  /** The counter is the number of reconnects scheduled since the last opening, disconnect or giving up. */
  lemma {:induction false} TriesCounted(events: seq<Event>, room: Room)
    requires IsRunFrom(NEW_CLIENT, events)
    ensures AttemptsOf(RunFrom(NEW_CLIENT, events), room) == ArmedSince(NEW_CLIENT, events, room)
  {
    if events != [] {
      TriesCounted(Init(events), room);
      RunKeeps(NEW_CLIENT, Init(events));
      StepCountsTries(RunFrom(NEW_CLIENT, Init(events)), Last(events), room);
    }
  }

  // ---------------------------------------------------------------------------
  // The client object
  // ---------------------------------------------------------------------------

  class Connections {
    var alive: map<nat, Room>
    var open: set<nat>
    var connections: map<Room, nat>
    var reconnectAttemptCounts: map<Room, nat>
    var reconnectTimers: map<Room, nat>
    var armed: map<nat, Room>
    var created: nat

    ghost function View(): Client
      reads this
    {
      Client(alive, open, connections, reconnectAttemptCounts, reconnectTimers, armed, created)
    }

    constructor ()
      ensures View() == NEW_CLIENT && Inv(View())
    {
      alive, open, connections, reconnectAttemptCounts := map[], {}, map[], map[];
      reconnectTimers, armed, created := map[], map[], 0;
    }

    method ConnectRoom(room: Room)
      modifies this`alive, this`created
      ensures View() == Connect(old(View()), room)
    {
      if room in connections && connections[room] in open {
        return;
      }
      alive := alive[created := room];
      created := created + 1;
    }

    method HandleOpen(socket: nat)
      requires socket in alive
      modifies this
      ensures View() == OnOpen(old(View()), socket)
    {
      var room := alive[socket];
      open := open + {socket};
      connections := connections[room := socket];
      reconnectAttemptCounts := reconnectAttemptCounts - {room};
    }

    method Schedule(room: Room)
      modifies this
      ensures View() == ScheduleReconnect(old(View()), room)
    {
      if room in reconnectTimers {
        return;
      }
      var currentAttempts := 0;
      if room in reconnectAttemptCounts {
        currentAttempts := reconnectAttemptCounts[room];
      }
      if currentAttempts >= MAX_RECONNECT_ATTEMPTS {
        connections := connections - {room};
        reconnectAttemptCounts := reconnectAttemptCounts - {room};
        return;
      }
      reconnectAttemptCounts := reconnectAttemptCounts[room := currentAttempts + 1];
      var timer := created;
      armed := armed[timer := room];
      created := created + 1;
      reconnectTimers := reconnectTimers[room := timer];
    }

    method HandleClose(socket: nat, code: int)
      requires Inv(View()) && socket in alive
      modifies this
      ensures View() == OnClose(old(View()), socket, code == 1000) && Inv(View())
    {
      StepKeeps(View(), SocketClosed(socket, code == 1000));
      var room := alive[socket];
      alive := alive - {socket};
      open := open - {socket};
      if code != 1000 {
        Schedule(room);
      } else {
        connections := connections - {room};
      }
    }

    method HandleTimer(timer: nat)
      requires Inv(View()) && timer in armed
      modifies this
      ensures View() == OnTimer(old(View()), timer) && Inv(View())
    {
      StepKeeps(View(), TimerFired(timer));
      var room := armed[timer];
      armed := armed - {timer};
      reconnectTimers := reconnectTimers - {room};
      ConnectRoom(room);
    }

    method DisconnectRoom(room: Room)
      requires Inv(View())
      modifies this
      ensures View() == Disconnect(old(View()), room) && Inv(View())
    {
      StepKeeps(View(), DisconnectCalled(room));
      if room in reconnectTimers {
        armed := armed - {reconnectTimers[room]};
        reconnectTimers := reconnectTimers - {room};
      }
      reconnectAttemptCounts := reconnectAttemptCounts - {room};
      if room !in connections {
        return;
      }
      open := open - {connections[room]};
      connections := connections - {room};
    }
  }
}
