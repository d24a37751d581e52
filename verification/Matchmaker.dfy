/** The matchmaker's state object, updated in place, against the requests of `Rooms`. */
module Matchmaker {
  import opened Wrappers
  import opened Binary
  import opened Protocol
  import opened Rooms
  import opened RoomRuns

  /** The children of `codes` that are seen to have exited, or could not be looked at. */
  function SeenToExit(rooms: map<string, Room>, codes: set<string>, probe: Pid -> Probe): set<Pid> {
    set c | c in codes && c in rooms && rooms[c].child.Some? && probe(rooms[c].child.value) != Running
      :: rooms[c].child.value
  }

  /** The running children of the expired rooms among `codes`. */
  function ToStop(config: Config, rooms: map<string, Room>, codes: set<string>, probe: Pid -> Probe,
          now: u64): set<Pid>
  {
    set c | c in codes && c in rooms && rooms[c].child.Some? && probe(rooms[c].child.value) == Running
            && !Stays(config, rooms[c], probe, now)
      :: rooms[c].child.value
  }

  lemma ExitedOrStopped(config: Config, rooms: map<string, Room>, probe: Pid -> Probe, now: u64)
    ensures Collected(config, rooms, probe, now)
         == SeenToExit(rooms, rooms.Keys, probe) + ToStop(config, rooms, rooms.Keys, probe, now)
  {
    hide Stays;
  }

  lemma OneMoreSeen(rooms: map<string, Room>, codes: set<string>, code: string, probe: Pid -> Probe)
    requires code in rooms
    ensures SeenToExit(rooms, codes + {code}, probe) == SeenToExit(rooms, codes, probe) +
      if rooms[code].child.Some? && probe(rooms[code].child.value) != Running then {rooms[code].child.value} else {}
  {
  }

  lemma OneMoreStopped(config: Config, rooms: map<string, Room>, codes: set<string>, code: string,
          probe: Pid -> Probe, now: u64)
    requires code in rooms
    ensures ToStop(config, rooms, codes + {code}, probe, now) == ToStop(config, rooms, codes, probe, now) +
      if Stays(config, rooms[code], probe, now) then {} else ChildSet(Inspected(config, rooms[code], probe, now).child)
  {
  }

  /** Every room has its creator, however it came about. */
  ghost predicate Seated(rooms: map<string, Room>) {
    forall c :: c in rooms ==> rooms[c].players.a.Some?
  }

  lemma ReapKeepsSeats(config: Config, h: Hall, probe: Pid -> Probe, now: u64)
    requires Seated(h.rooms)
    ensures Seated(Reap(config, h, probe, now).rooms)
  {
  }

  lemma StepKeepsSeats(config: Config, w: World, e: Event)
    requires Seated(w.hall.rooms)
    ensures Seated(Step(config, w, e).hall.rooms)
  {
    if e.Created? || e.Joined? || e.Polled? {
      ReapKeepsSeats(config, w.hall, e.probe, e.now);
      hide Reap, UsedPorts, FirstFree, TicketOf, FreshCode, WaitingCodes, MarkReady, MarkFailed, Leave, Shutdown;
    } else {
      hide Create, ReserveJoin, Reap, Holder;
    }
  }

  lemma {:induction false} RunIsSeated(config: Config, events: seq<Event>)
    ensures Seated(Run(config, events).hall.rooms)
  {
    hide Step, Seated;
    if events == [] {
      NobodyToSeat(config);
    } else {
      RunIsSeated(config, events[..|events| - 1]);
      StepKeepsSeats(config, Run(config, events[..|events| - 1]), events[|events| - 1]);
    }
  }

  lemma NobodyToSeat(config: Config)
    ensures Seated(Run(config, []).hall.rooms)
  {
  }

  lemma WellFormedIsSeated(config: Config, rooms: map<string, Room>)
    requires RoomsOk(config, rooms)
    ensures Seated(rooms)
  {
  }

  class AppState {
    const config: Config
    var rooms: map<string, Room>
    /** The operating system's view: children spawned and neither waited for nor seen to exit. */
    var live: set<Pid>

    function State(): Hall
      reads this
    {
      Hall(rooms, live)
    }

    constructor (config: Config)
      ensures State() == EMPTY.hall && this.config == config
    {
      this.config := config;
      rooms := map[];
      live := {};
    }

    /** Kill and wait. */
    method StopChild(room: Room) returns (stopped: Room)
      modifies this`live
      ensures stopped == room.(child := None) && live == old(live) - ChildSet(room.child)
    {
      stopped := room;
      if room.child.Some? {
        stopped := room.(child := None);
        live := live - {room.child.value};
      }
    }

    method ClearConnectTokens(room: Room) returns (cleared: Room)
      ensures cleared == room.(players := TokensCleared(room.players))
    {
      cleared := room;
      for index := 0 to 2
        invariant cleared == room.(players := PerSlot(
          if index >= 1 then Cleared(room.players.a) else room.players.a,
          if index >= 2 then Cleared(room.players.b) else room.players.b))
      {
        var slot := if index == 0 then A else B;
        var player := cleared.players.Get(slot);
        if player.Some? {
          cleared := cleared.(players := cleared.players.Set(slot, Some(player.value.(connectToken := None))));
        }
      }
    }

    method LookAt(room: Room, probe: Pid -> Probe, now: u64) returns (r: Room)
      modifies this`live
      ensures r == Inspected(config, room, probe, now)
      ensures live == old(live) -
        if room.child.Some? && probe(room.child.value) != Running then {room.child.value} else {}
    {
      r := room;
      if room.child.Some? && probe(room.child.value) != Running {
        live := live - {room.child.value};
        r := r.(child := None);
        if r.state == Ready {
          r := r.(state := Failed, error := Some(EXITED), expiresAt := SaturatingAdd(now, config.failedRetention));
          r := ClearConnectTokens(r);
        }
      }
    }

    method Inspect(probe: Pid -> Probe, now: u64)
      modifies this
      ensures rooms == map c | c in old(rooms) :: Inspected(config, old(rooms)[c], probe, now)
      ensures live == old(live) - SeenToExit(old(rooms), old(rooms).Keys, probe)
    {
      hide Inspected;
      var todo := rooms.Keys;
      ghost var all := rooms.Keys;
      while todo != {}
        invariant todo <= all == rooms.Keys == old(rooms).Keys
        invariant forall c :: c in all ==>
          rooms[c] == if c in todo then old(rooms)[c] else Inspected(config, old(rooms)[c], probe, now)
        invariant live == old(live) - SeenToExit(old(rooms), all - todo, probe)
      {
        var code :| code in todo;
        var room := rooms[code];
        OneMoreSeen(old(rooms), all - todo, code, probe);
        assert all - (todo - {code}) == all - todo + {code};
        room := LookAt(room, probe, now);
        rooms := rooms[code := room];
        todo := todo - {code};
      }
      assert all - {} == old(rooms).Keys;
    }

    /** Look at every child, then drop every expired room and stop its child. */
    method ReapLocked(probe: Pid -> Probe, now: u64)
      modifies this
      ensures State() == Reap(config, old(State()), probe, now)
    {
      hide Inspected;
      ExitedOrStopped(config, rooms, probe, now);
      Inspect(probe, now);
      ghost var seen, inspected := live, rooms;
      var todo := rooms.Keys;
      ghost var all := rooms.Keys;
      while todo != {}
        invariant todo <= all == inspected.Keys == old(rooms).Keys
        invariant rooms.Keys <= all
        invariant forall c :: c in all ==> (c in rooms <==> c in todo || Stays(config, old(rooms)[c], probe, now))
        invariant forall c :: c in rooms ==> rooms[c] == inspected[c]
        invariant live == seen - ToStop(config, old(rooms), all - todo, probe, now)
      {
        var code :| code in todo;
        OneMoreStopped(config, old(rooms), all - todo, code, probe, now);
        assert all - (todo - {code}) == all - todo + {code};
        if rooms[code].expiresAt <= now {
          var _ := StopChild(rooms[code]);
          rooms := rooms - {code};
        }
        todo := todo - {code};
      }
      assert all - {} == old(rooms).Keys;
      assert rooms == Reap(config, old(State()), probe, now).rooms;
    }

    method UniqueRoomCode(candidates: seq<string>) returns (code: Option<string>)
      ensures code == FreshCode(candidates, rooms)
    {
      for i := 0 to |candidates|
        invariant FreshCode(candidates, rooms) == FreshCode(candidates[i..], rooms)
      {
        if candidates[i] !in rooms {
          return Some(candidates[i]);
        }
      }
      return None;
    }

    method CreateRoom(binding: Binding, candidates: seq<string>, ticket: string, probe: Pid -> Probe, now: u64)
      returns (r: Result<RoomTicket, HttpError>)
      modifies this
      ensures (State(), r) == Create(config, old(State()), binding, candidates, ticket, probe, now)
    {
      ReapLocked(probe, now);
      if |WaitingCodes(rooms)| >= config.maxWaitingRooms {
        return Failure(WaitingRoomLimit);
      }
      var code := UniqueRoomCode(candidates);
      if code.None? {
        return Failure(NoUniqueCode);
      }
      var player := PlayerEntry(binding, A, ticket, None);
      var room := Room(code.value, WaitingForOpponent, SaturatingAdd(now, config.waitingTtl),
                       PerSlot(Some(player), None), None, None, None);
      r := TicketOf(room, player.ticket);
      rooms := rooms[code.value := room];
    }

    method FindEndpoint(used: set<u16>) returns (endpoint: Option<GameEndpoint>)
      ensures endpoint == FirstFree(config.endpoints, used)
    {
      for i := 0 to |config.endpoints|
        invariant FirstFree(config.endpoints, used) == FirstFree(config.endpoints[i..], used)
      {
        if config.endpoints[i].localPort !in used {
          return Some(config.endpoints[i]);
        }
      }
      return None;
    }

    method IssueTokens(room: Room, tokens: PerSlot<Option<string>>)
      returns (players: PerSlot<Option<PlayerEntry>>, ok: bool)
      requires room.players.a.Some? && room.players.b.Some?
      ensures players == Issued(room.players, tokens) && (ok <==> tokens.a.Some? && tokens.b.Some?)
    {
      players := room.players;
      for index := 0 to 2
        invariant (index >= 1 ==> tokens.a.Some?) && (index >= 2 ==> tokens.b.Some?)
        invariant players == match index
          case 0 => room.players
          case 1 => room.players.(a := WithToken(room.players.a, tokens.a.value))
          case _ => Issued(room.players, tokens)
      {
        var slot := if index == 0 then A else B;
        var token, player := tokens.Get(slot), players.Get(slot);
        if token.None? {
          return players, false;
        }
        players := players.Set(slot, Some(player.value.(connectToken := token)));
      }
      ok := true;
    }

    /** Every room has its creator, as in every run, so the creator's seat is never found empty. */
    method Join(code: string, binding: Binding, ticket: string, tokens: PerSlot<Option<string>>,
                probe: Pid -> Probe, now: u64)
      returns (r: Result<(RoomTicket, StartPlan), HttpError>)
      requires Seated(rooms)
      modifies this
      ensures (State(), r) == ReserveJoin(config, old(State()), code, binding, ticket, tokens, probe, now)
    {
      ReapKeepsSeats(config, State(), probe, now);
      hide Reap, UsedPorts;
      ReapLocked(probe, now);
      if code !in rooms {
        return Failure(RoomNotFound);
      }
      var room := rooms[code];
      if room.state != WaitingForOpponent || room.players.b.Some? {
        return Failure(RoomFull);
      }
      var first := room.players.a.value;
      if first.binding.fiberPubkey == binding.fiberPubkey {
        return Failure(DuplicateFiberIdentity);
      }
      if first.binding.name == binding.name {
        return Failure(DuplicatePlayerName);
      }
      var endpoint := FindEndpoint(UsedPorts(rooms));
      if endpoint.None? {
        return Failure(NoGameEndpoint);
      }
      room := room.(players := room.players.(b := Some(PlayerEntry(binding, B, ticket, None))),
                    endpoint := endpoint, state := StartingServer, expiresAt := SaturatingAdd(now, config.matchTtl));
      var players, ok := IssueTokens(room, tokens);
      room := room.(players := players);
      rooms := rooms[code := room];
      if !ok {
        return Failure(TokenNotIssued);
      }
      var response := TicketOf(room, ticket);
      match response
      case Failure(error) => r := Failure(error);
      case Success(t) => r := Success((t, StartPlan(code, endpoint.value)));
    }

    method MarkRoomReady(code: string, child: Pid) returns (r: Result<(), HttpError>)
      modifies this
      ensures (State(), r) == MarkReady(old(State()), code, child)
    {
      if code !in rooms {
        live := live - {child};
        return Failure(RoomDisappeared);
      }
      rooms := rooms[code := rooms[code].(child := Some(child), state := Ready)];
      r := Success(());
    }

    method MarkRoomFailed(code: string, message: string, now: u64)
      modifies this
      ensures State() == MarkFailed(config, old(State()), code, message, now)
    {
      if code in rooms {
        var room := rooms[code];
        room := room.(state := Failed, error := Some(message), expiresAt := SaturatingAdd(now, config.failedRetention));
        room := ClearConnectTokens(room);
        room := StopChild(room);
        rooms := rooms[code := room];
      }
    }

    method LeaveRoom(code: string, ticket: string, now: u64) returns (r: Result<(), HttpError>)
      modifies this
      ensures (State(), r) == Leave(config, old(State()), code, ticket, now)
    {
      if code !in rooms {
        return Failure(RoomNotFound);
      }
      var room := rooms[code];
      if Holder(room.players, ticket).None? {
        return Failure(TicketNotFound);
      }
      if room.state == WaitingForOpponent {
        rooms := rooms - {code};
      } else {
        room := room.(state := Failed, error := Some(LEFT), expiresAt := SaturatingAdd(now, config.failedRetention));
        room := ClearConnectTokens(room);
        room := StopChild(room);
        rooms := rooms[code := room];
      }
      r := Success(());
    }

    /** A ready room always has the endpoint its ticket shows. */
    method Ticket(code: string, ticket: string, probe: Pid -> Probe, now: u64)
      returns (r: Result<RoomTicket, HttpError>)
      requires RoomsOk(config, rooms)
      modifies this
      ensures State() == Reap(config, old(State()), probe, now)
      ensures RoomsOk(config, rooms)
      ensures r == if code !in rooms then Failure(RoomNotFound) else TicketOf(rooms[code], ticket)
    {
      hide Reap;
      ReapedRooms(config, State(), probe, now);
      ReapLocked(probe, now);
      if code !in rooms {
        return Failure(RoomNotFound);
      }
      r := TicketOf(rooms[code], ticket);
    }

    method GetHealth(probe: Pid -> Probe, now: u64) returns (r: Health)
      modifies this
      ensures State() == Reap(config, old(State()), probe, now) && r == HealthOf(config, rooms)
    {
      ReapLocked(probe, now);
      var waiting, active := |WaitingCodes(rooms)|, |ActiveCodes(rooms)|;
      r := Health(waiting, active, if |config.endpoints| >= active then |config.endpoints| - active else 0);
    }

    method ShutDown()
      modifies this
      ensures State() == Shutdown(old(State()))
    {
      var todo := rooms.Keys;
      ghost var all := rooms.Keys;
      while todo != {}
        invariant todo <= all && rooms == old(rooms)
        invariant live == old(live) - set c | c in all - todo && rooms[c].child.Some? :: rooms[c].child.value
      {
        var code :| code in todo;
        var _ := StopChild(rooms[code]);
        todo := todo - {code};
      }
      assert all - {} == all;
      rooms := map[];
    }
  }

  // ---- the service --------------------------------------------------------------------------

  /** The state object together with the joins that its handlers are busy with. */
  class Service {
    const app: AppState
    var joins: map<nat, RoomRuns.Join>

    function State(): World
      reads this, app
    {
      World(app.State(), joins)
    }

    constructor (config: Config)
      ensures State() == EMPTY && app.config == config && fresh(app)
    {
      app := new AppState(config);
      joins := map[];
    }

    /** Starting a game server: a failure ends the join at once. */
    method SpawnGame(id: nat, result: Option<Pid>, now: u64)
      modifies this, app
      ensures State() == Step(app.config, old(State()), Spawned(id, result, now))
    {
      hide MarkFailed;
      if id !in joins || joins[id].child.Some? {
        return;
      }
      if result.None? {
        app.MarkRoomFailed(joins[id].code, NOT_STARTED, now);
        joins := joins - {id};
      } else if result.value !in app.live {
        app.live := app.live + {result.value};
        joins := joins[id := joins[id].(child := result)];
      }
    }

    /** The look at a server that was just started, and what follows from it. */
    method FinishStart(id: nat, state: Probe, now: u64)
      modifies this, app
      ensures State() == Step(app.config, old(State()), Started(id, state, now))
    {
      hide MarkFailed, MarkReady;
      if id !in joins || joins[id].child.None? {
        return;
      }
      var join := joins[id];
      if state == Running {
        var _ := app.MarkRoomReady(join.code, join.child.value);
      } else {
        app.live := app.live - {join.child.value};
        app.MarkRoomFailed(join.code, NOT_STARTED, now);
      }
      joins := joins - {id};
    }

    method Reserve(id: nat, code: string, binding: Binding, ticket: string, tokens: PerSlot<Option<string>>,
                   probe: Pid -> Probe, now: u64)
      returns (r: Result<(RoomTicket, StartPlan), HttpError>)
      requires Seated(app.rooms) && id !in joins
      modifies this, app
      ensures State() == Step(app.config, old(State()), Joined(id, code, binding, ticket, tokens, probe, now))
      ensures r == ReserveJoin(app.config, old(app.State()), code, binding, ticket, tokens, probe, now).1
      ensures joins == if r.Success? then old(joins)[id := RoomRuns.Join(code, None)] else old(joins)
    {
      hide ReserveJoin;
      r := app.Join(code, binding, ticket, tokens, probe, now);
      if r.Success? {
        joins := joins[id := RoomRuns.Join(code, None)];
      }
    }

    method Handle(e: Event)
      requires Seated(app.rooms)
      modifies this, app
      ensures State() == Step(app.config, old(State()), e)
    {
      hide Create, Reap, Leave, Shutdown, Seated;
      match e {
        case Created(binding, candidates, ticket, probe, now) =>
          var _ := app.CreateRoom(binding, candidates, ticket, probe, now);
        case Joined(id, code, binding, ticket, tokens, probe, now) =>
          if id !in joins {
            var _ := Reserve(id, code, binding, ticket, tokens, probe, now);
          }
        case Spawned(id, result, now) => SpawnGame(id, result, now);
        case Started(id, state, now) => FinishStart(id, state, now);
        case Polled(probe, now) =>
          var _ := app.GetHealth(probe, now);
        case Left(code, ticket, now) =>
          var _ := app.LeaveRoom(code, ticket, now);
        case ShutDown => app.ShutDown();
      }
    }

    /**
     * A join that nothing interrupts: reserve, start a server, look at it, hand it to its room or
     * give the room up, and show the ticket. Whatever happens on the way, no join is left in flight.
     */
    method JoinRoom(id: nat, code: string, binding: Binding, ticket: string, tokens: PerSlot<Option<string>>,
                    probe: Pid -> Probe, now: u64, spawned: Option<Pid>, state: Probe, later: Pid -> Probe, after: u64)
      returns (r: Result<RoomTicket, HttpError>)
      requires Inv(app.config, State(), false) && id !in joins
      requires spawned.Some? ==> spawned.value !in app.live
      modifies this, app
      ensures joins == old(joins) && RoomsOk(app.config, app.rooms)
      ensures
        var w1 := Step(app.config, old(State()), Joined(id, code, binding, ticket, tokens, probe, now));
        var w3 := Step(app.config, Step(app.config, w1, Spawned(id, spawned, now)), Started(id, state, now));
        match ReserveJoin(app.config, old(app.State()), code, binding, ticket, tokens, probe, now).1
        case Failure(error) => State() == w1 && r == Failure(error)
        case Success(_) =>
          if spawned.None? || state != Running then State() == w3 && r == Failure(ServerNotStarted)
          else
            && State() == Step(app.config, w3, Polled(later, after))
            && r == (if code in app.rooms then TicketOf(app.rooms[code], ticket) else Failure(RoomNotFound))
    {
      hide ReserveJoin, Reap, MarkFailed, MarkReady, Inv, FreshAmongJoins, Waits;
      ghost var config, w0 := app.config, State();
      ghost var joined := Joined(id, code, binding, ticket, tokens, probe, now);
      ghost var w1 := Step(config, w0, joined);
      InvHasRooms(config, w0);
      WellFormedIsSeated(config, w0.hall.rooms);
      ThreeSteps(config, w0, joined, Spawned(id, spawned, now), Started(id, state, now), Polled(later, after));
      LiveShrinks(config, w0, joined);
      var reserved := Reserve(id, code, binding, ticket, tokens, probe, now);
      if reserved.Failure? {
        return Failure(reserved.error);
      }
      SpawnGame(id, spawned, now);
      FinishStart(id, state, now);
      assert joins == old(joins);
      if spawned.None? || state != Running {
        return Failure(ServerNotStarted);
      }
      r := app.Ticket(code, ticket, later, after);
    }
  }

  lemma InvHasRooms(config: Config, w: World)
    requires Inv(config, w, false)
    ensures RoomsOk(config, w.hall.rooms)
  {
  }

  /** The invariant through the steps of a join. */
  lemma ThreeSteps(config: Config, w: World, e1: Event, e2: Event, e3: Event, e4: Event)
    requires Inv(config, w, false) && e1.Joined? && e2.Spawned? && e3.Started? && e4.Polled?
    ensures var w1 := Step(config, w, e1);
      var w3 := Step(config, Step(config, w1, e2), e3);
      && RoomsOk(config, w1.hall.rooms) && RoomsOk(config, w3.hall.rooms)
      && RoomsOk(config, Step(config, w3, e4).hall.rooms)
  {
    hide Inv, Step, Waits, RoomsOk;
    var w1 := Step(config, w, e1);
    var w2 := Step(config, w1, e2);
    var w3 := Step(config, w2, e3);
    StepKeepsInv(config, w, e1, false);
    StepKeepsInv(config, w1, e2, false);
    StepKeepsInv(config, w2, e3, false);
    StepKeepsInv(config, w3, e4, false);
    InvHasRooms(config, w1);
    InvHasRooms(config, w3);
    InvHasRooms(config, Step(config, w3, e4));
  }

  /** Reserving a seat starts no process. */
  lemma LiveShrinks(config: Config, w: World, e: Event)
    requires e.Joined?
    ensures Step(config, w, e).hall.live <= w.hall.live
  {
    hide TicketOf, FirstFree, UsedPorts;
  }

  /** The service through any events is in exactly the state of the run, to which all results about runs apply. */
  method RunService(config: Config, events: seq<Event>) returns (service: Service)
    ensures fresh(service) && service.State() == Run(config, events)
  {
    hide Step, Create, ReserveJoin, Seated;
    service := new Service(config);
    for i := 0 to |events|
      invariant fresh(service) && fresh(service.app) && service.app.config == config
      invariant service.State() == Run(config, events[..i])
    {
      assert events[..i + 1][..i] == events[..i];
      RunIsSeated(config, events[..i]);
      service.Handle(events[i]);
    }
    assert events[..|events|] == events;
  }
}
