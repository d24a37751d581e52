/**
 * Matchmaker runs: rooms, joins in flight and child processes under every interleaving of
 * requests. No child is lost or owned twice, and no game endpoint is given to two rooms at once.
 */
module RoomRuns {
  import opened Wrappers
  import opened Binary
  import opened Protocol
  import opened Sequences
  import opened Rooms

  /** A join that reserved its endpoint and has not yet marked its room ready or failed. */
  datatype Join = Join(code: string, child: Option<Pid>)

  datatype World = World(hall: Hall, joins: map<nat, Join>)

  datatype Event =
    | Created(binding: Binding, candidates: seq<string>, ticket: string, probe: Pid -> Probe, now: u64)
    | Joined(id: nat, code: string, binding: Binding, ticket: string, tokens: PerSlot<Option<string>>,
             probe: Pid -> Probe, now: u64)
    | Spawned(id: nat, result: Option<Pid>, now: u64)
    | Started(id: nat, state: Probe, now: u64)
    | Polled(probe: Pid -> Probe, now: u64)
    | Left(code: string, ticket: string, now: u64)
    | ShutDown

  const NOT_STARTED := "could not start game server"

  /** A spawn that names a join with no reservation, or a process identifier still in use, does not happen. */
  function Step(config: Config, w: World, e: Event): World {
    match e
    case Created(binding, candidates, ticket, probe, now) =>
      w.(hall := Create(config, w.hall, binding, candidates, ticket, probe, now).0)
    case Joined(id, code, binding, ticket, tokens, probe, now) =>
      if id in w.joins then w
      else
        var r := ReserveJoin(config, w.hall, code, binding, ticket, tokens, probe, now);
        World(r.0, if r.1.Success? then w.joins[id := Join(code, None)] else w.joins)
    case Spawned(id, result, now) =>
      if id !in w.joins || w.joins[id].child.Some? then w
      else if result.None? then
        World(MarkFailed(config, w.hall, w.joins[id].code, NOT_STARTED, now), w.joins - {id})
      else if result.value in w.hall.live then w
      else
        World(w.hall.(live := w.hall.live + {result.value}), w.joins[id := w.joins[id].(child := result)])
    case Started(id, state, now) =>
      if id !in w.joins || w.joins[id].child.None? then w
      else
        var code, pid := w.joins[id].code, w.joins[id].child.value;
        if state == Running then World(MarkReady(w.hall, code, pid).0, w.joins - {id})
        else
          World(MarkFailed(config, w.hall.(live := w.hall.live - {pid}), code, NOT_STARTED, now), w.joins - {id})
    case Polled(probe, now) => w.(hall := Reap(config, w.hall, probe, now))
    case Left(code, ticket, now) => w.(hall := Leave(config, w.hall, code, ticket, now).0)
    case ShutDown => w.(hall := Shutdown(w.hall))
  }

  const EMPTY := World(Hall(map[], {}), map[])

  function Run(config: Config, events: seq<Event>): World {
    if events == [] then EMPTY else Step(config, Run(config, events[..|events| - 1]), events[|events| - 1])
  }

  // ---- what is claimed of every reachable world ---------------------------------------------

  predicate RoomOk(config: Config, code: string, room: Room) {
    && room.code == code
    && room.players.a.Some?
    && (room.state == WaitingForOpponent ==> room.players.b.None? && room.endpoint.None?)
    && (room.state != WaitingForOpponent ==>
          (room.players.b.Some? && room.endpoint.Some? && room.endpoint.value in config.endpoints))
    && (room.child.Some? <==> room.state == Ready)
    && (room.Active() || (Tokenless(room.players.a) && Tokenless(room.players.b)))
  }

  predicate Tokenless(entry: Option<PlayerEntry>) {
    entry.Some? ==> entry.value.connectToken.None?
  }

  ghost predicate RoomsOk(config: Config, rooms: map<string, Room>) {
    forall c :: c in rooms ==> RoomOk(config, c, rooms[c])
  }

  /** The room of a join in flight is gone, or still starting, or was left meanwhile. */
  predicate JoinOk(rooms: map<string, Room>, join: Join, patient: bool) {
    join.code in rooms ==>
      (rooms[join.code].state == StartingServer || (!patient && rooms[join.code].state == Failed))
  }

  ghost predicate JoinsOk(w: World, patient: bool) {
    && (forall id :: id in w.joins ==> JoinOk(w.hall.rooms, w.joins[id], patient))
    && (forall i, j :: i in w.joins && j in w.joins && i != j ==> w.joins[i].code != w.joins[j].code)
  }

  /** Whoever must see to the end of a child process. */
  datatype Owner = RoomOwner(code: string) | JoinOwner(id: nat)

  function ChildOf(w: World, o: Owner): Option<Pid> {
    match o
    case RoomOwner(c) => if c in w.hall.rooms then w.hall.rooms[c].child else None
    case JoinOwner(id) => if id in w.joins then w.joins[id].child else None
  }

  ghost predicate Owned(w: World, p: Pid) {
    exists o :: ChildOf(w, o) == Some(p)
  }

  /** The children neither killed nor seen to exit are exactly those with an owner, and each has one. */
  ghost predicate Conserved(w: World) {
    && (forall p :: p in w.hall.live <==> Owned(w, p))
    && (forall o, o' :: ChildOf(w, o).Some? && ChildOf(w, o) == ChildOf(w, o') ==> o == o')
  }

  /** An active room with an endpoint. */
  predicate Holds(room: Room) {
    room.Active() && room.endpoint.Some?
  }

  /** No two rooms hold the same local port. */
  ghost predicate Exclusive(rooms: map<string, Room>) {
    forall c, d :: c in rooms && d in rooms && c != d && Holds(rooms[c]) && Holds(rooms[d]) ==>
      rooms[c].endpoint.value.localPort != rooms[d].endpoint.value.localPort
  }

  ghost predicate Inv(config: Config, w: World, patient: bool) {
    && RoomsOk(config, w.hall.rooms)
    && |WaitingCodes(w.hall.rooms)| <= config.maxWaitingRooms
    && JoinsOk(w, patient)
    && Conserved(w)
    && (patient ==> Exclusive(w.hall.rooms))
  }

  /** The code drawn for a new room is not one that a join is still busy with. */
  ghost predicate FreshAmongJoins(config: Config, w: World, e: Event) {
    e.Created? ==>
      var code := FreshCode(e.candidates, Reap(config, w.hall, e.probe, e.now).rooms);
      code.Some? ==> forall id :: id in w.joins ==> w.joins[id].code != code.value
  }

  /** Nobody leaves a room whose server is still starting. */
  predicate Waits(w: World, e: Event) {
    e.Left? && e.code in w.hall.rooms ==> w.hall.rooms[e.code].state != StartingServer
  }

  ghost predicate Admissible(config: Config, events: seq<Event>, patient: bool) {
    events == [] ||
    (Admissible(config, events[..|events| - 1], patient)
     && FreshAmongJoins(config, Run(config, events[..|events| - 1]), events[|events| - 1])
     && (patient ==> Waits(Run(config, events[..|events| - 1]), events[|events| - 1])))
  }

  // ---- children -----------------------------------------------------------------------------

  /** Owners only let go, and exactly the children let go are no longer live. */
  lemma Releasing(w: World, w': World)
    requires Conserved(w)
    requires forall o :: ChildOf(w', o) == ChildOf(w, o) || ChildOf(w', o) == None
    requires w'.hall.live <= w.hall.live
    requires forall o :: ChildOf(w, o).Some? ==>
               (ChildOf(w, o).value in w'.hall.live <==> ChildOf(w', o) == ChildOf(w, o))
    ensures Conserved(w')
  {
    hide ChildOf;
    forall p
      ensures p in w'.hall.live <==> Owned(w', p)
    {
      if p in w'.hall.live {
        assert Owned(w, p);
        var o :| ChildOf(w, o) == Some(p);
        assert ChildOf(w', o) == Some(p);
      }
      if Owned(w', p) {
        var o :| ChildOf(w', o) == Some(p);
        assert ChildOf(w, o) == Some(p);
      }
    }
  }

  /** Nobody's child changes hands and no process ends. */
  lemma Untouched(w: World, w': World)
    requires Conserved(w)
    requires forall o :: ChildOf(w', o) == ChildOf(w, o)
    requires w'.hall.live == w.hall.live
    ensures Conserved(w')
  {
    hide ChildOf;
    forall o | ChildOf(w, o).Some?
      ensures ChildOf(w, o).value in w.hall.live
    {
      assert Owned(w, ChildOf(w, o).value);
    }
    Releasing(w, w');
  }

  // ---- reaping ------------------------------------------------------------------------------

  lemma InspectedRoom(config: Config, code: string, room: Room, probe: Pid -> Probe, now: u64)
    requires RoomOk(config, code, room)
    ensures var after := Inspected(config, room, probe, now);
      && RoomOk(config, code, after)
      && (after.state == room.state || (room.state == Ready && after.state == Failed))
      && (after.Active() ==> room.Active() && after.endpoint == room.endpoint)
      && after.child == if room.child.Some? && probe(room.child.value) == Running then room.child else None
  {
  }

  /** Reaping keeps, room by room, what inspection keeps. */
  lemma ReapedRooms(config: Config, h: Hall, probe: Pid -> Probe, now: u64)
    requires RoomsOk(config, h.rooms)
    ensures var after := Reap(config, h, probe, now).rooms;
      && RoomsOk(config, after)
      && after.Keys <= h.rooms.Keys
      && (forall c :: c in after ==>
            after[c].state == h.rooms[c].state || (h.rooms[c].state == Ready && after[c].state == Failed))
      && (forall c :: c in after && after[c].Active() ==>
            h.rooms[c].Active() && after[c].endpoint == h.rooms[c].endpoint)
  {
    hide RoomOk, Inspected;
    var after := Reap(config, h, probe, now).rooms;
    forall c | c in after
      ensures RoomOk(config, c, after[c])
      ensures after[c].state == h.rooms[c].state || (h.rooms[c].state == Ready && after[c].state == Failed)
      ensures after[c].Active() ==> h.rooms[c].Active() && after[c].endpoint == h.rooms[c].endpoint
    {
      InspectedRoom(config, c, h.rooms[c], probe, now);
    }
  }

  lemma InspectedChild(config: Config, room: Room, probe: Pid -> Probe, now: u64)
    ensures Inspected(config, room, probe, now).child
         == if room.child.Some? && probe(room.child.value) == Running then room.child else None
  {
  }

  lemma ReapedChild(config: Config, w: World, probe: Pid -> Probe, now: u64, o: Owner)
    requires Conserved(w)
    ensures var w' := w.(hall := Reap(config, w.hall, probe, now));
      && (ChildOf(w', o) == ChildOf(w, o) || ChildOf(w', o) == None)
      && (ChildOf(w, o).Some? ==> (ChildOf(w, o).value in w'.hall.live <==> ChildOf(w', o) == ChildOf(w, o)))
  {
    hide Inspected, Stays;
    var rooms := w.hall.rooms;
    var collected := Collected(config, rooms, probe, now);
    if o.RoomOwner? && o.code in rooms {
      InspectedChild(config, rooms[o.code], probe, now);
    }
    if ChildOf(w, o).Some? {
      var p := ChildOf(w, o).value;
      assert Owned(w, p);
      if p in collected {
        var c :| c in rooms && rooms[c].child == Some(p)
                 && (probe(p) != Running || !Stays(config, rooms[c], probe, now));
        assert ChildOf(w, RoomOwner(c)) == Some(p);
        assert o == RoomOwner(c);
      } else if o.RoomOwner? {
        assert rooms[o.code].child == Some(p);
        assert probe(p) == Running && Stays(config, rooms[o.code], probe, now);
      }
    }
  }

  lemma ReapConserves(config: Config, w: World, probe: Pid -> Probe, now: u64)
    requires Conserved(w)
    ensures Conserved(w.(hall := Reap(config, w.hall, probe, now)))
  {
    hide Inspected, ChildOf, Conserved;
    var w' := w.(hall := Reap(config, w.hall, probe, now));
    forall o
      ensures ChildOf(w', o) == ChildOf(w, o) || ChildOf(w', o) == None
      ensures ChildOf(w, o).Some? ==> (ChildOf(w, o).value in w'.hall.live <==> ChildOf(w', o) == ChildOf(w, o))
    {
      ReapedChild(config, w, probe, now, o);
    }
    Releasing(w, w');
  }

  lemma ReapKeepsInv(config: Config, w: World, patient: bool, probe: Pid -> Probe, now: u64)
    requires Inv(config, w, patient)
    ensures Inv(config, w.(hall := Reap(config, w.hall, probe, now)), patient)
  {
    hide RoomOk, Reap, Conserved;
    var after := Reap(config, w.hall, probe, now).rooms;
    ReapedRooms(config, w.hall, probe, now);
    ReapConserves(config, w, probe, now);
    assert WaitingCodes(after) <= WaitingCodes(w.hall.rooms);
    SubsetCardinality(WaitingCodes(after), WaitingCodes(w.hall.rooms));
  }

  // ---- one room changes ---------------------------------------------------------------------

  lemma WaitingAfterPut(rooms: map<string, Room>, code: string, room: Room)
    ensures |WaitingCodes(rooms[code := room])|
         <= |WaitingCodes(rooms)| + if room.state == WaitingForOpponent then 1 else 0
  {
    var before, after := WaitingCodes(rooms), WaitingCodes(rooms[code := room]);
    if room.state == WaitingForOpponent {
      assert after <= before + {code};
      SubsetCardinality(after, before + {code});
    } else {
      assert after <= before;
      SubsetCardinality(after, before);
    }
  }

  lemma CreateKeepsInv(config: Config, w: World, e: Event, patient: bool)
    requires Inv(config, w, patient) && e.Created? && FreshAmongJoins(config, w, e)
    ensures Inv(config, Step(config, w, e), patient)
  {
    hide Reap, Conserved, ChildOf, Exclusive;
    var w1 := w.(hall := Reap(config, w.hall, e.probe, e.now));
    ReapKeepsInv(config, w, patient, e.probe, e.now);
    var rooms := w1.hall.rooms;
    var code := FreshCode(e.candidates, rooms);
    if |WaitingCodes(rooms)| < config.maxWaitingRooms && code.Some? {
      FreshCodeIsNew(e.candidates, rooms);
      PutNewRoom(config, w1, patient, code.value, NewRoom(config, code.value, e.binding, e.ticket, e.now));
    }
  }

  lemma {:induction false} FreshCodeIsNew(candidates: seq<string>, rooms: map<string, Room>)
    ensures FreshCode(candidates, rooms).Some? ==> FreshCode(candidates, rooms).value !in rooms
  {
    if candidates != [] {
      FreshCodeIsNew(candidates[1..], rooms);
    }
  }

  lemma PutNewRoom(config: Config, w: World, patient: bool, code: string, room: Room)
    requires Inv(config, w, patient)
    requires code !in w.hall.rooms && room.state == WaitingForOpponent && RoomOk(config, code, room)
    requires |WaitingCodes(w.hall.rooms)| < config.maxWaitingRooms
    requires forall id :: id in w.joins ==> w.joins[id].code != code
    ensures Inv(config, w.(hall := w.hall.(rooms := w.hall.rooms[code := room])), patient)
  {
    hide Conserved;
    var w' := w.(hall := w.hall.(rooms := w.hall.rooms[code := room]));
    WaitingAfterPut(w.hall.rooms, code, room);
    Untouched(w, w');
  }

  // ---- joining ------------------------------------------------------------------------------

  lemma {:induction false} FirstFreeIsExact(endpoints: seq<GameEndpoint>, used: set<u16>)
    ensures match FirstFree(endpoints, used)
      case Some(e) => e in endpoints && e.localPort !in used
      case None => forall e :: e in endpoints ==> e.localPort in used
  {
    if endpoints != [] {
      FirstFreeIsExact(endpoints[1..], used);
      assert endpoints == [endpoints[0]] + endpoints[1..];
    }
  }

  lemma ReservedRoom(config: Config, code: string, room: Room, binding: Binding, ticket: string,
                     tokens: PerSlot<Option<string>>, endpoint: GameEndpoint, now: u64)
    requires RoomOk(config, code, room) && room.state == WaitingForOpponent && endpoint in config.endpoints
    ensures var after := Reserved(config, room, binding, ticket, tokens, endpoint, now);
      RoomOk(config, code, after) && after.state == StartingServer && after.endpoint == Some(endpoint)
      && after.child == room.child
  {
  }

  lemma PutStarting(config: Config, w: World, patient: bool, code: string, room: Room, id: Option<nat>)
    requires Inv(config, w, patient)
    requires code in w.hall.rooms && w.hall.rooms[code].state == WaitingForOpponent
    requires RoomOk(config, code, room) && room.state == StartingServer && room.child == w.hall.rooms[code].child
    requires room.endpoint.Some? && room.endpoint.value.localPort !in UsedPorts(w.hall.rooms)
    requires id.Some? ==> id.value !in w.joins
    ensures Inv(config, World(w.hall.(rooms := w.hall.rooms[code := room]),
                              if id.Some? then w.joins[id.value := Join(code, None)] else w.joins), patient)
  {
    hide Conserved, RoomOk;
    var w' := World(w.hall.(rooms := w.hall.rooms[code := room]),
                    if id.Some? then w.joins[id.value := Join(code, None)] else w.joins);
    WaitingAfterPut(w.hall.rooms, code, room);
    Untouched(w, w');
    if patient {
      ActiveRoomsHaveEndpoints(config, w.hall.rooms);
      ExclusiveAfterPut(w.hall.rooms, code, room);
    }
  }

  lemma ExclusiveAfterPut(rooms: map<string, Room>, code: string, room: Room)
    requires Exclusive(rooms) && room.endpoint.Some? && room.endpoint.value.localPort !in UsedPorts(rooms)
    requires forall c :: c in rooms && rooms[c].Active() ==> rooms[c].endpoint.Some?
    ensures Exclusive(rooms[code := room])
  {
    forall c | c in rooms && rooms[c].Active()
      ensures rooms[c].endpoint.value.localPort in UsedPorts(rooms)
    {
    }
  }

  lemma ActiveRoomsHaveEndpoints(config: Config, rooms: map<string, Room>)
    requires RoomsOk(config, rooms)
    ensures forall c :: c in rooms && rooms[c].Active() ==>
              rooms[c].endpoint.Some? && rooms[c].endpoint.value in config.endpoints
  {
  }

  lemma JoinKeepsInv(config: Config, w: World, e: Event, patient: bool)
    requires Inv(config, w, patient) && e.Joined?
    ensures Inv(config, Step(config, w, e), patient)
  {
    hide Reap, Inv, Reserved, TicketOf, UsedPorts, RoomOk;
    if e.id !in w.joins {
      var w1 := w.(hall := Reap(config, w.hall, e.probe, e.now));
      ReapKeepsInv(config, w, patient, e.probe, e.now);
      var rooms := w1.hall.rooms;
      var used := UsedPorts(rooms);
      var free := FirstFree(config.endpoints, used);
      FirstFreeIsExact(config.endpoints, used);
      if JoinError(rooms, e.code, e.binding).None? && free.Some? {
        WaitingRoomOf(config, w1, patient, e.code);
        ReservedRoom(config, e.code, rooms[e.code], e.binding, e.ticket, e.tokens, free.value, e.now);
        var room := Reserved(config, rooms[e.code], e.binding, e.ticket, e.tokens, free.value, e.now);
        PutStarting(config, w1, patient, e.code, room, None);
        PutStarting(config, w1, patient, e.code, room, Some(e.id));
      }
    }
  }

  lemma WaitingRoomOf(config: Config, w: World, patient: bool, code: string)
    requires Inv(config, w, patient) && code in w.hall.rooms
    ensures RoomOk(config, code, w.hall.rooms[code])
  {
  }

  // ---- starting, failing, leaving -----------------------------------------------------------

  lemma GivenUpRoom(config: Config, code: string, room: Room, message: string, now: u64)
    requires RoomOk(config, code, room) && room.state != WaitingForOpponent
    ensures var after := GivenUp(config, room, message, now);
      RoomOk(config, code, after) && after.state == Failed && after.child == None && !after.Active()
  {
  }

  /** A room is failed and stopped, and possibly a join in flight for it ends together with its process. */
  lemma FailKeepsInv(config: Config, w: World, patient: bool, code: string, message: string, now: u64, id: Option<nat>)
    requires Inv(config, w, patient)
    requires code in w.hall.rooms ==> w.hall.rooms[code].state != WaitingForOpponent
    requires id.Some? ==> id.value in w.joins && w.joins[id.value].code == code
    requires id.None? ==> code in w.hall.rooms && (!patient || w.hall.rooms[code].state != StartingServer)
    ensures var gone := if id.Some? then ChildSet(w.joins[id.value].child) else {};
      Inv(config, World(MarkFailed(config, w.hall.(live := w.hall.live - gone), code, message, now),
                        if id.Some? then w.joins - {id.value} else w.joins), patient)
  {
    hide Conserved, RoomOk, GivenUp, Exclusive;
    var gone := if id.Some? then ChildSet(w.joins[id.value].child) else {};
    var w' := World(MarkFailed(config, w.hall.(live := w.hall.live - gone), code, message, now),
                    if id.Some? then w.joins - {id.value} else w.joins);
    if code in w.hall.rooms {
      var room := w.hall.rooms[code];
      GivenUpRoom(config, code, room, message, now);
      WaitingAfterPut(w.hall.rooms, code, GivenUp(config, room, message, now));
      if patient {
        ExclusiveAfterDrop(w.hall.rooms, code, GivenUp(config, room, message, now));
      }
    }
    FailConserves(config, w, code, message, now, id);
  }

  lemma ExclusiveAfterDrop(rooms: map<string, Room>, code: string, room: Room)
    requires Exclusive(rooms) && !room.Active()
    ensures Exclusive(rooms[code := room])
  {
  }

  lemma OnlyOwner(w: World, o: Owner, o': Owner)
    requires Conserved(w) && ChildOf(w, o).Some?
    ensures ChildOf(w, o).value in w.hall.live
    ensures ChildOf(w, o) == ChildOf(w, o') ==> o == o'
  {
    hide ChildOf;
    assert Owned(w, ChildOf(w, o).value);
  }

  lemma OwnedIsLive(w: World, p: Pid)
    requires Conserved(w)
    ensures Owned(w, p) <==> p in w.hall.live
  {
  }

  lemma FailConserves(config: Config, w: World, code: string, message: string, now: u64, id: Option<nat>)
    requires Conserved(w) && (id.Some? ==> id.value in w.joins)
    ensures var gone := if id.Some? then ChildSet(w.joins[id.value].child) else {};
      Conserved(World(MarkFailed(config, w.hall.(live := w.hall.live - gone), code, message, now),
                      if id.Some? then w.joins - {id.value} else w.joins))
  {
    hide Conserved;
    var gone := if id.Some? then ChildSet(w.joins[id.value].child) else {};
    var w' := World(MarkFailed(config, w.hall.(live := w.hall.live - gone), code, message, now),
                    if id.Some? then w.joins - {id.value} else w.joins);
    forall o
      ensures ChildOf(w', o) == ChildOf(w, o) || ChildOf(w', o) == None
      ensures ChildOf(w, o).Some? ==> (ChildOf(w, o).value in w'.hall.live <==> ChildOf(w', o) == ChildOf(w, o))
    {
      if ChildOf(w, o).Some? {
        OnlyOwner(w, o, RoomOwner(code));
        OnlyOwner(w, o, JoinOwner(if id.Some? then id.value else 0));
      }
    }
    Releasing(w, w');
  }

  lemma SpawnKeepsInv(config: Config, w: World, e: Event, patient: bool)
    requires Inv(config, w, patient) && e.Spawned?
    ensures Inv(config, Step(config, w, e), patient)
  {
    hide RoomOk, MarkFailed, Exclusive;
    if e.id in w.joins && w.joins[e.id].child.None? {
      if e.result.None? {
        FailKeepsInv(config, w, patient, w.joins[e.id].code, NOT_STARTED, e.now, Some(e.id));
        assert w.hall.(live := w.hall.live - {}) == w.hall;
      } else if e.result.value !in w.hall.live {
        SpawnConserves(w, e.id, e.result.value);
      }
    }
  }

  /** A spawned process is new and the join that asked for it is its one owner. */
  lemma SpawnConserves(w: World, id: nat, pid: Pid)
    requires Conserved(w) && id in w.joins && w.joins[id].child.None? && pid !in w.hall.live
    ensures Conserved(World(w.hall.(live := w.hall.live + {pid}), w.joins[id := w.joins[id].(child := Some(pid))]))
  {
    var w' := World(w.hall.(live := w.hall.live + {pid}), w.joins[id := w.joins[id].(child := Some(pid))]);
    NewOwner(w, w', JoinOwner(id), pid);
  }

  /** One owner takes a process that nobody else owns. */
  lemma NewOwner(w: World, w': World, owner: Owner, pid: Pid)
    requires Conserved(w) && !Owned(w, pid)
    requires ChildOf(w, owner) == None && ChildOf(w', owner) == Some(pid)
    requires forall o :: o != owner ==> ChildOf(w', o) == ChildOf(w, o)
    requires w'.hall.live == w.hall.live + {pid}
    ensures Conserved(w')
  {
    hide ChildOf;
    forall p
      ensures p in w'.hall.live <==> Owned(w', p)
    {
      assert ChildOf(w', owner) == Some(pid);
      if Owned(w, p) {
        var o :| ChildOf(w, o) == Some(p);
        assert ChildOf(w', o) == Some(p);
      }
      if p != pid && Owned(w', p) {
        var o :| ChildOf(w', o) == Some(p);
        assert ChildOf(w, o) == Some(p);
      }
    }
    forall o, o' | ChildOf(w', o).Some? && ChildOf(w', o) == ChildOf(w', o')
      ensures o == o'
    {
      assert o == owner || o' == owner ==> ChildOf(w', o) == Some(pid);
      assert o != owner ==> ChildOf(w, o) == ChildOf(w', o);
      assert o' != owner ==> ChildOf(w, o') == ChildOf(w', o');
      assert o != owner && ChildOf(w, o) == Some(pid) ==> Owned(w, pid);
      assert o' != owner && ChildOf(w, o') == Some(pid) ==> Owned(w, pid);
    }
  }

  /**
   * Marking a room ready keeps the children accounted for exactly when the room is gone, in which
   * case the child is killed, or has no child of its own to forget.
   */
  lemma ReadyConserves(w: World, id: nat)
    requires Conserved(w) && id in w.joins && w.joins[id].child.Some?
    ensures var code, pid := w.joins[id].code, w.joins[id].child.value;
      Conserved(World(MarkReady(w.hall, code, pid).0, w.joins - {id}))
      <==> (code !in w.hall.rooms || w.hall.rooms[code].child.None?)
  {
    hide Conserved;
    var code, pid := w.joins[id].code, w.joins[id].child.value;
    var w' := World(MarkReady(w.hall, code, pid).0, w.joins - {id});
    var room := RoomOwner(code);
    OnlyOwner(w, JoinOwner(id), room);
    if ChildOf(w, room).Some? {
      OnlyOwner(w, room, JoinOwner(id));
      Forgotten(w, w', room);
    } else {
      var middle := World(w.hall.(live := w.hall.live - {pid}), w.joins - {id});
      forall o
        ensures ChildOf(middle, o) == ChildOf(w, o) || ChildOf(middle, o) == None
        ensures ChildOf(w, o).Some? ==>
                  (ChildOf(w, o).value in middle.hall.live <==> ChildOf(middle, o) == ChildOf(w, o))
      {
        if ChildOf(w, o).Some? {
          OnlyOwner(w, o, JoinOwner(id));
        }
      }
      Releasing(w, middle);
      if code in w.hall.rooms {
        OwnedIsLive(middle, pid);
        NewOwner(middle, w', room, pid);
      } else {
        assert w' == middle;
      }
    }
  }

  /** A child overwritten in its room stays alive with nobody to wait for it. */
  lemma Forgotten(w: World, w': World, owner: Owner)
    requires Conserved(w) && ChildOf(w, owner).Some? && ChildOf(w, owner).value in w'.hall.live
    requires ChildOf(w', owner) != ChildOf(w, owner)
    requires forall o :: o != owner ==> ChildOf(w', o) == ChildOf(w, o) || ChildOf(w', o) == None
    ensures !Owned(w', ChildOf(w, owner).value) && !Conserved(w')
  {
    hide ChildOf;
    var pid := ChildOf(w, owner).value;
    forall o
      ensures ChildOf(w', o) != Some(pid)
    {
      assert o != owner && ChildOf(w, o) == Some(pid) ==> o == owner;
    }
    assert !Owned(w', pid);
  }

  /** Some other room holds the port of this room. */
  ghost predicate PortTaken(rooms: map<string, Room>, code: string)
    requires code in rooms
  {
    rooms[code].endpoint.Some? &&
    exists c :: c in rooms && c != code && Holds(rooms[c])
      && rooms[c].endpoint.value.localPort == rooms[code].endpoint.value.localPort
  }

  /** Marking a room ready keeps the endpoints apart exactly when no other room holds its port. */
  lemma ReadyIsExclusive(h: Hall, code: string, pid: Pid)
    requires Exclusive(h.rooms) && code in h.rooms
    ensures Exclusive(MarkReady(h, code, pid).0.rooms) <==> !PortTaken(h.rooms, code)
  {
    var rooms, after := h.rooms, MarkReady(h, code, pid).0.rooms;
    assert after[code].Active() && after[code].endpoint == rooms[code].endpoint;
    forall c | c in rooms && c != code
      ensures after[c] == rooms[c]
    {
    }
  }

  lemma StartKeepsInv(config: Config, w: World, e: Event, patient: bool)
    requires Inv(config, w, patient) && e.Started?
    ensures Inv(config, Step(config, w, e), patient)
  {
    hide RoomOk, MarkFailed, Conserved;
    if e.id in w.joins && w.joins[e.id].child.Some? {
      var join := w.joins[e.id];
      if e.state != Running {
        FailKeepsInv(config, w, patient, join.code, NOT_STARTED, e.now, Some(e.id));
      } else {
        if join.code in w.hall.rooms {
          ReadyRoom(config, w.hall.rooms, join.code, join.child.value);
        }
        ReadyConserves(w, e.id);
      }
    }
  }

  lemma ReadyRoom(config: Config, rooms: map<string, Room>, code: string, pid: Pid)
    requires RoomsOk(config, rooms)
    requires code in rooms && (rooms[code].state == StartingServer || rooms[code].state == Failed)
    ensures var room := rooms[code].(child := Some(pid), state := Ready);
      RoomOk(config, code, room) && rooms[code].child.None?
      && |WaitingCodes(rooms[code := room])| <= |WaitingCodes(rooms)|
  {
    assert RoomOk(config, code, rooms[code]);
    WaitingAfterPut(rooms, code, rooms[code].(child := Some(pid), state := Ready));
  }

  lemma LeaveKeepsInv(config: Config, w: World, e: Event, patient: bool)
    requires Inv(config, w, patient) && e.Left? && (patient ==> Waits(w, e))
    ensures Inv(config, Step(config, w, e), patient)
  {
    hide RoomOk, MarkFailed, Exclusive, Conserved, Holder;
    if e.code in w.hall.rooms && Holder(w.hall.rooms[e.code].players, e.ticket).Some? {
      if w.hall.rooms[e.code].state == WaitingForOpponent {
        WaitingRoomOf(config, w, patient, e.code);
        RemoveKeepsInv(config, w, patient, e.code);
      } else {
        FailKeepsInv(config, w, patient, e.code, LEFT, e.now, None);
        assert w.hall.(live := w.hall.live - {}) == w.hall;
      }
    }
  }

  lemma RemoveKeepsInv(config: Config, w: World, patient: bool, code: string)
    requires Inv(config, w, patient) && code in w.hall.rooms && w.hall.rooms[code].state == WaitingForOpponent
    ensures Inv(config, w.(hall := w.hall.(rooms := w.hall.rooms - {code})), patient)
  {
    assert RoomOk(config, code, w.hall.rooms[code]);
    assert w.hall.rooms[code].child.None?;
    hide Conserved, RoomOk;
    var w' := w.(hall := w.hall.(rooms := w.hall.rooms - {code}));
    Untouched(w, w');
    assert WaitingCodes(w'.hall.rooms) <= WaitingCodes(w.hall.rooms);
    SubsetCardinality(WaitingCodes(w'.hall.rooms), WaitingCodes(w.hall.rooms));
  }

  lemma ShutdownConserves(w: World)
    requires Conserved(w)
    ensures Conserved(w.(hall := Shutdown(w.hall)))
  {
    hide Conserved;
    var w' := w.(hall := Shutdown(w.hall));
    forall o
      ensures ChildOf(w', o) == ChildOf(w, o) || ChildOf(w', o) == None
      ensures ChildOf(w, o).Some? ==> (ChildOf(w, o).value in w'.hall.live <==> ChildOf(w', o) == ChildOf(w, o))
    {
      if ChildOf(w, o).Some? {
        var p := ChildOf(w, o).value;
        OnlyOwner(w, o, o);
        if p in Children(w.hall.rooms) {
          var c :| c in w.hall.rooms && w.hall.rooms[c].child == Some(p);
          OnlyOwner(w, o, RoomOwner(c));
        }
      }
    }
    Releasing(w, w');
  }

  lemma ShutdownKeepsInv(config: Config, w: World, patient: bool)
    requires Inv(config, w, patient)
    ensures Inv(config, w.(hall := Shutdown(w.hall)), patient)
  {
    hide Conserved;
    assert WaitingCodes(Shutdown(w.hall).rooms) == {};
    ShutdownConserves(w);
  }

  // ---- every run ----------------------------------------------------------------------------

  lemma PollKeepsInv(config: Config, w: World, e: Event, patient: bool)
    requires Inv(config, w, patient) && e.Polled?
    ensures Inv(config, Step(config, w, e), patient)
  {
    ReapKeepsInv(config, w, patient, e.probe, e.now);
  }

  lemma StopKeepsInv(config: Config, w: World, e: Event, patient: bool)
    requires Inv(config, w, patient) && e.ShutDown?
    ensures Inv(config, Step(config, w, e), patient)
  {
    ShutdownKeepsInv(config, w, patient);
  }

  lemma StepKeepsInv(config: Config, w: World, e: Event, patient: bool)
    requires Inv(config, w, patient) && FreshAmongJoins(config, w, e) && (patient ==> Waits(w, e))
    ensures Inv(config, Step(config, w, e), patient)
  {
    hide Inv, FreshAmongJoins, Waits, Step;
    match e
    case Created(_, _, _, _, _) => CreateKeepsInv(config, w, e, patient);
    case Joined(_, _, _, _, _, _, _) => JoinKeepsInv(config, w, e, patient);
    case Spawned(_, _, _) => SpawnKeepsInv(config, w, e, patient);
    case Started(_, _, _) => StartKeepsInv(config, w, e, patient);
    case Polled(_, _) => PollKeepsInv(config, w, e, patient);
    case Left(_, _, _) => LeaveKeepsInv(config, w, e, patient);
    case ShutDown => StopKeepsInv(config, w, e, patient);
  }

  lemma EmptyIsFine(config: Config, patient: bool)
    ensures Inv(config, EMPTY, patient)
  {
    assert WaitingCodes(EMPTY.hall.rooms) == {};
    forall o
      ensures ChildOf(EMPTY, o) == None
    {
    }
  }

  /**
   * In every run, whatever the order of requests, the children alive are exactly those owned by
   * one room or one join in flight, no more rooms wait than allowed, and every room is well formed;
   * and if nobody leaves a room whose server is starting, no two rooms share a local port.
   */
  lemma {:induction false} EveryRunKeepsInv(config: Config, events: seq<Event>, patient: bool)
    requires Admissible(config, events, patient)
    ensures Inv(config, Run(config, events), patient)
  {
    hide Inv, Step, FreshAmongJoins, Waits;
    if events == [] {
      EmptyIsFine(config, patient);
    } else {
      var earlier, last := events[..|events| - 1], events[|events| - 1];
      EveryRunKeepsInv(config, earlier, patient);
      StepKeepsInv(config, Run(config, earlier), last, patient);
    }
  }

  /** Once the service is shut down and no join is in flight, no game server is left running. */
  lemma ShutdownLeavesNothing(config: Config, w: World, patient: bool)
    requires Inv(config, w, patient) && w.joins == map[]
    ensures Step(config, w, ShutDown).hall == Hall(map[], {})
  {
    var w' := Step(config, w, ShutDown);
    ShutdownKeepsInv(config, w, patient);
    assert forall o :: ChildOf(w', o) == None;
    forall p
      ensures p !in w'.hall.live
    {
      OwnedIsLive(w', p);
    }
  }

  // ---- the endpoint pool --------------------------------------------------------------------

  function PoolPorts(config: Config): set<u16> {
    set e | e in config.endpoints :: e.localPort
  }

  lemma {:induction false} PoolSize(endpoints: seq<GameEndpoint>)
    requires forall i, j :: 0 <= i < j < |endpoints| ==> endpoints[i].localPort != endpoints[j].localPort
    ensures |set e | e in endpoints :: e.localPort| == |endpoints|
  {
    var ports := set e | e in endpoints :: e.localPort;
    if endpoints == [] {
      assert ports == {};
    } else {
      var front, last := endpoints[..|endpoints| - 1], endpoints[|endpoints| - 1];
      PoolSize(front);
      var rest := set e | e in front :: e.localPort;
      assert endpoints == front + [last];
      assert ports == rest + {last.localPort};
      assert last.localPort !in rest;
    }
  }

  function PortsOf(rooms: map<string, Room>, codes: set<string>): set<u16>
    requires forall c :: c in codes ==> c in rooms && rooms[c].endpoint.Some?
  {
    set c | c in codes :: rooms[c].endpoint.value.localPort
  }

  lemma {:induction false} AsManyPortsAsRooms(rooms: map<string, Room>, codes: set<string>)
    requires forall c :: c in codes ==> c in rooms && rooms[c].Active() && rooms[c].endpoint.Some?
    requires Exclusive(rooms)
    ensures |PortsOf(rooms, codes)| == |codes|
    decreases |codes|
  {
    if codes == {} {
      assert PortsOf(rooms, codes) == {};
    } else {
      var c :| c in codes;
      var rest := codes - {c};
      AsManyPortsAsRooms(rooms, rest);
      assert PortsOf(rooms, codes) == PortsOf(rooms, rest) + {rooms[c].endpoint.value.localPort};
      assert rooms[c].endpoint.value.localPort !in PortsOf(rooms, rest);
    }
  }

  /**
   * The search for a free endpoint fails exactly when as many rooms are active as there are
   * endpoints, and the health report counts exactly the endpoints the search could still find.
   */
  lemma PoolIsExact(config: Config, w: World)
    requires config.Valid() && Inv(config, w, true)
    ensures var rooms := w.hall.rooms;
      && UsedPorts(rooms) <= PoolPorts(config)
      && |ActiveCodes(rooms)| <= |config.endpoints|
      && (FirstFree(config.endpoints, UsedPorts(rooms)).None? <==> |ActiveCodes(rooms)| == |config.endpoints|)
      && HealthOf(config, rooms).availableEndpoints == |PoolPorts(config) - UsedPorts(rooms)|
      && HealthOf(config, rooms).availableEndpoints + HealthOf(config, rooms).activeRooms == |config.endpoints|
  {
    hide *;
    HealthCounts(config, w.hall.rooms);
    var rooms, used, pool := w.hall.rooms, UsedPorts(w.hall.rooms), PoolPorts(config);
    UsedPortsCount(config, w);
    SubsetCardinality(used, pool);
    assert pool == used + (pool - used);
    SearchFails(config, rooms);
    if |used| == |pool| {
      assert used == pool;
    }
  }

  lemma HealthCounts(config: Config, rooms: map<string, Room>)
    ensures HealthOf(config, rooms).activeRooms == |ActiveCodes(rooms)|
    ensures |ActiveCodes(rooms)| <= |config.endpoints| ==>
      HealthOf(config, rooms).availableEndpoints == |config.endpoints| - |ActiveCodes(rooms)|
  {
  }

  lemma SearchFails(config: Config, rooms: map<string, Room>)
    ensures FirstFree(config.endpoints, UsedPorts(rooms)).None? <==> PoolPorts(config) <= UsedPorts(rooms)
  {
    hide UsedPorts, FirstFree;
    var free := FirstFree(config.endpoints, UsedPorts(rooms));
    FirstFreeIsExact(config.endpoints, UsedPorts(rooms));
    if free.Some? {
      assert free.value.localPort in PoolPorts(config);
    }
  }

  lemma UsedPortsCount(config: Config, w: World)
    requires config.Valid() && Inv(config, w, true)
    ensures var rooms := w.hall.rooms;
      UsedPorts(rooms) <= PoolPorts(config) && |UsedPorts(rooms)| == |ActiveCodes(rooms)|
      && |PoolPorts(config)| == |config.endpoints|
  {
    hide RoomOk, Conserved, JoinsOk;
    var rooms := w.hall.rooms;
    ActiveRoomsHaveEndpoints(config, rooms);
    AsManyPortsAsRooms(rooms, ActiveCodes(rooms));
    assert UsedPorts(rooms) == PortsOf(rooms, ActiveCodes(rooms));
    PoolSize(config.endpoints);
  }

  /** The pool is exact after every run in which nobody leaves a starting room. */
  lemma EveryRunIsExact(config: Config, events: seq<Event>)
    requires config.Valid() && Admissible(config, events, true)
    ensures var rooms := Run(config, events).hall.rooms;
      && Exclusive(rooms)
      && (FirstFree(config.endpoints, UsedPorts(rooms)).None? <==> |ActiveCodes(rooms)| == |config.endpoints|)
      && HealthOf(config, rooms).availableEndpoints + HealthOf(config, rooms).activeRooms == |config.endpoints|
  {
    hide HealthOf, FirstFree, Exclusive, RoomsOk, JoinsOk, Conserved, Admissible, Run;
    EveryRunKeepsInv(config, events, true);
    PoolIsExact(config, Run(config, events));
  }

  // ---- why leaving must wait ----------------------------------------------------------------

  lemma NothingToReap(config: Config, h: Hall, probe: Pid -> Probe, now: u64)
    requires forall c :: c in h.rooms ==> h.rooms[c].child.None? && h.rooms[c].expiresAt > now
    ensures Reap(config, h, probe, now) == h
  {
    assert Collected(config, h.rooms, probe, now) == {};
    assert Reap(config, h, probe, now).rooms == h.rooms;
  }

  const ONE_SLOT := Config([GameEndpoint(7777, "host")], 1000, 1000, 1000, 8)
  const ALICE := Binding("alice", "a")
  const BOB := Binding("bob", "b")
  const TOKENS := PerSlot(Some("1"), Some("2"))

  /** Room codes of the length that is drawn, and tickets of the length of 24 encoded bytes. */
  const X := "XXXXXXXX"
  const Z := "ZZZZZZZZ"

  function Secret(c: char): string {
    seq(32, _ => c)
  }

  function AllRunning(p: Pid): Probe {
    Running
  }

  /** Filling an empty or failed room slot: what the first two requests leave behind. */
  lemma Filled(w: World, code: string, ticket: string, ticket': string, id: nat, now: u64)
    requires code !in w.hall.rooms && id !in w.joins
    requires forall c :: c in w.hall.rooms ==>
      var room := w.hall.rooms[c]; room.state == Failed && room.child.None? && room.expiresAt > now
    requires now < 0x1_0000
    ensures var w1 := Step(ONE_SLOT, w, Created(ALICE, [code], ticket, AllRunning, now));
      var w2 := Step(ONE_SLOT, w1, Joined(id, code, BOB, ticket', TOKENS, AllRunning, now));
      && code in w2.hall.rooms
      && w2.hall.rooms[code].state == StartingServer
      && w2.hall.rooms[code].endpoint == Some(GameEndpoint(7777, "host"))
      && w2.hall.rooms[code].child.None? && w2.hall.rooms[code].expiresAt == now + 1000
      && w2.hall.rooms == w.hall.rooms[code := w2.hall.rooms[code]]
      && w2.hall.live == w.hall.live && w2.joins == w.joins[id := Join(code, None)]
      && Holder(w2.hall.rooms[code].players, ticket).Some?
  {
    hide Reap;
    NothingToReap(ONE_SLOT, w.hall, AllRunning, now);
    assert WaitingCodes(w.hall.rooms) == {};
    var room := NewRoom(ONE_SLOT, code, ALICE, ticket, now);
    var w1 := Step(ONE_SLOT, w, Created(ALICE, [code], ticket, AllRunning, now));
    assert w1.hall == Hall(w.hall.rooms[code := room], w.hall.live);
    NothingToReap(ONE_SLOT, w1.hall, AllRunning, now);
    assert UsedPorts(w1.hall.rooms) == {};
    var w2 := Step(ONE_SLOT, w1, Joined(id, code, BOB, ticket', TOKENS, AllRunning, now));
    assert w2.hall.rooms == w.hall.rooms[code := w2.hall.rooms[code]];
  }

  /** Leaving a starting room frees its endpoint; the late server then shares it with the next room. */
  lemma LeavingSharesAnEndpoint()
    ensures
      var w1 := Step(ONE_SLOT, EMPTY, Created(ALICE, [X], Secret('a'), AllRunning, 0));
      var w2 := Step(ONE_SLOT, w1, Joined(0, X, BOB, Secret('b'), TOKENS, AllRunning, 0));
      var w3 := Step(ONE_SLOT, w2, Spawned(0, Some(1), 0));
      var w4 := Step(ONE_SLOT, w3, Left(X, Secret('a'), 0));
      var w5 := Step(ONE_SLOT, w4, Created(ALICE, [Z], Secret('c'), AllRunning, 0));
      var w6 := Step(ONE_SLOT, w5, Joined(1, Z, BOB, Secret('d'), TOKENS, AllRunning, 0));
      var w7 := Step(ONE_SLOT, w6, Started(0, Running, 0));
      !Waits(w3, Left(X, Secret('a'), 0)) && !Exclusive(w7.hall.rooms)
  {
    hide Create, ReserveJoin, Holder;
    var w1 := Step(ONE_SLOT, EMPTY, Created(ALICE, [X], Secret('a'), AllRunning, 0));
    var w2 := Step(ONE_SLOT, w1, Joined(0, X, BOB, Secret('b'), TOKENS, AllRunning, 0));
    Filled(EMPTY, X, Secret('a'), Secret('b'), 0, 0);
    var w3 := Step(ONE_SLOT, w2, Spawned(0, Some(1), 0));
    var w4 := Step(ONE_SLOT, w3, Left(X, Secret('a'), 0));
    assert w4.hall.rooms.Keys == {X};
    var w5 := Step(ONE_SLOT, w4, Created(ALICE, [Z], Secret('c'), AllRunning, 0));
    var w6 := Step(ONE_SLOT, w5, Joined(1, Z, BOB, Secret('d'), TOKENS, AllRunning, 0));
    assert X[0] != Z[0];
    Filled(w4, Z, Secret('c'), Secret('d'), 1, 0);
    var w7 := Step(ONE_SLOT, w6, Started(0, Running, 0));
    assert w7.hall.rooms[X].Active() && w7.hall.rooms[Z].Active();
    assert w7.hall.rooms[X].endpoint == w7.hall.rooms[Z].endpoint;
  }

  /** A code drawn again while a join for it is still in flight makes the second server forget the first. */
  lemma ReusedCodeForgetsAChild()
    ensures
      var w1 := Step(ONE_SLOT, EMPTY, Created(ALICE, [X], Secret('a'), AllRunning, 0));
      var w2 := Step(ONE_SLOT, w1, Joined(0, X, BOB, Secret('b'), TOKENS, AllRunning, 0));
      var w3 := Step(ONE_SLOT, w2, Spawned(0, Some(1), 900));
      var w4 := Step(ONE_SLOT, w3, Polled(AllRunning, 1000));
      var w5 := Step(ONE_SLOT, w4, Created(ALICE, [X], Secret('e'), AllRunning, 1000));
      var w6 := Step(ONE_SLOT, w5, Joined(1, X, BOB, Secret('f'), TOKENS, AllRunning, 1000));
      var w7 := Step(ONE_SLOT, w6, Spawned(1, Some(2), 1000));
      var w8 := Step(ONE_SLOT, w7, Started(0, Running, 1050));
      var w9 := Step(ONE_SLOT, w8, Started(1, Running, 1150));
      w9.hall.live == {1, 2} && w9.joins == map[] && !Owned(w9, 1) && !Conserved(w9)
  {
    hide Create, ReserveJoin, Holder;
    var w1 := Step(ONE_SLOT, EMPTY, Created(ALICE, [X], Secret('a'), AllRunning, 0));
    var w2 := Step(ONE_SLOT, w1, Joined(0, X, BOB, Secret('b'), TOKENS, AllRunning, 0));
    Filled(EMPTY, X, Secret('a'), Secret('b'), 0, 0);
    var w3 := Step(ONE_SLOT, w2, Spawned(0, Some(1), 900));
    var w4 := Step(ONE_SLOT, w3, Polled(AllRunning, 1000));
    assert w4 == World(Hall(map[], {1}), map[0 := Join(X, Some(1))]);
    var w5 := Step(ONE_SLOT, w4, Created(ALICE, [X], Secret('e'), AllRunning, 1000));
    var w6 := Step(ONE_SLOT, w5, Joined(1, X, BOB, Secret('f'), TOKENS, AllRunning, 1000));
    Filled(w4, X, Secret('e'), Secret('f'), 1, 1000);
    var w7 := Step(ONE_SLOT, w6, Spawned(1, Some(2), 1000));
    var w8 := Step(ONE_SLOT, w7, Started(0, Running, 1050));
    var w9 := Step(ONE_SLOT, w8, Started(1, Running, 1150));
    assert w9.hall.rooms.Keys == {X} && w9.hall.rooms[X].child == Some(2);
  }
}