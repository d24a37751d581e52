/**
 * What the room map keeps with nothing supposed of the requests: exactly which runs put two rooms on
 * one port, what the health report is worth, and the waiting limit.
 */
module Ports {
  import opened Wrappers
  import opened Binary
  import opened Protocol
  import opened Rooms
  import opened RoomRuns
  import opened Sequences

  /** A started server is put into a room whose port another room holds. */
  ghost predicate Collides(w: World, e: Event) {
    && e.Started? && e.id in w.joins && w.joins[e.id].child.Some? && e.state == Running
    && w.joins[e.id].code in w.hall.rooms && PortTaken(w.hall.rooms, w.joins[e.id].code)
  }

  lemma ReapKeepsPorts(config: Config, h: Hall, probe: Pid -> Probe, now: u64)
    requires Exclusive(h.rooms)
    ensures Exclusive(Reap(config, h, probe, now).rooms)
  {
    var after := Reap(config, h, probe, now).rooms;
    forall c | c in after
      ensures Holds(after[c]) ==> Holds(h.rooms[c]) && after[c].endpoint == h.rooms[c].endpoint
    {
    }
    hide Reap, Holds;
  }

  lemma CreateKeepsPorts(config: Config, w: World, e: Event)
    requires Exclusive(w.hall.rooms) && e.Created?
    ensures Exclusive(Step(config, w, e).hall.rooms)
  {
    ReapKeepsPorts(config, w.hall, e.probe, e.now);
    hide Reap, FreshCode, TicketOf, WaitingCodes;
  }

  lemma JoinKeepsPorts(config: Config, w: World, e: Event)
    requires Exclusive(w.hall.rooms) && e.Joined?
    ensures Exclusive(Step(config, w, e).hall.rooms)
  {
    var h := Reap(config, w.hall, e.probe, e.now);
    ReapKeepsPorts(config, w.hall, e.probe, e.now);
    FirstFreeIsExact(config.endpoints, UsedPorts(h.rooms));
    hide Reap, FirstFree, TicketOf, UsedPorts, Reserved;
    if e.id !in w.joins && JoinError(h.rooms, e.code, e.binding).None? {
      var free := FirstFree(config.endpoints, UsedPorts(h.rooms));
      if free.Some? {
        var room := Reserved(config, h.rooms[e.code], e.binding, e.ticket, e.tokens, free.value, e.now);
        assert room.endpoint == free by {
          ReservedEndpoint(config, h.rooms[e.code], e.binding, e.ticket, e.tokens, free.value, e.now);
        }
        UnusedPort(h.rooms, e.code, room);
      }
    }
  }

  lemma ReservedEndpoint(config: Config, room: Room, binding: Binding, ticket: string, tokens: PerSlot<Option<string>>,
                         endpoint: GameEndpoint, now: u64)
    ensures Reserved(config, room, binding, ticket, tokens, endpoint, now).endpoint == Some(endpoint)
  {
  }

  lemma UnusedPort(rooms: map<string, Room>, code: string, room: Room)
    requires Exclusive(rooms) && room.endpoint.Some? && room.endpoint.value.localPort !in UsedPorts(rooms)
    ensures Exclusive(rooms[code := room])
  {
    forall c | c in rooms && Holds(rooms[c])
      ensures rooms[c].endpoint.value.localPort in UsedPorts(rooms)
    {
    }
    hide UsedPorts;
  }

  lemma FailKeepsPorts(config: Config, h: Hall, code: string, message: string, now: u64)
    requires Exclusive(h.rooms)
    ensures Exclusive(MarkFailed(config, h, code, message, now).rooms)
  {
  }

  lemma StepKeepsPorts(config: Config, w: World, e: Event)
    requires Exclusive(w.hall.rooms)
    ensures Exclusive(Step(config, w, e).hall.rooms) <==> !Collides(w, e)
  {
    match e
    case Created(_, _, _, _, _) =>
      hide Step;
      CreateKeepsPorts(config, w, e);
    case Joined(_, _, _, _, _, _, _) =>
      hide Step;
      JoinKeepsPorts(config, w, e);
    case Polled(probe, now) =>
      ReapKeepsPorts(config, w.hall, probe, now);
      hide Reap, Exclusive;
    case Started(_, _, _) => StartKeepsPorts(config, w, e);
    case _ => OthersKeepPorts(config, w, e);
  }

  lemma StartKeepsPorts(config: Config, w: World, e: Event)
    requires Exclusive(w.hall.rooms) && e.Started?
    ensures Exclusive(Step(config, w, e).hall.rooms) <==> !Collides(w, e)
  {
    hide Exclusive, PortTaken, MarkReady, MarkFailed;
    if e.id in w.joins && w.joins[e.id].child.Some? {
      var code, pid := w.joins[e.id].code, w.joins[e.id].child.value;
      FailKeepsPorts(config, w.hall.(live := w.hall.live - {pid}), code, NOT_STARTED, e.now);
      if code in w.hall.rooms {
        ReadyIsExclusive(w.hall, code, pid);
      } else {
        GoneRoom(w.hall, code, pid);
      }
    }
  }

  lemma GoneRoom(h: Hall, code: string, pid: Pid)
    requires code !in h.rooms
    ensures MarkReady(h, code, pid).0.rooms == h.rooms
  {
  }

  lemma OthersKeepPorts(config: Config, w: World, e: Event)
    requires Exclusive(w.hall.rooms) && (e.Spawned? || e.Left? || e.ShutDown?)
    ensures Exclusive(Step(config, w, e).hall.rooms)
  {
    hide MarkFailed, Holder, Holds;
    if e.Left? {
      FailKeepsPorts(config, w.hall, e.code, LEFT, e.now);
    }
    if e.Spawned? && e.id in w.joins {
      FailKeepsPorts(config, w.hall, w.joins[e.id].code, NOT_STARTED, e.now);
    }
  }

  /** The ports were apart at every moment of the run. */
  ghost predicate AlwaysExclusive(config: Config, events: seq<Event>) {
    Exclusive(Run(config, events).hall.rooms) && (events == [] || AlwaysExclusive(config, events[..|events| - 1]))
  }

  /** Somewhere in the run a started server was put into a room whose port another room held. */
  ghost predicate Collided(config: Config, events: seq<Event>) {
    events != [] &&
    (Collided(config, events[..|events| - 1])
     || Collides(Run(config, events[..|events| - 1]), events[|events| - 1]))
  }

  /**
   * With nothing supposed of the events: no two rooms ever hold the same port if and only if no
   * started server was put into a room whose port another room held.
   */
  lemma {:induction false} ExclusiveExactly(config: Config, events: seq<Event>)
    ensures AlwaysExclusive(config, events) <==> !Collided(config, events)
  {
    hide Step, Exclusive, Collides;
    if events == [] {
      NothingHeld(config);
    } else {
      var front, e := events[..|events| - 1], events[|events| - 1];
      ExclusiveExactly(config, front);
      if AlwaysExclusive(config, front) {
        StepKeepsPorts(config, Run(config, front), e);
      }
    }
  }

  lemma NothingHeld(config: Config)
    ensures Exclusive(Run(config, []).hall.rooms)
  {
  }

  // ---- what the health report is worth ------------------------------------------------------

  /** Whatever endpoint a room has comes from the pool. */
  ghost predicate FromPool(config: Config, rooms: map<string, Room>) {
    forall c :: c in rooms && rooms[c].endpoint.Some? ==> rooms[c].endpoint.value in config.endpoints
  }

  lemma ReapKeepsPool(config: Config, h: Hall, probe: Pid -> Probe, now: u64)
    requires FromPool(config, h.rooms)
    ensures FromPool(config, Reap(config, h, probe, now).rooms)
  {
  }

  lemma JoinKeepsPool(config: Config, w: World, e: Event)
    requires FromPool(config, w.hall.rooms) && e.Joined?
    ensures FromPool(config, Step(config, w, e).hall.rooms)
  {
    var h := Reap(config, w.hall, e.probe, e.now);
    ReapKeepsPool(config, w.hall, e.probe, e.now);
    FirstFreeIsExact(config.endpoints, UsedPorts(h.rooms));
    hide Reap, FirstFree, TicketOf, UsedPorts, Issued;
  }

  lemma StepKeepsPool(config: Config, w: World, e: Event)
    requires FromPool(config, w.hall.rooms)
    ensures FromPool(config, Step(config, w, e).hall.rooms)
  {
    match e
    case Created(_, _, _, probe, now) =>
      ReapKeepsPool(config, w.hall, probe, now);
      hide Reap, FreshCode, TicketOf, WaitingCodes;
    case Joined(_, _, _, _, _, _, _) =>
      hide Step;
      JoinKeepsPool(config, w, e);
    case Polled(probe, now) => ReapKeepsPool(config, w.hall, probe, now);
    case _ => hide Holder, TokensCleared;
  }

  lemma {:induction false} RunKeepsPool(config: Config, events: seq<Event>)
    ensures FromPool(config, Run(config, events).hall.rooms)
  {
    if events != [] {
      hide Step, FromPool;
      RunKeepsPool(config, events[..|events| - 1]);
      StepKeepsPool(config, Run(config, events[..|events| - 1]), events[|events| - 1]);
    }
  }

  /** Every chosen room holds an endpoint, and no two of them the same port. */
  ghost predicate Apart(rooms: map<string, Room>, codes: set<string>) {
    && (forall c :: c in codes ==> c in rooms && Holds(rooms[c]))
    && (forall c, d :: c in codes && d in codes && c != d ==>
          rooms[c].endpoint.value.localPort != rooms[d].endpoint.value.localPort)
  }

  function HeldPorts(rooms: map<string, Room>, codes: set<string>): set<u16> {
    set c | c in codes && c in rooms && Holds(rooms[c]) :: rooms[c].endpoint.value.localPort
  }

  lemma {:induction false} CountHeld(rooms: map<string, Room>, codes: set<string>)
    requires codes <= rooms.Keys
    ensures |HeldPorts(rooms, codes)| <= |codes|
    ensures |HeldPorts(rooms, codes)| == |codes| <==> Apart(rooms, codes)
    decreases |codes|
  {
    if codes == {} {
      assert HeldPorts(rooms, codes) == {};
    } else {
      var c :| c in codes;
      var rest := codes - {c};
      CountHeld(rooms, rest);
      OneMoreHeld(rooms, rest, c);
      assert codes == rest + {c};
    }
  }

  lemma OneMoreHeld(rooms: map<string, Room>, codes: set<string>, c: string)
    requires c in rooms && c !in codes && codes <= rooms.Keys
    ensures HeldPorts(rooms, codes + {c})
         == HeldPorts(rooms, codes) + if Holds(rooms[c]) then {rooms[c].endpoint.value.localPort} else {}
    ensures Apart(rooms, codes + {c}) <==>
            Apart(rooms, codes) && Holds(rooms[c]) && rooms[c].endpoint.value.localPort !in HeldPorts(rooms, codes)
  {
    hide Holds;
    var all := codes + {c};
    assert c in all;
    assert forall d :: d in codes ==> d in all;
    if Apart(rooms, all) {
      assert forall d :: d in codes ==> Holds(rooms[d]) && d != c;
    }
  }

  lemma Remainder<T>(pool: set<T>, used: set<T>)
    requires used <= pool
    ensures |pool - used| == |pool| - |used|
    ensures pool <= used <==> pool - used == {}
  {
    assert pool == used + (pool - used);
  }

  lemma ReportOf(config: Config, rooms: map<string, Room>)
    ensures var active := |ActiveCodes(rooms)|;
      HealthOf(config, rooms).availableEndpoints
      == if active <= |config.endpoints| then |config.endpoints| - active else 0
  {
  }

  lemma UsedFromPool(config: Config, rooms: map<string, Room>)
    requires config.Valid() && FromPool(config, rooms)
    ensures UsedPorts(rooms) <= PoolPorts(config) && |PoolPorts(config)| == |config.endpoints|
    ensures |UsedPorts(rooms)| <= |ActiveCodes(rooms)|
    ensures |UsedPorts(rooms)| == |ActiveCodes(rooms)| <==> Apart(rooms, ActiveCodes(rooms))
  {
    assert UsedPorts(rooms) == HeldPorts(rooms, ActiveCodes(rooms));
    hide Apart;
    PoolSize(config.endpoints);
    CountHeld(rooms, ActiveCodes(rooms));
  }

  /**
   * After any events at all, the health report never promises more endpoints than the search could
   * still find; and it counts them exactly if and only if every active room holds an endpoint of
   * its own, or none is left to be found.
   */
  lemma HealthIsExact(config: Config, events: seq<Event>)
    requires config.Valid()
    ensures var rooms := Run(config, events).hall.rooms;
      var reported, left := HealthOf(config, rooms).availableEndpoints, PoolPorts(config) - UsedPorts(rooms);
      && (FirstFree(config.endpoints, UsedPorts(rooms)).None? <==> left == {})
      && reported <= |left|
      && (reported == |left| <==> Apart(rooms, ActiveCodes(rooms)) || left == {})
  {
    hide *;
    var rooms := Run(config, events).hall.rooms;
    RunKeepsPool(config, events);
    SearchFails(config, rooms);
    UsedFromPool(config, rooms);
    ReportOf(config, rooms);
    Remainder(PoolPorts(config), UsedPorts(rooms));
  }

  // ---- the waiting limit --------------------------------------------------------------------

  /** Every room that waits waited before. */
  ghost predicate NoneWaits(rooms: map<string, Room>, after: map<string, Room>) {
    forall c :: c in after && after[c].state == WaitingForOpponent ==>
      c in rooms && rooms[c].state == WaitingForOpponent
  }

  lemma FewerWaiting(rooms: map<string, Room>, after: map<string, Room>)
    requires NoneWaits(rooms, after)
    ensures |WaitingCodes(after)| <= |WaitingCodes(rooms)|
  {
    SubsetCardinality(WaitingCodes(after), WaitingCodes(rooms));
  }

  lemma ReapedWaits(config: Config, h: Hall, probe: Pid -> Probe, now: u64)
    ensures NoneWaits(h.rooms, Reap(config, h, probe, now).rooms)
  {
  }

  lemma JoinWaits(config: Config, w: World, e: Event)
    requires e.Joined?
    ensures NoneWaits(w.hall.rooms, Step(config, w, e).hall.rooms)
  {
    ReapedWaits(config, w.hall, e.probe, e.now);
    hide Reap, TicketOf, UsedPorts, FirstFree, Issued;
  }

  lemma StepWaits(config: Config, w: World, e: Event)
    requires !e.Created?
    ensures NoneWaits(w.hall.rooms, Step(config, w, e).hall.rooms)
  {
    match e
    case Joined(_, _, _, _, _, _, _) =>
      hide Step;
      JoinWaits(config, w, e);
    case Polled(probe, now) =>
      ReapedWaits(config, w.hall, probe, now);
      hide Reap;
    case _ => hide Holder, TokensCleared, Children;
  }

  lemma CreateKeepsLimit(config: Config, w: World, e: Event)
    requires |WaitingCodes(w.hall.rooms)| <= config.maxWaitingRooms && e.Created?
    ensures |WaitingCodes(Step(config, w, e).hall.rooms)| <= config.maxWaitingRooms
  {
    var rooms := Reap(config, w.hall, e.probe, e.now).rooms;
    ReapedWaits(config, w.hall, e.probe, e.now);
    FewerWaiting(w.hall.rooms, rooms);
    var code := FreshCode(e.candidates, rooms);
    hide Reap, FreshCode, TicketOf, WaitingCodes, NoneWaits;
    if code.Some? {
      WaitingAfterPut(rooms, code.value, NewRoom(config, code.value, e.binding, e.ticket, e.now));
    }
  }

  /** After any events at all no more rooms wait than are allowed to. */
  lemma {:induction false} WaitingWithinLimit(config: Config, events: seq<Event>)
    ensures |WaitingCodes(Run(config, events).hall.rooms)| <= config.maxWaitingRooms
  {
    if events == [] {
      assert WaitingCodes(map[]) == {};
    } else {
      hide Step, WaitingCodes;
      WaitingWithinLimit(config, events[..|events| - 1]);
      var w, e := Run(config, events[..|events| - 1]), events[|events| - 1];
      if e.Created? {
        CreateKeepsLimit(config, w, e);
      } else {
        StepWaits(config, w, e);
        FewerWaiting(w.hall.rooms, Step(config, w, e).hall.rooms);
      }
    }
  }
}
