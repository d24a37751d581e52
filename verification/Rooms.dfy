/** The matchmaker's rooms as values: what each request does to the room map and to the child processes. */
module Rooms {
  import opened Wrappers
  import opened Binary
  import opened Protocol

  type Pid = nat

  datatype TicketState = WaitingForOpponent | StartingServer | Ready | Failed

  datatype GameEndpoint = GameEndpoint(localPort: u16, publicAddr: string)

  datatype Binding = Binding(name: string, fiberPubkey: string)

  datatype PlayerEntry = PlayerEntry(binding: Binding, slot: PlayerSlot, ticket: string, connectToken: Option<string>)

  datatype Room = Room(
    code: string, state: TicketState, expiresAt: u64, players: PerSlot<Option<PlayerEntry>>,
    endpoint: Option<GameEndpoint>, child: Option<Pid>, error: Option<string>)
  {
    /** A room that holds a game endpoint. */
    predicate Active() {
      state.StartingServer? || state.Ready?
    }
  }

  datatype RoomTicket = RoomTicket(
    roomCode: string, ticket: string, slot: PlayerSlot, state: TicketState, expiresAt: u64,
    serverAddr: Option<string>, connectToken: Option<string>, error: Option<string>)

  datatype HttpError =
    | WaitingRoomLimit | NoUniqueCode | RoomNotFound | RoomFull | DuplicateFiberIdentity | DuplicatePlayerName
    | NoGameEndpoint | TokenNotIssued | TicketNotFound | RoomDisappeared
    | ServerNotStarted

  datatype StartPlan = StartPlan(roomCode: string, endpoint: GameEndpoint)

  datatype Health = Health(waitingRooms: nat, activeRooms: nat, availableEndpoints: nat)

  datatype Config = Config(
    endpoints: seq<GameEndpoint>, waitingTtl: u64, matchTtl: u64, failedRetention: u64, maxWaitingRooms: nat)
  {
    /** What the command line is checked for. */
    ghost predicate Valid() {
      && endpoints != []
      && maxWaitingRooms > 0
      && forall i, j :: 0 <= i < j < |endpoints| ==> endpoints[i].localPort != endpoints[j].localPort
    }
  }

  /** What looking at a child process answers: `try_wait` may find it running, exited, or fail. */
  datatype Probe = Running | Exited | Unreadable

  /** The room map, and the children spawned and neither killed nor seen to exit. */
  datatype Hall = Hall(rooms: map<string, Room>, live: set<Pid>)

  function SaturatingAdd(x: u64, y: u64): u64 {
    Min(x + y, U64_MAX)
  }

  function ChildSet(child: Option<Pid>): set<Pid> {
    if child.Some? then {child.value} else {}
  }

  function WaitingCodes(rooms: map<string, Room>): set<string> {
    set c | c in rooms && rooms[c].state == WaitingForOpponent
  }

  function ActiveCodes(rooms: map<string, Room>): set<string> {
    set c | c in rooms && rooms[c].Active()
  }

  function UsedPorts(rooms: map<string, Room>): set<u16> {
    set c | c in rooms && rooms[c].Active() && rooms[c].endpoint.Some? :: rooms[c].endpoint.value.localPort
  }

  function Cleared(entry: Option<PlayerEntry>): Option<PlayerEntry> {
    if entry.Some? then Some(entry.value.(connectToken := None)) else None
  }

  function TokensCleared(players: PerSlot<Option<PlayerEntry>>): PerSlot<Option<PlayerEntry>> {
    PerSlot(Cleared(players.a), Cleared(players.b))
  }

  /** A room given up: its players keep their seats but lose their connect tokens. */
  function GivenUp(config: Config, room: Room, message: string, now: u64): Room {
    room.(state := Failed, error := Some(message), expiresAt := SaturatingAdd(now, config.failedRetention),
          players := TokensCleared(room.players), child := None)
  }

  // ---- reaping ------------------------------------------------------------------------------

  const EXITED := "game server exited"

  /** A room after its child was looked at. */
  function Inspected(config: Config, room: Room, probe: Pid -> Probe, now: u64): Room {
    if room.child.None? || probe(room.child.value) == Running then room
    else if room.state == Ready then GivenUp(config, room, EXITED, now)
    else room.(child := None)
  }

  predicate Stays(config: Config, room: Room, probe: Pid -> Probe, now: u64) {
    Inspected(config, room, probe, now).expiresAt > now
  }

  /** The children that reaping waits for: exited, unreadable, or of an expired room. */
  function Collected(config: Config, rooms: map<string, Room>, probe: Pid -> Probe, now: u64): set<Pid> {
    set c | c in rooms && rooms[c].child.Some?
            && (probe(rooms[c].child.value) != Running || !Stays(config, rooms[c], probe, now))
          :: rooms[c].child.value
  }

  function Reap(config: Config, h: Hall, probe: Pid -> Probe, now: u64): Hall {
    Hall(map c | c in h.rooms && Stays(config, h.rooms[c], probe, now) :: Inspected(config, h.rooms[c], probe, now),
         h.live - Collected(config, h.rooms, probe, now))
  }

  // ---- tickets ------------------------------------------------------------------------------

  function Holder(players: PerSlot<Option<PlayerEntry>>, ticket: string): Option<PlayerEntry> {
    if players.a.Some? && players.a.value.ticket == ticket then players.a
    else if players.b.Some? && players.b.value.ticket == ticket then players.b
    else None
  }

  function TicketOf(room: Room, ticket: string): Result<RoomTicket, HttpError>
    requires room.state == Ready ==> room.endpoint.Some?
  {
    match Holder(room.players, ticket)
    case None => Failure(TicketNotFound)
    case Some(player) =>
      var ready := room.state == Ready;
      Success(RoomTicket(
        room.code, player.ticket, player.slot, room.state, room.expiresAt,
        if ready then Some(room.endpoint.value.publicAddr) else None,
        if ready then player.connectToken else None, room.error))
  }

  // ---- requests -----------------------------------------------------------------------------

  /** The first of the random codes that no room has. */
  function FreshCode(candidates: seq<string>, rooms: map<string, Room>): Option<string> {
    if candidates == [] then None
    else if candidates[0] !in rooms then Some(candidates[0])
    else FreshCode(candidates[1..], rooms)
  }

  function NewRoom(config: Config, code: string, binding: Binding, ticket: string, now: u64): Room {
    Room(code, WaitingForOpponent, SaturatingAdd(now, config.waitingTtl),
         PerSlot(Some(PlayerEntry(binding, A, ticket, None)), None), None, None, None)
  }

  function Create(config: Config, h0: Hall, binding: Binding, candidates: seq<string>, ticket: string,
                  probe: Pid -> Probe, now: u64): (Hall, Result<RoomTicket, HttpError>)
  {
    var h := Reap(config, h0, probe, now);
    if |WaitingCodes(h.rooms)| >= config.maxWaitingRooms then (h, Failure(WaitingRoomLimit))
    else
      match FreshCode(candidates, h.rooms)
      case None => (h, Failure(NoUniqueCode))
      case Some(code) =>
        var room := NewRoom(config, code, binding, ticket, now);
        (h.(rooms := h.rooms[code := room]), TicketOf(room, ticket))
  }

  function FirstFree(endpoints: seq<GameEndpoint>, used: set<u16>): Option<GameEndpoint> {
    if endpoints == [] then None
    else if endpoints[0].localPort !in used then Some(endpoints[0])
    else FirstFree(endpoints[1..], used)
  }

  /** Why a join is refused before an endpoint is looked for. */
  function JoinError(rooms: map<string, Room>, code: string, binding: Binding): Option<HttpError> {
    if code !in rooms then Some(RoomNotFound)
    else
      var room := rooms[code];
      if room.state != WaitingForOpponent || room.players.b.Some? then Some(RoomFull)
      else if room.players.a.Some? && room.players.a.value.binding.fiberPubkey == binding.fiberPubkey
      then Some(DuplicateFiberIdentity)
      else if room.players.a.Some? && room.players.a.value.binding.name == binding.name then Some(DuplicatePlayerName)
      else None
  }

  function WithToken(entry: Option<PlayerEntry>, token: string): Option<PlayerEntry> {
    if entry.Some? then Some(entry.value.(connectToken := Some(token))) else None
  }

  /** Seat A's token, then seat B's; the first that cannot be issued leaves the rest as they were. */
  function Issued(players: PerSlot<Option<PlayerEntry>>, tokens: PerSlot<Option<string>>)
    : PerSlot<Option<PlayerEntry>>
  {
    if tokens.a.None? then players
    else if tokens.b.None? then players.(a := WithToken(players.a, tokens.a.value))
    else PerSlot(WithToken(players.a, tokens.a.value), WithToken(players.b, tokens.b.value))
  }

  function Reserved(config: Config, room: Room, binding: Binding, ticket: string, tokens: PerSlot<Option<string>>,
                    endpoint: GameEndpoint, now: u64): Room
  {
    room.(players := Issued(room.players.(b := Some(PlayerEntry(binding, B, ticket, None))), tokens),
          endpoint := Some(endpoint), state := StartingServer, expiresAt := SaturatingAdd(now, config.matchTtl))
  }

  function ReserveJoin(config: Config, h0: Hall, code: string, binding: Binding, ticket: string,
                       tokens: PerSlot<Option<string>>, probe: Pid -> Probe, now: u64)
    : (Hall, Result<(RoomTicket, StartPlan), HttpError>)
  {
    var h := Reap(config, h0, probe, now);
    match JoinError(h.rooms, code, binding)
    case Some(error) => (h, Failure(error))
    case None =>
      match FirstFree(config.endpoints, UsedPorts(h.rooms))
      case None => (h, Failure(NoGameEndpoint))
      case Some(endpoint) =>
        var room := Reserved(config, h.rooms[code], binding, ticket, tokens, endpoint, now);
        var after := h.(rooms := h.rooms[code := room]);
        if tokens.a.None? || tokens.b.None? then (after, Failure(TokenNotIssued))
        else
          match TicketOf(room, ticket)
          case Failure(error) => (after, Failure(error))
          case Success(response) => (after, Success((response, StartPlan(code, endpoint))))
  }

  /** A started server is handed to its room, or killed when the room is gone. */
  function MarkReady(h: Hall, code: string, child: Pid): (Hall, Result<(), HttpError>) {
    if code !in h.rooms then (h.(live := h.live - {child}), Failure(RoomDisappeared))
    else (h.(rooms := h.rooms[code := h.rooms[code].(child := Some(child), state := Ready)]), Success(()))
  }

  function MarkFailed(config: Config, h: Hall, code: string, message: string, now: u64): Hall {
    if code !in h.rooms then h
    else
      Hall(h.rooms[code := GivenUp(config, h.rooms[code], message, now)], h.live - ChildSet(h.rooms[code].child))
  }

  const LEFT := "a player left before the match completed"

  function Leave(config: Config, h: Hall, code: string, ticket: string, now: u64): (Hall, Result<(), HttpError>) {
    if code !in h.rooms then (h, Failure(RoomNotFound))
    else if Holder(h.rooms[code].players, ticket).None? then (h, Failure(TicketNotFound))
    else if h.rooms[code].state == WaitingForOpponent then (h.(rooms := h.rooms - {code}), Success(()))
    else (MarkFailed(config, h, code, LEFT, now), Success(()))
  }

  function HealthOf(config: Config, rooms: map<string, Room>): Health {
    var active := |ActiveCodes(rooms)|;
    Health(|WaitingCodes(rooms)|, active, if active <= |config.endpoints| then |config.endpoints| - active else 0)
  }

  function Children(rooms: map<string, Room>): set<Pid> {
    set c | c in rooms && rooms[c].child.Some? :: rooms[c].child.value
  }

  function Shutdown(h: Hall): Hall {
    Hall(map[], h.live - Children(h.rooms))
  }
}
