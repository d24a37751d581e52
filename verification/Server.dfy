/** The authoritative server's main loop as a step on its state (src/bin/arena-server.rs). The network is an
    arbitrary input; the clock, the preimages and the simulation's hash are parameters. */
module Server {
  import opened Wrappers
  import opened Binary
  import opened Protocol
  import opened Settlement
  import opened Sim

  type ClientId = nat

  datatype Config = Config(
    crypto: Crypto, aim: Aim, stateHash: SimState -> Bytes, devUnsecure: bool,
    matchId: u128, signingKey: Bytes, amount: u128, bucket: u16, cap: u128, deadline: u64)
  {
    predicate Valid() {
      ValidConfiguration(amount, bucket, cap)
    }
  }

  datatype Identity = Identity(slot: PlayerSlot, binding: Bytes)

  datatype NetEvent =
    /** `token` is the identity a secure token carries, if it decodes; `name` is what an insecure client
        calls itself. */
    | ClientConnected(client: ClientId, token: Option<Identity>, name: Bytes)
    | ClientDisconnected(client: ClientId)

  datatype ClientMessage =
    | Input(input: InputFrame)
    | AcceptTerms(matchId: u128)
    | InvoiceOffer(offer: HoldInvoiceOffer)
    | InvoiceAck(ack: HoldInvoiceAck)
    | InvoiceFailure(failure: HoldInvoiceFailure)

  datatype Packet = Packet(client: ClientId, reliable: bool, message: ClientMessage)

  datatype ServerMessage =
    | Welcome(terms: MatchTerms)
    | OfferForwarded(offer: HoldInvoiceOffer)
    | MatchStarted
    | Release(release: HoldInvoiceRelease)
    | CancelInvoice(term: HoldInvoiceTerm)
    | MatchEnded(winner: PlayerSlot)

  datatype Outbound = ToSlot(slot: PlayerSlot, message: ServerMessage) | Broadcast(message: ServerMessage)

  datatype ServerState = ServerState(
    settlement: Option<Book>, clients: map<ClientId, PlayerSlot>, players: PerSlot<Option<Bytes>>,
    accepted: set<PlayerSlot>, sim: SimState, latestInputs: PerSlot<InputFrame>,
    started: bool, ended: bool, serverTick: nat, outbox: seq<Outbound>)
  {
    /** A message for a slot goes out only if the slot is connected; otherwise the loop logs a warning and goes on. */
    function Send(slot: PlayerSlot, message: ServerMessage): ServerState {
      if slot in clients.Values then this.(outbox := outbox + [ToSlot(slot, message)]) else this
    }

    function Announce(message: ServerMessage): ServerState {
      this.(outbox := outbox + [Broadcast(message)])
    }

    /** Terms have been issued. Their bucket is positive, as the coordinator's constructor asserts. */
    predicate HasTerms() {
      settlement.Some? && settlement.value.ledger.terms.damageBucket > 0
    }
  }

  function Booted(inputs: PerSlot<InputFrame>): ServerState {
    ServerState(None, map[], PerSlot(None, None), {}, INITIAL, inputs, false, false, 0, [])
  }

  // ---------------------------------------------------------------------------
  // Connections
  // ---------------------------------------------------------------------------

  function FirstFreeSlot(clients: map<ClientId, PlayerSlot>): Option<PlayerSlot> {
    if A !in clients.Values then Some(A) else if B !in clients.Values then Some(B) else None
  }

  /** Whom a connecting client is taken for. */
  function Identify(cfg: Config, s: ServerState, token: Option<Identity>, name: Bytes): Option<Identity> {
    if cfg.devUnsecure then
      var slot := FirstFreeSlot(s.clients);
      if slot.None? then None else Some(Identity(slot.value, name))
    else token
  }

  function HandleConnection(cfg: Config, s: ServerState, e: NetEvent): (ServerState, seq<PlayerSlot>) {
    match e
    case ClientConnected(client, token, name) =>
      var identity := Identify(cfg, s, token, name);
      if s.settlement.Some? || identity.None? || identity.value.slot in s.clients.Values then (s, [])
      else
        (s.(clients := s.clients[client := identity.value.slot],
            players := s.players.Set(identity.value.slot, Some(identity.value.binding))), [])
    case ClientDisconnected(client) =>
      if client !in s.clients then (s, [])
      else
        var slot := s.clients[client];
        (s.(clients := s.clients - {client}, accepted := s.accepted - {slot},
            players := if s.settlement.None? then s.players.Set(slot, None) else s.players), [slot])
  }

  function HandleConnections(cfg: Config, s: ServerState, es: seq<NetEvent>): (ServerState, seq<PlayerSlot>) {
    if es == [] then (s, [])
    else
      var (s', gone) := HandleConnections(cfg, s, es[..|es| - 1]);
      var (s'', more) := HandleConnection(cfg, s', es[|es| - 1]);
      (s'', gone + more)
  }

  // ---------------------------------------------------------------------------
  // Terms and forfeit
  // ---------------------------------------------------------------------------

  predicate EnoughPreimages(cfg: Config, preimages: seq<Bytes>)
    requires cfg.Valid()
  {
    |preimages| == 2 * PerPlayer(cfg.amount, cfg.cap)
  }

  function TermsBook(cfg: Config, preimages: seq<Bytes>): Book
    requires cfg.Valid() && EnoughPreimages(cfg, preimages)
  {
    NewBook(cfg.crypto, cfg.matchId, cfg.signingKey, cfg.amount, cfg.bucket, cfg.cap, cfg.deadline, preimages)
  }

  function IssueTerms(cfg: Config, s: ServerState, preimages: seq<Bytes>): ServerState
    requires cfg.Valid() && EnoughPreimages(cfg, preimages)
  {
    if s.settlement.None? && |s.clients| == 2 then
      var book := TermsBook(cfg, preimages);
      s.Send(A, Welcome(book.ledger.terms)).Send(B, Welcome(book.ledger.terms)).(settlement := Some(book))
    else s
  }

  /** A connected player, or else the opponent of whoever left first. With two connected, which one is arbitrary. */
  function Winner(s: ServerState, gone: seq<PlayerSlot>, survivor: PlayerSlot): PlayerSlot
    requires gone != []
  {
    if survivor in s.clients.Values then survivor
    else if survivor.Opponent() in s.clients.Values then survivor.Opponent()
    else gone[0].Opponent()
  }

  function SendCancellations(s: ServerState, terms: seq<HoldInvoiceTerm>): ServerState {
    if terms == [] then s
    else
      var last := terms[|terms| - 1];
      SendCancellations(s, terms[..|terms| - 1]).Send(last.payee, CancelInvoice(last))
  }

  /** Cancels what is left, tells everyone who won, and ends the match for good. */
  function EndMatch(cfg: Config, s: ServerState, winner: PlayerSlot): ServerState
    requires s.HasTerms()
  {
    var b := s.settlement.value;
    SendCancellations(s, CancelledTerms(b.ledger.reservations))
      .Announce(MatchEnded(winner))
      .(settlement := Some(Apply(cfg.crypto, b, CancelRest)), ended := true)
  }

  function ForfeitMatch(cfg: Config, s: ServerState, gone: seq<PlayerSlot>, survivor: PlayerSlot): ServerState
  {
    if !s.ended && gone != [] && s.HasTerms() then
      var winner := Winner(s, gone, survivor);
      var s' := EndMatch(cfg, s, winner);
      s'.(sim := s'.sim.(phase := Ended(winner)))
    else s
  }

  // ---------------------------------------------------------------------------
  // Messages
  // ---------------------------------------------------------------------------

  function CallOf(slot: PlayerSlot, message: ClientMessage): Option<Call> {
    match message
    case InvoiceOffer(offer) => Some(Offer(slot, offer))
    case InvoiceAck(ack) => Some(Ack(slot, ack))
    case InvoiceFailure(failure) => Some(FailureReport(slot, failure))
    case _ => None
  }

  function HandleMessage(cfg: Config, s: ServerState, slot: PlayerSlot, message: ClientMessage): ServerState
    requires s.HasTerms()
  {
    var b := s.settlement.value;
    match message
    case Input(_) => s
    case AcceptTerms(matchId) =>
      if matchId == b.ledger.terms.matchId then s.(accepted := s.accepted + {slot}) else s
    case InvoiceOffer(offer) =>
      var s' := s.(settlement := Some(Apply(cfg.crypto, b, Offer(slot, offer))));
      if OfferError(b.ledger, slot, offer).None? then s'.Send(slot.Opponent(), OfferForwarded(offer)) else s'
    case _ => s.(settlement := Some(Apply(cfg.crypto, b, CallOf(slot, message).value)))
  }

  function HandlePacket(cfg: Config, s: ServerState, p: Packet): ServerState
    requires s.HasTerms()
  {
    if p.client !in s.clients then s
    else
      var slot := s.clients[p.client];
      if p.reliable then HandleMessage(cfg, s, slot, p.message)
      else if p.message.Input? && p.message.input.sequence >= s.latestInputs.Get(slot).sequence then
        s.(latestInputs := s.latestInputs.Set(slot, p.message.input.Sanitized()))
      else s
  }

  function HandlePackets(cfg: Config, s: ServerState, ps: seq<Packet>): (r: ServerState)
    requires s.HasTerms()
    ensures r.HasTerms()
  {
    if ps == [] then s
    else
      var front := HandlePackets(cfg, s, ps[..|ps| - 1]);
      PacketKeepsTerms(cfg, front, ps[|ps| - 1]);
      HandlePacket(cfg, front, ps[|ps| - 1])
  }

  // ---------------------------------------------------------------------------
  // Start and ticks
  // ---------------------------------------------------------------------------

  /** The start condition: both seats connected, both players' acceptance, every reservation held. */
  predicate ReadyToStart(s: ServerState) {
    && !s.started && !s.ended
    && |s.clients| == 2 && |s.accepted| == 2
    && s.settlement.Some? && AllHeld(s.settlement.value.ledger)
  }

  function Start(s: ServerState): ServerState {
    if ReadyToStart(s) then s.Announce(MatchStarted).(started := true, sim := s.sim.(phase := Live)) else s
  }

  function SendReleases(s: ServerState, releases: seq<HoldInvoiceRelease>): ServerState {
    if releases == [] then s
    else
      var last := releases[|releases| - 1];
      SendReleases(s, releases[..|releases| - 1]).Send(last.intent.body.payee, Release(last))
  }

  function HitOf(cfg: Config, s: ServerState, e: MatchEvent, nowMs: u64): Hit
    requires e.DamageEvent?
  {
    Hit(e.attacker, e.victim, e.amount, s.serverTick, cfg.stateHash(s.sim), nowMs)
  }

  function HandleEvent(cfg: Config, s: ServerState, e: MatchEvent, now: PerSlot<u64>): (r: ServerState)
    requires s.HasTerms()
  {
    match e
    case DamageEvent(attacker, victim, amount, _) =>
      var b, hit := s.settlement.value, HitOf(cfg, s, e, now.Get(attacker));
      var s' := s.(settlement := Some(Apply(cfg.crypto, b, Damaged(hit))));
      if CapReached(b.ledger, hit) then s'.(sim := s.sim.(phase := PaymentPaused(victim)))
      else SendReleases(s', Issued(cfg.crypto, b.ledger, hit))
    case DeathEvent(killer, _) => EndMatch(cfg, s, killer)
  }

  function HandleEvents(cfg: Config, s: ServerState, es: seq<MatchEvent>, now: PerSlot<u64>): (r: ServerState)
    requires s.HasTerms()
    ensures r.HasTerms()
  {
    if es == [] then s else
      var front := HandleEvents(cfg, s, es[..|es| - 1], now);
      EventKeepsTerms(cfg, front, es[|es| - 1], now);
      HandleEvent(cfg, front, es[|es| - 1], now)
  }

  /** One fixed step. `now` holds the clock readings for the hits of either attacker. */
  function FixedStep(cfg: Config, s: ServerState, now: PerSlot<u64>): ServerState
  {
    var s1 := s.(serverTick := s.serverTick + 1);
    if s.started && !s.ended && s.HasTerms() then
      var (sim, events) := Tick(cfg.aim, s1.sim, s1.latestInputs);
      HandleEvents(cfg, s1.(sim := sim), events, now)
    else s1
  }

  function FixedSteps(cfg: Config, s: ServerState, ticks: seq<PerSlot<u64>>): ServerState {
    if ticks == [] then s else FixedStep(cfg, FixedSteps(cfg, s, ticks[..|ticks| - 1]), ticks[|ticks| - 1])
  }

  // ---------------------------------------------------------------------------
  // Rounds
  // ---------------------------------------------------------------------------

  /** One pass through the loop: network events, random preimages should terms be issued, the arbitrary choice of a
      winner among two connected players, packets, and the clock readings of the fixed steps that have come due. */
  datatype Round = Round(
    net: seq<NetEvent>, preimages: seq<Bytes>, survivor: PlayerSlot, packets: seq<Packet>, ticks: seq<PerSlot<u64>>)

  /** A round up to the point where the start condition is looked at. */
  function BeforeStart(cfg: Config, s: ServerState, r: Round): ServerState
    requires cfg.Valid() && EnoughPreimages(cfg, r.preimages)
  {
    var (s1, gone) := HandleConnections(cfg, s, r.net);
    var s2 := ForfeitMatch(cfg, IssueTerms(cfg, s1, r.preimages), gone, r.survivor);
    if s2.HasTerms() then HandlePackets(cfg, s2, r.packets) else s2
  }

  function DoRound(cfg: Config, s: ServerState, r: Round): ServerState
    requires cfg.Valid() && EnoughPreimages(cfg, r.preimages)
  {
    FixedSteps(cfg, Start(BeforeStart(cfg, s, r)), r.ticks)
  }

  predicate Suitable(cfg: Config, rounds: seq<Round>)
    requires cfg.Valid()
  {
    forall k :: 0 <= k < |rounds| ==> EnoughPreimages(cfg, rounds[k].preimages)
  }

  /** A run of the server from its boot. */
  function Serve(cfg: Config, inputs: PerSlot<InputFrame>, rounds: seq<Round>): ServerState
    requires cfg.Valid() && Suitable(cfg, rounds)
  {
    if rounds == [] then Booted(inputs)
    else DoRound(cfg, Serve(cfg, inputs, rounds[..|rounds| - 1]), rounds[|rounds| - 1])
  }

  // ---------------------------------------------------------------------------
  // Frame facts of the senders
  // ---------------------------------------------------------------------------

  lemma {:induction false} SendCancellationsFrame(s: ServerState, terms: seq<HoldInvoiceTerm>)
    ensures SendCancellations(s, terms) == s.(outbox := SendCancellations(s, terms).outbox)
  {
    if terms != [] { SendCancellationsFrame(s, terms[..|terms| - 1]); }
  }

  lemma {:induction false} SendReleasesFrame(s: ServerState, releases: seq<HoldInvoiceRelease>)
    ensures SendReleases(s, releases) == s.(outbox := SendReleases(s, releases).outbox)
  {
    if releases != [] { SendReleasesFrame(s, releases[..|releases| - 1]); }
  }

  lemma PacketKeepsTerms(cfg: Config, s: ServerState, p: Packet)
    requires s.HasTerms()
    ensures HandlePacket(cfg, s, p).HasTerms()
  {
    hide OfferError, AckError, FailureError;
  }

  lemma EventKeepsTerms(cfg: Config, s: ServerState, e: MatchEvent, now: PerSlot<u64>)
    requires s.HasTerms()
    ensures HandleEvent(cfg, s, e, now).HasTerms()
  {
    match e
    case DamageEvent(attacker, victim, amount, _) =>
      var b, hit := s.settlement.value, HitOf(cfg, s, e, now.Get(attacker));
      hide Issued, CapReached, Payable, HeldIds, Left, AmountOf, MarkReleased;
      SendReleasesFrame(s.(settlement := Some(Apply(cfg.crypto, b, Damaged(hit)))), Issued(cfg.crypto, b.ledger, hit));
    case DeathEvent(_, _) =>
      hide CancelledTerms, CancelAll;
      SendCancellationsFrame(s, CancelledTerms(s.settlement.value.ledger.reservations));
  }
}
