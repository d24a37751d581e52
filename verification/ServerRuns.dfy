/** Whole runs of the server: what is sent, paid and cancelled, for every order of network events and messages. */
module ServerRuns {
  import opened Wrappers
  import opened Binary
  import opened Protocol
  import opened Settlement
  import opened Accounting
  import opened Sim
  import opened Server

  // ---------------------------------------------------------------------------
  // What the clients see
  // ---------------------------------------------------------------------------

  datatype Stage = Lobby | Playing | Closing | Over | Broken

  /** The protocol of the messages sent: one start, releases only while playing, then cancellations, then one end. */
  function NextStage(stage: Stage, message: ServerMessage): Stage {
    match message
    case Welcome(_) => stage
    case OfferForwarded(_) => stage
    case MatchStarted => if stage == Lobby then Playing else Broken
    case Release(_) => if stage == Playing then Playing else Broken
    case CancelInvoice(_) => if stage in {Lobby, Playing, Closing} then Closing else Broken
    case MatchEnded(_) => if stage in {Lobby, Playing, Closing} then Over else Broken
  }

  function StageOf(outbox: seq<Outbound>): Stage {
    if outbox == [] then Lobby else NextStage(StageOf(outbox[..|outbox| - 1]), outbox[|outbox| - 1].message)
  }

  lemma StageAppend(outbox: seq<Outbound>, more: Outbound)
    ensures StageOf(outbox + [more]) == NextStage(StageOf(outbox), more.message)
  {
    assert (outbox + [more])[..|outbox + [more]| - 1] == outbox;
  }

  lemma StageSend(s: ServerState, slot: PlayerSlot, message: ServerMessage)
    ensures StageOf(s.Send(slot, message).outbox) == StageOf(s.outbox)
         || StageOf(s.Send(slot, message).outbox) == NextStage(StageOf(s.outbox), message)
  {
    StageAppend(s.outbox, ToSlot(slot, message));
  }

  // ---------------------------------------------------------------------------
  // The invariant
  // ---------------------------------------------------------------------------

  const PLAYING := {Held, Released, ReservationStatus.Settled, Failed}
  const CLOSED := {Released, ReservationStatus.Settled, CancelPending, ReservationStatus.Cancelled, Failed}

  ghost predicate Statuses(b: Book, allowed: set<ReservationStatus>) {
    forall i :: 0 <= i < |b.ledger.reservations| ==> b.ledger.reservations[i].status in allowed
  }

  /** Seats are taken at most once, and a connected player has a bound identity. */
  ghost predicate Seated(s: ServerState) {
    && (forall c, d :: c in s.clients && d in s.clients && c != d ==> s.clients[c] != s.clients[d])
    && (forall c :: c in s.clients ==> s.players.Get(s.clients[c]).Some?)
  }

  ghost predicate BookOf(cfg: Config, b: Book) {
    && Sound(cfg.crypto, b)
    && b.ledger.terms.amountPerDamageBucket == cfg.amount
    && b.ledger.terms.damageBucket == cfg.bucket
    && b.ledger.terms.maxTotalPerPlayer == cfg.cap
  }

  ghost predicate Untouched(b: Book) {
    b.issued == [] && b.capErrors == 0 && b.ledger.damageRemainder == PerSlot(0, 0)
  }

  ghost predicate InLobby(cfg: Config, s: ServerState) {
    && !s.started && !s.ended && StageOf(s.outbox) == Lobby
    && (s.settlement.Some? ==>
          var b := s.settlement.value; BookOf(cfg, b) && Untouched(b) && b.cancelled == [])
  }

  ghost predicate Running(cfg: Config, s: ServerState) {
    && s.started && !s.ended && StageOf(s.outbox) == Playing
    && s.settlement.Some?
    && var b := s.settlement.value;
    BookOf(cfg, b) && Statuses(b, PLAYING) && b.cancelled == []
  }

  ghost predicate Finished(cfg: Config, s: ServerState) {
    && s.ended && StageOf(s.outbox) == Over
    && s.settlement.Some?
    && var b := s.settlement.value;
    BookOf(cfg, b) && if s.started then Statuses(b, CLOSED) else Untouched(b)
  }

  ghost predicate Phased(cfg: Config, s: ServerState) {
    InLobby(cfg, s) || Running(cfg, s) || Finished(cfg, s)
  }

  /** Hits a player has taken, read off the health left. */
  function HitsTaken(sim: SimState): PerSlot<nat> {
    PerSlot(if sim.players.a.health <= 100 then (100 - sim.players.a.health) / 25 else 0,
            if sim.players.b.health <= 100 then (100 - sim.players.b.health) / 25 else 0)
  }

  /** The simulation's own bookkeeping, and its phase: live only while the match runs, then live or paused. */
  ghost predicate SimInStep(s: ServerState) {
    && Sane(s.sim, HitsTaken(s.sim))
    && (!s.started ==> s.sim.phase != Live && HitsTaken(s.sim) == PerSlot(0, 0))
    && (s.started && !s.ended ==> s.sim.phase == Live || s.sim.phase.PaymentPaused?)
  }

  ghost predicate Inv(cfg: Config, s: ServerState) {
    Seated(s) && Phased(cfg, s) && SimInStep(s)
  }

  // ---------------------------------------------------------------------------
  // Connections and terms
  // ---------------------------------------------------------------------------

  lemma ConnectionKeepsInv(cfg: Config, s: ServerState, e: NetEvent)
    requires Inv(cfg, s)
    ensures Inv(cfg, HandleConnection(cfg, s, e).0)
  {
    var s' := HandleConnection(cfg, s, e).0;
    SeatedAfter(cfg, s, e);
    hide Sane, BookOf, Statuses, StageOf, Seated, Untouched;
  }

  lemma SameSeats(s: ServerState, s': ServerState)
    requires Seated(s) && s'.clients == s.clients && s'.players == s.players
    ensures Seated(s')
  {
  }

  lemma SeatedAfter(cfg: Config, s: ServerState, e: NetEvent)
    requires Seated(s)
    ensures Seated(HandleConnection(cfg, s, e).0)
  {
    var s' := HandleConnection(cfg, s, e).0;
    match e
    case ClientConnected(client, token, name) =>
      var identity := Identify(cfg, s, token, name);
      if identity.Some? {
        assert forall c :: c in s.clients ==> s.clients[c] in s.clients.Values;
      }
    case ClientDisconnected(client) =>
  }

  lemma {:induction false} ConnectionsKeepInv(cfg: Config, s: ServerState, es: seq<NetEvent>)
    requires Inv(cfg, s)
    ensures Inv(cfg, HandleConnections(cfg, s, es).0)
  {
    hide Inv;
    if es != [] {
      ConnectionsKeepInv(cfg, s, es[..|es| - 1]);
      ConnectionKeepsInv(cfg, HandleConnections(cfg, s, es[..|es| - 1]).0, es[|es| - 1]);
    }
  }

  /** When terms are issued both seats are bound, so looking the bindings up cannot fail. */
  lemma BothSeatsAreBound(s: ServerState)
    requires Seated(s) && |s.clients| == 2
    ensures s.players.a.Some? && s.players.b.Some?
    ensures A in s.clients.Values && B in s.clients.Values
  {
    var c :| c in s.clients;
    var rest := s.clients.Keys - {c};
    assert |rest| == 1;
    var d :| d in rest;
    assert s.clients[c] != s.clients[d];
    assert s.clients[c] in s.clients.Values && s.clients[d] in s.clients.Values;
  }

  lemma NewTermsBook(cfg: Config, preimages: seq<Bytes>)
    requires cfg.Valid() && EnoughPreimages(cfg, preimages)
    ensures var b := TermsBook(cfg, preimages); BookOf(cfg, b) && Untouched(b) && b.cancelled == []
  {
    hide Sound;
    NewBookIsSound(cfg.crypto, cfg.matchId, cfg.signingKey, cfg.amount, cfg.bucket, cfg.cap, cfg.deadline, preimages);
  }

  lemma TermsShape(cfg: Config, s: ServerState, preimages: seq<Bytes>)
    requires cfg.Valid() && EnoughPreimages(cfg, preimages)
    requires s.settlement.None? && |s.clients| == 2
    ensures var s' := IssueTerms(cfg, s, preimages);
            && s' == s.(settlement := Some(TermsBook(cfg, preimages)), outbox := s'.outbox)
            && StageOf(s'.outbox) == StageOf(s.outbox)
  {
    hide TermsBook, StageOf, EnoughPreimages, ValidConfiguration;
    var welcome := Welcome(TermsBook(cfg, preimages).ledger.terms);
    StageSend(s, A, welcome);
    StageSend(s.Send(A, welcome), B, welcome);
  }

  lemma TermsKeepInv(cfg: Config, s: ServerState, preimages: seq<Bytes>)
    requires cfg.Valid() && EnoughPreimages(cfg, preimages) && Inv(cfg, s)
    ensures Inv(cfg, IssueTerms(cfg, s, preimages))
  {
    if s.settlement.None? && |s.clients| == 2 {
      NewTermsBook(cfg, preimages);
      TermsShape(cfg, s, preimages);
      hide BookOf, Statuses, Untouched, TermsBook, StageOf, Seated, SimInStep, IssueTerms;
      SameSeats(s, IssueTerms(cfg, s, preimages));
      SameSim(s, IssueTerms(cfg, s, preimages));
    }
  }

  lemma SameSim(s: ServerState, s': ServerState)
    requires SimInStep(s) && s'.sim == s.sim && s'.started == s.started && s'.ended == s.ended
    ensures SimInStep(s')
  {
  }

  // ---------------------------------------------------------------------------
  // Ending a match
  // ---------------------------------------------------------------------------

  lemma {:induction false} StageCancellations(s: ServerState, terms: seq<HoldInvoiceTerm>)
    requires StageOf(s.outbox) in {Lobby, Playing, Closing}
    ensures StageOf(SendCancellations(s, terms).outbox) in {Lobby, Playing, Closing}
  {
    hide StageOf;
    if terms != [] {
      var last := terms[|terms| - 1];
      StageCancellations(s, terms[..|terms| - 1]);
      StageSend(SendCancellations(s, terms[..|terms| - 1]), last.payee, CancelInvoice(last));
    }
  }

  lemma CancelShape(c: Crypto, b: Book)
    requires b.ledger.terms.damageBucket > 0
    ensures var b' := Apply(c, b, CancelRest);
            && b'.ledger.terms == b.ledger.terms
            && (Statuses(b, PLAYING) ==> Statuses(b', CLOSED))
            && (Untouched(b) ==> Untouched(b'))
  {
    hide CancelledTerms;
  }

  lemma CancelKeepsBook(cfg: Config, b: Book)
    requires BookOf(cfg, b)
    ensures var b' := Apply(cfg.crypto, b, CancelRest);
            && BookOf(cfg, b')
            && (Statuses(b, PLAYING) ==> Statuses(b', CLOSED))
            && (Untouched(b) ==> Untouched(b'))
  {
    BucketIsPositive(cfg.crypto, b);
    hide Sound, Statuses, Untouched, Apply, PLAYING, CLOSED;
    CancelShape(cfg.crypto, b);
    StepIsSound(cfg.crypto, b, CancelRest);
  }

  lemma EndIsAnnounced(cfg: Config, s: ServerState, winner: PlayerSlot)
    requires s.HasTerms() && StageOf(s.outbox) in {Lobby, Playing}
    ensures var s' := EndMatch(cfg, s, winner);
            && StageOf(s'.outbox) == Over
            && s' == s.(settlement := Some(Apply(cfg.crypto, s.settlement.value, CancelRest)), outbox := s'.outbox,
                        ended := true)
  {
    var terms := CancelledTerms(s.settlement.value.ledger.reservations);
    hide StageOf, CancelledTerms, Apply;
    StageCancellations(s, terms);
    SendCancellationsFrame(s, terms);
    StageAppend(SendCancellations(s, terms).outbox, Broadcast(MatchEnded(winner)));
  }

  lemma EndFinishes(cfg: Config, s: ServerState, winner: PlayerSlot)
    requires InLobby(cfg, s) || Running(cfg, s)
    requires s.HasTerms()
    ensures Finished(cfg, EndMatch(cfg, s, winner))
    ensures var s' := EndMatch(cfg, s, winner);
            s' == s.(settlement := s'.settlement, outbox := s'.outbox, ended := true)
  {
    CancelKeepsBook(cfg, s.settlement.value);
    hide BookOf, Statuses, Untouched, StageOf, Apply, EndMatch;
    EndIsAnnounced(cfg, s, winner);
  }

  lemma ForfeitFinishes(cfg: Config, s: ServerState, gone: seq<PlayerSlot>, survivor: PlayerSlot)
    requires Phased(cfg, s) && s.HasTerms() && !s.ended && gone != []
    ensures var s' := ForfeitMatch(cfg, s, gone, survivor);
            && Finished(cfg, s')
            && s' == s.(settlement := s'.settlement, outbox := s'.outbox, ended := true, sim := s'.sim)
            && s'.sim == s.sim.(phase := Ended(Winner(s, gone, survivor)))
  {
    hide EndMatch, Winner, BookOf, Statuses, Untouched, StageOf;
    EndFinishes(cfg, s, Winner(s, gone, survivor));
  }

  lemma ForfeitKeepsInv(cfg: Config, s: ServerState, gone: seq<PlayerSlot>, survivor: PlayerSlot)
    requires Inv(cfg, s)
    ensures s.settlement.Some? ==> s.HasTerms()
    ensures Inv(cfg, ForfeitMatch(cfg, s, gone, survivor))
  {
    TermsAreIssued(cfg, s);
    if !s.ended && gone != [] && s.settlement.Some? {
      ForfeitFinishes(cfg, s, gone, survivor);
      var s' := ForfeitMatch(cfg, s, gone, survivor);
      hide ForfeitMatch, SimInStep, Running, InLobby, Finished, Winner, Seated;
      SimStops(s, s');
      SameSeats(s, s');
    }
  }

  lemma SimStops(s: ServerState, s': ServerState)
    requires SimInStep(s) && s'.ended && s'.started == s.started
    requires s'.sim == s.sim.(phase := s'.sim.phase) && s'.sim.phase != Live
    ensures SimInStep(s')
  {
    assert HitsTaken(s'.sim) == HitsTaken(s.sim);
  }

  lemma TermsAreIssued(cfg: Config, s: ServerState)
    requires Inv(cfg, s)
    ensures s.settlement.Some? ==> s.HasTerms()
  {
    if s.settlement.Some? {
      assert Sound(cfg.crypto, s.settlement.value);
      BucketIsPositive(cfg.crypto, s.settlement.value);
    }
  }

  // ---------------------------------------------------------------------------
  // Messages
  // ---------------------------------------------------------------------------

  lemma MessageKeepsStatuses(c: Crypto, b: Book, call: Call, allowed: set<ReservationStatus>)
    requires SoundLedger(c, b.ledger) && Statuses(b, allowed) && allowed in {PLAYING, CLOSED}
    requires call.Offer? || call.Ack? || call.FailureReport?
    ensures Statuses(Apply(c, b, call), allowed)
  {
    hide WellFormedTerms;
  }

  lemma MessageKeepsBook(cfg: Config, b: Book, call: Call)
    requires BookOf(cfg, b) && (call.Offer? || call.Ack? || call.FailureReport?)
    ensures b.ledger.terms.damageBucket > 0
    ensures var b' := Apply(cfg.crypto, b, call);
            && BookOf(cfg, b')
            && b' == b.(ledger := b'.ledger) && b'.ledger.damageRemainder == b.ledger.damageRemainder
            && (Statuses(b, PLAYING) ==> Statuses(b', PLAYING))
            && (Statuses(b, CLOSED) ==> Statuses(b', CLOSED))
  {
    hide Sound, SoundLedger, Statuses, Apply, PLAYING, CLOSED;
    BucketIsPositive(cfg.crypto, b);
    SoundHasLedger(cfg.crypto, b);
    MessageShape(cfg.crypto, b, call);
    if Statuses(b, PLAYING) { MessageKeepsStatuses(cfg.crypto, b, call, PLAYING); }
    if Statuses(b, CLOSED) { MessageKeepsStatuses(cfg.crypto, b, call, CLOSED); }
    StepIsSound(cfg.crypto, b, call);
  }

  lemma SoundHasLedger(c: Crypto, b: Book)
    requires Sound(c, b)
    ensures SoundLedger(c, b.ledger)
  {
  }

  /** A message changes reservations and nothing else of the books. */
  lemma MessageShape(c: Crypto, b: Book, call: Call)
    requires b.ledger.terms.damageBucket > 0 && (call.Offer? || call.Ack? || call.FailureReport?)
    ensures var b' := Apply(c, b, call);
      b' == b.(ledger := b'.ledger) && b'.ledger == b.ledger.(reservations := b'.ledger.reservations)
  {
    hide OfferError, AckError, FailureError;
  }

  /** A call made by a message leaves the phase of the server as it was. */
  lemma PhasedAfterCall(cfg: Config, s: ServerState, call: Call)
    requires Phased(cfg, s) && s.HasTerms() && (call.Offer? || call.Ack? || call.FailureReport?)
    ensures Phased(cfg, s.(settlement := Some(Apply(cfg.crypto, s.settlement.value, call))))
  {
    MessageKeepsBook(cfg, s.settlement.value, call);
    hide BookOf, Statuses, StageOf, Apply;
  }

  lemma PhasedAfterForward(cfg: Config, s: ServerState, slot: PlayerSlot, offer: HoldInvoiceOffer)
    requires Phased(cfg, s)
    ensures Phased(cfg, s.Send(slot, OfferForwarded(offer)))
  {
    hide BookOf, Statuses, StageOf, Untouched;
    StageSend(s, slot, OfferForwarded(offer));
  }

  lemma MessageKeepsPhase(cfg: Config, s: ServerState, slot: PlayerSlot, message: ClientMessage)
    requires Phased(cfg, s) && s.HasTerms()
    ensures var s' := HandleMessage(cfg, s, slot, message);
            && Phased(cfg, s')
            && s' == s.(settlement := s'.settlement, accepted := s'.accepted, outbox := s'.outbox)
  {
    var b := s.settlement.value;
    match message
    case Input(_) =>
    case AcceptTerms(_) => hide BookOf, Statuses, StageOf, Untouched;
    case InvoiceOffer(offer) =>
      hide Phased, Apply, OfferError;
      PhasedAfterCall(cfg, s, Offer(slot, offer));
      PhasedAfterForward(cfg, s.(settlement := Some(Apply(cfg.crypto, b, Offer(slot, offer)))), slot.Opponent(), offer);
    case _ =>
      hide Phased, Apply;
      PhasedAfterCall(cfg, s, CallOf(slot, message).value);
  }

  lemma PacketKeepsInv(cfg: Config, s: ServerState, p: Packet)
    requires Inv(cfg, s) && s.HasTerms()
    ensures Inv(cfg, HandlePacket(cfg, s, p))
  {
    if p.client in s.clients && p.reliable {
      hide Phased, Sane, HandleMessage;
      MessageKeepsPhase(cfg, s, s.clients[p.client], p.message);
    } else {
      hide BookOf, Statuses, StageOf, Untouched, Sane;
    }
  }

  lemma {:induction false} PacketsKeepInv(cfg: Config, s: ServerState, ps: seq<Packet>)
    requires Inv(cfg, s) && s.HasTerms()
    ensures Inv(cfg, HandlePackets(cfg, s, ps))
  {
    hide Inv, HandlePacket;
    if ps != [] {
      PacketsKeepInv(cfg, s, ps[..|ps| - 1]);
      PacketKeepsInv(cfg, HandlePackets(cfg, s, ps[..|ps| - 1]), ps[|ps| - 1]);
    }
  }

  // ---------------------------------------------------------------------------
  // Start
  // ---------------------------------------------------------------------------

  lemma StartKeepsInv(cfg: Config, s: ServerState)
    requires Inv(cfg, s)
    ensures Inv(cfg, Start(s))
  {
    if ReadyToStart(s) {
      var b := s.settlement.value;
      assert Statuses(b, PLAYING) by {
        forall i | 0 <= i < |b.ledger.reservations| ensures b.ledger.reservations[i].status in PLAYING {
          assert b.ledger.reservations[i] in b.ledger.reservations;
        }
      }
      SimStarts(s);
      hide BookOf, Statuses, StageOf, Untouched, AllHeld, SimInStep;
      StageAppend(s.outbox, Broadcast(MatchStarted));
      assert Running(cfg, Start(s));
    }
  }

  lemma SimStarts(s: ServerState)
    requires SimInStep(s) && ReadyToStart(s)
    ensures SimInStep(Start(s))
  {
    hide AllHeld;
    var s' := Start(s);
    assert HitsTaken(s'.sim) == HitsTaken(s.sim) == PerSlot(0, 0);
    forall p: PlayerSlot ensures s.sim.players.Get(p).health == FULL_HEALTH && s.sim.players.Get(p).alive {
      assert HitsTaken(s.sim).Get(p) == 0;
    }
    assert s.sim.players.Get(A).alive && s.sim.players.Get(B).alive;
  }

  // ---------------------------------------------------------------------------
  // Fixed steps
  // ---------------------------------------------------------------------------

  lemma {:induction false} StageReleases(s: ServerState, releases: seq<HoldInvoiceRelease>)
    requires StageOf(s.outbox) == Playing
    ensures StageOf(SendReleases(s, releases).outbox) == Playing
  {
    hide StageOf;
    if releases != [] {
      var last := releases[|releases| - 1];
      StageReleases(s, releases[..|releases| - 1]);
      StageSend(SendReleases(s, releases[..|releases| - 1]), last.intent.body.payee, Release(last));
    }
  }

  lemma DamageShape(c: Crypto, b: Book, hit: Hit)
    requires b.ledger.terms.damageBucket > 0
    ensures var b' := Apply(c, b, Damaged(hit));
            && b'.cancelled == b.cancelled && b'.ledger.terms == b.ledger.terms
            && (Statuses(b, PLAYING) ==> Statuses(b', PLAYING))
  {
    hide Payable, Issued, CapReached, Left, AmountOf;
  }

  lemma DamageKeepsBook(cfg: Config, b: Book, hit: Hit)
    requires BookOf(cfg, b)
    ensures b.ledger.terms.damageBucket > 0
    ensures var b' := Apply(cfg.crypto, b, Damaged(hit));
            BookOf(cfg, b') && b'.cancelled == b.cancelled && (Statuses(b, PLAYING) ==> Statuses(b', PLAYING))
  {
    hide Sound, Apply, Statuses;
    BucketIsPositive(cfg.crypto, b);
    DamageShape(cfg.crypto, b, hit);
    StepIsSound(cfg.crypto, b, Damaged(hit));
  }

  lemma DamageRuns(cfg: Config, s: ServerState, e: MatchEvent, now: PerSlot<u64>)
    requires Running(cfg, s) && e.DamageEvent? && s.HasTerms()
    ensures var s' := HandleEvent(cfg, s, e, now);
            && Running(cfg, s')
            && s' == s.(settlement := s'.settlement, outbox := s'.outbox, sim := s'.sim)
            && (s'.sim == s.sim || s'.sim == s.sim.(phase := PaymentPaused(e.victim)))
  {
    var b, hit := s.settlement.value, HitOf(cfg, s, e, now.Get(e.attacker));
    DamageKeepsBook(cfg, b, hit);
    hide BookOf, Statuses, StageOf, Apply, CapReached, Issued;
    var s1 := s.(settlement := Some(Apply(cfg.crypto, b, Damaged(hit))));
    StageReleases(s1, Issued(cfg.crypto, b.ledger, hit));
    SendReleasesFrame(s1, Issued(cfg.crypto, b.ledger, hit));
  }

  /** Handling the events of one tick: hits keep the match running, a final death finishes it. */
  lemma {:induction false} EventsRun(cfg: Config, s: ServerState, es: seq<MatchEvent>, now: PerSlot<u64>)
    requires Running(cfg, s) && s.HasTerms()
    requires forall k :: 0 <= k < |es| && es[k].DeathEvent? ==> k == |es| - 1
    ensures var s' := HandleEvents(cfg, s, es, now);
            && (if es != [] && es[|es| - 1].DeathEvent? then Finished(cfg, s') && s'.started else Running(cfg, s'))
            && s' == s.(settlement := s'.settlement, outbox := s'.outbox, sim := s'.sim, ended := s'.ended)
            && (s'.sim == s.sim || (exists p :: s'.sim == s.sim.(phase := PaymentPaused(p))))
  {
    hide Running, Finished, HandleEvent;
    if es != [] {
      var front, last := es[..|es| - 1], es[|es| - 1];
      EventsRun(cfg, s, front, now);
      var s1 := HandleEvents(cfg, s, front, now);
      if last.DamageEvent? {
        DamageRuns(cfg, s1, last, now);
      } else {
        DeathEnds(cfg, s1, last, now);
      }
    }
  }

  lemma DeathEnds(cfg: Config, s: ServerState, e: MatchEvent, now: PerSlot<u64>)
    requires Running(cfg, s) && e.DeathEvent? && s.HasTerms()
    ensures var s' := HandleEvent(cfg, s, e, now);
            && Finished(cfg, s') && s'.started
            && s' == s.(settlement := s'.settlement, outbox := s'.outbox, ended := true)
  {
    EndFinishes(cfg, s, e.killer);
  }

  lemma TickShape(cfg: Config, s: ServerState, now: PerSlot<u64>)
    requires s.started && !s.ended && s.HasTerms()
    ensures var (sim, events) := Tick(cfg.aim, s.sim, s.latestInputs);
            FixedStep(cfg, s, now) == HandleEvents(cfg, s.(serverTick := s.serverTick + 1, sim := sim), events, now)
  {
    hide Tick, HandleEvents;
  }

  lemma StillRunning(cfg: Config, s: ServerState, s': ServerState)
    requires Running(cfg, s)
    requires s'.started && !s'.ended && s'.outbox == s.outbox && s'.settlement == s.settlement
    ensures Running(cfg, s')
  {
  }

  lemma RunningUnless(cfg: Config, s: ServerState)
    requires Phased(cfg, s)
    ensures s.started && !s.ended ==> Running(cfg, s)
    ensures s.ended ==> Finished(cfg, s)
    ensures !s.started && !s.ended ==> InLobby(cfg, s)
  {
    hide BookOf, StageOf, Statuses, Untouched;
  }

  /** A tick of a running match, with everything its events set off. */
  lemma TickKeepsInv(cfg: Config, s: ServerState, now: PerSlot<u64>)
    requires Inv(cfg, s) && s.started && !s.ended && s.HasTerms()
    ensures Inv(cfg, FixedStep(cfg, s, now))
  {
    RunningUnless(cfg, s);
    hide Running, Finished, InLobby, Tick, Ticked, WellOrdered, Seated, SimInStep, HandleEvents, FixedStep;
    var (sim, events) := Tick(cfg.aim, s.sim, s.latestInputs);
    var s1 := s.(serverTick := s.serverTick + 1, sim := sim);
    var s' := FixedStep(cfg, s, now);
    TickShape(cfg, s, now);
    StillRunning(cfg, s, s1);
    TickInStep(cfg, s, sim, events);
    TickedLast(s.(sim := sim), s1, events);
    EventsRun(cfg, s1, events, now);
    EndedIffFinished(cfg, s');
    SameSeats(s, s');
    SimAfterEvents(s1, s', events);
  }

  lemma TickedLast(s: ServerState, s': ServerState, events: seq<MatchEvent>)
    requires Ticked(s, events) && s'.sim == s.sim
    ensures Ticked(s', events)
    ensures forall k :: 0 <= k < |events| && events[k].DeathEvent? ==> k == |events| - 1
  {
  }

  lemma EndedIffFinished(cfg: Config, s: ServerState)
    ensures Running(cfg, s) ==> s.started && !s.ended
    ensures Finished(cfg, s) ==> s.ended
  {
    hide BookOf, StageOf, Statuses, Untouched;
  }

  /** What a tick leaves before its events are handled. */
  ghost predicate Ticked(s: ServerState, events: seq<MatchEvent>) {
    && Sane(s.sim, HitsTaken(s.sim))
    && (forall k :: 0 <= k < |events| && events[k].DeathEvent? ==> k == |events| - 1)
    && (s.sim.phase == Live || s.sim.phase.PaymentPaused? <==> events == [] || events[|events| - 1].DamageEvent?)
  }

  lemma TickInStep(cfg: Config, s: ServerState, sim: SimState, events: seq<MatchEvent>)
    requires SimInStep(s) && s.started && !s.ended
    requires (sim, events) == Tick(cfg.aim, s.sim, s.latestInputs)
    ensures Ticked(s.(sim := sim), events)
  {
    hide Tick;
    if s.sim.phase == Live {
      TickIsSane(cfg.aim, s.sim, s.latestInputs, HitsTaken(s.sim));
      SaneHits(sim, HitCount(events, HitsTaken(s.sim)));
      hide Sane, HitCount, HitsTaken;
      assert forall k :: 0 <= k < |events| ==> events[k] in events;
    } else {
      TickIdle(cfg.aim, s.sim, s.latestInputs);
    }
  }

  lemma SaneHits(sim: SimState, hits: PerSlot<nat>)
    requires Sane(sim, hits)
    ensures HitsTaken(sim) == hits
  {
    assert hits.Get(A) == hits.a && hits.Get(B) == hits.b;
    assert sim.players.Get(A) == sim.players.a && sim.players.Get(B) == sim.players.b;
  }

  lemma SimAfterEvents(s: ServerState, s': ServerState, events: seq<MatchEvent>)
    requires Ticked(s, events) && s.started && s'.started
    requires s'.sim == s.sim || exists p :: s'.sim == s.sim.(phase := PaymentPaused(p))
    requires s'.ended <==> events != [] && events[|events| - 1].DeathEvent?
    ensures SimInStep(s')
  {
    assert HitsTaken(s'.sim) == HitsTaken(s.sim);
  }

  lemma StepKeepsInv(cfg: Config, s: ServerState, now: PerSlot<u64>)
    requires Inv(cfg, s)
    ensures Inv(cfg, FixedStep(cfg, s, now))
  {
    if s.started && !s.ended && s.HasTerms() {
      hide Inv;
      TickKeepsInv(cfg, s, now);
    } else {
      hide BookOf, StageOf, Statuses, Untouched, Sane;
    }
  }

  lemma {:induction false} StepsKeepInv(cfg: Config, s: ServerState, ticks: seq<PerSlot<u64>>)
    requires Inv(cfg, s)
    ensures Inv(cfg, FixedSteps(cfg, s, ticks))
  {
    hide Inv, FixedStep;
    if ticks != [] {
      StepsKeepInv(cfg, s, ticks[..|ticks| - 1]);
      StepKeepsInv(cfg, FixedSteps(cfg, s, ticks[..|ticks| - 1]), ticks[|ticks| - 1]);
    }
  }

  lemma BeforeStartKeepsInv(cfg: Config, s: ServerState, r: Round)
    requires cfg.Valid() && EnoughPreimages(cfg, r.preimages) && Inv(cfg, s)
    ensures Inv(cfg, BeforeStart(cfg, s, r))
  {
    var (s1, gone) := HandleConnections(cfg, s, r.net);
    var s2 := IssueTerms(cfg, s1, r.preimages);
    var s3 := ForfeitMatch(cfg, s2, gone, r.survivor);
    hide Inv, HandleConnections, IssueTerms, ForfeitMatch, HandlePackets;
    ConnectionsKeepInv(cfg, s, r.net);
    TermsKeepInv(cfg, s1, r.preimages);
    ForfeitKeepsInv(cfg, s2, gone, r.survivor);
    if s3.HasTerms() {
      PacketsKeepInv(cfg, s3, r.packets);
    }
  }

  lemma BootedInv(cfg: Config, inputs: PerSlot<InputFrame>)
    ensures Inv(cfg, Booted(inputs))
  {
    assert InLobby(cfg, Booted(inputs));
  }

  /** Every reachable state of the server satisfies the invariant. */
  lemma {:induction false} ServeKeepsInv(cfg: Config, inputs: PerSlot<InputFrame>, rounds: seq<Round>)
    requires cfg.Valid() && Suitable(cfg, rounds)
    ensures Inv(cfg, Serve(cfg, inputs, rounds))
  {
    hide Inv, BeforeStart, Start, FixedSteps;
    if rounds == [] {
      BootedInv(cfg, inputs);
    } else {
      var front, r := rounds[..|rounds| - 1], rounds[|rounds| - 1];
      ServeKeepsInv(cfg, inputs, front);
      var s := Serve(cfg, inputs, front);
      BeforeStartKeepsInv(cfg, s, r);
      StartKeepsInv(cfg, BeforeStart(cfg, s, r));
      StepsKeepInv(cfg, Start(BeforeStart(cfg, s, r)), r.ticks);
    }
  }
}
