/** Who is told what: over every run, each message goes to the player it concerns and repeats the books. */
module Addresses {
  import opened Wrappers
  import opened Binary
  import opened Protocol
  import opened Settlement
  import opened Accounting
  import opened Runs
  import opened Sim
  import opened Server
  import Matches

  /**
   * A release goes to its payee and was returned by the coordinator; a cancellation goes to the
   * payee of a cancelled reservation; an offer goes to the payer it asks, as it is stored; terms
   * are the books' own, sent to each seat; starts and endings go to everyone.
   */
  ghost predicate GoesRight(b: Book, o: Outbound) {
    match o.message
    case Release(r) => o.ToSlot? && o.slot == r.intent.body.payee && r in b.returned
    case CancelInvoice(t) => o.ToSlot? && o.slot == t.payee && t in b.cancelled
    case OfferForwarded(offer) =>
      && o.ToSlot? && offer.reservationId < |b.ledger.reservations|
      && var r := b.ledger.reservations[offer.reservationId];
         o.slot == r.term.payer && r.term.paymentHash == offer.paymentHash && r.invoice == Some(offer.invoice)
    case Welcome(terms) => o.ToSlot? && terms == b.ledger.terms
    case MatchStarted => o.Broadcast?
    case MatchEnded(_) => o.Broadcast?
  }

  ghost predicate AllGoRight(b: Book, outbox: seq<Outbound>) {
    forall o :: o in outbox ==> GoesRight(b, o)
  }

  ghost predicate Addressed(cfg: Config, s: ServerState) {
    if s.settlement.None? then s.outbox == []
    else Sound(cfg.crypto, s.settlement.value) && AllGoRight(s.settlement.value, s.outbox)
  }

  // ---- what was right stays right -----------------------------------------------------------

  lemma CallKeepsLogs(c: Crypto, b: Book, call: Call)
    requires b.ledger.terms.damageBucket > 0
    ensures var b' := Apply(c, b, call);
      b.returned <= b'.returned && b.cancelled <= b'.cancelled && b'.ledger.terms == b.ledger.terms
  {
    hide RegisterOffer, Acknowledge, RecordFailure, RecordDamage, Issued, CapReached, CancelledTerms;
    assert Run(c, b, [call]) == Apply(c, b, call) by {
      assert [call][..0] == [];
    }
  }

  lemma TermAt(c: Crypto, b: Book, i: nat)
    requires Sound(c, b) && i < |b.ledger.reservations|
    ensures i < |b.ledger.terms.holdInvoices| && b.ledger.reservations[i].term == b.ledger.terms.holdInvoices[i]
    ensures b.ledger.reservations[i].term.payee == b.ledger.reservations[i].term.payer.Opponent()
  {
  }

  lemma CallKeepsMessage(c: Crypto, b: Book, call: Call, o: Outbound)
    requires b.ledger.terms.damageBucket > 0 && Sound(c, b) && GoesRight(b, o)
    ensures GoesRight(Apply(c, b, call), o)
  {
    hide Sound, Apply;
    CallKeepsLogs(c, b, call);
    if o.message.OfferForwarded? {
      CallKeepsOffer(c, b, call, o.message.offer.reservationId);
    }
  }

  /** A stored invoice, and the term it is for, are there to stay. */
  lemma CallKeepsOffer(c: Crypto, b: Book, call: Call, id: nat)
    requires b.ledger.terms.damageBucket > 0 && Sound(c, b) && id < |b.ledger.reservations|
    ensures var r, rs := b.ledger.reservations[id], Apply(c, b, call).ledger.reservations;
      id < |rs| && rs[id].term == r.term && (r.invoice.Some? ==> rs[id].invoice == r.invoice)
  {
    hide Sound, Apply;
    StepIsSound(c, b, call);
    SoundParts(c, b);
    hide SoundLedger;
    CallKeepsLogs(c, b, call);
    StatusOnlyRises(c, b, call, id);
    TermAt(c, b, id);
    TermAt(c, Apply(c, b, call), id);
  }

  /** A call leaves every earlier message right. */
  lemma CallKeepsMessages(c: Crypto, b: Book, call: Call, outbox: seq<Outbound>)
    requires b.ledger.terms.damageBucket > 0 && Sound(c, b) && AllGoRight(b, outbox)
    ensures Sound(c, Apply(c, b, call)) && AllGoRight(Apply(c, b, call), outbox)
  {
    StepIsSound(c, b, call);
    hide Sound, Apply, GoesRight;
    forall o | o in outbox
      ensures GoesRight(Apply(c, b, call), o)
    {
      CallKeepsMessage(c, b, call, o);
    }
  }

  // ---- each part of a round -----------------------------------------------------------------

  lemma OneMoreMessage(b: Book, s: ServerState, slot: PlayerSlot, message: ServerMessage)
    requires AllGoRight(b, s.outbox) && GoesRight(b, ToSlot(slot, message))
    ensures AllGoRight(b, s.Send(slot, message).outbox)
  {
    hide GoesRight;
  }

  lemma OneMoreAnnouncement(b: Book, s: ServerState, message: ServerMessage)
    requires AllGoRight(b, s.outbox) && GoesRight(b, Broadcast(message))
    ensures AllGoRight(b, s.Announce(message).outbox)
  {
    hide GoesRight;
  }

  lemma {:induction false} CancellationsGoRight(b: Book, s: ServerState, terms: seq<HoldInvoiceTerm>)
    requires AllGoRight(b, s.outbox) && forall t :: t in terms ==> t in b.cancelled
    ensures AllGoRight(b, SendCancellations(s, terms).outbox)
  {
    hide AllGoRight;
    if terms != [] {
      var front, last := terms[..|terms| - 1], terms[|terms| - 1];
      CancellationsGoRight(b, s, front);
      OneMoreMessage(b, SendCancellations(s, front), last.payee, CancelInvoice(last));
    }
  }

  lemma {:induction false} ReleasesGoRight(b: Book, s: ServerState, releases: seq<HoldInvoiceRelease>)
    requires AllGoRight(b, s.outbox) && forall r :: r in releases ==> r in b.returned
    ensures AllGoRight(b, SendReleases(s, releases).outbox)
  {
    hide AllGoRight;
    if releases != [] {
      var front, last := releases[..|releases| - 1], releases[|releases| - 1];
      ReleasesGoRight(b, s, front);
      OneMoreMessage(b, SendReleases(s, front), last.intent.body.payee, Release(last));
    }
  }

  lemma EndGoesRight(cfg: Config, s: ServerState, winner: PlayerSlot)
    requires Addressed(cfg, s) && s.HasTerms()
    ensures Addressed(cfg, EndMatch(cfg, s, winner))
  {
    var b := s.settlement.value;
    var b', terms := Apply(cfg.crypto, b, CancelRest), CancelledTerms(b.ledger.reservations);
    assert forall t :: t in terms ==> t in b'.cancelled;
    hide Sound, GoesRight, AllGoRight, Apply, CancelledTerms;
    CallKeepsMessages(cfg.crypto, b, CancelRest, s.outbox);
    CancellationsGoRight(b', s, terms);
    SendCancellationsFrame(s, terms);
    EndingIsForAll(b', winner);
    OneMoreAnnouncement(b', SendCancellations(s, terms), MatchEnded(winner));
  }

  lemma EndingIsForAll(b: Book, winner: PlayerSlot)
    ensures GoesRight(b, Broadcast(MatchEnded(winner))) && GoesRight(b, Broadcast(MatchStarted))
  {
  }

  lemma TermsGoRight(cfg: Config, s: ServerState, preimages: seq<Bytes>)
    requires cfg.Valid() && EnoughPreimages(cfg, preimages) && Addressed(cfg, s)
    ensures Addressed(cfg, IssueTerms(cfg, s, preimages))
  {
    if s.settlement.None? && |s.clients| == 2 {
      var b := TermsBook(cfg, preimages);
      NewBookIsSound(cfg.crypto, cfg.matchId, cfg.signingKey, cfg.amount, cfg.bucket, cfg.cap, cfg.deadline, preimages);
      assert GoesRight(b, ToSlot(A, Welcome(b.ledger.terms))) && GoesRight(b, ToSlot(B, Welcome(b.ledger.terms)));
      assert AllGoRight(b, s.outbox);
      hide Sound, GoesRight, TermsBook, AllGoRight, NewBook;
      OneMoreMessage(b, s, A, Welcome(b.ledger.terms));
      OneMoreMessage(b, s.Send(A, Welcome(b.ledger.terms)), B, Welcome(b.ledger.terms));
    }
  }

  lemma ForfeitGoesRight(cfg: Config, s: ServerState, gone: seq<PlayerSlot>, survivor: PlayerSlot)
    requires Addressed(cfg, s)
    ensures Addressed(cfg, ForfeitMatch(cfg, s, gone, survivor))
  {
    hide EndMatch, Sound, AllGoRight;
    if !s.ended && gone != [] && s.HasTerms() {
      EndGoesRight(cfg, s, Winner(s, gone, survivor));
    }
  }

  lemma OfferIsStored(c: Crypto, b: Book, slot: PlayerSlot, offer: HoldInvoiceOffer)
    requires Sound(c, b) && b.ledger.terms.damageBucket > 0 && OfferError(b.ledger, slot, offer).None?
    ensures GoesRight(Apply(c, b, Offer(slot, offer)), ToSlot(slot.Opponent(), OfferForwarded(offer)))
  {
    TermAt(c, b, offer.reservationId);
    hide Sound;
  }

  lemma OfferGoesRight(cfg: Config, s: ServerState, slot: PlayerSlot, offer: HoldInvoiceOffer)
    requires Addressed(cfg, s) && s.HasTerms()
    ensures Addressed(cfg, HandleMessage(cfg, s, slot, InvoiceOffer(offer)))
  {
    var b := s.settlement.value;
    hide Sound, GoesRight, AllGoRight, Apply, OfferError;
    CallKeepsMessages(cfg.crypto, b, Offer(slot, offer), s.outbox);
    if OfferError(b.ledger, slot, offer).None? {
      OfferIsStored(cfg.crypto, b, slot, offer);
      OneMoreMessage(Apply(cfg.crypto, b, Offer(slot, offer)), s, slot.Opponent(), OfferForwarded(offer));
    }
  }

  lemma PacketGoesRight(cfg: Config, s: ServerState, p: Packet)
    requires Addressed(cfg, s) && s.HasTerms()
    ensures Addressed(cfg, HandlePacket(cfg, s, p))
  {
    hide Sound, GoesRight, AllGoRight, Apply, OfferError;
    if p.client in s.clients && p.reliable {
      var slot, b := s.clients[p.client], s.settlement.value;
      match p.message
      case InvoiceOffer(offer) => OfferGoesRight(cfg, s, slot, offer);
      case InvoiceAck(ack) => CallKeepsMessages(cfg.crypto, b, Ack(slot, ack), s.outbox);
      case InvoiceFailure(failure) => CallKeepsMessages(cfg.crypto, b, FailureReport(slot, failure), s.outbox);
      case _ =>
    }
  }

  lemma {:induction false} PacketsGoRight(cfg: Config, s: ServerState, ps: seq<Packet>)
    requires Addressed(cfg, s) && s.HasTerms()
    ensures Addressed(cfg, HandlePackets(cfg, s, ps))
  {
    hide Addressed, HandlePacket;
    if ps != [] {
      PacketsGoRight(cfg, s, ps[..|ps| - 1]);
      PacketGoesRight(cfg, HandlePackets(cfg, s, ps[..|ps| - 1]), ps[|ps| - 1]);
    }
  }

  lemma BatchIsReturned(c: Crypto, b: Book, hit: Hit)
    requires b.ledger.terms.damageBucket > 0 && !CapReached(b.ledger, hit)
    ensures forall r :: r in Issued(c, b.ledger, hit) ==> r in Apply(c, b, Damaged(hit)).returned
  {
    hide Issued, CapReached, RecordDamage;
  }

  lemma EventGoesRight(cfg: Config, s: ServerState, e: MatchEvent, now: PerSlot<u64>)
    requires Addressed(cfg, s) && s.HasTerms()
    ensures Addressed(cfg, HandleEvent(cfg, s, e, now))
  {
    match e
    case DamageEvent(attacker, victim, amount, _) =>
      var b, hit := s.settlement.value, HitOf(cfg, s, e, now.Get(attacker));
      var s' := s.(settlement := Some(Apply(cfg.crypto, b, Damaged(hit))));
      hide Sound, GoesRight, AllGoRight, Apply, CapReached, Issued;
      CallKeepsMessages(cfg.crypto, b, Damaged(hit), s.outbox);
      if !CapReached(b.ledger, hit) {
        BatchIsReturned(cfg.crypto, b, hit);
        ReleasesGoRight(Apply(cfg.crypto, b, Damaged(hit)), s', Issued(cfg.crypto, b.ledger, hit));
        SendReleasesFrame(s', Issued(cfg.crypto, b.ledger, hit));
      }
    case DeathEvent(killer, _) => EndGoesRight(cfg, s, killer);
  }

  lemma {:induction false} EventsGoRight(cfg: Config, s: ServerState, es: seq<MatchEvent>, now: PerSlot<u64>)
    requires Addressed(cfg, s) && s.HasTerms()
    ensures Addressed(cfg, HandleEvents(cfg, s, es, now))
  {
    hide Addressed, HandleEvent;
    if es != [] {
      EventsGoRight(cfg, s, es[..|es| - 1], now);
      EventGoesRight(cfg, HandleEvents(cfg, s, es[..|es| - 1], now), es[|es| - 1], now);
    }
  }

  lemma {:induction false} StepsGoRight(cfg: Config, s: ServerState, ticks: seq<PerSlot<u64>>)
    requires Addressed(cfg, s)
    ensures Addressed(cfg, FixedSteps(cfg, s, ticks))
  {
    hide Addressed, FixedStep;
    if ticks != [] {
      StepsGoRight(cfg, s, ticks[..|ticks| - 1]);
      StepGoesRight(cfg, FixedSteps(cfg, s, ticks[..|ticks| - 1]), ticks[|ticks| - 1]);
    }
  }

  lemma StepGoesRight(cfg: Config, s: ServerState, now: PerSlot<u64>)
    requires Addressed(cfg, s)
    ensures Addressed(cfg, FixedStep(cfg, s, now))
  {
    hide Sound, AllGoRight, HandleEvents, Tick;
    if s.started && !s.ended && s.HasTerms() {
      var (sim, events) := Tick(cfg.aim, s.sim, s.latestInputs);
      EventsGoRight(cfg, s.(serverTick := s.serverTick + 1, sim := sim), events, now);
    }
  }

  lemma StartGoesRight(cfg: Config, s: ServerState)
    requires Addressed(cfg, s)
    ensures Addressed(cfg, Start(s))
  {
    if ReadyToStart(s) {
      hide Sound, AllGoRight, GoesRight;
      EndingIsForAll(s.settlement.value, A);
      OneMoreAnnouncement(s.settlement.value, s, MatchStarted);
    }
  }

  lemma BeforeStartGoesRight(cfg: Config, s: ServerState, r: Round)
    requires cfg.Valid() && EnoughPreimages(cfg, r.preimages) && Addressed(cfg, s)
    ensures Addressed(cfg, BeforeStart(cfg, s, r))
  {
    hide Sound, AllGoRight, HandleConnections, IssueTerms, ForfeitMatch, HandlePackets;
    var (s1, gone) := HandleConnections(cfg, s, r.net);
    Matches.ConnectionsKeepRest(cfg, s, r.net);
    TermsGoRight(cfg, s1, r.preimages);
    var s2 := ForfeitMatch(cfg, IssueTerms(cfg, s1, r.preimages), gone, r.survivor);
    ForfeitGoesRight(cfg, IssueTerms(cfg, s1, r.preimages), gone, r.survivor);
    if s2.HasTerms() {
      PacketsGoRight(cfg, s2, r.packets);
    }
  }

  /** Over every run, every message went to the player it concerns and says what the books say. */
  lemma {:induction false} EveryMessageGoesRight(cfg: Config, inputs: PerSlot<InputFrame>, rounds: seq<Round>)
    requires cfg.Valid() && Suitable(cfg, rounds)
    ensures Addressed(cfg, Serve(cfg, inputs, rounds))
  {
    if rounds != [] {
      var front, r := rounds[..|rounds| - 1], rounds[|rounds| - 1];
      var s := Serve(cfg, inputs, front);
      EveryMessageGoesRight(cfg, inputs, front);
      hide Addressed, BeforeStart, Start, FixedSteps;
      BeforeStartGoesRight(cfg, s, r);
      StartGoesRight(cfg, BeforeStart(cfg, s, r));
      StepsGoRight(cfg, Start(BeforeStart(cfg, s, r)), r.ticks);
    }
  }
}
