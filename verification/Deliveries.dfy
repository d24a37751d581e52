/** No release is lost: whatever the coordinator returns is on its way to the payee when the round is over. */
module Deliveries {
  import opened Wrappers
  import opened Binary
  import opened Protocol
  import opened Settlement
  import opened Accounting
  import opened Sim
  import opened Server
  import opened ServerRuns
  import opened Matches

  ghost predicate Sent(r: HoldInvoiceRelease, outbox: seq<Outbound>) {
    ToSlot(r.intent.body.payee, Release(r)) in outbox
  }

  ghost predicate AllSent(b: Book, outbox: seq<Outbound>) {
    forall r :: r in b.returned ==> Sent(r, outbox)
  }

  ghost predicate BothConnected(clients: map<ClientId, PlayerSlot>) {
    A in clients.Values && B in clients.Values
  }

  /** Every returned release has been sent, and while a match runs both seats are connected. */
  ghost predicate Prompt(s: ServerState) {
    && (s.settlement.Some? ==> AllSent(s.settlement.value, s.outbox))
    && (s.started && !s.ended ==> BothConnected(s.clients))
  }

  lemma SentLater(b: Book, outbox: seq<Outbound>, outbox': seq<Outbound>)
    requires AllSent(b, outbox) && outbox <= outbox'
    ensures AllSent(b, outbox')
  {
  }

  lemma SendGrows(s: ServerState, slot: PlayerSlot, message: ServerMessage)
    ensures s.outbox <= s.Send(slot, message).outbox
    ensures slot in s.clients.Values ==> ToSlot(slot, message) in s.Send(slot, message).outbox
  {
  }

  lemma {:induction false} CancellationsGrow(s: ServerState, terms: seq<HoldInvoiceTerm>)
    ensures s.outbox <= SendCancellations(s, terms).outbox
  {
    if terms != [] {
      var front, last := terms[..|terms| - 1], terms[|terms| - 1];
      CancellationsGrow(s, front);
      SendGrows(SendCancellations(s, front), last.payee, CancelInvoice(last));
    }
  }

  lemma {:induction false} ReleasesAreSent(s: ServerState, releases: seq<HoldInvoiceRelease>)
    requires BothConnected(s.clients)
    ensures s.outbox <= SendReleases(s, releases).outbox
    ensures forall r :: r in releases ==> Sent(r, SendReleases(s, releases).outbox)
  {
    if releases != [] {
      var front, last := releases[..|releases| - 1], releases[|releases| - 1];
      var s' := SendReleases(s, front);
      ReleasesAreSent(s, front);
      SendReleasesFrame(s, front);
      SendGrows(s', last.intent.body.payee, Release(last));
      assert releases == front + [last];
      var payee := last.intent.body.payee;
      assert payee == A || payee == B;
    }
  }

  lemma EndIsPrompt(cfg: Config, s: ServerState, winner: PlayerSlot)
    requires s.HasTerms() && AllSent(s.settlement.value, s.outbox)
    ensures var s' := EndMatch(cfg, s, winner);
      && s'.settlement.Some? && AllSent(s'.settlement.value, s'.outbox) && s'.ended && s'.clients == s.clients
  {
    var b, terms := s.settlement.value, CancelledTerms(s.settlement.value.ledger.reservations);
    hide CancelledTerms;
    CancellationsGrow(s, terms);
    SendCancellationsFrame(s, terms);
    SentLater(b, s.outbox, EndMatch(cfg, s, winner).outbox);
  }

  lemma HitIsPrompt(cfg: Config, s: ServerState, e: MatchEvent, now: PerSlot<u64>)
    requires e.DamageEvent? && s.HasTerms() && BothConnected(s.clients) && AllSent(s.settlement.value, s.outbox)
    ensures var s' := HandleEvent(cfg, s, e, now);
      s'.settlement.Some? && AllSent(s'.settlement.value, s'.outbox) && s'.clients == s.clients
  {
    var b, hit := s.settlement.value, HitOf(cfg, s, e, now.Get(e.attacker));
    var s1 := s.(settlement := Some(Apply(cfg.crypto, b, Damaged(hit))));
    hide Apply, CapReached, Issued, RecordDamage;
    DamagedBook(cfg.crypto, b, hit);
    ReleasesAreSent(s1, Issued(cfg.crypto, b.ledger, hit));
    SendReleasesFrame(s1, Issued(cfg.crypto, b.ledger, hit));
    SentLater(b, s.outbox, HandleEvent(cfg, s, e, now).outbox);
  }

  lemma {:induction false} EventsArePrompt(cfg: Config, s: ServerState, es: seq<MatchEvent>, now: PerSlot<u64>)
    requires s.HasTerms() && BothConnected(s.clients) && AllSent(s.settlement.value, s.outbox)
    ensures var s' := HandleEvents(cfg, s, es, now); AllSent(s'.settlement.value, s'.outbox) && s'.clients == s.clients
  {
    hide HandleEvent, AllSent, BothConnected;
    if es != [] {
      var front, last := es[..|es| - 1], es[|es| - 1];
      EventsArePrompt(cfg, s, front, now);
      EventIsPrompt(cfg, HandleEvents(cfg, s, front, now), last, now);
    }
  }

  lemma EventIsPrompt(cfg: Config, s: ServerState, e: MatchEvent, now: PerSlot<u64>)
    requires s.HasTerms() && BothConnected(s.clients) && AllSent(s.settlement.value, s.outbox)
    ensures var s' := HandleEvent(cfg, s, e, now);
      s'.settlement.Some? && AllSent(s'.settlement.value, s'.outbox) && s'.clients == s.clients
  {
    hide AllSent, BothConnected, EndMatch;
    match e
    case DamageEvent(_, _, _, _) => HitIsPrompt(cfg, s, e, now);
    case DeathEvent(killer, _) => EndIsPrompt(cfg, s, killer);
  }

  lemma StepIsPrompt(cfg: Config, s: ServerState, now: PerSlot<u64>)
    requires Prompt(s)
    ensures Prompt(FixedStep(cfg, s, now))
  {
    hide AllSent, BothConnected, HandleEvents, Tick;
    if s.started && !s.ended && s.HasTerms() {
      var (sim, events) := Tick(cfg.aim, s.sim, s.latestInputs);
      EventsArePrompt(cfg, s.(serverTick := s.serverTick + 1, sim := sim), events, now);
    }
  }

  lemma {:induction false} StepsArePrompt(cfg: Config, s: ServerState, ticks: seq<PerSlot<u64>>)
    requires Prompt(s)
    ensures Prompt(FixedSteps(cfg, s, ticks))
  {
    hide Prompt, FixedStep;
    if ticks != [] {
      StepsArePrompt(cfg, s, ticks[..|ticks| - 1]);
      StepIsPrompt(cfg, FixedSteps(cfg, s, ticks[..|ticks| - 1]), ticks[|ticks| - 1]);
    }
  }

  /** Under terms nobody joins, so if nobody has left the seats are as they were. */
  lemma {:induction false} NobodyLeft(cfg: Config, s: ServerState, es: seq<NetEvent>)
    requires s.settlement.Some? && HandleConnections(cfg, s, es).1 == []
    ensures HandleConnections(cfg, s, es).0 == s
  {
    if es != [] {
      ConnectionsKeepRest(cfg, s, es[..|es| - 1]);
      NobodyLeft(cfg, s, es[..|es| - 1]);
    }
  }

  lemma TermsArePrompt(cfg: Config, s: ServerState, preimages: seq<Bytes>)
    requires cfg.Valid() && EnoughPreimages(cfg, preimages)
    requires s.settlement.Some? ==> AllSent(s.settlement.value, s.outbox)
    ensures var s' := IssueTerms(cfg, s, preimages); s'.settlement.Some? ==> AllSent(s'.settlement.value, s'.outbox)
  {
    if s.settlement.None? && |s.clients| == 2 {
      assert TermsBook(cfg, preimages).returned == [];
    }
  }

  lemma ForfeitIsPrompt(cfg: Config, s: ServerState, gone: seq<PlayerSlot>, survivor: PlayerSlot)
    requires s.settlement.Some? ==> AllSent(s.settlement.value, s.outbox)
    ensures var s' := ForfeitMatch(cfg, s, gone, survivor);
      s'.settlement.Some? ==> AllSent(s'.settlement.value, s'.outbox)
  {
    hide AllSent, EndMatch;
    if !s.ended && gone != [] && s.HasTerms() {
      EndIsPrompt(cfg, s, Winner(s, gone, survivor));
    }
  }

  lemma PacketIsPrompt(cfg: Config, s: ServerState, p: Packet)
    requires s.HasTerms() && AllSent(s.settlement.value, s.outbox)
    ensures var s' := HandlePacket(cfg, s, p); s'.HasTerms() && AllSent(s'.settlement.value, s'.outbox)
  {
    PacketKeepsRest(cfg, s, p);
    PacketGrows(cfg, s, p);
    hide HandlePacket;
    SentLater(s.settlement.value, s.outbox, HandlePacket(cfg, s, p).outbox);
  }

  lemma PacketGrows(cfg: Config, s: ServerState, p: Packet)
    requires s.HasTerms()
    ensures s.outbox <= HandlePacket(cfg, s, p).outbox
  {
    hide OfferError, Apply;
  }

  lemma {:induction false} PacketsArePrompt(cfg: Config, s: ServerState, ps: seq<Packet>)
    requires s.HasTerms() && AllSent(s.settlement.value, s.outbox)
    ensures var s' := HandlePackets(cfg, s, ps); AllSent(s'.settlement.value, s'.outbox)
  {
    hide HandlePacket, AllSent;
    if ps != [] {
      PacketsArePrompt(cfg, s, ps[..|ps| - 1]);
      PacketIsPrompt(cfg, HandlePackets(cfg, s, ps[..|ps| - 1]), ps[|ps| - 1]);
    }
  }

  lemma EarlierReleasesAreSent(cfg: Config, s: ServerState, r: Round)
    requires cfg.Valid() && EnoughPreimages(cfg, r.preimages)
    requires s.settlement.Some? ==> AllSent(s.settlement.value, s.outbox)
    ensures var s' := BeforeStart(cfg, s, r); s'.settlement.Some? ==> AllSent(s'.settlement.value, s'.outbox)
  {
    hide AllSent, HandleConnections, IssueTerms, ForfeitMatch, HandlePackets;
    var (s1, gone) := HandleConnections(cfg, s, r.net);
    var s2 := IssueTerms(cfg, s1, r.preimages);
    var s3 := ForfeitMatch(cfg, s2, gone, r.survivor);
    ConnectionsKeepRest(cfg, s, r.net);
    TermsArePrompt(cfg, s1, r.preimages);
    ForfeitIsPrompt(cfg, s2, gone, r.survivor);
    if s3.HasTerms() {
      PacketsArePrompt(cfg, s3, r.packets);
    }
  }

  lemma StartedHasTerms(cfg: Config, s: ServerState)
    requires Inv(cfg, s) && s.started && !s.ended
    ensures s.HasTerms()
  {
    RunningUnless(cfg, s);
    TermsAreIssued(cfg, s);
  }

  /** A departure under terms ends the match, so a match that is still running has the players it had. */
  lemma StillConnected(cfg: Config, s: ServerState, r: Round)
    requires cfg.Valid() && EnoughPreimages(cfg, r.preimages) && s.HasTerms()
    ensures var s' := BeforeStart(cfg, s, r); !s'.ended ==> s'.clients == s.clients
  {
    hide HandleConnections, ForfeitMatch, HandlePackets;
    var (s1, gone) := HandleConnections(cfg, s, r.net);
    var s3 := ForfeitMatch(cfg, s1, gone, r.survivor);
    ConnectionsKeepRest(cfg, s, r.net);
    assert IssueTerms(cfg, s1, r.preimages) == s1;
    ForfeitEnds(cfg, s1, gone, r.survivor);
    if gone == [] {
      NobodyLeft(cfg, s, r.net);
    }
    if s3.HasTerms() {
      PacketsKeepRest(cfg, s3, r.packets);
    }
  }

  lemma ForfeitEnds(cfg: Config, s: ServerState, gone: seq<PlayerSlot>, survivor: PlayerSlot)
    requires s.HasTerms()
    ensures gone != [] ==> ForfeitMatch(cfg, s, gone, survivor).ended
    ensures gone == [] ==> ForfeitMatch(cfg, s, gone, survivor) == s
  {
    hide SendCancellations, CancelledTerms, Apply;
  }

  lemma BeforeStartIsPrompt(cfg: Config, s: ServerState, r: Round)
    requires cfg.Valid() && EnoughPreimages(cfg, r.preimages) && Inv(cfg, s) && Prompt(s)
    ensures Prompt(BeforeStart(cfg, s, r))
  {
    hide Inv, AllSent, BothConnected, BeforeStart;
    EarlierReleasesAreSent(cfg, s, r);
    StartedBeforeStart(cfg, s, r);
    if s.ended {
      EndedBeforeStart(cfg, s, r);
    }
    if s.started && !s.ended {
      StartedHasTerms(cfg, s);
      StillConnected(cfg, s, r);
    }
  }

  /** An ended match stays ended. */
  lemma EndedBeforeStart(cfg: Config, s: ServerState, r: Round)
    requires cfg.Valid() && EnoughPreimages(cfg, r.preimages) && s.ended
    ensures BeforeStart(cfg, s, r).ended
  {
    hide HandleConnections, HandlePackets, EndMatch;
    var (s1, gone) := HandleConnections(cfg, s, r.net);
    var s2 := IssueTerms(cfg, s1, r.preimages);
    hide IssueTerms;
    ConnectionsKeepRest(cfg, s, r.net);
    TermsKeepRest(cfg, s1, r.preimages);
    assert ForfeitMatch(cfg, s2, gone, r.survivor) == s2;
    if s2.HasTerms() {
      PacketsKeepRest(cfg, s2, r.packets);
    }
  }

  lemma StartIsPrompt(cfg: Config, s: ServerState)
    requires Inv(cfg, s) && Prompt(s)
    ensures Prompt(Start(s))
  {
    if ReadyToStart(s) {
      BothSeatsAreBound(s);
      hide AllSent, Inv;
      SentLater(s.settlement.value, s.outbox, Start(s).outbox);
    }
  }

  /** In every reachable state each release the coordinator has returned was sent to its payee. */
  lemma {:induction false} EveryReleaseIsSent(cfg: Config, inputs: PerSlot<InputFrame>, rounds: seq<Round>)
    requires cfg.Valid() && Suitable(cfg, rounds)
    ensures Prompt(Serve(cfg, inputs, rounds))
  {
    if rounds != [] {
      hide Inv, Prompt, BeforeStart, Start, FixedSteps;
      var front, r := rounds[..|rounds| - 1], rounds[|rounds| - 1];
      var s := Serve(cfg, inputs, front);
      EveryReleaseIsSent(cfg, inputs, front);
      ServeKeepsInv(cfg, inputs, front);
      BeforeStartIsPrompt(cfg, s, r);
      BeforeStartKeepsInv(cfg, s, r);
      StartIsPrompt(cfg, BeforeStart(cfg, s, r));
      StepsArePrompt(cfg, Start(BeforeStart(cfg, s, r)), r.ticks);
    }
  }
}
