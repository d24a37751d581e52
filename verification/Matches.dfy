/** What a complete match amounts to. */
module Matches {
  import opened Binary
  import opened Protocol
  import opened Sequences
  import opened Settlement
  import opened Accounting
  import opened Sim
  import opened Server
  import opened ServerRuns
  import Runs

  // ---------------------------------------------------------------------------
  // The order of messages
  // ---------------------------------------------------------------------------

  predicate Ends(m: ServerMessage) {
    m.CancelInvoice? || m.MatchEnded?
  }

  ghost predicate StartsBefore(outbox: seq<Outbound>, i: int) {
    exists k :: 0 <= k < i && k < |outbox| && outbox[k].message.MatchStarted?
  }

  /** At most one start and one end; every release after the start and before any cancellation; nothing is started,
      released or cancelled after the end. */
  ghost predicate Orderly(outbox: seq<Outbound>) {
    && (forall i, j :: 0 <= i < j < |outbox| && outbox[i].message.MatchStarted? ==> !outbox[j].message.MatchStarted?)
    && (forall i, j :: 0 <= i < j < |outbox| && outbox[i].message.MatchEnded? ==> !Ends(outbox[j].message))
    && (forall i, j :: 0 <= i < j < |outbox| && Ends(outbox[i].message) ==>
          !outbox[j].message.Release? && !outbox[j].message.MatchStarted?)
    && (forall j :: 0 <= j < |outbox| && outbox[j].message.Release? ==> StartsBefore(outbox, j))
  }

  /** What a stage says about the messages so far. */
  ghost predicate StageMeans(outbox: seq<Outbound>, stage: Stage) {
    && (stage == Lobby ==>
          forall k :: 0 <= k < |outbox| ==> !outbox[k].message.MatchStarted? && !Ends(outbox[k].message))
    && (stage == Playing ==> StartsBefore(outbox, |outbox|))
    && (stage == Playing ==> forall k :: 0 <= k < |outbox| ==> !Ends(outbox[k].message))
    && (stage == Closing ==> forall k :: 0 <= k < |outbox| ==> !outbox[k].message.MatchEnded?)
  }

  lemma OrderlyStep(front: seq<Outbound>, last: Outbound, stage: Stage)
    requires Orderly(front) && StageMeans(front, stage) && stage != Broken
    requires NextStage(stage, last.message) != Broken
    ensures Orderly(front + [last]) && StageMeans(front + [last], NextStage(stage, last.message))
  {
    var outbox := front + [last];
    assert forall k :: 0 <= k < |front| ==> outbox[k] == front[k];
    assert outbox[|front|] == last;
    forall j | 0 <= j < |outbox| && outbox[j].message.Release? ensures StartsBefore(outbox, j) {
      if j < |front| {
        assert StartsBefore(front, j);
        var k :| 0 <= k < j && k < |front| && front[k].message.MatchStarted?;
        assert outbox[k].message.MatchStarted?;
      } else {
        var k :| 0 <= k < |front| && front[k].message.MatchStarted?;
        assert outbox[k].message.MatchStarted?;
      }
    }
    if NextStage(stage, last.message) == Playing {
      if stage == Playing {
        var k :| 0 <= k < |front| && front[k].message.MatchStarted?;
        assert outbox[k].message.MatchStarted?;
      } else {
        assert outbox[|front|].message.MatchStarted?;
      }
    }
  }

  lemma {:induction false} UnbrokenIsOrderly(outbox: seq<Outbound>)
    requires StageOf(outbox) != Broken
    ensures Orderly(outbox) && StageMeans(outbox, StageOf(outbox))
  {
    if outbox != [] {
      var front, last := outbox[..|outbox| - 1], outbox[|outbox| - 1];
      UnbrokenIsOrderly(front);
      OrderlyStep(front, last, StageOf(front));
      assert outbox == front + [last];
    }
  }

  /** In every run, the clients see at most one start and one end of the match, releases only in between and never
      after a cancellation. */
  lemma EveryRunIsOrderly(cfg: Config, inputs: PerSlot<InputFrame>, rounds: seq<Round>)
    requires cfg.Valid() && Suitable(cfg, rounds)
    ensures Orderly(Serve(cfg, inputs, rounds).outbox)
  {
    var s := Serve(cfg, inputs, rounds);
    ServeKeepsInv(cfg, inputs, rounds);
    assert StageOf(s.outbox) != Broken by {
      RunningUnless(cfg, s);
    }
    UnbrokenIsOrderly(s.outbox);
  }

  // ---------------------------------------------------------------------------
  // The start
  // ---------------------------------------------------------------------------

  /** In round `k` of a run the start condition held: both players seated and agreed, every reservation held. */
  ghost predicate StartedIn(cfg: Config, inputs: PerSlot<InputFrame>, rounds: seq<Round>, k: nat)
    requires cfg.Valid() && Suitable(cfg, rounds) && k < |rounds|
  {
    ReadyToStart(BeforeStart(cfg, Serve(cfg, inputs, rounds[..k]), rounds[k]))
  }

  lemma NeverStartsInSteps(cfg: Config, s: ServerState, now: PerSlot<u64>)
    requires Inv(cfg, s)
    ensures FixedStep(cfg, s, now).started == s.started
  {
    if s.started && !s.ended && s.HasTerms() {
      RunningUnless(cfg, s);
      hide Running, Finished, InLobby, Tick, Ticked, WellOrdered, Seated, SimInStep, HandleEvents, FixedStep;
      var (sim, events) := Tick(cfg.aim, s.sim, s.latestInputs);
      var s1 := s.(serverTick := s.serverTick + 1, sim := sim);
      TickShape(cfg, s, now);
      StillRunning(cfg, s, s1);
      TickInStep(cfg, s, sim, events);
      TickedLast(s.(sim := sim), s1, events);
      EventsRun(cfg, s1, events, now);
    }
  }

  lemma {:induction false} StepsKeepStarted(cfg: Config, s: ServerState, ticks: seq<PerSlot<u64>>)
    requires Inv(cfg, s)
    ensures FixedSteps(cfg, s, ticks).started == s.started
  {
    hide Inv, FixedStep;
    if ticks != [] {
      var front := ticks[..|ticks| - 1];
      StepsKeepStarted(cfg, s, front);
      StepsKeepInv(cfg, s, front);
      NeverStartsInSteps(cfg, FixedSteps(cfg, s, front), ticks[|ticks| - 1]);
    }
  }

  /** Nothing before the start condition is looked at starts a match. */
  lemma StartedBeforeStart(cfg: Config, s: ServerState, r: Round)
    requires cfg.Valid() && EnoughPreimages(cfg, r.preimages) && Inv(cfg, s)
    ensures BeforeStart(cfg, s, r).started == s.started
  {
    var (s1, gone) := HandleConnections(cfg, s, r.net);
    var s2 := IssueTerms(cfg, s1, r.preimages);
    var s3 := ForfeitMatch(cfg, s2, gone, r.survivor);
    hide Inv, HandleConnections, IssueTerms, ForfeitMatch, HandlePackets;
    ConnectionsKeepInv(cfg, s, r.net);
    ConnectionsKeepRest(cfg, s, r.net);
    TermsKeepInv(cfg, s1, r.preimages);
    TermsKeepRest(cfg, s1, r.preimages);
    ForfeitKeepsInv(cfg, s2, gone, r.survivor);
    ForfeitKeepsStarted(cfg, s2, gone, r.survivor);
    if s3.HasTerms() {
      PacketsKeepRest(cfg, s3, r.packets);
    }
  }

  lemma {:induction false} ConnectionsKeepRest(cfg: Config, s: ServerState, es: seq<NetEvent>)
    ensures var s' := HandleConnections(cfg, s, es).0;
            s' == s.(clients := s'.clients, players := s'.players, accepted := s'.accepted)
  {
    if es != [] { ConnectionsKeepRest(cfg, s, es[..|es| - 1]); }
  }

  lemma TermsKeepRest(cfg: Config, s: ServerState, preimages: seq<Bytes>)
    requires cfg.Valid() && EnoughPreimages(cfg, preimages)
    ensures var s' := IssueTerms(cfg, s, preimages);
            && s' == s.(settlement := s'.settlement, outbox := s'.outbox)
            && (s.settlement.Some? ==> s' == s)
  {
    hide TermsBook, EnoughPreimages, ValidConfiguration;
  }

  lemma ForfeitKeepsStarted(cfg: Config, s: ServerState, gone: seq<PlayerSlot>, survivor: PlayerSlot)
    requires Inv(cfg, s)
    ensures ForfeitMatch(cfg, s, gone, survivor).started == s.started
  {
    if !s.ended && gone != [] && s.HasTerms() {
      ForfeitFinishes(cfg, s, gone, survivor);
    }
  }

  /** Packets touch only acceptances, inputs, the outbox, and the books through the calls they make. */
  lemma PacketKeepsRest(cfg: Config, s: ServerState, p: Packet)
    requires s.HasTerms()
    ensures var s' := HandlePacket(cfg, s, p);
            && s' == s.(settlement := s'.settlement, accepted := s'.accepted, latestInputs := s'.latestInputs,
                        outbox := s'.outbox)
            && s'.HasTerms()
            && s'.settlement.value == s.settlement.value.(ledger := s'.settlement.value.ledger)
  {
    hide OfferError, AckError, FailureError;
  }

  lemma {:induction false} PacketsKeepRest(cfg: Config, s: ServerState, ps: seq<Packet>)
    requires s.HasTerms()
    ensures var s' := HandlePackets(cfg, s, ps);
            && s' == s.(settlement := s'.settlement, accepted := s'.accepted, latestInputs := s'.latestInputs,
                        outbox := s'.outbox)
            && s'.settlement.value == s.settlement.value.(ledger := s'.settlement.value.ledger)
  {
    hide HandlePacket;
    if ps != [] {
      PacketsKeepRest(cfg, s, ps[..|ps| - 1]);
      PacketKeepsRest(cfg, HandlePackets(cfg, s, ps[..|ps| - 1]), ps[|ps| - 1]);
    }
  }

  /** A match that has started did so in a round where the start condition held. */
  lemma {:induction false} StartHasWitness(cfg: Config, inputs: PerSlot<InputFrame>, rounds: seq<Round>)
    requires cfg.Valid() && Suitable(cfg, rounds) && Serve(cfg, inputs, rounds).started
    ensures exists k :: 0 <= k < |rounds| && StartedIn(cfg, inputs, rounds, k)
  {
    hide Inv, BeforeStart, FixedSteps;
    var front, r := rounds[..|rounds| - 1], rounds[|rounds| - 1];
    var s := Serve(cfg, inputs, front);
    ServeKeepsInv(cfg, inputs, front);
    if s.started {
      StartHasWitness(cfg, inputs, front);
      var k :| 0 <= k < |front| && StartedIn(cfg, inputs, front, k);
      assert front[..k] == rounds[..k] && front[k] == rounds[k];
      assert StartedIn(cfg, inputs, rounds, k);
    } else {
      StartedBeforeStart(cfg, s, r);
      BeforeStartKeepsInv(cfg, s, r);
      StartKeepsInv(cfg, BeforeStart(cfg, s, r));
      StepsKeepStarted(cfg, Start(BeforeStart(cfg, s, r)), r.ticks);
      assert StartedIn(cfg, inputs, rounds, |front|);
    }
  }

  /** Nothing is released before a round in which both players were seated and agreed and every reservation was held. */
  lemma ReleasesNeedAStart(cfg: Config, inputs: PerSlot<InputFrame>, rounds: seq<Round>)
    requires cfg.Valid() && Suitable(cfg, rounds)
    requires var s := Serve(cfg, inputs, rounds); s.settlement.Some? && s.settlement.value.issued != []
    ensures exists k :: 0 <= k < |rounds| && StartedIn(cfg, inputs, rounds, k)
  {
    var s := Serve(cfg, inputs, rounds);
    ServeKeepsInv(cfg, inputs, rounds);
    assert s.started by {
      RunningUnless(cfg, s);
    }
    StartHasWitness(cfg, inputs, rounds);
  }

  // ---------------------------------------------------------------------------
  // After the end
  // ---------------------------------------------------------------------------

  /** Once a match has ended nothing more is released or cancelled, in any later round. */
  lemma EndIsFinal(cfg: Config, s: ServerState, r: Round)
    requires cfg.Valid() && EnoughPreimages(cfg, r.preimages) && Inv(cfg, s) && s.ended
    ensures var s' := DoRound(cfg, s, r);
            && s'.ended && s'.started == s.started && s'.settlement.Some? && s.settlement.Some?
            && s'.settlement.value == s.settlement.value.(ledger := s'.settlement.value.ledger)
  {
    RunningUnless(cfg, s);
    assert s.settlement.Some?;
    var (s1, gone) := HandleConnections(cfg, s, r.net);
    var s2 := IssueTerms(cfg, s1, r.preimages);
    hide Inv, Finished, HandleConnections, IssueTerms, HandlePackets, FixedSteps;
    ConnectionsKeepRest(cfg, s, r.net);
    TermsKeepRest(cfg, s1, r.preimages);
    if s2.HasTerms() {
      PacketsKeepRest(cfg, s2, r.packets);
    }
    StepsAfterEnd(cfg, BeforeStart(cfg, s, r), r.ticks);
  }

  lemma {:induction false} StepsAfterEnd(cfg: Config, s: ServerState, ticks: seq<PerSlot<u64>>)
    requires s.ended
    ensures var s' := FixedSteps(cfg, s, ticks); s' == s.(serverTick := s'.serverTick)
  {
    hide HandleEvents, Tick;
    if ticks != [] { StepsAfterEnd(cfg, s, ticks[..|ticks| - 1]); }
  }

  // ---------------------------------------------------------------------------
  // Conservation
  // ---------------------------------------------------------------------------

  ghost predicate NoneFailed(b: Book) {
    forall i :: 0 <= i < |b.ledger.reservations| ==> b.ledger.reservations[i].status != Failed
  }

  /** At the end of a started match every reservation has been released, or handed out for cancellation, or marked
      failed by a player; and none has been both released and cancelled. */
  lemma EveryReservationIsResolved(cfg: Config, inputs: PerSlot<InputFrame>, rounds: seq<Round>)
    requires cfg.Valid() && Suitable(cfg, rounds)
    requires var s := Serve(cfg, inputs, rounds); s.started && s.ended
    ensures var s := Serve(cfg, inputs, rounds);
            && s.settlement.Some?
            && var b := s.settlement.value;
            && (forall i :: 0 <= i < |b.ledger.reservations| ==>
                  i in Ids(b.issued) || i in TermIds(b.cancelled) || b.ledger.reservations[i].status == Failed)
            && Disjoint(Ids(b.issued), TermIds(b.cancelled))
            && Distinct(Ids(b.issued)) && Distinct(TermIds(b.cancelled))
  {
    var s := Serve(cfg, inputs, rounds);
    ServeKeepsInv(cfg, inputs, rounds);
    RunningUnless(cfg, s);
    var b := s.settlement.value;
    assert Sound(cfg.crypto, b) && Statuses(b, CLOSED);
    hide Serve, Inv, SoundLedger, FaithfulLog, SoundTotals, SoundReturned, SoundCancelled;
    forall i | 0 <= i < |b.ledger.reservations|
      ensures i in Ids(b.issued) || i in TermIds(b.cancelled) || b.ledger.reservations[i].status == Failed
    {
    }
  }

  /** With no failure reported, what was released and what was cancelled add up to exactly both caps. */
  lemma AmountsAddUp(cfg: Config, inputs: PerSlot<InputFrame>, rounds: seq<Round>)
    requires cfg.Valid() && Suitable(cfg, rounds)
    requires var s := Serve(cfg, inputs, rounds);
             s.started && s.ended && (s.settlement.Some? ==> NoneFailed(s.settlement.value))
    ensures var b := Serve(cfg, inputs, rounds).settlement;
            && b.Some?
            && b.value.ledger.releasedTotal.a + b.value.ledger.releasedTotal.b + |b.value.cancelled| * cfg.amount
               == 2 * cfg.cap
  {
    EveryReservationIsResolved(cfg, inputs, rounds);
    ServeKeepsInv(cfg, inputs, rounds);
    var s := Serve(cfg, inputs, rounds);
    RunningUnless(cfg, s);
    hide Serve, Inv, BookOf, Statuses, StageOf, NoneFailed, Suitable, Config.Valid;
    BooksBalance(cfg, s.settlement.value);
  }

  lemma BooksBalance(cfg: Config, b: Book)
    requires cfg.Valid() && BookOf(cfg, b) && NoneFailed(b)
    requires forall i :: 0 <= i < |b.ledger.reservations| ==>
               i in Ids(b.issued) || i in TermIds(b.cancelled) || b.ledger.reservations[i].status == Failed
    ensures b.ledger.releasedTotal.a + b.ledger.releasedTotal.b + |b.cancelled| * cfg.amount == 2 * cfg.cap
  {
    hide Sound;
    ResolvedCount(cfg.crypto, b);
    ReleasedIsCount(cfg.crypto, b);
    WholeCap(cfg, b);
    Distributes(|b.issued|, |b.cancelled|, cfg.amount);
  }

  lemma Distributes(m: nat, n: nat, each: nat)
    ensures m * each + n * each == (m + n) * each
  {
  }

  lemma ResolvedCount(c: Crypto, b: Book)
    requires Sound(c, b) && NoneFailed(b)
    requires forall i :: 0 <= i < |b.ledger.reservations| ==> i in Ids(b.issued) || i in TermIds(b.cancelled)
    ensures |b.issued| + |b.cancelled| == |b.ledger.reservations|
  {
    hide SoundLedger, FaithfulLog, SoundTotals, SoundReturned, SoundCancelled;
    Partition(Ids(b.issued), TermIds(b.cancelled), |b.ledger.reservations|);
    Runs.IdsAt(b.issued);
    TermIdsLength(b.cancelled);
  }

  lemma {:induction false} TermIdsLength(terms: seq<HoldInvoiceTerm>)
    ensures |TermIds(terms)| == |terms|
  {
    if terms != [] { TermIdsLength(terms[..|terms| - 1]); }
  }

  lemma {:induction false} BothPayers(log: seq<HoldInvoiceRelease>)
    ensures |IdsOf(log, A)| + |IdsOf(log, B)| == |log|
  {
    if log != [] { BothPayers(log[..|log| - 1]); }
  }

  lemma ReleasedIsCount(c: Crypto, b: Book)
    requires Sound(c, b)
    ensures b.ledger.releasedTotal.a + b.ledger.releasedTotal.b == |b.issued| * b.ledger.terms.amountPerDamageBucket
  {
    var each := b.ledger.terms.amountPerDamageBucket;
    FaithfulAmounts(c, b.ledger, b.issued);
    assert b.ledger.releasedTotal.Get(A) == Charged(b.issued, A);
    assert b.ledger.releasedTotal.Get(B) == Charged(b.issued, B);
    hide Sound, Charged, IdsOf;
    ChargedIsCount(b.issued, each, A);
    ChargedIsCount(b.issued, each, B);
    BothPayers(b.issued);
    Distributes(|IdsOf(b.issued, A)|, |IdsOf(b.issued, B)|, each);
  }

  lemma WholeCap(cfg: Config, b: Book)
    requires cfg.Valid() && BookOf(cfg, b)
    ensures |b.ledger.reservations| * cfg.amount == 2 * cfg.cap
  {
    var n := Quota(b.ledger.terms);
    assert |b.ledger.reservations| == 2 * n;
    hide Sound, SoundLedger, WellFormedTerms;
    assert cfg.cap == cfg.cap / cfg.amount * cfg.amount + cfg.cap % cfg.amount;
    Distributes(n, n, cfg.amount);
  }
}
