/** The server's books are a history of coordinator calls, so everything proved of histories holds of every run. */
module Traces {
  import opened Wrappers
  import opened Binary
  import opened Protocol
  import opened Settlement
  import opened Accounting
  import opened Runs
  import opened Handshake
  import opened Guard
  import opened Agreement
  import opened Sim
  import opened Server
  import Matches
  import Addresses
  import Deliveries

  /** `calls`, made of a fresh coordinator, leave the books `b`; attackers and victims are opponents. */
  ghost predicate LeadsTo(cfg: Config, preimages: seq<Bytes>, calls: seq<Call>, b: Book) {
    && cfg.Valid() && EnoughPreimages(cfg, preimages) && ProperHits(calls)
    && TermsBook(cfg, preimages).ledger.terms.damageBucket > 0
    && b == Run(cfg.crypto, TermsBook(cfg, preimages), calls)
  }

  /** Everything was held before the first hit was reported. */
  ghost predicate HeldBeforeHits(cfg: Config, preimages: seq<Bytes>, calls: seq<Call>)
    requires cfg.Valid() && EnoughPreimages(cfg, preimages) && TermsBook(cfg, preimages).ledger.terms.damageBucket > 0
  {
    exists k :: 0 <= k <= |calls|
      && AllHeld(Run(cfg.crypto, TermsBook(cfg, preimages), calls[..k]).ledger)
      && forall j :: 0 <= j < k ==> !calls[j].Damaged?
  }

  /** The rest is cancelled at most once, and no hit is reported before the start or after the cancellation. */
  ghost predicate InOrder(calls: seq<Call>, started: bool, ended: bool) {
    && (forall j :: 0 <= j < |calls| && calls[j].Damaged? ==> started)
    && (forall j :: 0 <= j < |calls| && calls[j].CancelRest? ==> ended)
    && (forall i, j :: 0 <= i < j < |calls| && calls[i].CancelRest? ==> !calls[j].CancelRest? && !calls[j].Damaged?)
  }

  ghost predicate Recorded(cfg: Config, s: ServerState, preimages: seq<Bytes>, calls: seq<Call>) {
    && s.settlement.Some? && LeadsTo(cfg, preimages, calls, s.settlement.value)
    && InOrder(calls, s.started, s.ended)
    && (s.started ==> HeldBeforeHits(cfg, preimages, calls))
  }

  ghost predicate Traced(cfg: Config, s: ServerState) {
    if s.settlement.None? then !s.started && !s.ended
    else exists preimages, calls :: Recorded(cfg, s, preimages, calls)
  }

  // ---- one more call ------------------------------------------------------------------------

  lemma LeadsFurther(cfg: Config, preimages: seq<Bytes>, calls: seq<Call>, b: Book, call: Call)
    requires LeadsTo(cfg, preimages, calls, b)
    requires call.Damaged? ==> call.hit.attacker == call.hit.victim.Opponent()
    ensures b.ledger.terms.damageBucket > 0
    ensures LeadsTo(cfg, preimages, calls + [call], Apply(cfg.crypto, b, call))
  {
    hide Apply, TermsBook, Run, Config.Valid, EnoughPreimages;
    RunFurther(cfg.crypto, TermsBook(cfg, preimages), calls, call);
    ProperFurther(calls, call);
  }

  lemma RunFurther(c: Crypto, start: Book, calls: seq<Call>, call: Call)
    requires start.ledger.terms.damageBucket > 0
    ensures Run(c, start, calls).ledger.terms.damageBucket > 0
    ensures Run(c, start, calls + [call]) == Apply(c, Run(c, start, calls), call)
  {
    hide Apply;
    var all := calls + [call];
    assert all[..|all| - 1] == calls && all[|all| - 1] == call;
  }

  lemma ProperFurther(calls: seq<Call>, call: Call)
    requires ProperHits(calls) && (call.Damaged? ==> call.hit.attacker == call.hit.victim.Opponent())
    ensures ProperHits(calls + [call])
  {
  }

  lemma InOrderFurther(calls: seq<Call>, call: Call, started: bool, ended: bool)
    requires InOrder(calls, started, ended)
    requires call.Damaged? ==> started && !ended
    requires call.CancelRest? ==> !ended
    ensures InOrder(calls + [call], started, ended || call.CancelRest?)
  {
  }

  lemma HeldBeforeLaterHits(cfg: Config, preimages: seq<Bytes>, calls: seq<Call>, call: Call)
    requires cfg.Valid() && EnoughPreimages(cfg, preimages) && TermsBook(cfg, preimages).ledger.terms.damageBucket > 0
    requires HeldBeforeHits(cfg, preimages, calls)
    ensures HeldBeforeHits(cfg, preimages, calls + [call])
  {
    hide Run, TermsBook, AllHeld;
    var k :| 0 <= k <= |calls|
      && AllHeld(Run(cfg.crypto, TermsBook(cfg, preimages), calls[..k]).ledger)
      && forall j :: 0 <= j < k ==> !calls[j].Damaged?;
    assert (calls + [call])[..k] == calls[..k];
  }

  /** A state whose books are one call further along is traced as well. */
  lemma OneMoreCall(cfg: Config, s: ServerState, s': ServerState, call: Call)
    requires Traced(cfg, s) && s.HasTerms()
    requires call.Damaged? ==> call.hit.attacker == call.hit.victim.Opponent() && s.started && !s.ended
    requires call.CancelRest? ==> !s.ended
    requires s'.settlement == Some(Apply(cfg.crypto, s.settlement.value, call))
    requires s'.started == s.started && s'.ended == (s.ended || call.CancelRest?)
    ensures Traced(cfg, s')
  {
    hide LeadsTo, InOrder, HeldBeforeHits, Apply;
    var preimages, calls :| Recorded(cfg, s, preimages, calls);
    LeadsFurther(cfg, preimages, calls, s.settlement.value, call);
    InOrderFurther(calls, call, s.started, s.ended);
    LeadsFrom(cfg, preimages, calls, s.settlement.value);
    if s.started {
      HeldBeforeLaterHits(cfg, preimages, calls, call);
    }
    assert Recorded(cfg, s', preimages, calls + [call]);
  }

  lemma LeadsFrom(cfg: Config, preimages: seq<Bytes>, calls: seq<Call>, b: Book)
    requires LeadsTo(cfg, preimages, calls, b)
    ensures cfg.Valid() && EnoughPreimages(cfg, preimages) && TermsBook(cfg, preimages).ledger.terms.damageBucket > 0
    ensures ProperHits(calls) && b == Run(cfg.crypto, TermsBook(cfg, preimages), calls)
  {
  }

  lemma SameTrace(cfg: Config, s: ServerState, s': ServerState)
    requires Traced(cfg, s) && s'.settlement == s.settlement && s'.started == s.started && s'.ended == s.ended
    ensures Traced(cfg, s')
  {
    hide LeadsTo, InOrder, HeldBeforeHits;
    if s.settlement.Some? {
      var preimages, calls :| Recorded(cfg, s, preimages, calls);
      assert Recorded(cfg, s', preimages, calls);
    }
  }

  // ---- each part of a round -----------------------------------------------------------------

  lemma TermsAreTraced(cfg: Config, s: ServerState, preimages: seq<Bytes>)
    requires cfg.Valid() && EnoughPreimages(cfg, preimages) && Traced(cfg, s)
    ensures Traced(cfg, IssueTerms(cfg, s, preimages))
  {
    if s.settlement.None? && |s.clients| == 2 {
      var s' := IssueTerms(cfg, s, preimages);
      assert TermsBook(cfg, preimages).ledger.terms.damageBucket > 0;
      hide TermsBook;
      assert Run(cfg.crypto, TermsBook(cfg, preimages), []) == TermsBook(cfg, preimages);
      assert Recorded(cfg, s', preimages, []);
    }
  }

  lemma EndIsTraced(cfg: Config, s: ServerState, winner: PlayerSlot)
    requires Traced(cfg, s) && s.HasTerms() && !s.ended
    ensures Traced(cfg, EndMatch(cfg, s, winner))
  {
    hide Traced, Apply, CancelledTerms;
    SendCancellationsFrame(s, CancelledTerms(s.settlement.value.ledger.reservations));
    OneMoreCall(cfg, s, EndMatch(cfg, s, winner), CancelRest);
  }

  lemma ForfeitIsTraced(cfg: Config, s: ServerState, gone: seq<PlayerSlot>, survivor: PlayerSlot)
    requires Traced(cfg, s)
    ensures Traced(cfg, ForfeitMatch(cfg, s, gone, survivor))
  {
    hide Traced, EndMatch;
    if !s.ended && gone != [] && s.HasTerms() {
      var winner := Winner(s, gone, survivor);
      EndIsTraced(cfg, s, winner);
      SameTrace(cfg, EndMatch(cfg, s, winner), ForfeitMatch(cfg, s, gone, survivor));
    }
  }

  lemma PacketIsTraced(cfg: Config, s: ServerState, p: Packet)
    requires Traced(cfg, s) && s.HasTerms()
    ensures Traced(cfg, HandlePacket(cfg, s, p))
  {
    hide Traced, Apply, OfferError;
    var s' := HandlePacket(cfg, s, p);
    if p.client in s.clients && p.reliable && CallOf(s.clients[p.client], p.message).Some? {
      OneMoreCall(cfg, s, s', CallOf(s.clients[p.client], p.message).value);
    } else {
      SameTrace(cfg, s, s');
    }
  }

  lemma {:induction false} PacketsAreTraced(cfg: Config, s: ServerState, ps: seq<Packet>)
    requires Traced(cfg, s) && s.HasTerms()
    ensures Traced(cfg, HandlePackets(cfg, s, ps))
  {
    hide Traced, HandlePacket;
    if ps != [] {
      PacketsAreTraced(cfg, s, ps[..|ps| - 1]);
      PacketIsTraced(cfg, HandlePackets(cfg, s, ps[..|ps| - 1]), ps[|ps| - 1]);
    }
  }

  /** Shots are fired at the opponent, and a death is the last thing a tick reports. */
  lemma TickReports(aim: Aim, s: SimState, inputs: PerSlot<InputFrame>)
    ensures var events := Tick(aim, s, inputs).1;
      forall k :: 0 <= k < |events| ==>
        (events[k].DamageEvent? ==> events[k].attacker == events[k].victim.Opponent())
        && (events[k].DeathEvent? ==> k == |events| - 1)
  {
    hide Moved, CanFire;
  }

  lemma EventIsTraced(cfg: Config, s: ServerState, e: MatchEvent, now: PerSlot<u64>)
    requires Traced(cfg, s) && s.HasTerms() && s.started && !s.ended
    requires e.DamageEvent? ==> e.attacker == e.victim.Opponent()
    ensures var s' := HandleEvent(cfg, s, e, now);
      Traced(cfg, s') && s'.started && (s'.ended <==> e.DeathEvent?)
  {
    match e
    case DamageEvent(attacker, _, _, _) =>
      var b, hit := s.settlement.value, HitOf(cfg, s, e, now.Get(attacker));
      hide Traced, Apply, CapReached, Issued;
      SendReleasesFrame(s.(settlement := Some(Apply(cfg.crypto, b, Damaged(hit)))), Issued(cfg.crypto, b.ledger, hit));
      OneMoreCall(cfg, s, HandleEvent(cfg, s, e, now), Damaged(hit));
    case DeathEvent(killer, _) =>
      hide Traced, Apply, CancelledTerms;
      SendCancellationsFrame(s, CancelledTerms(s.settlement.value.ledger.reservations));
      EndIsTraced(cfg, s, killer);
  }

  lemma {:induction false} EventsAreTraced(cfg: Config, s: ServerState, es: seq<MatchEvent>, now: PerSlot<u64>)
    requires Traced(cfg, s) && s.HasTerms() && s.started && !s.ended
    requires forall k :: 0 <= k < |es| ==>
      (es[k].DamageEvent? ==> es[k].attacker == es[k].victim.Opponent()) && (es[k].DeathEvent? ==> k == |es| - 1)
    ensures var s' := HandleEvents(cfg, s, es, now);
      Traced(cfg, s') && s'.started && (s'.ended <==> es != [] && es[|es| - 1].DeathEvent?)
  {
    hide Traced, HandleEvent;
    if es != [] {
      var front := es[..|es| - 1];
      EventsAreTraced(cfg, s, front, now);
      EventIsTraced(cfg, HandleEvents(cfg, s, front, now), es[|es| - 1], now);
    }
  }

  lemma StepIsTraced(cfg: Config, s: ServerState, now: PerSlot<u64>)
    requires Traced(cfg, s)
    ensures Traced(cfg, FixedStep(cfg, s, now))
  {
    hide Traced, HandleEvents, Tick;
    var s1 := s.(serverTick := s.serverTick + 1);
    SameTrace(cfg, s, s1);
    if s.started && !s.ended && s.HasTerms() {
      var (sim, events) := Tick(cfg.aim, s.sim, s.latestInputs);
      SameTrace(cfg, s, s1.(sim := sim));
      TickReports(cfg.aim, s.sim, s.latestInputs);
      EventsAreTraced(cfg, s1.(sim := sim), events, now);
    }
  }

  lemma {:induction false} StepsAreTraced(cfg: Config, s: ServerState, ticks: seq<PerSlot<u64>>)
    requires Traced(cfg, s)
    ensures Traced(cfg, FixedSteps(cfg, s, ticks))
  {
    hide Traced, FixedStep;
    if ticks != [] {
      StepsAreTraced(cfg, s, ticks[..|ticks| - 1]);
      StepIsTraced(cfg, FixedSteps(cfg, s, ticks[..|ticks| - 1]), ticks[|ticks| - 1]);
    }
  }

  lemma StartIsTraced(cfg: Config, s: ServerState)
    requires Traced(cfg, s)
    ensures Traced(cfg, Start(s))
  {
    if ReadyToStart(s) {
      hide LeadsTo, AllHeld;
      var preimages, calls :| Recorded(cfg, s, preimages, calls);
      LeadsFrom(cfg, preimages, calls, s.settlement.value);
      hide TermsBook, Run;
      assert calls[..|calls|] == calls;
      assert HeldBeforeHits(cfg, preimages, calls);
      assert Recorded(cfg, Start(s), preimages, calls);
    }
  }

  lemma BeforeStartIsTraced(cfg: Config, s: ServerState, r: Round)
    requires cfg.Valid() && EnoughPreimages(cfg, r.preimages) && Traced(cfg, s)
    ensures Traced(cfg, BeforeStart(cfg, s, r))
  {
    hide Traced, HandleConnections, IssueTerms, ForfeitMatch, HandlePackets;
    var (s1, gone) := HandleConnections(cfg, s, r.net);
    var s2 := IssueTerms(cfg, s1, r.preimages);
    var s3 := ForfeitMatch(cfg, s2, gone, r.survivor);
    Matches.ConnectionsKeepRest(cfg, s, r.net);
    SameTrace(cfg, s, s1);
    TermsAreTraced(cfg, s1, r.preimages);
    ForfeitIsTraced(cfg, s2, gone, r.survivor);
    if s3.HasTerms() {
      PacketsAreTraced(cfg, s3, r.packets);
    }
  }

  /** In every reachable state the books are what some history of proper calls makes of a fresh coordinator, in which
      everything was held before the first hit, the rest was cancelled at most once, and no hit came after that. */
  lemma {:induction false} EveryRunIsTraced(cfg: Config, inputs: PerSlot<InputFrame>, rounds: seq<Round>)
    requires cfg.Valid() && Suitable(cfg, rounds)
    ensures Traced(cfg, Serve(cfg, inputs, rounds))
  {
    if rounds != [] {
      hide Traced, BeforeStart, Start, FixedSteps;
      var front, r := rounds[..|rounds| - 1], rounds[|rounds| - 1];
      var s := Serve(cfg, inputs, front);
      EveryRunIsTraced(cfg, inputs, front);
      BeforeStartIsTraced(cfg, s, r);
      StartIsTraced(cfg, BeforeStart(cfg, s, r));
      StepsAreTraced(cfg, Start(BeforeStart(cfg, s, r)), r.ticks);
    }
  }

  // ---- what histories say of runs -----------------------------------------------------------

  lemma FreshTerms(cfg: Config, preimages: seq<Bytes>)
    requires cfg.Valid() && EnoughPreimages(cfg, preimages)
    ensures Fresh(cfg.crypto, TermsBook(cfg, preimages))
    ensures TermsBook(cfg, preimages).ledger.terms.amountPerDamageBucket == cfg.amount
    ensures TermsBook(cfg, preimages).ledger.terms.maxTotalPerPlayer == cfg.cap
  {
    NewIsFresh(cfg.crypto, cfg.matchId, cfg.signingKey, cfg.amount, cfg.bucket, cfg.cap, cfg.deadline, preimages);
  }

  /** The accounts of every server: distinct releases numbered 1, 2, 3, ..., totals of amount times
      releases, within the cap. */
  lemma EveryServerBalances(cfg: Config, inputs: PerSlot<InputFrame>, rounds: seq<Round>)
    requires cfg.Valid() && Suitable(cfg, rounds) && Serve(cfg, inputs, rounds).settlement.Some?
    ensures var b := Serve(cfg, inputs, rounds).settlement.value;
      && (forall j, k :: 0 <= j < k < |b.issued| ==> b.issued[j].Id() != b.issued[k].Id())
      && (forall k :: 0 <= k < |b.issued| ==> b.issued[k].intent.body.sequence == k + 1)
      && (forall p: PlayerSlot ::
            && b.ledger.releasedTotal.Get(p) == |IdsOf(b.issued, p)| * cfg.amount
            && b.ledger.releasedTotal.Get(p) <= cfg.cap)
  {
    EveryRunIsTraced(cfg, inputs, rounds);
    hide Serve, InOrder, HeldBeforeHits, LeadsTo;
    var s := Serve(cfg, inputs, rounds);
    var preimages, calls :| Recorded(cfg, s, preimages, calls);
    LeadsFrom(cfg, preimages, calls, s.settlement.value);
    FreshTerms(cfg, preimages);
    hide TermsBook, Fresh, IdsOf;
    EveryHistoryBalances(cfg.crypto, TermsBook(cfg, preimages), calls);
  }

  /** Every reservation of a server changes status at most five times, and is held or paid only with its payee's
      accepted offer and both accepted confirmations on record. */
  lemma EveryServerIsAccounted(cfg: Config, inputs: PerSlot<InputFrame>, rounds: seq<Round>)
    requires cfg.Valid() && Suitable(cfg, rounds) && Serve(cfg, inputs, rounds).settlement.Some?
    ensures exists preimages, calls :: OnRecord(cfg, Serve(cfg, inputs, rounds), preimages, calls)
  {
    EveryRunIsTraced(cfg, inputs, rounds);
    hide Serve, InOrder, HeldBeforeHits, LeadsTo;
    var s := Serve(cfg, inputs, rounds);
    var preimages, calls :| Recorded(cfg, s, preimages, calls);
    LeadsFrom(cfg, preimages, calls, s.settlement.value);
    FreshTerms(cfg, preimages);
    var start, rs := TermsBook(cfg, preimages), s.settlement.value.ledger.reservations;
    RunKeepsLength(cfg.crypto, start, calls);
    hide TermsBook, Run, WasOffered, WasConfirmed, Rank, Changes, Fresh, Sound;
    FreshIsSound(cfg.crypto, start);
    forall i | 0 <= i < |rs|
      ensures ReservationOnRecord(cfg, preimages, calls, rs[i], i)
    {
      AtMostFiveChanges(cfg.crypto, start, calls, i);
      HeldIsAccounted(cfg.crypto, start, calls, i);
    }
    assert OnRecord(cfg, s, preimages, calls);
  }

  lemma FreshIsSound(c: Crypto, b: Book)
    requires Fresh(c, b)
    ensures Sound(c, b)
  {
  }

  ghost predicate ReservationOnRecord(cfg: Config, preimages: seq<Bytes>, calls: seq<Call>, r: HoldReservation,
          i: nat)
  {
    && cfg.Valid() && EnoughPreimages(cfg, preimages)
    && var start := TermsBook(cfg, preimages);
    && Sound(cfg.crypto, start) && i < |start.ledger.reservations| && start.ledger.terms.damageBucket > 0
    && Changes(cfg.crypto, start, calls, i) <= 5
    && (r.status == Held || r.status in PAID ==>
          && r.invoice.Some? && WasOffered(cfg.crypto, start, calls, i, r.invoice.value)
          && WasConfirmed(cfg.crypto, start, calls, i, HoldInvoiceStage.Funded)
          && WasConfirmed(cfg.crypto, start, calls, i, HoldInvoiceStage.Received))
  }

  ghost predicate OnRecord(cfg: Config, s: ServerState, preimages: seq<Bytes>, calls: seq<Call>) {
    && Recorded(cfg, s, preimages, calls)
    && forall i :: 0 <= i < |s.settlement.value.ledger.reservations| ==>
         ReservationOnRecord(cfg, preimages, calls, s.settlement.value.ledger.reservations[i], i)
  }

  /** What reaches a payee is, in any order and with repetitions, exactly what the server sent it, before it expires. */
  ghost predicate Receives(s: ServerState, slot: PlayerSlot, ds: seq<Delivery>) {
    && (forall d :: d in ds ==>
          ToSlot(slot, Release(d.release)) in s.outbox && d.nowMs <= d.release.intent.body.expiresAtMs)
    && (forall r :: ToSlot(slot, Release(r)) in s.outbox ==> exists d :: d in ds && d.release == r)
  }

  lemma SentIsGenuine(cfg: Config, s: ServerState, slot: PlayerSlot, ds: seq<Delivery>)
    requires s.settlement.Some? && Receives(s, slot, ds)
    requires Addresses.AllGoRight(s.settlement.value, s.outbox) && Deliveries.AllSent(s.settlement.value, s.outbox)
    ensures Genuine(s.settlement.value, slot, ds)
    ensures forall r :: r in s.settlement.value.returned && r.intent.body.payee == slot ==>
              r.Id() as int in Delivered(ds)
  {
    var b := s.settlement.value;
    forall d | d in ds
      ensures d.release in b.returned && d.release.intent.body.payee == slot
    {
      assert Addresses.GoesRight(b, ToSlot(slot, Release(d.release)));
    }
    forall r | r in b.returned && r.intent.body.payee == slot
      ensures r.Id() as int in Delivered(ds)
    {
      assert Deliveries.Sent(r, s.outbox);
      var d :| d in ds && d.release == r;
    }
  }

  /** The recorded history explains the difference between what is charged and what is counted: the dropped releases. */
  ghost predicate Explains(cfg: Config, s: ServerState, preimages: seq<Bytes>, calls: seq<Call>, p: PlayerSlot,
                           charged: nat, counted: nat) {
    && Recorded(cfg, s, preimages, calls)
    && cfg.Valid() && EnoughPreimages(cfg, preimages) && TermsBook(cfg, preimages).ledger.terms.damageBucket > 0
    && var dropped := Dropped(cfg.crypto, TermsBook(cfg, preimages), calls, p);
    && charged == counted + dropped * cfg.amount
    && (charged == counted <==> dropped == 0)
  }

  /** A payee that receives what the server sent it has counted what the server charged its opponent, short of exactly
      the releases that refused reports dropped; so the two agree if and only if none was, as when nothing was
      refused. */
  lemma ServerAndGuardAgree(cfg: Config, inputs: PerSlot<InputFrame>, rounds: seq<Round>,
                            slot: PlayerSlot, ds: seq<Delivery>)
    requires cfg.Valid() && Suitable(cfg, rounds) && cfg.crypto.Lawful()
    requires Serve(cfg, inputs, rounds).settlement.Some? && Receives(Serve(cfg, inputs, rounds), slot, ds)
    ensures var s := Serve(cfg, inputs, rounds);
      var b := s.settlement.value;
      var charged := b.ledger.releasedTotal.Get(slot.Opponent());
      var counted := Receive(cfg.crypto, NewGuard(b.ledger.terms), slot, ds).releasedTotal.Get(slot.Opponent());
      && (exists preimages, calls :: Explains(cfg, s, preimages, calls, slot.Opponent(), charged, counted))
      && (b.capErrors == 0 ==> charged == counted)
  {
    EveryRunIsTraced(cfg, inputs, rounds);
    Addresses.EveryMessageGoesRight(cfg, inputs, rounds);
    Deliveries.EveryReleaseIsSent(cfg, inputs, rounds);
    hide Serve, InOrder, HeldBeforeHits, LeadsTo, Receives, Sound, Addresses.AllGoRight, Deliveries.AllSent;
    var s := Serve(cfg, inputs, rounds);
    SentIsGenuine(cfg, s, slot, ds);
    var preimages, calls :| Recorded(cfg, s, preimages, calls);
    LeadsFrom(cfg, preimages, calls, s.settlement.value);
    FreshTerms(cfg, preimages);
    var start, b := TermsBook(cfg, preimages), s.settlement.value;
    hide TermsBook, Run, Receive, Fresh, Genuine, Delivered, Dropped, Recorded;
    GuardAgrees(cfg.crypto, start, calls, slot, ds);
    NothingDropped(cfg.crypto, start, calls, slot.Opponent());
    assert Explains(cfg, s, preimages, calls, slot.Opponent(), b.ledger.releasedTotal.Get(slot.Opponent()),
                    Receive(cfg.crypto, NewGuard(b.ledger.terms), slot, ds).releasedTotal.Get(slot.Opponent()));
  }

  lemma {:induction false} NothingDropped(c: Crypto, start: Book, calls: seq<Call>, p: PlayerSlot)
    requires start.ledger.terms.damageBucket > 0
    ensures Run(c, start, calls).capErrors == 0 ==> Dropped(c, start, calls, p) == 0
  {
    if calls != [] {
      var front, last := calls[..|calls| - 1], calls[|calls| - 1];
      NothingDropped(c, start, front, p);
      hide CapReached, Issued, RecordDamage, HeldIds, RegisterOffer, Acknowledge, RecordFailure, CancelledTerms;
    }
  }
}
