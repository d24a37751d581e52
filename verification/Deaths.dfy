/** How a match that ends by a death leaves the simulation: ended, unless a hit of that tick was refused payment. */
module Deaths {
  import opened Wrappers
  import opened Protocol
  import opened Binary
  import opened Settlement
  import opened Histories
  import opened Sim
  import opened Server
  import opened ServerRuns
  import opened EndToEnd
  import Matches

  /** Event `k` of a tick is a hit that the books, as the earlier events leave them, cannot pay. */
  ghost predicate RefusedAt(cfg: Config, s: ServerState, es: seq<MatchEvent>, now: PerSlot<u64>, k: nat)
    requires s.HasTerms() && k < |es|
  {
    es[k].DamageEvent? &&
    var found := HandleEvents(cfg, s, es[..k], now);
    CapReached(found.settlement.value.ledger, HitOf(cfg, found, es[k], now.Get(es[k].attacker)))
  }

  ghost predicate SomeRefused(cfg: Config, s: ServerState, es: seq<MatchEvent>, now: PerSlot<u64>)
    requires s.HasTerms()
  {
    exists k :: 0 <= k < |es| && RefusedAt(cfg, s, es, now, k)
  }

  lemma EventSim(cfg: Config, s: ServerState, e: MatchEvent, now: PerSlot<u64>)
    requires s.HasTerms()
    ensures HandleEvent(cfg, s, e, now).sim ==
      if e.DamageEvent? && CapReached(s.settlement.value.ledger, HitOf(cfg, s, e, now.Get(e.attacker)))
      then s.sim.(phase := PaymentPaused(e.victim)) else s.sim
  {
    var b := s.settlement.value;
    match e
    case DamageEvent(attacker, victim, amount, _) =>
      var hit := HitOf(cfg, s, e, now.Get(attacker));
      hide Apply, CapReached, Issued;
      SendReleasesFrame(s.(settlement := Some(Apply(cfg.crypto, b, Damaged(hit)))), Issued(cfg.crypto, b.ledger, hit));
    case DeathEvent(_, _) =>
      hide Apply, CancelledTerms;
      SendCancellationsFrame(s, CancelledTerms(b.ledger.reservations));
  }

  lemma RefusedInFront(cfg: Config, s: ServerState, front: seq<MatchEvent>, last: MatchEvent, now: PerSlot<u64>, k: nat)
    requires s.HasTerms() && k <= |front|
    ensures k < |front| ==> RefusedAt(cfg, s, front + [last], now, k) == RefusedAt(cfg, s, front, now, k)
    ensures k == |front| ==>
              (RefusedAt(cfg, s, front + [last], now, k)
               <==> last.DamageEvent? &&
                    var found := HandleEvents(cfg, s, front, now);
                    CapReached(found.settlement.value.ledger, HitOf(cfg, found, last, now.Get(last.attacker))))
  {
    hide HandleEvents, CapReached;
    assert (front + [last])[..k] == front[..k] && front[..|front|] == front;
  }

  lemma EventErrors(cfg: Config, s: ServerState, e: MatchEvent, now: PerSlot<u64>)
    requires s.HasTerms()
    ensures var s' := HandleEvent(cfg, s, e, now);
      s'.HasTerms() && s'.settlement.value.capErrors == s.settlement.value.capErrors +
        if e.DamageEvent? && CapReached(s.settlement.value.ledger, HitOf(cfg, s, e, now.Get(e.attacker))) then 1 else 0
  {
    var b := s.settlement.value;
    EventKeepsTerms(cfg, s, e, now);
    match e
    case DamageEvent(attacker, victim, amount, _) =>
      var hit := HitOf(cfg, s, e, now.Get(attacker));
      hide Apply, CapReached, Issued;
      CapErrorsAfter(cfg.crypto, b, hit);
      SendReleasesFrame(s.(settlement := Some(Apply(cfg.crypto, b, Damaged(hit)))), Issued(cfg.crypto, b.ledger, hit));
    case DeathEvent(_, _) =>
      hide CancelledTerms;
      SendCancellationsFrame(s, CancelledTerms(b.ledger.reservations));
  }

  /**
   * The events of a tick leave the simulation paused if one of them is refused, and untouched
   * otherwise; and the books count a refusal exactly then.
   */
  lemma {:induction false} PhaseAfterEvents(cfg: Config, s: ServerState, es: seq<MatchEvent>, now: PerSlot<u64>)
    requires s.HasTerms()
    ensures var s' := HandleEvents(cfg, s, es, now);
      && s'.sim == s.sim.(phase := s'.sim.phase)
      && (if SomeRefused(cfg, s, es, now) then s'.sim.phase.PaymentPaused? else s'.sim == s.sim)
      && s'.settlement.value.capErrors >= s.settlement.value.capErrors
      && (s'.settlement.value.capErrors > s.settlement.value.capErrors <==> SomeRefused(cfg, s, es, now))
  {
    if es != [] {
      var front, last := es[..|es| - 1], es[|es| - 1];
      assert es == front + [last];
      var found := HandleEvents(cfg, s, front, now);
      PhaseAfterEvents(cfg, s, front, now);
      EventSim(cfg, found, last, now);
      EventErrors(cfg, found, last, now);
      RefusedInFront(cfg, s, front, last, now, |front|);
      hide HandleEvent, CapReached, RefusedAt;
      forall k | 0 <= k < |front|
        ensures RefusedAt(cfg, s, es, now, k) == RefusedAt(cfg, s, front, now, k)
      {
        RefusedInFront(cfg, s, front, last, now, k);
      }
    }
  }

  // ---- the books before the tick ------------------------------------------------------------

  /** A hit that the books as they are cannot pay. */
  ghost predicate Unpayable(cfg: Config, s: ServerState, e: MatchEvent, now: PerSlot<u64>)
    requires s.HasTerms()
  {
    e.DamageEvent? && CapReached(s.settlement.value.ledger, HitOf(cfg, s, e, now.Get(e.attacker)))
  }

  /** Only who is hit and how hard decides whether a hit can be paid. */
  lemma CapDependsOn(l: Ledger, l': Ledger, hit: Hit, hit': Hit)
    requires l.terms.damageBucket > 0 && l'.terms == l.terms
    requires hit'.victim == hit.victim && hit'.damage == hit.damage
    requires l'.damageRemainder.Get(hit.victim) == l.damageRemainder.Get(hit.victim)
    requires HeldIds(l'.reservations, hit.victim) == HeldIds(l.reservations, hit.victim)
    ensures CapReached(l', hit') == CapReached(l, hit)
  {
    hide HeldIds, Buckets;
  }

  lemma LedgerAfterHit(cfg: Config, s: ServerState, e: MatchEvent, now: PerSlot<u64>)
    requires s.HasTerms() && e.DamageEvent?
    ensures var s' := HandleEvent(cfg, s, e, now);
      s'.HasTerms() && s'.settlement.value.ledger
        == Settlement.RecordDamage(s.settlement.value.ledger, HitOf(cfg, s, e, now.Get(e.attacker)))
  {
    var b, hit := s.settlement.value, HitOf(cfg, s, e, now.Get(e.attacker));
    EventKeepsTerms(cfg, s, e, now);
    hide CapReached, Issued, Settlement.RecordDamage;
    SendReleasesFrame(s.(settlement := Some(Apply(cfg.crypto, b, Damaged(hit)))), Issued(cfg.crypto, b.ledger, hit));
  }

  /** A tick has at most two hits, the first two events, on different players. */
  lemma TickHits(aim: Aim, sim: SimState, inputs: PerSlot<InputFrame>)
    ensures var es := Tick(aim, sim, inputs).1;
      && (forall k :: 2 <= k < |es| ==> es[k].DeathEvent?)
      && (|es| >= 2 && es[1].DamageEvent? ==> es[0].DamageEvent? && es[0].victim == es[1].victim.Opponent())
  {
    hide Moved, CanFire;
  }

  lemma RefusedOnBooks(cfg: Config, s: ServerState, s1: ServerState, es: seq<MatchEvent>, now: PerSlot<u64>, k: nat)
    requires s.HasTerms() && s1.settlement == s.settlement && k < |es|
    requires forall j :: 2 <= j < |es| ==> es[j].DeathEvent?
    requires |es| >= 2 && es[1].DamageEvent? ==> es[0].DamageEvent? && es[0].victim == es[1].victim.Opponent()
    ensures RefusedAt(cfg, s1, es, now, k) == Unpayable(cfg, s, es[k], now)
  {
    var l := s.settlement.value.ledger;
    hide CapReached, HandleEvent, HeldIds;
    if es[k].DamageEvent? {
      var found := HandleEvents(cfg, s1, es[..k], now);
      var hit, hit' := HitOf(cfg, s, es[k], now.Get(es[k].attacker)), HitOf(cfg, found, es[k], now.Get(es[k].attacker));
      if k == 0 {
        assert es[..0] == [];
        CapDependsOn(l, l, hit, hit');
      } else {
        assert es[..1] == [es[0]] && es[..1][..0] == [];
        assert HandleEvents(cfg, s1, es[..0], now) == s1;
        LedgerAfterHit(cfg, s1, es[0], now);
        OtherIsUnhurt(l, HitOf(cfg, s1, es[0], now.Get(es[0].attacker)), hit.victim);
        CapDependsOn(l, found.settlement.value.ledger, hit, hit');
      }
    }
  }

  lemma OtherIsUnhurt(l: Ledger, hit: Hit, p: PlayerSlot)
    requires l.terms.damageBucket > 0 && hit.victim == p.Opponent()
    ensures var l' := Settlement.RecordDamage(l, hit);
      && l'.terms == l.terms && l'.damageRemainder.Get(p) == l.damageRemainder.Get(p)
      && HeldIds(l'.reservations, p) == HeldIds(l.reservations, p)
  {
    RecordKeepsTerms(l, hit);
    hide Settlement.RecordDamage, HeldIds, Payable;
    RecordDamageFrame(l, hit);
  }

  /** What a tick finds refused are the hits that the books before the tick cannot pay. */
  lemma RefusalIsOnBooks(cfg: Config, s: ServerState, s1: ServerState, now: PerSlot<u64>)
    requires s.HasTerms() && s1.settlement == s.settlement
    ensures var es := Tick(cfg.aim, s.sim, s.latestInputs).1;
      SomeRefused(cfg, s1, es, now) <==> exists e :: e in es && Unpayable(cfg, s, e, now)
  {
    var es := Tick(cfg.aim, s.sim, s.latestInputs).1;
    TickHits(cfg.aim, s.sim, s.latestInputs);
    hide Tick, Unpayable, RefusedAt;
    forall k | 0 <= k < |es|
      ensures RefusedAt(cfg, s1, es, now, k) == Unpayable(cfg, s, es[k], now)
    {
      RefusedOnBooks(cfg, s, s1, es, now, k);
    }
    if exists e :: e in es && Unpayable(cfg, s, e, now) {
      var e :| e in es && Unpayable(cfg, s, e, now);
      var k :| 0 <= k < |es| && es[k] == e;
      assert RefusedAt(cfg, s1, es, now, k);
    }
  }

  // ---- the tick that kills ------------------------------------------------------------------

  /**
   * A tick that reports a death leaves the simulation ended in favour of the killer if and only if
   * the books before the tick can pay each of its hits; otherwise it is paused for payment although
   * the match is over.
   */
  lemma DeathPhase(cfg: Config, s: ServerState, now: PerSlot<u64>, killer: PlayerSlot, victim: PlayerSlot)
    requires Inv(cfg, s) && s.started && !s.ended && s.HasTerms()
    requires DeathEvent(killer, victim) in Tick(cfg.aim, s.sim, s.latestInputs).1
    ensures var events, s' := Tick(cfg.aim, s.sim, s.latestInputs).1, FixedStep(cfg, s, now);
      var unpaid := exists e :: e in events && Unpayable(cfg, s, e, now);
      s'.ended && (s'.sim.phase == Ended(killer) <==> !unpaid) && (s'.sim.phase.PaymentPaused? <==> unpaid)
  {
    var (sim, events) := Tick(cfg.aim, s.sim, s.latestInputs);
    var s1 := s.(serverTick := s.serverTick + 1, sim := sim);
    DeathEndsSim(cfg, s, killer, victim);
    DeathEndsMatch(cfg, s, now, killer, victim);
    hide Inv, Tick, HandleEvents, FixedStep, SomeRefused, Unpayable;
    TickShape(cfg, s, now);
    PhaseAfterEvents(cfg, s1, events, now);
    RefusalIsOnBooks(cfg, s, s1, now);
  }

  lemma DeathEndsSim(cfg: Config, s: ServerState, killer: PlayerSlot, victim: PlayerSlot)
    requires Inv(cfg, s) && DeathEvent(killer, victim) in Tick(cfg.aim, s.sim, s.latestInputs).1
    ensures var (sim, events) := Tick(cfg.aim, s.sim, s.latestInputs);
      && sim.phase == Ended(killer) && events != [] && events[|events| - 1].DeathEvent?
      && (forall k :: 0 <= k < |events| && events[k].DeathEvent? ==> k == |events| - 1)
  {
    hide Seated, Phased, Tick;
    var (sim, events) := Tick(cfg.aim, s.sim, s.latestInputs);
    var k :| 0 <= k < |events| && events[k] == DeathEvent(killer, victim);
    if s.sim.phase == Live {
      TickIsSane(cfg.aim, s.sim, s.latestInputs, HitsTaken(s.sim));
      hide Sane;
      assert events[k] in events;
    } else {
      TickIdle(cfg.aim, s.sim, s.latestInputs);
    }
  }

  lemma DeathEndsMatch(cfg: Config, s: ServerState, now: PerSlot<u64>, killer: PlayerSlot, victim: PlayerSlot)
    requires Inv(cfg, s) && s.started && !s.ended && s.HasTerms()
    requires DeathEvent(killer, victim) in Tick(cfg.aim, s.sim, s.latestInputs).1
    ensures FixedStep(cfg, s, now).ended
  {
    var (sim, events) := Tick(cfg.aim, s.sim, s.latestInputs);
    var s1 := s.(serverTick := s.serverTick + 1, sim := sim);
    RunningUnless(cfg, s);
    DeathEndsSim(cfg, s, killer, victim);
    hide Inv, Running, Finished, InLobby, Tick, HandleEvents, FixedStep;
    TickShape(cfg, s, now);
    StillRunning(cfg, s, s1);
    EventsRun(cfg, s1, events, now);
    EndedIffFinished(cfg, FixedStep(cfg, s, now));
  }

  // ---- over whole runs ----------------------------------------------------------------------

  ghost predicate SomeoneDead(sim: SimState) {
    !sim.players.a.alive || !sim.players.b.alive
  }

  ghost predicate Refused(s: ServerState) {
    s.settlement.Some? && s.settlement.value.capErrors > 0
  }

  /**
   * The phase tells what happened: paused only after a refusal; paused from a refusal on, unless a
   * departure ended the match; and with nothing refused, ended in favour of the survivor of a death.
   */
  ghost predicate Telling(s: ServerState) {
    && (!Refused(s) ==> !s.sim.phase.PaymentPaused?)
    && (Refused(s) && (!s.ended || SomeoneDead(s.sim)) ==> s.sim.phase.PaymentPaused?)
    && (!s.ended ==> !SomeoneDead(s.sim))
    && (forall p: PlayerSlot :: !s.sim.players.Get(p).alive && !Refused(s) ==> s.sim.phase == Ended(p.Opponent()))
  }

  lemma SameTelling(s: ServerState, s': ServerState)
    requires Telling(s) && s'.sim == s.sim && s'.ended == s.ended && Refused(s') == Refused(s)
    ensures Telling(s')
  {
  }

  lemma ForfeitTells(cfg: Config, s: ServerState, gone: seq<PlayerSlot>, survivor: PlayerSlot)
    requires Telling(s)
    ensures Telling(ForfeitMatch(cfg, s, gone, survivor))
  {
    if !s.ended && gone != [] && s.HasTerms() {
      hide CancelledTerms;
      SendCancellationsFrame(s, CancelledTerms(s.settlement.value.ledger.reservations));
      assert s.sim.players.Get(A).alive && s.sim.players.Get(B).alive;
    }
  }

  lemma TickTells(cfg: Config, s: ServerState, now: PerSlot<u64>)
    requires Inv(cfg, s) && s.started && !s.ended && s.HasTerms() && Telling(s)
    ensures Telling(FixedStep(cfg, s, now))
  {
    var (sim, events) := Tick(cfg.aim, s.sim, s.latestInputs);
    var s1, s' := s.(serverTick := s.serverTick + 1, sim := sim), FixedStep(cfg, s, now);
    LivingTick(cfg, s, now);
    hide Inv, Tick, HandleEvents, FixedStep, SomeRefused, Won;
    TickShape(cfg, s, now);
    PhaseAfterEvents(cfg, s1, events, now);
  }

  /** A tick ends the match exactly when somebody dies in it, and then in favour of the survivor. */
  lemma LivingTick(cfg: Config, s: ServerState, now: PerSlot<u64>)
    requires Inv(cfg, s) && s.started && !s.ended && s.HasTerms() && !SomeoneDead(s.sim)
    ensures var sim, s' := Tick(cfg.aim, s.sim, s.latestInputs).0, FixedStep(cfg, s, now);
      && (s.sim.phase != Live ==> sim == s.sim && s'.sim == s.sim && s'.settlement == s.settlement)
      && (s.sim.phase == Live ==> !sim.phase.PaymentPaused?)
      && (!s'.ended ==> !SomeoneDead(sim))
      && (s.sim.phase == Live ==>
            forall p: PlayerSlot :: !sim.players.Get(p).alive ==> sim.phase == Ended(p.Opponent()))
  {
    hide Inv, Tick, HandleEvents, FixedStep, HitsTaken, Sane, SomeoneDead;
    TickShape(cfg, s, now);
    if s.sim.phase == Live {
      SimInStepOf(cfg, s);
      OnlyLoserDies(cfg.aim, s.sim, s.latestInputs, HitsTaken(s.sim));
      LiveTickEnds(cfg, s, now);
    } else {
      IdleStep(cfg, s, now);
    }
  }

  lemma IdleStep(cfg: Config, s: ServerState, now: PerSlot<u64>)
    requires s.started && !s.ended && s.HasTerms() && s.sim.phase != Live
    ensures FixedStep(cfg, s, now) == s.(serverTick := s.serverTick + 1)
    ensures Tick(cfg.aim, s.sim, s.latestInputs).0 == s.sim
  {
    TickIdle(cfg.aim, s.sim, s.latestInputs);
    hide Tick;
    TickShape(cfg, s, now);
  }

  lemma LiveTickEnds(cfg: Config, s: ServerState, now: PerSlot<u64>)
    requires Inv(cfg, s) && s.started && !s.ended && s.HasTerms() && s.sim.phase == Live
    ensures !FixedStep(cfg, s, now).ended ==> Tick(cfg.aim, s.sim, s.latestInputs).0.phase == Live
  {
    var (sim, events) := Tick(cfg.aim, s.sim, s.latestInputs);
    var s1 := s.(serverTick := s.serverTick + 1, sim := sim);
    RunningUnless(cfg, s);
    SimInStepOf(cfg, s);
    hide Inv, SimInStep, Running, Finished, InLobby, Tick, Ticked, HandleEvents, FixedStep;
    TickInStep(cfg, s, sim, events);
    TickedLast(s.(sim := sim), s1, events);
    TickShape(cfg, s, now);
    StillRunning(cfg, s, s1);
    EventsRun(cfg, s1, events, now);
    EndedIffFinished(cfg, FixedStep(cfg, s, now));
    LiveUnlessDeath(cfg, s, sim, events);
  }

  lemma LiveUnlessDeath(cfg: Config, s: ServerState, sim: SimState, events: seq<MatchEvent>)
    requires SimInStep(s) && s.sim.phase == Live && (sim, events) == Tick(cfg.aim, s.sim, s.latestInputs)
    ensures sim.phase != Live ==> events != [] && events[|events| - 1].DeathEvent?
  {
    hide Tick, Sane, HitsTaken, HitCount, WellOrdered;
    TickIsSane(cfg.aim, s.sim, s.latestInputs, HitsTaken(s.sim));
  }

  lemma OnlyLoserDies(aim: Aim, sim: SimState, inputs: PerSlot<InputFrame>, hits: PerSlot<nat>)
    requires Sane(sim, hits) && sim.phase == Live
    ensures var sim' := Tick(aim, sim, inputs).0;
      && !sim'.phase.PaymentPaused?
      && (sim'.phase == Live ==> !SomeoneDead(sim'))
      && (forall p: PlayerSlot :: !sim'.players.Get(p).alive ==> sim'.phase == Ended(p.Opponent()))
  {
    var (sim', events) := Tick(aim, sim, inputs);
    TickIsSane(aim, sim, inputs, hits);
    hide Tick, HitCount, WellOrdered;
    assert sim'.players.Get(A) == sim'.players.a && sim'.players.Get(B) == sim'.players.b;
  }

  lemma {:induction false} StepsTell(cfg: Config, s: ServerState, ticks: seq<PerSlot<u64>>)
    requires Inv(cfg, s) && Telling(s)
    ensures Telling(FixedSteps(cfg, s, ticks))
  {
    hide Inv, FixedStep, Telling;
    if ticks != [] {
      var front := ticks[..|ticks| - 1];
      StepsTell(cfg, s, front);
      StepsKeepInv(cfg, s, front);
      StepTells(cfg, FixedSteps(cfg, s, front), ticks[|ticks| - 1]);
    }
  }

  lemma StepTells(cfg: Config, s: ServerState, now: PerSlot<u64>)
    requires Inv(cfg, s) && Telling(s)
    ensures Telling(FixedStep(cfg, s, now))
  {
    if s.started && !s.ended && s.HasTerms() {
      TickTells(cfg, s, now);
    } else {
      hide Inv, Telling;
      SameTelling(s, FixedStep(cfg, s, now));
    }
  }

  lemma StartTells(cfg: Config, s: ServerState)
    requires Inv(cfg, s) && Telling(s)
    ensures Telling(Start(s))
  {
    if ReadyToStart(s) {
      RunningUnless(cfg, s);
      LobbyBook(cfg, s);
      hide Inv, AllHeld;
      assert s.sim.players.Get(A).alive && s.sim.players.Get(B).alive;
    }
  }

  lemma BeforeStartTells(cfg: Config, s: ServerState, r: Round)
    requires cfg.Valid() && EnoughPreimages(cfg, r.preimages) && Telling(s)
    ensures Telling(BeforeStart(cfg, s, r))
  {
    hide Telling, HandleConnections, IssueTerms, ForfeitMatch, HandlePackets;
    var (s1, gone) := HandleConnections(cfg, s, r.net);
    var s2 := IssueTerms(cfg, s1, r.preimages);
    var s3 := ForfeitMatch(cfg, s2, gone, r.survivor);
    Matches.ConnectionsKeepRest(cfg, s, r.net);
    TermsKeepErrors(cfg, s1, r.preimages);
    SameTelling(s, s2);
    ForfeitTells(cfg, s2, gone, r.survivor);
    if s3.HasTerms() {
      Matches.PacketsKeepRest(cfg, s3, r.packets);
      SameTelling(s3, BeforeStart(cfg, s, r));
    }
  }

  lemma TermsKeepErrors(cfg: Config, s: ServerState, preimages: seq<Bytes>)
    requires cfg.Valid() && EnoughPreimages(cfg, preimages)
    ensures var s' := IssueTerms(cfg, s, preimages);
      s'.sim == s.sim && s'.ended == s.ended && s'.started == s.started && Refused(s') == Refused(s)
  {
  }

  lemma {:induction false} EveryRunTells(cfg: Config, inputs: PerSlot<InputFrame>, rounds: seq<Round>)
    requires cfg.Valid() && Suitable(cfg, rounds)
    ensures Telling(Serve(cfg, inputs, rounds))
  {
    if rounds == [] {
      assert Booted(inputs).sim.players.Get(A).alive && Booted(inputs).sim.players.Get(B).alive;
    } else {
      hide Inv, Telling, BeforeStart, Start, FixedSteps;
      var front, r := rounds[..|rounds| - 1], rounds[|rounds| - 1];
      var s := Serve(cfg, inputs, front);
      EveryRunTells(cfg, inputs, front);
      ServeKeepsInv(cfg, inputs, front);
      BeforeStartTells(cfg, s, r);
      BeforeStartKeepsInv(cfg, s, r);
      StartTells(cfg, BeforeStart(cfg, s, r));
      StartKeepsInv(cfg, BeforeStart(cfg, s, r));
      StepsTell(cfg, Start(BeforeStart(cfg, s, r)), r.ticks);
    }
  }

  /**
   * In every run in which `p` has died the match is over, and the simulation is ended in favour of
   * the survivor if and only if no damage report was ever refused, and paused for payment otherwise.
   */
  lemma DeathTells(cfg: Config, inputs: PerSlot<InputFrame>, rounds: seq<Round>, p: PlayerSlot)
    requires cfg.Valid() && Suitable(cfg, rounds) && !Serve(cfg, inputs, rounds).sim.players.Get(p).alive
    ensures var s := Serve(cfg, inputs, rounds);
      && s.ended && s.settlement.Some?
      && (s.sim.phase == Ended(p.Opponent()) <==> s.settlement.value.capErrors == 0)
      && (s.sim.phase.PaymentPaused? <==> s.settlement.value.capErrors > 0)
  {
    var s := Serve(cfg, inputs, rounds);
    EveryRunTells(cfg, inputs, rounds);
    ServeKeepsInv(cfg, inputs, rounds);
    RunningUnless(cfg, s);
    hide Serve, Inv, Phased, Running, InLobby;
    assert SomeoneDead(s.sim);
  }

  /**
   * In a run without an accepted failure the configuration decides: a death leaves the simulation
   * paused for payment if and only if there were not reservations for a whole life.
   */
  lemma DeathIsPausedExactly(cfg: Config, inputs: PerSlot<InputFrame>, rounds: seq<Round>, p: PlayerSlot)
    requires cfg.Valid() && Suitable(cfg, rounds)
    requires var s := Serve(cfg, inputs, rounds); Clean(s) && s.started && !s.sim.players.Get(p).alive
    ensures Serve(cfg, inputs, rounds).sim.phase.PaymentPaused? <==> !Covers(cfg)
  {
    DeathTells(cfg, inputs, rounds, p);
    CoverIsExact(cfg, inputs, rounds, p);
  }
}
