/**
 * The server loop as it runs: one object that owns the coordinator and the simulation and updates
 * its fields in place, pass by pass, against the rounds of `Server`.
 */
module ArenaServer {
  import opened Wrappers
  import opened Binary
  import opened Protocol
  import opened Settlement
  import opened Accounting
  import opened Coordinator
  import opened Sim
  import opened Server

  class MatchServer {
    const cfg: Config
    const sim: HarnessSim
    var settlement: SettlementCoordinator?
    var clients: map<ClientId, PlayerSlot>
    var players: PerSlot<Option<Bytes>>
    var accepted: set<PlayerSlot>
    var latestInputs: PerSlot<InputFrame>
    var started: bool
    var ended: bool
    var serverTick: nat
    var outbox: seq<Outbound>

    ghost predicate Valid()
      reads this, sim, settlement
    {
      && cfg.Valid() && sim.aim == cfg.aim
      && (settlement != null ==> settlement.Valid() && settlement.crypto == cfg.crypto)
    }

    ghost function State(): ServerState
      reads this, sim, settlement
    {
      ServerState(
        if settlement == null then None else Some(settlement.book), clients, players, accepted, sim.State(),
        latestInputs, started, ended, serverTick, outbox)
    }

    constructor (cfg: Config, inputs: PerSlot<InputFrame>)
      requires cfg.Valid()
      ensures Valid() && this.cfg == cfg && fresh(sim) && settlement == null
      ensures State() == Booted(inputs)
    {
      this.cfg := cfg;
      sim := new HarnessSim(cfg.aim);
      settlement := null;
      clients := map[];
      players := PerSlot(None, None);
      accepted := {};
      latestInputs := inputs;
      started := false;
      ended := false;
      serverTick := 0;
      outbox := [];
    }

    lemma TermsAreIssued()
      requires Valid() && settlement != null
      ensures State().HasTerms()
    {
      BucketIsPositive(settlement.crypto, settlement.book);
    }

    // ---- sending ----------------------------------------------------------------------------

    method Send(slot: PlayerSlot, message: ServerMessage)
      modifies this`outbox
      ensures State() == old(State()).Send(slot, message)
    {
      if slot in clients.Values {
        outbox := outbox + [ToSlot(slot, message)];
      }
    }

    method Announce(message: ServerMessage)
      modifies this`outbox
      ensures State() == old(State()).Announce(message)
    {
      outbox := outbox + [Broadcast(message)];
    }

    method SendAllCancellations(terms: seq<HoldInvoiceTerm>)
      modifies this`outbox
      ensures State() == SendCancellations(old(State()), terms)
    {
      for i := 0 to |terms|
        modifies this`outbox
        invariant State() == SendCancellations(old(State()), terms[..i])
      {
        assert terms[..i + 1][..i] == terms[..i];
        Send(terms[i].payee, CancelInvoice(terms[i]));
      }
      assert terms[..|terms|] == terms;
    }

    method SendAllReleases(releases: seq<HoldInvoiceRelease>)
      modifies this`outbox
      ensures State() == SendReleases(old(State()), releases)
    {
      for i := 0 to |releases|
        modifies this`outbox
        invariant State() == SendReleases(old(State()), releases[..i])
      {
        assert releases[..i + 1][..i] == releases[..i];
        Send(releases[i].intent.body.payee, Release(releases[i]));
      }
      assert releases[..|releases|] == releases;
    }

    // ---- connections ------------------------------------------------------------------------

    method OnConnection(e: NetEvent) returns (gone: seq<PlayerSlot>)
      requires Valid()
      modifies this`clients, this`players, this`accepted
      ensures Valid() && (State(), gone) == HandleConnection(cfg, old(State()), e)
    {
      gone := [];
      match e {
        case ClientConnected(client, token, name) =>
          if settlement != null {
            return;
          }
          var identity := token;
          if cfg.devUnsecure {
            var slot := FirstFreeSlot(clients);
            if slot.None? {
              return;
            }
            identity := Some(Identity(slot.value, name));
          }
          if identity.None? || identity.value.slot in clients.Values {
            return;
          }
          clients := clients[client := identity.value.slot];
          players := players.Set(identity.value.slot, Some(identity.value.binding));
        case ClientDisconnected(client) =>
          if client in clients {
            var slot := clients[client];
            clients := clients - {client};
            gone := [slot];
            accepted := accepted - {slot};
            if settlement == null {
              players := players.Set(slot, None);
            }
          }
      }
    }

    method OnConnections(es: seq<NetEvent>) returns (disconnected: seq<PlayerSlot>)
      requires Valid()
      modifies this`clients, this`players, this`accepted
      ensures Valid() && (State(), disconnected) == HandleConnections(cfg, old(State()), es)
    {
      hide HandleConnection, Sound;
      disconnected := [];
      for i := 0 to |es|
        modifies this`clients, this`players, this`accepted
        invariant Valid() && (State(), disconnected) == HandleConnections(cfg, old(State()), es[..i])
      {
        assert es[..i + 1][..i] == es[..i];
        var gone := OnConnection(es[i]);
        disconnected := disconnected + gone;
      }
      assert es[..|es|] == es;
    }

    // ---- terms and endings ------------------------------------------------------------------

    method OfferTerms(preimages: seq<Bytes>)
      requires Valid() && EnoughPreimages(cfg, preimages)
      modifies this`settlement, this`outbox
      ensures Valid() && State() == IssueTerms(cfg, old(State()), preimages)
      ensures settlement == old(settlement) || (old(settlement) == null && fresh(settlement))
    {
      if settlement == null && |clients| == 2 {
        var coordinator := new SettlementCoordinator(
          cfg.crypto, cfg.matchId, cfg.signingKey, cfg.amount, cfg.bucket, cfg.cap, cfg.deadline, preimages);
        assert coordinator.State() == coordinator.book.ledger;
        Send(A, Welcome(coordinator.terms));
        Send(B, Welcome(coordinator.terms));
        settlement := coordinator;
      }
    }

    method CloseMatch(winner: PlayerSlot)
      requires Valid() && settlement != null
      modifies this`outbox, this`ended, settlement
      ensures Valid() && old(State()).HasTerms() && State() == EndMatch(cfg, old(State()), winner)
    {
      hide Apply, CancelledTerms, Sound;
      TermsAreIssued();
      ghost var before := State();
      var terms := settlement.CancelUnused();
      ghost var cancelled := State();
      SendAllCancellations(terms);
      Announce(MatchEnded(winner));
      ended := true;
      SendCancellationsFrame(before, terms);
      SendCancellationsFrame(cancelled, terms);
      SameCancellations(before, cancelled, terms);
    }

    method Forfeit(gone: seq<PlayerSlot>, survivor: PlayerSlot)
      requires Valid()
      modifies this`outbox, this`ended, settlement, sim
      ensures Valid() && State() == ForfeitMatch(cfg, old(State()), gone, survivor)
    {
      hide EndMatch, Sound;
      if settlement != null {
        TermsAreIssued();
        if !ended && gone != [] {
          var winner := if survivor in clients.Values then survivor
            else if survivor.Opponent() in clients.Values then survivor.Opponent()
            else gone[0].Opponent();
          CloseMatch(winner);
          sim.SetPhase(Ended(winner));
        }
      }
    }

    // ---- messages ---------------------------------------------------------------------------

    method OnMessage(slot: PlayerSlot, message: ClientMessage)
      requires Valid() && settlement != null
      modifies this`accepted, this`outbox, settlement
      ensures Valid() && old(State()).HasTerms() && State() == HandleMessage(cfg, old(State()), slot, message)
    {
      hide OfferError, AckError, FailureError, Apply, Sound;
      TermsAreIssued();
      match message {
        case Input(_) =>
        case AcceptTerms(matchId) =>
          if matchId == settlement.terms.matchId {
            accepted := accepted + {slot};
          }
        case InvoiceOffer(offer) =>
          var result := settlement.RegisterInvoiceOffer(slot, offer);
          if result.Success? {
            Send(result.value, OfferForwarded(offer));
          }
        case InvoiceAck(ack) =>
          var _ := settlement.Acknowledge(slot, ack);
        case InvoiceFailure(failure) =>
          var _ := settlement.RecordFailure(slot, failure);
      }
    }

    method OnPacket(p: Packet)
      requires Valid() && settlement != null
      modifies this`accepted, this`outbox, this`latestInputs, settlement
      ensures Valid() && old(State()).HasTerms() && State() == HandlePacket(cfg, old(State()), p)
    {
      hide HandleMessage, Sound;
      TermsAreIssued();
      if p.client in clients {
        var slot := clients[p.client];
        if p.reliable {
          OnMessage(slot, p.message);
        } else if p.message.Input? {
          var input := p.message.input.Sanitized();
          if input.sequence >= latestInputs.Get(slot).sequence {
            latestInputs := latestInputs.Set(slot, input);
          }
        }
      }
    }

    method OnPackets(ps: seq<Packet>)
      requires Valid() && settlement != null
      modifies this`accepted, this`outbox, this`latestInputs, settlement
      ensures Valid() && old(State()).HasTerms() && State() == HandlePackets(cfg, old(State()), ps)
    {
      hide HandlePacket, Sound;
      TermsAreIssued();
      for i := 0 to |ps|
        modifies this`accepted, this`outbox, this`latestInputs, settlement
        invariant Valid() && State() == HandlePackets(cfg, old(State()), ps[..i])
      {
        assert ps[..i + 1][..i] == ps[..i];
        OnPacket(ps[i]);
      }
      assert ps[..|ps|] == ps;
    }

    // ---- start and ticks --------------------------------------------------------------------

    method StartIfReady()
      requires Valid()
      modifies this`started, this`outbox, sim
      ensures Valid() && State() == Server.Start(old(State())) && (started ==> old(started) || settlement != null)
    {
      if started || ended || |clients| != 2 || |accepted| != 2 || settlement == null {
        return;
      }
      var held := settlement.CheckAllHeld();
      if held {
        started := true;
        sim.SetPhase(Live);
        Announce(MatchStarted);
      }
    }

    method OnEvent(e: MatchEvent, now: PerSlot<u64>)
      requires Valid() && settlement != null
      modifies this`outbox, this`ended, settlement, sim
      ensures Valid() && old(State()).HasTerms() && State() == HandleEvent(cfg, old(State()), e, now)
    {
      hide Apply, CapReached, Issued, EndMatch, Sound;
      TermsAreIssued();
      match e {
        case DamageEvent(attacker, victim, amount, _) =>
          var hit := Hit(attacker, victim, amount, serverTick, cfg.stateHash(sim.State()), now.Get(attacker));
          var result := settlement.RecordDamage(hit);
          if result.Success? {
            SendAllReleases(result.value);
          } else {
            sim.SetPhase(PaymentPaused(victim));
          }
        case DeathEvent(killer, _) =>
          CloseMatch(killer);
      }
    }

    method OnEvents(es: seq<MatchEvent>, now: PerSlot<u64>)
      requires Valid() && settlement != null
      modifies this`outbox, this`ended, settlement, sim
      ensures Valid() && old(State()).HasTerms() && State() == HandleEvents(cfg, old(State()), es, now)
    {
      hide HandleEvent, Sound;
      TermsAreIssued();
      for i := 0 to |es|
        modifies this`outbox, this`ended, settlement, sim
        invariant Valid() && State() == HandleEvents(cfg, old(State()), es[..i], now)
      {
        assert es[..i + 1][..i] == es[..i];
        OnEvent(es[i], now);
      }
      assert es[..|es|] == es;
    }

    /** A started match has terms, so its coordinator is never missing. */
    method OneStep(now: PerSlot<u64>)
      requires Valid() && (started ==> settlement != null)
      modifies this`serverTick, this`outbox, this`ended, settlement, sim
      ensures Valid() && State() == FixedStep(cfg, old(State()), now)
    {
      hide Tick, HandleEvents, Sound;
      serverTick := serverTick + 1;
      if started && !ended {
        TermsAreIssued();
        var events := sim.Step(latestInputs);
        OnEvents(events, now);
      }
    }

    method CatchUp(ticks: seq<PerSlot<u64>>)
      requires Valid() && (started ==> settlement != null)
      modifies this`serverTick, this`outbox, this`ended, settlement, sim
      ensures Valid() && State() == FixedSteps(cfg, old(State()), ticks)
    {
      hide FixedStep, Sound;
      for i := 0 to |ticks|
        modifies this`serverTick, this`outbox, this`ended, settlement, sim
        invariant Valid() && State() == FixedSteps(cfg, old(State()), ticks[..i])
      {
        assert ticks[..i + 1][..i] == ticks[..i];
        OneStep(ticks[i]);
      }
      assert ticks[..|ticks|] == ticks;
    }

    /** A pass up to the point where the start condition is looked at. */
    method Receive(r: Round)
      requires Valid() && EnoughPreimages(cfg, r.preimages)
      modifies this, sim, settlement
      ensures Valid() && State() == BeforeStart(cfg, old(State()), r)
      ensures started == old(started)
      ensures settlement == old(settlement) || (old(settlement) == null && fresh(settlement))
    {
      hide HandleConnections, IssueTerms, ForfeitMatch, HandlePackets, Sound;
      var disconnected := OnConnections(r.net);
      OfferTerms(r.preimages);
      Forfeit(disconnected, r.survivor);
      if settlement != null {
        TermsAreIssued();
        OnPackets(r.packets);
      }
    }

    /** One pass of the loop. */
    method Pass(r: Round)
      requires Valid() && EnoughPreimages(cfg, r.preimages) && (started ==> settlement != null)
      modifies this, sim, settlement
      ensures Valid() && State() == DoRound(cfg, old(State()), r) && (started ==> settlement != null)
      ensures settlement == old(settlement) || fresh(settlement)
    {
      hide BeforeStart, Server.Start, FixedSteps, Sound;
      Receive(r);
      StartIfReady();
      CatchUp(r.ticks);
    }
  }

  /** The server from its boot through any number of passes is in exactly the state of the run. */
  method RunServer(cfg: Config, inputs: PerSlot<InputFrame>, rounds: seq<Round>) returns (server: MatchServer)
    requires cfg.Valid() && Suitable(cfg, rounds)
    ensures fresh(server) && server.Valid() && server.State() == Serve(cfg, inputs, rounds)
  {
    hide DoRound, Sound;
    server := new MatchServer(cfg, inputs);
    for i := 0 to |rounds|
      invariant fresh(server) && fresh(server.sim) && (server.settlement != null ==> fresh(server.settlement))
      invariant server.Valid() && server.cfg == cfg && (server.started ==> server.settlement != null)
      invariant server.State() == Serve(cfg, inputs, rounds[..i])
    {
      assert rounds[..i + 1][..i] == rounds[..i];
      server.Pass(rounds[i]);
    }
    assert rounds[..|rounds|] == rounds;
  }

  /** What is sent depends on who is connected and on nothing else. */
  lemma {:induction false} SameCancellations(s: ServerState, t: ServerState, terms: seq<HoldInvoiceTerm>)
    requires s.clients == t.clients && s.outbox == t.outbox
    ensures SendCancellations(s, terms).outbox == SendCancellations(t, terms).outbox
  {
    if terms != [] {
      SameCancellations(s, t, terms[..|terms| - 1]);
      SendCancellationsFrame(s, terms[..|terms| - 1]);
      SendCancellationsFrame(t, terms[..|terms| - 1]);
    }
  }
}
