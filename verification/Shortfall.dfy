/**
 * A whole run of the server, from its boot, in which nobody reports a failure and yet the hit that
 * kills is refused payment: the match is over and the simulation says it is paused for payment.
 * One reservation for a bucket of 50 points covers half a life.
 */
module Shortfall {
  import opened Wrappers
  import opened Binary
  import opened Protocol
  import opened Settlement
  import opened Sim
  import opened Server
  import opened ServerRuns
  import opened EndToEnd
  import Matches

  // ---- the input ----------------------------------------------------------------------------

  const MATCH: u128 := 7
  const INVOICE: Bytes := [1, 2, 3]
  const ALICE := 0
  const BOB := 1
  const NOW: PerSlot<u64> := PerSlot(1000, 1000)

  function Key(x: u8): Bytes {
    seq(32, _ => x)
  }

  const PREIMAGES: seq<Bytes> := [Key(1), Key(2)]

  function ShortConfig(crypto: Crypto, aim: Aim, stateHash: SimState -> Bytes): (cfg: Config)
    ensures cfg.Valid() && !Covers(cfg)
  {
    Config(crypto, aim, stateHash, false, MATCH, Key(0), 1, 50, 1, 30_000)
  }

  ghost predicate Short(cfg: Config) {
    cfg == ShortConfig(cfg.crypto, cfg.aim, cfg.stateHash)
  }

  /** What the players ask for at first, and from A's only input on: A stands still and fires. */
  const IDLE := PerSlot(
    InputFrame(0, 0.0, 0.0, INITIAL.players.a.yaw, 0.0, false, false, false, false),
    InputFrame(0, 0.0, 0.0, INITIAL.players.b.yaw, 0.0, false, false, false, false))
  const FIRING := IDLE.(a := IDLE.a.(sequence := 1, fire := true))

  function OfferFor(c: Crypto, id: nat): ClientMessage
    requires id < 2
  {
    InvoiceOffer(HoldInvoiceOffer(MATCH, id, c.digest(PREIMAGES[id]), INVOICE))
  }

  function AckFor(c: Crypto, id: nat, stage: HoldInvoiceStage): ClientMessage
    requires id < 2
  {
    InvoiceAck(HoldInvoiceAck(MATCH, id, c.digest(PREIMAGES[id]), stage))
  }

  /** The messages of the lobby, one a round: acceptance, offers, funding, A's input, receipt. */
  function PacketAt(c: Crypto, n: nat): Packet
    requires n < 9
  {
    match n
    case 0 => Packet(ALICE, true, AcceptTerms(MATCH))
    case 1 => Packet(BOB, true, AcceptTerms(MATCH))
    case 2 => Packet(BOB, true, OfferFor(c, 0))
    case 3 => Packet(ALICE, true, OfferFor(c, 1))
    case 4 => Packet(ALICE, true, AckFor(c, 0, HoldInvoiceStage.Funded))
    case 5 => Packet(BOB, true, AckFor(c, 1, HoldInvoiceStage.Funded))
    case 6 => Packet(ALICE, false, Input(FIRING.a))
    case 7 => Packet(BOB, true, AckFor(c, 0, HoldInvoiceStage.Received))
    case _ => Packet(ALICE, true, AckFor(c, 1, HoldInvoiceStage.Received))
  }

  const ARRIVALS := [
    ClientConnected(ALICE, Some(Identity(A, Key(3))), []), ClientConnected(BOB, Some(Identity(B, Key(4))), [])]

  /** Both players arrive, nine messages are taken, and then the fixed steps come due one by one. */
  function RoundAt(c: Crypto, n: nat): Round {
    if n == 0 then Round(ARRIVALS, PREIMAGES, A, [], [])
    else if n < 10 then Round([], PREIMAGES, A, [PacketAt(c, n - 1)], [])
    else Round([], PREIMAGES, A, [], [NOW])
  }

  function Rounds(c: Crypto, n: nat): (rounds: seq<Round>)
    ensures |rounds| == n
    ensures forall k :: 0 <= k < n ==> rounds[k] == RoundAt(c, k)
  {
    if n == 0 then [] else Rounds(c, n - 1) + [RoundAt(c, n - 1)]
  }

  /**
   * Standing where a match begins and facing B, who has not moved either, A hits: B is straight
   * ahead, 16 away with a range of 32 (src/sim.rs:136-150).
   */
  ghost predicate HitsFromStart(aim: Aim) {
    forall a: HarnessPlayer, b: HarnessPlayer ::
      a.x == -8.0 && a.z == 0.0 && a.yaw == 0.0 && b.x == 8.0 && b.z == 0.0 ==> aim(a, b)
  }

  // ---- the lobby ----------------------------------------------------------------------------

  /** Reservation `id` after an offer, the payer's funding and the payee's receipt, as far as `step`. */
  function ReservationAt(c: Crypto, id: nat, step: nat): HoldReservation
    requires id < 2 && step <= 3
  {
    HoldReservation(
      HoldInvoiceTerm(id, PayerAt(1, id), PayerAt(1, id).Opponent(), 1, c.digest(PREIMAGES[id])), PREIMAGES[id],
      if step >= 1 then Some(INVOICE) else None, step >= 2, step >= 3,
      if step == 0 then AwaitingInvoice else if step < 3 then Offered else Held)
  }

  function LobbyLedger(c: Crypto, x: nat, y: nat): Ledger
    requires x <= 3 && y <= 3
  {
    var terms := [ReservationAt(c, 0, 0).term, ReservationAt(c, 1, 0).term];
    Ledger(MatchTerms(MATCH, 1, 50, 1, 30_000, c.verifyingKey(Key(0)), terms), Key(0), 1,
           PerSlot(0, 0), PerSlot(0, 0), [ReservationAt(c, 0, x), ReservationAt(c, 1, y)])
  }

  function FirstStep(n: nat): nat {
    if n < 3 then 0 else if n < 5 then 1 else if n < 8 then 2 else 3
  }

  function SecondStep(n: nat): nat {
    if n < 4 then 0 else if n < 6 then 1 else if n < 9 then 2 else 3
  }

  function AcceptedAt(n: nat): set<PlayerSlot> {
    if n == 0 then {} else if n == 1 then {A} else {A, B}
  }

  /** The server after `n` messages of the lobby. */
  ghost predicate InSetup(c: Crypto, s: ServerState, n: nat) {
    && s.clients == map[ALICE := A, BOB := B] && s.accepted == AcceptedAt(n)
    && s.sim == INITIAL && !s.started && !s.ended
    && s.latestInputs == (if n < 7 then IDLE else FIRING)
    && s.settlement.Some? && s.settlement.value.capErrors == 0
    && s.settlement.value.ledger == LobbyLedger(c, FirstStep(n), SecondStep(n))
  }

  lemma FreshLedger(cfg: Config)
    requires Short(cfg)
    ensures EnoughPreimages(cfg, PREIMAGES)
    ensures var b := TermsBook(cfg, PREIMAGES); b.ledger == LobbyLedger(cfg.crypto, 0, 0) && b.capErrors == 0
  {
    var l, l' := TermsBook(cfg, PREIMAGES).ledger, LobbyLedger(cfg.crypto, 0, 0);
    assert l.terms.holdInvoices == l'.terms.holdInvoices;
    assert l.reservations == l'.reservations;
  }

  lemma Arrive(cfg: Config)
    requires Short(cfg)
    ensures EnoughPreimages(cfg, PREIMAGES)
    ensures InSetup(cfg.crypto, DoRound(cfg, Booted(IDLE), RoundAt(cfg.crypto, 0)), 0)
  {
    var s, s0 := Booted(IDLE), HandleConnections(cfg, Booted(IDLE), ARRIVALS).0;
    FreshLedger(cfg);
    Seats(cfg);
    hide LobbyLedger, TermsBook, HandleConnections;
    var s1 := IssueTerms(cfg, s0, PREIMAGES);
    assert s1 == s0.(settlement := s1.settlement, outbox := s1.outbox);
    assert BeforeStart(cfg, s, RoundAt(cfg.crypto, 0)) == s1;
    assert Start(s1) == s1;
  }

  lemma Seats(cfg: Config)
    requires !cfg.devUnsecure
    ensures var (s, gone) := HandleConnections(cfg, Booted(IDLE), ARRIVALS);
      && gone == [] && |s.clients| == 2 && s.clients == map[ALICE := A, BOB := B]
      && s == Booted(IDLE).(clients := s.clients, players := s.players)
  {
    var s := Booted(IDLE);
    assert ARRIVALS[..1] == [ARRIVALS[0]] && ARRIVALS[..1][..0] == [];
    assert HandleConnections(cfg, s, []) == (s, []);
    var s1 := s.(clients := map[ALICE := A], players := s.players.Set(A, Some(Key(3))));
    assert HandleConnection(cfg, s, ARRIVALS[0]) == (s1, []);
    assert HandleConnections(cfg, s, ARRIVALS[..1]) == (s1, [] + []);
    assert B !in s1.clients.Values;
    assert map[ALICE := A, BOB := B].Keys == {ALICE, BOB};
  }

  lemma Sends(cfg: Config, s: ServerState, n: nat)
    requires InSetup(cfg.crypto, s, n) && n < 9
    ensures s.HasTerms() && InSetup(cfg.crypto, HandlePacket(cfg, s, PacketAt(cfg.crypto, n)), n + 1)
  {
    var c := cfg.crypto;
    hide RegisterOffer, Acknowledge, OfferError;
    if n in {2, 3} {
      Offers(c, n - 2, FirstStep(n), SecondStep(n));
    } else if n in {4, 5} {
      Acks(c, n - 4, HoldInvoiceStage.Funded, FirstStep(n), SecondStep(n));
    } else if n in {7, 8} {
      Acks(c, n - 7, HoldInvoiceStage.Received, FirstStep(n), SecondStep(n));
    } else {
      hide LobbyLedger;
    }
  }

  lemma Offers(c: Crypto, id: nat, x: nat, y: nat)
    requires id < 2 && x <= 3 && y <= 3 && (if id == 0 then x else y) == 0
    ensures RegisterOffer(LobbyLedger(c, x, y), PayerAt(1, id).Opponent(), OfferFor(c, id).offer)
         == if id == 0 then LobbyLedger(c, 1, y) else LobbyLedger(c, x, 1)
  {
  }

  lemma Acks(c: Crypto, id: nat, stage: HoldInvoiceStage, x: nat, y: nat)
    requires id < 2 && x <= 3 && y <= 3 && stage in {HoldInvoiceStage.Funded, HoldInvoiceStage.Received}
    requires (if id == 0 then x else y) == if stage == HoldInvoiceStage.Funded then 1 else 2
    ensures Acknowledge(LobbyLedger(c, x, y), Reporter(ReservationAt(c, id, 0).term, stage), AckFor(c, id, stage).ack)
         == if id == 0 then LobbyLedger(c, x + 1, y) else LobbyLedger(c, x, y + 1)
  {
  }

  lemma LobbyRound(cfg: Config, s: ServerState, n: nat)
    requires cfg.Valid() && EnoughPreimages(cfg, PREIMAGES) && InSetup(cfg.crypto, s, n) && n < 9
    ensures s.HasTerms()
    ensures DoRound(cfg, s, RoundAt(cfg.crypto, n + 1)) == Start(HandlePacket(cfg, s, PacketAt(cfg.crypto, n)))
  {
    var p, r := PacketAt(cfg.crypto, n), RoundAt(cfg.crypto, n + 1);
    hide HandlePacket, PacketAt, LobbyLedger, Start, ValidConfiguration, PerPlayer;
    assert HandleConnections(cfg, s, []) == (s, []);
    assert IssueTerms(cfg, s, PREIMAGES) == s;
    assert r.packets[..0] == [];
    assert BeforeStart(cfg, s, r) == HandlePackets(cfg, s, [p]) == HandlePacket(cfg, s, p);
  }

  lemma LobbyStep(cfg: Config, s: ServerState, n: nat)
    requires cfg.Valid() && EnoughPreimages(cfg, PREIMAGES) && InSetup(cfg.crypto, s, n) && n < 8
    ensures InSetup(cfg.crypto, DoRound(cfg, s, RoundAt(cfg.crypto, n + 1)), n + 1)
  {
    Sends(cfg, s, n);
    LobbyRound(cfg, s, n);
    hide DoRound, HandlePacket, PacketAt, RoundAt, ValidConfiguration;
    var s' := HandlePacket(cfg, s, PacketAt(cfg.crypto, n));
    var l := s'.settlement.value.ledger;
    assert l.reservations[1].status != Held;
    assert l.reservations[1] in l.reservations;
    assert Start(s') == s';
  }

  // ---- the match ----------------------------------------------------------------------------

  /** Shots A has fired after `k` ticks: one in the first, and one in every twelfth after it. */
  function ShotsBy(k: nat): nat {
    (k + 11) / 12
  }

  /** The simulation after `k` ticks of the match, none of which killed. */
  function DuelSim(k: nat): SimState
    requires k <= 36
  {
    SimState(k, Live, PerSlot(
      INITIAL.players.a.(lastInputSequence := if k == 0 then 0 else 1,
                         lastShotTick := if k == 0 then None else Some(12 * ShotsBy(k) - 11)),
      INITIAL.players.b.(health := 100 - 25 * ShotsBy(k))))
  }

  /** The events of tick `k + 1`. */
  function EventsAt(k: nat): seq<MatchEvent>
    requires k <= 36
  {
    if k % 12 != 0 then [] else
      var hit := DamageEvent(A, B, SHOT_DAMAGE, 75 - 25 * ShotsBy(k));
      if k < 36 then [hit] else [hit, DeathEvent(A, B)]
  }

  lemma Misses(aim: Aim, s: SimState, p: PlayerSlot, input: InputFrame)
    ensures !input.fire || !CanFire(s.players.Get(p), s.tick) ==> Fire(aim, s, p, input) == (s, [])
  {
  }

  lemma Hits(aim: Aim, s: SimState, input: InputFrame)
    requires Shoots(s, A, input) && aim(s.players.a.(lastShotTick := Some(s.tick)), s.players.b)
    requires s.players.b.health > SHOT_DAMAGE
    ensures var health := s.players.b.health - SHOT_DAMAGE;
      Fire(aim, s, A, input) ==
      (s.(players := PerSlot(s.players.a.(lastShotTick := Some(s.tick)), s.players.b.(health := health))),
       [DamageEvent(A, B, SHOT_DAMAGE, health)])
  {
  }

  lemma ShotAt(k: nat)
    requires k <= 36
    ensures ShotsBy(k + 1) == ShotsBy(k) + if k % 12 == 0 then 1 else 0
    ensures ShotsBy(k) <= 3
    ensures if k % 12 == 0 then 12 * ShotsBy(k) == k else 12 * ShotsBy(k) > k
    ensures ShotsBy(k) == 3 ==> k > 24
  {
  }

  /** The simulation as tick `k + 1` finds it, once both players have taken their input. */
  function Moving(k: nat): SimState
    requires k <= 36
  {
    SimState(k + 1, Live, DuelSim(k).players.(a := DuelSim(k).players.a.(lastInputSequence := 1)))
  }

  lemma StandStill(k: nat)
    requires k <= 36
    ensures Advance(DuelSim(k), FIRING) == Moving(k)
  {
  }

  lemma TickAt(aim: Aim, k: nat)
    requires HitsFromStart(aim) && k < 36
    ensures Tick(aim, DuelSim(k), FIRING) == (DuelSim(k + 1), EventsAt(k))
  {
    StandStill(k);
    FireAt(aim, k);
    Misses(aim, DuelSim(k + 1), B, FIRING.b);
    assert DuelSim(k).phase == DuelSim(k + 1).phase == Live;
    hide ShotsBy, Advance, Moving, Fire, EventsAt, DuelSim;
    assert EventsAt(k) + [] == EventsAt(k);
  }

  lemma FireAt(aim: Aim, k: nat)
    requires HitsFromStart(aim) && k < 36
    ensures Fire(aim, Moving(k), A, FIRING.a) == (DuelSim(k + 1), EventsAt(k))
  {
    hide *;
    if k % 12 == 0 {
      FiresAt(aim, k);
    } else {
      WaitsAt(aim, k);
    }
  }

  lemma FiresAt(aim: Aim, k: nat)
    requires HitsFromStart(aim) && k < 36 && k % 12 == 0
    ensures Fire(aim, Moving(k), A, FIRING.a) == (DuelSim(k + 1), EventsAt(k))
  {
    var s := Moving(k);
    hide HitsFromStart, ShotsBy, Fire, Wounded, DuelSim, Moving, EventsAt;
    ReadyAt(k);
    HitBy(k);
    FromStart(aim, s.players.a.(lastShotTick := Some(s.tick)), s.players.b);
    Hits(aim, s, FIRING.a);
  }

  lemma ReadyAt(k: nat)
    requires k < 36 && k % 12 == 0
    ensures var s, a, b := Moving(k), Moving(k).players.a, Moving(k).players.b;
      && Shoots(s, A, FIRING.a) && b.health > SHOT_DAMAGE
      && a.x == -8.0 && a.z == 0.0 && a.yaw == 0.0 && b.x == 8.0 && b.z == 0.0
  {
    ShotAt(k);
    hide ShotsBy;
  }

  lemma HitBy(k: nat)
    requires k < 36 && k % 12 == 0
    ensures var s, a, b := Moving(k), Moving(k).players.a, Moving(k).players.b;
      && b.health >= SHOT_DAMAGE
      && DuelSim(k + 1)
         == s.(players := PerSlot(a.(lastShotTick := Some(s.tick)), b.(health := b.health - SHOT_DAMAGE)))
      && EventsAt(k) == [DamageEvent(A, B, SHOT_DAMAGE, b.health - SHOT_DAMAGE)]
  {
    ShotAt(k);
    hide ShotsBy;
  }

  lemma WaitsAt(aim: Aim, k: nat)
    requires k < 36 && k % 12 != 0
    ensures Fire(aim, Moving(k), A, FIRING.a) == (DuelSim(k + 1), EventsAt(k))
  {
    ShotAt(k);
    hide ShotsBy, Fire;
    Misses(aim, Moving(k), A, FIRING.a);
  }

  lemma FromStart(aim: Aim, a: HarnessPlayer, b: HarnessPlayer)
    requires HitsFromStart(aim) && a.x == -8.0 && a.z == 0.0 && a.yaw == 0.0 && b.x == 8.0 && b.z == 0.0
    ensures aim(a, b)
  {
  }

  lemma LastTick(aim: Aim)
    requires HitsFromStart(aim)
    ensures var (sim, events) := Tick(aim, DuelSim(36), FIRING);
      events == EventsAt(36) && sim.phase == Ended(A) && !sim.players.b.alive
  {
    StandStill(36);
  }

  /** The ledger after `h` hits on B: two make one bucket, for which there is one reservation. */
  function MatchLedger(c: Crypto, h: nat): (l: Ledger)
    requires h <= 3
    ensures l.terms.damageBucket == 50
  {
    var l := LobbyLedger(c, 3, 3);
    l.(nextSequence := if h < 2 then 1 else 2,
       damageRemainder := PerSlot(0, if h == 1 || h == 3 then 25 else 0),
       releasedTotal := PerSlot(0, if h < 2 then 0 else 1),
       reservations := [l.reservations[0], l.reservations[1].(status := if h < 2 then Held else Released)])
  }

  lemma HeldByB(rs: seq<HoldReservation>)
    requires |rs| == 2 && rs[0].term.payer == A && rs[1].term.payer == B
    ensures HeldIds(rs, B) == if rs[1].status == Held then [1] else []
  {
    var ids := HeldIds(rs, B);
    assert forall k :: 0 <= k < |ids| ==> HeldBy(rs[ids[k]], B) && ids[k] == 1;
    assert ids != [] ==> ids[0] == 1 && ids[|ids| - 1] == 1;
    assert HeldBy(rs[1], B) ==> 1 in ids;
  }

  lemma OwedByB(c: Crypto, h: nat, hit: Hit)
    requires h <= 3 && hit.victim == B && hit.damage == SHOT_DAMAGE
    ensures var l := MatchLedger(c, h);
      && Owed(l, hit) == (if h == 1 || h == 3 then 50 else 25)
      && BucketsOwed(l, hit) == (if h == 1 || h == 3 then 1 else 0)
      && Payable(l, hit) == (if h == 1 then [1] else [])
      && (CapReached(l, hit) <==> h == 3)
  {
    hide MatchLedger, HeldIds, Buckets, BucketsOwed, Owed, Payable, CapReached;
    MatchFacts(c, h);
    HalfABucket(MatchLedger(c, h), hit);
  }

  lemma MatchFacts(c: Crypto, h: nat)
    requires h <= 3
    ensures var l := MatchLedger(c, h);
      && l.damageRemainder.b == (if h == 1 || h == 3 then 25 else 0)
      && HeldIds(l.reservations, B) == (if h < 2 then [1] else [])
  {
    HeldByB(MatchLedger(c, h).reservations);
    hide HeldIds;
  }

  /** What a hit owes when nothing or half a bucket is left from before. */
  lemma HalfABucket(l: Ledger, hit: Hit)
    requires l.terms.damageBucket == 50 && hit.victim == B && hit.damage == SHOT_DAMAGE
    requires l.damageRemainder.b == 0 || l.damageRemainder.b == 25
    ensures var due, held := if l.damageRemainder.b == 0 then 0 else 1, HeldIds(l.reservations, B);
      && Owed(l, hit) == l.damageRemainder.b + 25
      && BucketsOwed(l, hit) == due
      && Payable(l, hit) == held[..Min(due, |held|)]
      && (CapReached(l, hit) <==> due > |held|)
  {
    assert Buckets(25, 50) == 0 && Buckets(50, 50) == 1 + Buckets(0, 50);
    hide HeldIds, Buckets;
  }

  lemma HitOnB(c: Crypto, h: nat, hit: Hit)
    requires h <= 3 && hit.victim == B && hit.damage == SHOT_DAMAGE
    ensures CapReached(MatchLedger(c, h), hit) <==> h == 3
    ensures h < 3 ==> Settlement.RecordDamage(MatchLedger(c, h), hit) == MatchLedger(c, h + 1)
    ensures h == 3 ==> Settlement.RecordDamage(MatchLedger(c, h), hit).reservations == MatchLedger(c, 3).reservations
  {
    var l := MatchLedger(c, h);
    OwedByB(c, h, hit);
    hide Payable, BucketsOwed, Owed, CapReached;
    if h == 1 {
      SecondHit(c, hit);
    } else {
      assert MarkReleased(l.reservations, []) == l.reservations;
    }
  }

  lemma SecondHit(c: Crypto, hit: Hit)
    requires hit.victim == B && hit.damage == SHOT_DAMAGE && BucketsOwed(MatchLedger(c, 1), hit) == 1
    requires Owed(MatchLedger(c, 1), hit) == 50
    ensures Pay(MatchLedger(c, 1), hit, [1]) == MatchLedger(c, 2)
  {
    var l := MatchLedger(c, 1);
    hide BucketsOwed, Owed;
    assert [1][..0] == [];
    assert AmountOf(l.reservations, [1]) == AmountOf(l.reservations, []) + l.reservations[1].term.amount == 1;
    assert Left(50, 1, 50) == Left(0, 0, 50) == 0;
    assert MarkReleased(l.reservations, [1]) == MatchLedger(c, 2).reservations;
  }

  /** The server after `k` ticks of the match. */
  ghost predicate Fighting(c: Crypto, s: ServerState, k: nat)
    requires k <= 36
  {
    && s.sim == DuelSim(k) && s.latestInputs == FIRING && s.started && !s.ended
    && s.settlement.Some? && s.settlement.value.capErrors == 0
    && s.settlement.value.ledger == MatchLedger(c, ShotsBy(k))
  }

  lemma MatchStarts(cfg: Config, s: ServerState)
    requires cfg.Valid() && EnoughPreimages(cfg, PREIMAGES) && InSetup(cfg.crypto, s, 8)
    ensures Fighting(cfg.crypto, DoRound(cfg, s, RoundAt(cfg.crypto, 9)), 0)
  {
    Sends(cfg, s, 8);
    LobbyRound(cfg, s, 8);
    hide DoRound, HandlePacket, PacketAt, RoundAt, InSetup, Fighting, ValidConfiguration, Start;
    AllAreHeld(cfg.crypto, HandlePacket(cfg, s, PacketAt(cfg.crypto, 8)));
  }

  lemma AllAreHeld(c: Crypto, s: ServerState)
    requires InSetup(c, s, 9)
    ensures Fighting(c, Start(s), 0)
  {
    assert s.clients.Keys == {ALICE, BOB};
    assert AllHeld(s.settlement.value.ledger);
    assert LobbyLedger(c, 3, 3) == MatchLedger(c, ShotsBy(0));
  }

  lemma QuietRound(cfg: Config, s: ServerState, n: nat)
    requires cfg.Valid() && EnoughPreimages(cfg, PREIMAGES) && s.HasTerms() && s.started && n >= 10
    ensures DoRound(cfg, s, RoundAt(cfg.crypto, n)) == FixedStep(cfg, s, NOW)
  {
    var r := RoundAt(cfg.crypto, n);
    hide FixedStep, ValidConfiguration, PerPlayer;
    assert HandleConnections(cfg, s, []) == (s, []);
    assert BeforeStart(cfg, s, r) == HandlePackets(cfg, s, []) == s;
    assert [NOW][..0] == [];
    assert FixedSteps(cfg, s, [NOW]) == FixedStep(cfg, FixedSteps(cfg, s, []), NOW);
  }

  lemma OneHit(cfg: Config, s: ServerState, e: MatchEvent, h: nat)
    requires s.settlement.Some? && h < 3 && s.settlement.value.ledger == MatchLedger(cfg.crypto, h)
    requires s.settlement.value.capErrors == 0
    requires e.DamageEvent? && e.victim == B && e.amount == SHOT_DAMAGE
    ensures s.HasTerms()
    ensures var s' := HandleEvent(cfg, s, e, NOW);
      && s' == s.(settlement := s'.settlement, outbox := s'.outbox) && s'.settlement.Some?
      && s'.settlement.value.ledger == MatchLedger(cfg.crypto, h + 1) && s'.settlement.value.capErrors == 0
  {
    var b, hit := s.settlement.value, HitOf(cfg, s, e, NOW.Get(e.attacker));
    HitOnB(cfg.crypto, h, hit);
    hide CapReached, Issued, Settlement.RecordDamage;
    SendReleasesFrame(s.(settlement := Some(Apply(cfg.crypto, b, Damaged(hit)))), Issued(cfg.crypto, b.ledger, hit));
  }

  lemma MatchRound(cfg: Config, s: ServerState, k: nat)
    requires Short(cfg) && HitsFromStart(cfg.aim) && EnoughPreimages(cfg, PREIMAGES)
    requires k < 36 && Fighting(cfg.crypto, s, k)
    ensures Fighting(cfg.crypto, DoRound(cfg, s, RoundAt(cfg.crypto, 10 + k)), k + 1)
  {
    var s1 := s.(serverTick := s.serverTick + 1, sim := DuelSim(k + 1));
    TickAt(cfg.aim, k);
    ShotAt(k);
    assert s.HasTerms();
    hide Tick, DuelSim, FixedStep, DoRound, RoundAt, ShotsBy, MatchLedger, HandleEvents, EventsAt, HitsFromStart;
    QuietRound(cfg, s, 10 + k);
    TickShape(cfg, s, NOW);
    EventsTold(cfg, s1, k);
  }

  lemma EventsTold(cfg: Config, s: ServerState, k: nat)
    requires s.settlement.Some? && k < 36 && s.settlement.value.ledger == MatchLedger(cfg.crypto, ShotsBy(k))
    requires s.settlement.value.capErrors == 0 && s.HasTerms()
    ensures var s' := HandleEvents(cfg, s, EventsAt(k), NOW);
      && s' == s.(settlement := s'.settlement, outbox := s'.outbox) && s'.settlement.Some?
      && s'.settlement.value.ledger == MatchLedger(cfg.crypto, ShotsBy(k + 1)) && s'.settlement.value.capErrors == 0
  {
    ShotAt(k);
    hide ShotsBy, MatchLedger, HandleEvent;
    if k % 12 == 0 {
      var e := EventsAt(k)[0];
      OneHit(cfg, s, e, ShotsBy(k));
      assert [e][..0] == [];
      assert HandleEvents(cfg, s, [e], NOW) == HandleEvent(cfg, HandleEvents(cfg, s, [], NOW), e, NOW);
    }
  }

  /** Over by a death, announced, with one bucket paid of two, the other refused, and nothing failed. */
  ghost predicate InArrears(s: ServerState) {
    && s.started && s.ended && !s.sim.players.b.alive
    && s.outbox != [] && s.outbox[|s.outbox| - 1] == Broadcast(MatchEnded(A))
    && s.settlement.Some? && Matches.NoneFailed(s.settlement.value)
    && s.settlement.value.capErrors == 1 && s.settlement.value.ledger.releasedTotal.b == 1
    && s.sim.phase == PaymentPaused(B)
  }

  lemma RefusedHit(cfg: Config, s: ServerState, e: MatchEvent)
    requires s.settlement.Some? && s.settlement.value.ledger == MatchLedger(cfg.crypto, 3)
    requires s.settlement.value.capErrors == 0
    requires e.DamageEvent? && e.victim == B && e.amount == SHOT_DAMAGE
    ensures s.HasTerms()
    ensures var s' := HandleEvent(cfg, s, e, NOW);
      && s' == s.(settlement := s'.settlement, sim := s.sim.(phase := PaymentPaused(B))) && s'.HasTerms()
      && s'.settlement.value.ledger.reservations == MatchLedger(cfg.crypto, 3).reservations
      && s'.settlement.value.ledger.releasedTotal == PerSlot(0, 1) && s'.settlement.value.capErrors == 1
  {
    var b, hit := s.settlement.value, HitOf(cfg, s, e, NOW.Get(e.attacker));
    HitOnB(cfg.crypto, 3, hit);
    hide CapReached, Issued, Settlement.RecordDamage;
  }

  lemma DeathAfter(cfg: Config, s: ServerState, e: MatchEvent)
    requires s.HasTerms() && s.started && !s.sim.players.b.alive && s.sim.phase == PaymentPaused(B)
    requires s.settlement.value.ledger.reservations == MatchLedger(cfg.crypto, 3).reservations
    requires s.settlement.value.ledger.releasedTotal.b == 1 && s.settlement.value.capErrors == 1
    requires e == DeathEvent(A, B)
    ensures InArrears(HandleEvent(cfg, s, e, NOW))
  {
    hide CancelledTerms, SendCancellations;
    SendCancellationsFrame(s, CancelledTerms(s.settlement.value.ledger.reservations));
  }

  lemma TwoEvents(cfg: Config, s: ServerState, e: MatchEvent, e': MatchEvent)
    requires s.HasTerms() && HandleEvent(cfg, s, e, NOW).HasTerms()
    ensures HandleEvents(cfg, s, [e, e'], NOW) == HandleEvent(cfg, HandleEvent(cfg, s, e, NOW), e', NOW)
  {
    hide HandleEvent;
    assert [e, e'][..1] == [e] && [e][..0] == [];
    assert HandleEvents(cfg, s, [e], NOW) == HandleEvent(cfg, HandleEvents(cfg, s, [], NOW), e, NOW);
  }

  lemma LastEvents(cfg: Config, s: ServerState)
    requires s.settlement.Some? && s.settlement.value.ledger == MatchLedger(cfg.crypto, 3)
    requires s.settlement.value.capErrors == 0 && s.started && !s.sim.players.b.alive
    ensures s.HasTerms() && InArrears(HandleEvents(cfg, s, EventsAt(36), NOW))
  {
    var hit, death := DamageEvent(A, B, SHOT_DAMAGE, 0), DeathEvent(A, B);
    assert EventsAt(36) == [hit, death];
    hide MatchLedger, HandleEvent, HandleEvents, EventsAt, InArrears;
    RefusedHit(cfg, s, hit);
    TwoEvents(cfg, s, hit, death);
    DeathAfter(cfg, HandleEvent(cfg, s, hit, NOW), death);
  }

  /** The hit that kills is refused, and the death then ends the match all the same. */
  lemma MatchEnds(cfg: Config, s: ServerState)
    requires Short(cfg) && HitsFromStart(cfg.aim) && EnoughPreimages(cfg, PREIMAGES)
    requires Fighting(cfg.crypto, s, 36)
    ensures InArrears(DoRound(cfg, s, RoundAt(cfg.crypto, 46)))
  {
    LastTick(cfg.aim);
    assert s.HasTerms() && ShotsBy(36) == 3;
    hide Tick, DuelSim, FixedStep, DoRound, RoundAt, ShotsBy, MatchLedger, HandleEvents, EventsAt, InArrears,
         HitsFromStart;
    QuietRound(cfg, s, 46);
    TickShape(cfg, s, NOW);
    LastEvents(cfg, s.(serverTick := s.serverTick + 1, sim := Tick(cfg.aim, s.sim, s.latestInputs).0));
  }

  // ---- the whole run ------------------------------------------------------------------------

  lemma {:induction false} SetupRun(cfg: Config, n: nat)
    requires Short(cfg) && n <= 8
    ensures Suitable(cfg, Rounds(cfg.crypto, n + 1))
    ensures InSetup(cfg.crypto, Serve(cfg, IDLE, Rounds(cfg.crypto, n + 1)), n)
  {
    hide *;
    ServeMore(cfg, n);
    if n == 0 {
      Arrive(cfg);
    } else {
      SetupRun(cfg, n - 1);
      LobbyStep(cfg, Serve(cfg, IDLE, Rounds(cfg.crypto, n)), n - 1);
    }
  }

  lemma AllSuitable(cfg: Config, n: nat)
    requires Short(cfg)
    ensures Suitable(cfg, Rounds(cfg.crypto, n)) && EnoughPreimages(cfg, PREIMAGES)
  {
    FreshLedger(cfg);
    hide EnoughPreimages, Rounds;
  }

  lemma ServeMore(cfg: Config, n: nat)
    requires Short(cfg)
    ensures Suitable(cfg, Rounds(cfg.crypto, n)) && Suitable(cfg, Rounds(cfg.crypto, n + 1))
    ensures cfg.Valid() && EnoughPreimages(cfg, PREIMAGES)
    ensures Rounds(cfg.crypto, 0) == [] && Serve(cfg, IDLE, []) == Booted(IDLE)
    ensures Serve(cfg, IDLE, Rounds(cfg.crypto, n + 1))
         == DoRound(cfg, Serve(cfg, IDLE, Rounds(cfg.crypto, n)), RoundAt(cfg.crypto, n))
  {
    AllSuitable(cfg, n);
    AllSuitable(cfg, n + 1);
    hide DoRound, RoundAt, EnoughPreimages;
    assert Rounds(cfg.crypto, n + 1)[..n] == Rounds(cfg.crypto, n);
  }

  lemma {:induction false} MatchRun(cfg: Config, k: nat)
    requires Short(cfg) && HitsFromStart(cfg.aim) && k <= 36
    ensures Suitable(cfg, Rounds(cfg.crypto, 10 + k))
    ensures Fighting(cfg.crypto, Serve(cfg, IDLE, Rounds(cfg.crypto, 10 + k)), k)
  {
    hide *;
    ServeMore(cfg, 9 + k);
    if k == 0 {
      SetupRun(cfg, 8);
      MatchStarts(cfg, Serve(cfg, IDLE, Rounds(cfg.crypto, 9)));
    } else {
      MatchRun(cfg, k - 1);
      MatchRound(cfg, Serve(cfg, IDLE, Rounds(cfg.crypto, 9 + k)), k - 1);
    }
  }

  /**
   * Forty-seven rounds from the boot. Nobody leaves and nobody reports a failure; the fourth hit
   * kills B and completes a bucket for which no reservation is left.
   */
  lemma KilledInArrears(crypto: Crypto, aim: Aim, stateHash: SimState -> Bytes)
    requires HitsFromStart(aim)
    ensures var cfg, rounds := ShortConfig(crypto, aim, stateHash), Rounds(crypto, 47);
      && Suitable(cfg, rounds) && Clean(Serve(cfg, IDLE, rounds)) && InArrears(Serve(cfg, IDLE, rounds))
  {
    var cfg := ShortConfig(crypto, aim, stateHash);
    assert Short(cfg);
    ServeMore(cfg, 46);
    MatchRun(cfg, 36);
    hide RoundAt, DoRound, Fighting, Serve, Short, HitsFromStart, Rounds, Suitable, ShortConfig;
    MatchEnds(cfg, Serve(cfg, IDLE, Rounds(crypto, 46)));
  }
}
