/** From shots to payments: with enough reservations, every hit of a match is paid for, bucket by bucket. */
module EndToEnd {
  import opened Wrappers
  import opened Binary
  import opened Protocol
  import opened Arithmetic
  import opened Sequences
  import opened Settlement
  import opened Accounting
  import opened Histories
  import opened Sim
  import opened Server
  import opened ServerRuns
  import opened Matches
  import Runs

  /** Damage a player has taken. */
  function Dealt(hits: PerSlot<nat>, p: PlayerSlot): nat {
    25 * hits.Get(p)
  }

  function Whole(dealt: nat, bucket: nat): nat
    requires bucket > 0
  {
    dealt / bucket
  }

  function Rest(dealt: nat, bucket: nat): nat
    requires bucket > 0
  {
    dealt % bucket
  }

  /** The books record exactly the damage dealt: whole buckets as releases, the rest as remainder. */
  ghost predicate Settles(b: Book, hits: PerSlot<nat>)
    requires b.ledger.terms.damageBucket > 0
  {
    && b.capErrors == 0
    && forall p: PlayerSlot ::
         && b.ledger.damageRemainder.Get(p) == Rest(Dealt(hits, p), b.ledger.terms.damageBucket)
         && |IdsOf(b.issued, p)| == Whole(Dealt(hits, p), b.ledger.terms.damageBucket)
  }

  /** Every reservation not yet released is still held. */
  ghost predicate Backed(b: Book, hits: PerSlot<nat>, quota: nat)
    requires b.ledger.terms.damageBucket > 0
  {
    forall p: PlayerSlot ::
      |HeldIds(b.ledger.reservations, p)| + Whole(Dealt(hits, p), b.ledger.terms.damageBucket) == quota
  }

  function Hitting(hits: PerSlot<nat>, victim: PlayerSlot): PerSlot<nat> {
    hits.Set(victim, hits.Get(victim) + 1)
  }

  lemma DealtAfter(hits: PerSlot<nat>, victim: PlayerSlot, p: PlayerSlot)
    ensures Dealt(Hitting(hits, victim), p) == Dealt(hits, p) + if p == victim then 25 else 0
  {
  }

  // ---------------------------------------------------------------------------
  // One hit
  // ---------------------------------------------------------------------------

  lemma SumOfQuotients(q: nat, q': nat, bucket: nat, r: nat, r': nat, more: nat)
    requires r + more == q' * bucket + r'
    ensures q * bucket + r + more == (q + q') * bucket + r'
  {
    assert (q + q') * bucket == q * bucket + q' * bucket;
  }

  lemma BucketStep(dealt: nat, more: nat, bucket: nat)
    requires bucket > 0
    ensures Whole(dealt, bucket) + Buckets(Rest(dealt, bucket) + more, bucket) == Whole(dealt + more, bucket)
    ensures Left(Rest(dealt, bucket) + more, Buckets(Rest(dealt, bucket) + more, bucket), bucket) ==
            Rest(dealt + more, bucket)
  {
    var q, r := dealt / bucket, dealt % bucket;
    var q', r' := (r + more) / bucket, (r + more) % bucket;
    hide Buckets, Left;
    BucketsAreQuotient(r + more, bucket);
    LeftIsRemainder(r + more, bucket);
    SumOfQuotients(q, q', bucket, r, r', more);
    DivisionUnique(dealt + more, bucket, q + q', r');
  }

  lemma RestIsLess(dealt: nat, bucket: nat)
    requires bucket > 0
    ensures Rest(dealt, bucket) <= dealt
  {
    ProductSign(dealt / bucket, bucket);
    assert dealt == dealt / bucket * bucket + dealt % bucket;
  }

  lemma QuotientMonotone(x: nat, y: nat, bucket: nat)
    requires bucket > 0 && x <= y
    ensures Whole(x, bucket) <= Whole(y, bucket)
  {
    assert (y / bucket + 1) * bucket == y / bucket * bucket + bucket;
    if y / bucket + 1 <= x / bucket {
      ProductMonotone(y / bucket + 1, x / bucket, bucket);
    }
  }

  /** What a hit owes are the buckets it completes; with enough for a whole life, that much is held. */
  lemma HitBuckets(b: Book, hits: PerSlot<nat>, quota: nat, hit: Hit)
    requires b.ledger.terms.damageBucket > 0 && Settles(b, hits) && Backed(b, hits, quota)
    requires hit.damage == 25 && hits.Get(hit.victim) <= 3
    ensures quota >= Whole(100, b.ledger.terms.damageBucket) ==> !CapReached(b.ledger, hit)
    ensures var bucket, dealt := b.ledger.terms.damageBucket, Dealt(hits, hit.victim);
            && Whole(dealt, bucket) + BucketsOwed(b.ledger, hit) == Whole(dealt + 25, bucket)
            && Left(Owed(b.ledger, hit), BucketsOwed(b.ledger, hit), bucket) == Rest(dealt + 25, bucket)
  {
    var bucket, dealt := b.ledger.terms.damageBucket, Dealt(hits, hit.victim);
    hide HeldIds, IdsOf, Buckets, Left, Whole, Rest;
    BucketStep(dealt, 25, bucket);
    RestIsLess(dealt, bucket);
    assert Owed(b.ledger, hit) == Rest(dealt, bucket) + 25;
    QuotientMonotone(dealt + 25, 100, bucket);
  }

  lemma CoveredHit(l: Ledger, hit: Hit)
    requires l.terms.damageBucket > 0 && !CapReached(l, hit)
    ensures |Payable(l, hit)| == BucketsOwed(l, hit)
    ensures RecordDamage(l, hit).damageRemainder.Get(hit.victim) ==
            Left(Owed(l, hit), BucketsOwed(l, hit), l.terms.damageBucket)
  {
    hide HeldIds, Left, Buckets, Owed, AmountOf, MarkReleased;
  }

  lemma RecordKeepsTerms(l: Ledger, hit: Hit)
    requires l.terms.damageBucket > 0
    ensures RecordDamage(l, hit).terms == l.terms
  {
    hide Payable, Left, AmountOf, MarkReleased;
  }

  lemma SettlesFor(b: Book, hits: PerSlot<nat>, quota: nat, p: PlayerSlot)
    requires b.ledger.terms.damageBucket > 0 && Settles(b, hits) && Backed(b, hits, quota)
    ensures b.ledger.damageRemainder.Get(p) == Rest(Dealt(hits, p), b.ledger.terms.damageBucket)
    ensures |IdsOf(b.issued, p)| == Whole(Dealt(hits, p), b.ledger.terms.damageBucket)
    ensures |HeldIds(b.ledger.reservations, p)| + Whole(Dealt(hits, p), b.ledger.terms.damageBucket) == quota
  {
    hide IdsOf, HeldIds, Rest, Whole, Dealt;
  }

  /** What is known of player `p` when a hit comes in, and what the hit adds. */
  ghost predicate HitFacts(b: Book, hits: PerSlot<nat>, quota: nat, hit: Hit, p: PlayerSlot)
    requires b.ledger.terms.damageBucket > 0
  {
    var bucket, before, after := b.ledger.terms.damageBucket, Dealt(hits, p), Dealt(Hitting(hits, hit.victim), p);
    && !CapReached(b.ledger, hit)
    && b.ledger.damageRemainder.Get(p) == Rest(before, bucket)
    && |IdsOf(b.issued, p)| == Whole(before, bucket)
    && |HeldIds(b.ledger.reservations, p)| + Whole(before, bucket) == quota
    && (p == hit.victim ==>
          && Whole(before, bucket) + BucketsOwed(b.ledger, hit) == Whole(after, bucket)
          && Left(Owed(b.ledger, hit), BucketsOwed(b.ledger, hit), bucket) == Rest(after, bucket))
    && (p != hit.victim ==> after == before && p == hit.victim.Opponent())
  }

  lemma GatherHitFacts(b: Book, hits: PerSlot<nat>, quota: nat, hit: Hit, p: PlayerSlot)
    requires b.ledger.terms.damageBucket > 0 && Settles(b, hits) && Backed(b, hits, quota)
    requires hit.damage == 25 && hits.Get(hit.victim) <= 3 && !CapReached(b.ledger, hit)
    ensures HitFacts(b, hits, quota, hit, p)
  {
    hide IdsOf, HeldIds, Rest, Whole, Dealt, Hitting, CapReached, Left, Owed, BucketsOwed, Settles, Backed;
    HitBuckets(b, hits, quota, hit);
    DealtAfter(hits, hit.victim, p);
    SettlesFor(b, hits, quota, p);
  }

  lemma RemainderAfterHit(b: Book, hits: PerSlot<nat>, quota: nat, hit: Hit, p: PlayerSlot)
    requires b.ledger.terms.damageBucket > 0 && HitFacts(b, hits, quota, hit, p)
    ensures RecordDamage(b.ledger, hit).damageRemainder.Get(p) ==
            Rest(Dealt(Hitting(hits, hit.victim), p), b.ledger.terms.damageBucket)
  {
    hide IdsOf, HeldIds, Rest, Whole, Dealt, Hitting, CapReached, Left, Owed, BucketsOwed, RecordDamage, Payable;
    CoveredHit(b.ledger, hit);
    RecordDamageFrame(b.ledger, hit);
  }

  lemma CountAfterHit(c: Crypto, b: Book, hits: PerSlot<nat>, quota: nat, hit: Hit, p: PlayerSlot)
    requires b.ledger.terms.damageBucket > 0 && HitFacts(b, hits, quota, hit, p)
    ensures |IdsOf(b.issued + Issued(c, b.ledger, hit), p)| ==
            Whole(Dealt(Hitting(hits, hit.victim), p), b.ledger.terms.damageBucket)
  {
    hide IdsOf, HeldIds, Rest, Whole, Dealt, Hitting, CapReached, Left, Owed, BucketsOwed, RecordDamage, Payable,
         Issued;
    CoveredHit(b.ledger, hit);
    IssuedForPayable(c, b.ledger, hit);
    CountAppend(b.issued, Issued(c, b.ledger, hit), hit.victim, p);
  }

  lemma HeldAfterHit(b: Book, hits: PerSlot<nat>, quota: nat, hit: Hit, p: PlayerSlot)
    requires b.ledger.terms.damageBucket > 0 && HitFacts(b, hits, quota, hit, p)
    ensures |HeldIds(RecordDamage(b.ledger, hit).reservations, p)| +
            Whole(Dealt(Hitting(hits, hit.victim), p), b.ledger.terms.damageBucket) == quota
  {
    hide IdsOf, HeldIds, Rest, Whole, Dealt, Hitting, CapReached, Left, Owed, BucketsOwed, RecordDamage, Payable;
    HeldCountFrame(b.ledger, hit);
    CoveredHit(b.ledger, hit);
  }

  lemma HeldCountFrame(l: Ledger, hit: Hit)
    requires l.terms.damageBucket > 0
    ensures var l', other := RecordDamage(l, hit), hit.victim.Opponent();
            && |HeldIds(l'.reservations, other)| == |HeldIds(l.reservations, other)|
            && |HeldIds(l'.reservations, hit.victim)| == |HeldIds(l.reservations, hit.victim)| - |Payable(l, hit)|
  {
    assert |Payable(l, hit)| <= |HeldIds(l.reservations, hit.victim)|;
    hide *;
    RecordDamageFrame(l, hit);
  }

  /** A hit that is not refused is settled in full. */
  lemma HitSettles(c: Crypto, b: Book, hits: PerSlot<nat>, quota: nat, hit: Hit)
    requires b.ledger.terms.damageBucket > 0 && Settles(b, hits) && Backed(b, hits, quota)
    requires hit.damage == 25 && hits.Get(hit.victim) <= 3 && !CapReached(b.ledger, hit)
    ensures RecordDamage(b.ledger, hit).terms == b.ledger.terms
    ensures Settles(Apply(c, b, Damaged(hit)), Hitting(hits, hit.victim))
    ensures Backed(Apply(c, b, Damaged(hit)), Hitting(hits, hit.victim), quota)
  {
    UnrefusedDamage(c, b, hit);
    RecordKeepsTerms(b.ledger, hit);
    hide HeldIds, IdsOf, Issued, Apply, CapReached, RecordDamage, Whole, Rest, Dealt, Hitting, HitFacts;
    var b', hits' := Apply(c, b, Damaged(hit)), Hitting(hits, hit.victim);
    forall p: PlayerSlot
      ensures b'.ledger.damageRemainder.Get(p) == Rest(Dealt(hits', p), b.ledger.terms.damageBucket)
      ensures |IdsOf(b'.issued, p)| == Whole(Dealt(hits', p), b.ledger.terms.damageBucket)
      ensures |HeldIds(b'.ledger.reservations, p)| + Whole(Dealt(hits', p), b.ledger.terms.damageBucket) == quota
    {
      GatherHitFacts(b, hits, quota, hit, p);
      RemainderAfterHit(b, hits, quota, hit, p);
      CountAfterHit(c, b, hits, quota, hit, p);
      HeldAfterHit(b, hits, quota, hit, p);
    }
  }

  // ---------------------------------------------------------------------------
  // Messages and the start
  // ---------------------------------------------------------------------------

  /** In a running match a message changes who holds what only by reporting a failure. */
  lemma MessageKeepsHeld(c: Crypto, b: Book, call: Call, p: PlayerSlot)
    requires SoundLedger(c, b.ledger) && Statuses(b, PLAYING) && NoneFailed(Apply(c, b, call))
    requires call.Offer? || call.Ack? || call.FailureReport?
    ensures NoneFailed(b)
    ensures HeldIds(Apply(c, b, call).ledger.reservations, p) == HeldIds(b.ledger.reservations, p)
  {
    var rs, rs' := b.ledger.reservations, Apply(c, b, call).ledger.reservations;
    forall i | 0 <= i < |rs|
      ensures rs[i].status != Failed && (HeldBy(rs'[i], p) <==> HeldBy(rs[i], p))
    {
      hide WellFormedTerms;
      assert rs'[i].status != Failed;
    }
    hide Apply;
    SameHeld(rs, rs', p);
  }

  lemma SettlesDependsOn(b: Book, b': Book, hits: PerSlot<nat>)
    requires b.ledger.terms.damageBucket > 0 && Settles(b, hits)
    requires b'.ledger.terms == b.ledger.terms && b'.ledger.damageRemainder == b.ledger.damageRemainder
    requires b'.issued == b.issued && b'.capErrors == b.capErrors
    ensures Settles(b', hits)
  {
    hide IdsOf, Whole, Rest, Dealt;
  }

  lemma BackedDependsOn(b: Book, b': Book, hits: PerSlot<nat>, quota: nat)
    requires b.ledger.terms.damageBucket > 0 && Backed(b, hits, quota) && b'.ledger.terms == b.ledger.terms
    requires forall p: PlayerSlot :: HeldIds(b'.ledger.reservations, p) == HeldIds(b.ledger.reservations, p)
    ensures Backed(b', hits, quota)
  {
    hide HeldIds, Whole, Dealt;
  }

  lemma MessageKeepsSettled(cfg: Config, b: Book, call: Call, hits: PerSlot<nat>, quota: nat)
    requires BookOf(cfg, b) && (call.Offer? || call.Ack? || call.FailureReport?)
    requires b.ledger.terms.damageBucket > 0 && Apply(cfg.crypto, b, call).ledger.terms == b.ledger.terms
    ensures Settles(b, hits) ==> Settles(Apply(cfg.crypto, b, call), hits)
    ensures Statuses(b, PLAYING) && NoneFailed(Apply(cfg.crypto, b, call)) && Backed(b, hits, quota) ==>
              Backed(Apply(cfg.crypto, b, call), hits, quota)
  {
    hide HeldIds, Apply, Sound, SoundLedger, Settles, Backed, Statuses, NoneFailed;
    MessageKeepsBook(cfg, b, call);
    if Settles(b, hits) {
      SettlesDependsOn(b, Apply(cfg.crypto, b, call), hits);
    }
    if Statuses(b, PLAYING) && NoneFailed(Apply(cfg.crypto, b, call)) && Backed(b, hits, quota) {
      SoundHasLedger(cfg.crypto, b);
      forall p: PlayerSlot
        ensures HeldIds(Apply(cfg.crypto, b, call).ledger.reservations, p) == HeldIds(b.ledger.reservations, p)
      {
        MessageKeepsHeld(cfg.crypto, b, call, p);
      }
      BackedDependsOn(b, Apply(cfg.crypto, b, call), hits, quota);
    }
  }

  /** With everything held, each player holds the whole quota. */
  lemma AllHeldBacks(c: Crypto, l: Ledger, p: PlayerSlot)
    requires SoundLedger(c, l) && AllHeld(l)
    ensures |HeldIds(l.reservations, p)| == Quota(l.terms)
  {
    var n := Quota(l.terms);
    var lo := if p == A then 0 else n;
    var held := HeldIds(l.reservations, p);
    HeldMembers(l.reservations, p);
    forall i ensures i in held <==> lo <= i < lo + n {
      if 0 <= i < 2 * n { assert l.reservations[i] in l.reservations; }
    }
    hide HeldIds, WellFormedTerms;
    DistinctCardinality(held);
    assert Elements(held) == Range(lo, lo + n);
  }

  // ---------------------------------------------------------------------------
  // The invariant over runs
  // ---------------------------------------------------------------------------

  /** Enough reservations to pay for a whole life. */
  predicate Covers(cfg: Config)
    requires cfg.Valid()
  {
    PerPlayer(cfg.amount, cfg.cap) >= 100 / cfg.bucket
  }

  /** No failure report has been accepted in a match that started. */
  ghost predicate Clean(s: ServerState) {
    s.started && s.settlement.Some? ==> NoneFailed(s.settlement.value)
  }

  /** No damage report has been refused. */
  ghost predicate Unrefused(s: ServerState) {
    s.settlement.Some? ==> s.settlement.value.capErrors == 0
  }

  /** As long as no report is refused the books match the damage dealt; and with enough reservations none is. */
  ghost predicate OnTrack(cfg: Config, s: ServerState)
    requires cfg.Valid()
  {
    && (Covers(cfg) ==> Unrefused(s))
    && (Unrefused(s) ==> !s.sim.phase.PaymentPaused?)
    && (Unrefused(s) && s.started && s.HasTerms() ==>
          && Settles(s.settlement.value, HitsTaken(s.sim))
          && (!s.ended ==> Backed(s.settlement.value, HitsTaken(s.sim), PerPlayer(cfg.amount, cfg.cap))))
  }

  /** A clean state came from a clean state, and stays on track. */
  ghost predicate Follows(cfg: Config, s: ServerState, s': ServerState)
    requires cfg.Valid()
  {
    Clean(s') ==> Clean(s) && (OnTrack(cfg, s) ==> OnTrack(cfg, s'))
  }

  lemma ConnectionsFollow(cfg: Config, s: ServerState, es: seq<NetEvent>)
    requires cfg.Valid()
    ensures Follows(cfg, s, HandleConnections(cfg, s, es).0)
  {
    ConnectionsKeepRest(cfg, s, es);
    hide NoneFailed, Settles, Backed, HandleConnections, ValidConfiguration;
  }

  lemma TermsFollow(cfg: Config, s: ServerState, preimages: seq<Bytes>)
    requires cfg.Valid() && EnoughPreimages(cfg, preimages) && Inv(cfg, s)
    ensures Follows(cfg, s, IssueTerms(cfg, s, preimages))
  {
    if s.settlement.None? && |s.clients| == 2 {
      RunningUnless(cfg, s);
      assert !s.started;
      NewTermsBook(cfg, preimages);
      TermsShape(cfg, s, preimages);
      hide NoneFailed, Settles, Backed, IssueTerms, ValidConfiguration, TermsBook, Inv, InLobby;
    }
  }

  lemma CancelFollows(c: Crypto, b: Book, hits: PerSlot<nat>)
    requires b.ledger.terms.damageBucket > 0
    ensures NoneFailed(Apply(c, b, CancelRest)) ==> NoneFailed(b)
    ensures Settles(b, hits) ==> Settles(Apply(c, b, CancelRest), hits)
    ensures Apply(c, b, CancelRest).capErrors == b.capErrors
  {
    hide CancelledTerms, IdsOf, Whole, Rest, Dealt;
  }

  lemma EndFollows(cfg: Config, s: ServerState, s': ServerState)
    requires cfg.Valid() && s.HasTerms() && s'.ended && s'.started == s.started
    requires s'.settlement == Some(Apply(cfg.crypto, s.settlement.value, CancelRest))
    requires s'.sim == s.sim.(phase := s'.sim.phase) && !s'.sim.phase.PaymentPaused?
    ensures Follows(cfg, s, s')
  {
    assert HitsTaken(s'.sim) == HitsTaken(s.sim);
    hide NoneFailed, Settles, Backed, Apply, ValidConfiguration, HitsTaken;
    CancelFollows(cfg.crypto, s.settlement.value, HitsTaken(s.sim));
  }

  lemma ForfeitFollows(cfg: Config, s: ServerState, gone: seq<PlayerSlot>, survivor: PlayerSlot)
    requires cfg.Valid() && Inv(cfg, s)
    ensures Follows(cfg, s, ForfeitMatch(cfg, s, gone, survivor))
  {
    if !s.ended && gone != [] && s.HasTerms() {
      var s' := ForfeitMatch(cfg, s, gone, survivor);
      RunningUnless(cfg, s);
      StageBeforeEnd(cfg, s);
      EndIsAnnounced(cfg, s, Winner(s, gone, survivor));
      hide Inv, Running, InLobby, Finished, Follows, EndMatch, StageOf, Winner, Apply, ValidConfiguration;
      EndFollows(cfg, s, s');
    } else {
      hide NoneFailed, Settles, Backed, ValidConfiguration, Inv;
    }
  }

  lemma StageBeforeEnd(cfg: Config, s: ServerState)
    requires Inv(cfg, s) && !s.ended
    ensures StageOf(s.outbox) in {Lobby, Playing}
  {
    hide StageOf, BookOf, Untouched, Statuses, SimInStep, Seated;
  }

  lemma CallFollows(cfg: Config, s: ServerState, call: Call)
    requires cfg.Valid() && Inv(cfg, s) && s.HasTerms() && (call.Offer? || call.Ack? || call.FailureReport?)
    ensures Follows(cfg, s, s.(settlement := Some(Apply(cfg.crypto, s.settlement.value, call))))
  {
    var b, hits := s.settlement.value, HitsTaken(s.sim);
    hide NoneFailed, Settles, Backed, Apply, ValidConfiguration, HitsTaken, Inv, BookOf, Statuses, PerPlayer;
    BookInPhase(cfg, s);
    MessageKeepsBook(cfg, b, call);
    if NoneFailed(Apply(cfg.crypto, b, call)) {
      BookIsSound(cfg, b);
      FailuresPersist(cfg.crypto, b, call);
    }
    CallKeepsTerms(cfg.crypto, b, call);
    MessageKeepsSettled(cfg, b, call, hits, PerPlayer(cfg.amount, cfg.cap));
  }

  lemma BookIsSound(cfg: Config, b: Book)
    requires BookOf(cfg, b)
    ensures Sound(cfg.crypto, b)
  {
    hide Sound;
  }

  lemma BookInPhase(cfg: Config, s: ServerState)
    requires Inv(cfg, s) && s.settlement.Some?
    ensures BookOf(cfg, s.settlement.value)
    ensures s.started && !s.ended ==> Statuses(s.settlement.value, PLAYING)
  {
    hide StageOf, BookOf, Untouched, Statuses, SimInStep, Seated;
  }

  lemma CallKeepsTerms(c: Crypto, b: Book, call: Call)
    requires b.ledger.terms.damageBucket > 0 && (call.Offer? || call.Ack? || call.FailureReport?)
    ensures Apply(c, b, call).ledger.terms == b.ledger.terms
  {
    hide OfferError, AckError, FailureError;
  }

  /** A failed reservation stays failed. */
  lemma FailuresPersist(c: Crypto, b: Book, call: Call)
    requires Sound(c, b) && b.ledger.terms.damageBucket > 0
    requires NoneFailed(Apply(c, b, call))
    ensures NoneFailed(b)
  {
    hide Apply, Sound, SoundLedger, Runs.Rises;
    SoundHasLedger(c, b);
    forall i | 0 <= i < |b.ledger.reservations| ensures b.ledger.reservations[i].status != Failed {
      Runs.StatusOnlyRises(c, b, call, i);
      if b.ledger.reservations[i].status == Failed {
        Runs.FailedStays(b.ledger.reservations[i], Apply(c, b, call).ledger.reservations[i]);
      }
    }
  }

  lemma ForwardFollows(cfg: Config, s: ServerState, slot: PlayerSlot, message: ServerMessage)
    requires cfg.Valid()
    ensures Follows(cfg, s, s.Send(slot, message))
  {
    hide NoneFailed, Settles, Backed, ValidConfiguration, HitsTaken;
  }

  lemma FollowsTwice(cfg: Config, s: ServerState, s': ServerState, s'': ServerState)
    requires cfg.Valid() && Follows(cfg, s, s') && Follows(cfg, s', s'')
    ensures Follows(cfg, s, s'')
  {
    hide Clean, OnTrack;
  }

  lemma PacketFollows(cfg: Config, s: ServerState, p: Packet)
    requires cfg.Valid() && Inv(cfg, s) && s.HasTerms()
    ensures Follows(cfg, s, HandlePacket(cfg, s, p))
  {
    if p.client in s.clients && p.reliable && CallOf(s.clients[p.client], p.message).Some? {
      var slot := s.clients[p.client];
      var call := CallOf(slot, p.message).value;
      var s' := s.(settlement := Some(Apply(cfg.crypto, s.settlement.value, call)));
      hide Inv, Follows, Apply, OfferError, ValidConfiguration;
      CallFollows(cfg, s, call);
      if p.message.InvoiceOffer? {
        ForwardFollows(cfg, s', slot.Opponent(), OfferForwarded(p.message.offer));
        FollowsTwice(cfg, s, s', s'.Send(slot.Opponent(), OfferForwarded(p.message.offer)));
      }
    } else {
      hide NoneFailed, Settles, Backed, Inv, ValidConfiguration, HitsTaken;
    }
  }

  lemma {:induction false} PacketsFollow(cfg: Config, s: ServerState, ps: seq<Packet>)
    requires cfg.Valid() && Inv(cfg, s) && s.HasTerms()
    ensures Follows(cfg, s, HandlePackets(cfg, s, ps))
  {
    if ps == [] {
      hide Inv, NoneFailed, Settles, Backed, ValidConfiguration, HitsTaken;
    } else {
      hide Inv, Follows, HandlePacket, ValidConfiguration;
      var front := ps[..|ps| - 1];
      PacketsFollow(cfg, s, front);
      PacketsKeepInv(cfg, s, front);
      PacketFollows(cfg, HandlePackets(cfg, s, front), ps[|ps| - 1]);
      FollowsTwice(cfg, s, HandlePackets(cfg, s, front), HandlePackets(cfg, s, ps));
    }
  }

  // ---------------------------------------------------------------------------
  // The start
  // ---------------------------------------------------------------------------

  lemma NothingIssued(b: Book, p: PlayerSlot)
    requires Untouched(b) && b.ledger.terms.damageBucket > 0
    ensures |IdsOf(b.issued, p)| == Whole(0, b.ledger.terms.damageBucket)
    ensures b.ledger.damageRemainder.Get(p) == Rest(0, b.ledger.terms.damageBucket)
  {
    DivisionUnique(0, b.ledger.terms.damageBucket, 0, 0);
  }

  /** At the start everything is held and nothing owed. */
  lemma StartSettles(cfg: Config, b: Book)
    requires cfg.Valid() && BookOf(cfg, b) && Untouched(b) && AllHeld(b.ledger) && b.ledger.terms.damageBucket > 0
    ensures Settles(b, PerSlot(0, 0)) && Backed(b, PerSlot(0, 0), PerPlayer(cfg.amount, cfg.cap))
  {
    BookIsSound(cfg, b);
    SoundHasLedger(cfg.crypto, b);
    hide Sound, SoundLedger, IdsOf, HeldIds, Whole, Rest, AllHeld, ValidConfiguration;
    forall p: PlayerSlot
      ensures b.ledger.damageRemainder.Get(p) == Rest(Dealt(PerSlot(0, 0), p), b.ledger.terms.damageBucket)
      ensures |IdsOf(b.issued, p)| == Whole(Dealt(PerSlot(0, 0), p), b.ledger.terms.damageBucket)
      ensures |HeldIds(b.ledger.reservations, p)| + Whole(Dealt(PerSlot(0, 0), p), b.ledger.terms.damageBucket)
              == PerPlayer(cfg.amount, cfg.cap)
    {
      assert Dealt(PerSlot(0, 0), p) == 0;
      NothingIssued(b, p);
      AllHeldBacks(cfg.crypto, b.ledger, p);
      QuotaOf(cfg, b);
      WholeOfNothing(b.ledger.terms.damageBucket);
    }
  }

  lemma WholeOfNothing(bucket: nat)
    requires bucket > 0
    ensures Whole(0, bucket) == 0
  {
    DivisionUnique(0, bucket, 0, 0);
  }

  lemma QuotaOf(cfg: Config, b: Book)
    requires cfg.Valid() && BookOf(cfg, b)
    ensures WellFormedTerms(b.ledger.terms) && Quota(b.ledger.terms) == PerPlayer(cfg.amount, cfg.cap)
  {
    BookIsSound(cfg, b);
    SoundHasLedger(cfg.crypto, b);
    hide Sound;
  }

  lemma StartFollows(cfg: Config, s: ServerState)
    requires cfg.Valid() && Inv(cfg, s)
    ensures Clean(Start(s)) ==> Clean(s)
    ensures OnTrack(cfg, s) ==> OnTrack(cfg, Start(s))
  {
    if ReadyToStart(s) {
      var b := s.settlement.value;
      RunningUnless(cfg, s);
      LobbyBook(cfg, s);
      assert HitsTaken(Start(s).sim) == HitsTaken(s.sim) == PerSlot(0, 0) by { NoHitsYet(s); }
      if s.HasTerms() {
        hide Sound, AllHeld, Settles, Backed, ValidConfiguration, Inv, BookOf, Untouched, HitsTaken, NoneFailed,
             InLobby;
        StartSettles(cfg, b);
      }
    }
  }

  lemma LobbyBook(cfg: Config, s: ServerState)
    requires InLobby(cfg, s) && s.settlement.Some?
    ensures BookOf(cfg, s.settlement.value) && Untouched(s.settlement.value)
  {
    hide BookOf, Untouched, StageOf;
  }

  lemma NoHitsYet(s: ServerState)
    requires SimInStep(s) && !s.started
    ensures HitsTaken(s.sim) == PerSlot(0, 0)
  {
  }

  // ---------------------------------------------------------------------------
  // Ticks
  // ---------------------------------------------------------------------------

  lemma HitCountStep(front: seq<MatchEvent>, last: MatchEvent, hits: PerSlot<nat>)
    ensures HitCount(front + [last], hits) ==
            if last.DamageEvent? then Hitting(HitCount(front, hits), last.victim) else HitCount(front, hits)
  {
    assert (front + [last])[..|front|] == front;
  }

  /** The simulation's hits, in a form the books can take: 25 damage each, at most four per player. */
  ghost predicate Payable25(es: seq<MatchEvent>, hits: PerSlot<nat>) {
    && (forall k :: 0 <= k < |es| && es[k].DamageEvent? ==> es[k].amount == 25)
    && (forall k :: 0 <= k < |es| && es[k].DeathEvent? ==> k == |es| - 1)
    && HitCount(es, hits).a <= 4 && HitCount(es, hits).b <= 4
  }

  lemma Payable25Front(front: seq<MatchEvent>, last: MatchEvent, hits: PerSlot<nat>)
    requires Payable25(front + [last], hits)
    ensures Payable25(front, hits)
    ensures forall k :: 0 <= k < |front| ==> front[k].DamageEvent?
    ensures last.DamageEvent? ==> last.amount == 25 && HitCount(front, hits).Get(last.victim) <= 3
  {
    var es := front + [last];
    HitCountStep(front, last, hits);
    hide HitCount;
    assert es[|front|] == last;
    forall k | 0 <= k < |front| ensures front[k].DamageEvent? && front[k].amount == 25 {
      assert es[k] == front[k];
    }
  }

  /** One hit of a running match is refused, or paid for without a change to the simulation. */
  lemma DamageOnTrack(cfg: Config, s: ServerState, e: MatchEvent, now: PerSlot<u64>, hits: PerSlot<nat>)
    requires cfg.Valid() && s.HasTerms() && e.DamageEvent? && e.amount == 25 && hits.Get(e.victim) <= 3
    requires Settles(s.settlement.value, hits)
    requires Backed(s.settlement.value, hits, PerPlayer(cfg.amount, cfg.cap))
    ensures var s' := HandleEvent(cfg, s, e, now);
            && s'.HasTerms() && s'.settlement.value.ledger.terms == s.settlement.value.ledger.terms
            && (PerPlayer(cfg.amount, cfg.cap) >= Whole(100, s.settlement.value.ledger.terms.damageBucket) ==>
                  s'.settlement.value.capErrors == 0)
            && (s'.settlement.value.capErrors == 0 ==>
                  && s'.sim == s.sim
                  && Settles(s'.settlement.value, Hitting(hits, e.victim))
                  && Backed(s'.settlement.value, Hitting(hits, e.victim), PerPlayer(cfg.amount, cfg.cap)))
  {
    var b, hit := s.settlement.value, HitOf(cfg, s, e, now.Get(e.attacker));
    var s1 := s.(settlement := Some(Apply(cfg.crypto, b, Damaged(hit))));
    DamageShape(cfg.crypto, b, hit);
    hide Settles, Backed, ValidConfiguration, PerPlayer, Whole, Apply, Issued, CapReached, RecordDamage, Hitting,
         Statuses;
    HitBuckets(b, hits, PerPlayer(cfg.amount, cfg.cap), hit);
    CapErrorsAfter(cfg.crypto, b, hit);
    NoErrorsYet(b, hits);
    if !CapReached(b.ledger, hit) {
      HitSettles(cfg.crypto, b, hits, PerPlayer(cfg.amount, cfg.cap), hit);
    }
    SendReleasesFrame(s1, Issued(cfg.crypto, b.ledger, hit));
  }

  lemma CapErrorsAfter(c: Crypto, b: Book, hit: Hit)
    requires b.ledger.terms.damageBucket > 0
    ensures Apply(c, b, Damaged(hit)).capErrors == b.capErrors + if CapReached(b.ledger, hit) then 1 else 0
  {
    hide CapReached, Issued, RecordDamage;
  }

  lemma NoErrorsYet(b: Book, hits: PerSlot<nat>)
    requires b.ledger.terms.damageBucket > 0 && Settles(b, hits)
    ensures b.capErrors == 0
  {
  }

  /** A refusal is never forgotten. */
  lemma RefusalsStay(cfg: Config, s: ServerState, e: MatchEvent, now: PerSlot<u64>)
    requires s.HasTerms()
    ensures var s' := HandleEvent(cfg, s, e, now);
            s'.HasTerms() && s'.settlement.value.capErrors >= s.settlement.value.capErrors
  {
    var b := s.settlement.value;
    EventKeepsTerms(cfg, s, e, now);
    match e
    case DamageEvent(attacker, victim, amount, _) =>
      var hit := HitOf(cfg, s, e, now.Get(attacker));
      hide Apply, CapReached, Issued;
      CapErrorsAfter(cfg.crypto, b, hit);
      SendReleasesFrame(s.(settlement := Some(Apply(cfg.crypto, b, Damaged(hit)))), Issued(cfg.crypto, b.ledger, hit));
    case DeathEvent(_, _) =>
      hide CancelledTerms;
      SendCancellationsFrame(s, CancelledTerms(b.ledger.reservations));
  }

  lemma DeathOnTrack(cfg: Config, s: ServerState, e: MatchEvent, now: PerSlot<u64>, hits: PerSlot<nat>)
    requires s.HasTerms() && e.DeathEvent? && StageOf(s.outbox) == Playing && Settles(s.settlement.value, hits)
    ensures var s' := HandleEvent(cfg, s, e, now);
            && s'.HasTerms() && s'.sim == s.sim && s'.settlement.value.capErrors == 0
            && s'.settlement.value.ledger.terms == s.settlement.value.ledger.terms
            && Settles(s'.settlement.value, hits)
  {
    CancelFollows(cfg.crypto, s.settlement.value, hits);
    CancelKeepsTerms(cfg.crypto, s.settlement.value);
    hide Settles, Apply, StageOf, EndMatch;
    EndIsAnnounced(cfg, s, e.killer);
  }

  lemma CancelKeepsTerms(c: Crypto, b: Book)
    requires b.ledger.terms.damageBucket > 0
    ensures Apply(c, b, CancelRest).ledger.terms == b.ledger.terms
  {
    hide CancelledTerms;
  }

  /** All the events of a tick are paid for, up to a death that ends the match, unless one of them is refused. */
  lemma {:induction false} EventsOnTrack(cfg: Config, s: ServerState, es: seq<MatchEvent>, now: PerSlot<u64>,
          hits: PerSlot<nat>)
    requires cfg.Valid() && Running(cfg, s) && s.HasTerms() && Payable25(es, hits)
    requires Settles(s.settlement.value, hits)
    requires Backed(s.settlement.value, hits, PerPlayer(cfg.amount, cfg.cap))
    ensures var s' := HandleEvents(cfg, s, es, now);
            && s'.settlement.value.ledger.terms == s.settlement.value.ledger.terms
            && (PerPlayer(cfg.amount, cfg.cap) >= Whole(100, s.settlement.value.ledger.terms.damageBucket) ==>
                  s'.settlement.value.capErrors == 0)
            && (s'.settlement.value.capErrors == 0 ==>
                  && s'.sim == s.sim
                  && Settles(s'.settlement.value, HitCount(es, hits))
                  && (es == [] || es[|es| - 1].DamageEvent? ==>
                        Backed(s'.settlement.value, HitCount(es, hits), PerPlayer(cfg.amount, cfg.cap))))
  {
    if es == [] {
      assert HitCount(es, hits) == hits;
      NoErrorsYet(s.settlement.value, hits);
    } else {
      var front, last := es[..|es| - 1], es[|es| - 1];
      assert es == front + [last];
      var s1 := HandleEvents(cfg, s, front, now);
      var hits1 := HitCount(front, hits);
      EventsDoNotEnd(cfg, s, front, last, now, hits);
      HitCountStep(front, last, hits);
      hide Running, Payable25, Settles, Backed, PerPlayer, ValidConfiguration, Whole, HitCount, Hitting, HandleEvent,
           StageOf;
      Payable25Front(front, last, hits);
      EventsOnTrack(cfg, s, front, now, hits);
      RefusalsStay(cfg, s1, last, now);
      EventTerms(cfg, s1, last, now);
      if s1.settlement.value.capErrors == 0 {
        if last.DamageEvent? {
          DamageOnTrack(cfg, s1, last, now, hits1);
        } else {
          DeathOnTrack(cfg, s1, last, now, hits1);
        }
      }
    }
  }

  lemma EventTerms(cfg: Config, s: ServerState, e: MatchEvent, now: PerSlot<u64>)
    requires s.HasTerms()
    ensures var s' := HandleEvent(cfg, s, e, now);
            s'.HasTerms() && s'.settlement.value.ledger.terms == s.settlement.value.ledger.terms
  {
    var b := s.settlement.value;
    EventKeepsTerms(cfg, s, e, now);
    match e
    case DamageEvent(attacker, victim, amount, _) =>
      var hit := HitOf(cfg, s, e, now.Get(attacker));
      hide Apply, CapReached, Issued, Statuses;
      DamageShape(cfg.crypto, b, hit);
      SendReleasesFrame(s.(settlement := Some(Apply(cfg.crypto, b, Damaged(hit)))), Issued(cfg.crypto, b.ledger, hit));
    case DeathEvent(_, _) =>
      hide Apply, CancelledTerms;
      CancelKeepsTerms(cfg.crypto, b);
      SendCancellationsFrame(s, CancelledTerms(b.ledger.reservations));
  }

  lemma EventsDoNotEnd(cfg: Config, s: ServerState, front: seq<MatchEvent>, last: MatchEvent, now: PerSlot<u64>,
          hits: PerSlot<nat>)
    requires Running(cfg, s) && s.HasTerms() && Payable25(front + [last], hits)
    ensures StageOf(HandleEvents(cfg, s, front, now).outbox) == Playing
  {
    Payable25Front(front, last, hits);
    hide StageOf, BookOf, Statuses, HandleEvents;
    EventsRun(cfg, s, front, now);
  }

  /** Handling events never clears a failure. */
  lemma {:induction false} EventsPersist(cfg: Config, s: ServerState, es: seq<MatchEvent>, now: PerSlot<u64>)
    requires Running(cfg, s) && s.HasTerms()
    requires forall k :: 0 <= k < |es| && es[k].DeathEvent? ==> k == |es| - 1
    requires NoneFailed(HandleEvents(cfg, s, es, now).settlement.value)
    ensures NoneFailed(s.settlement.value)
  {
    if es != [] {
      var front, last := es[..|es| - 1], es[|es| - 1];
      var s1 := HandleEvents(cfg, s, front, now);
      EventsRun(cfg, s, front, now);
      RunningBook(cfg, s1);
      hide Running, Finished, NoneFailed, HandleEvent, Sound;
      EventPersists(cfg, s1, last, now);
      EventsPersist(cfg, s, front, now);
    }
  }

  lemma RunningBook(cfg: Config, s: ServerState)
    requires Running(cfg, s)
    ensures Sound(cfg.crypto, s.settlement.value)
  {
    hide Sound, StageOf, Statuses;
  }

  lemma EventPersists(cfg: Config, s: ServerState, e: MatchEvent, now: PerSlot<u64>)
    requires s.HasTerms() && Sound(cfg.crypto, s.settlement.value)
    requires HandleEvent(cfg, s, e, now).HasTerms() && NoneFailed(HandleEvent(cfg, s, e, now).settlement.value)
    ensures NoneFailed(s.settlement.value)
  {
    var b := s.settlement.value;
    match e
    case DamageEvent(attacker, _, _, _) =>
      var hit := HitOf(cfg, s, e, now.Get(attacker));
      var s1 := s.(settlement := Some(Apply(cfg.crypto, b, Damaged(hit))));
      hide NoneFailed, Sound, Apply, Issued, CapReached;
      SendReleasesFrame(s1, Issued(cfg.crypto, b.ledger, hit));
      FailuresPersist(cfg.crypto, b, Damaged(hit));
    case DeathEvent(_, _) =>
      hide NoneFailed, Sound, Apply, CancelledTerms;
      FailuresPersist(cfg.crypto, b, CancelRest);
  }

  lemma TickFollows(cfg: Config, s: ServerState, now: PerSlot<u64>)
    requires cfg.Valid() && Inv(cfg, s) && s.started && !s.ended && s.HasTerms()
    ensures Follows(cfg, s, FixedStep(cfg, s, now))
  {
    RunningUnless(cfg, s);
    var (sim, events) := Tick(cfg.aim, s.sim, s.latestInputs);
    var s1 := s.(serverTick := s.serverTick + 1, sim := sim);
    var s' := FixedStep(cfg, s, now);
    hide Running, Finished, InLobby, Tick, WellOrdered, Seated, SimInStep, HandleEvents, FixedStep, Inv, NoneFailed,
         Clean, OnTrack;
    TickShape(cfg, s, now);
    StillRunning(cfg, s, s1);
    SimInStepOf(cfg, s);
    TickInStep(cfg, s, sim, events);
    TickedLast(s.(sim := sim), s1, events);
    EventsRun(cfg, s1, events, now);
    if Clean(s') {
      CleanIsNoneFailed(s, s');
      EventsPersist(cfg, s1, events, now);
      NoneFailedIsClean(s);
      if OnTrack(cfg, s) {
        TickOnTrack(cfg, s, now);
      }
    }
  }

  lemma SimInStepOf(cfg: Config, s: ServerState)
    requires Inv(cfg, s)
    ensures SimInStep(s)
  {
    hide Seated, Phased, SimInStep;
  }

  lemma CleanIsNoneFailed(s: ServerState, s': ServerState)
    requires Clean(s') && s'.started && s'.settlement.Some?
    ensures NoneFailed(s'.settlement.value)
  {
    hide NoneFailed;
  }

  lemma NoneFailedIsClean(s: ServerState)
    requires s.settlement.Some? && NoneFailed(s.settlement.value)
    ensures Clean(s)
  {
    hide NoneFailed;
  }

  lemma LiveOnTrack(cfg: Config, s: ServerState)
    requires cfg.Valid() && OnTrack(cfg, s) && Unrefused(s)
    requires Inv(cfg, s) && s.started && !s.ended && s.HasTerms()
    ensures s.sim.phase == Live && Sane(s.sim, HitsTaken(s.sim))
    ensures Settles(s.settlement.value, HitsTaken(s.sim))
    ensures Backed(s.settlement.value, HitsTaken(s.sim), PerPlayer(cfg.amount, cfg.cap))
    ensures Covers(cfg) ==> PerPlayer(cfg.amount, cfg.cap) >= Whole(100, s.settlement.value.ledger.terms.damageBucket)
  {
    BookInPhase(cfg, s);
    assert s.settlement.value.ledger.terms.damageBucket == cfg.bucket;
    hide Settles, Backed, Phased, Seated, HitsTaken, Sane, ValidConfiguration;
  }

  lemma EventsAre25(sim: SimState, events: seq<MatchEvent>, hits: PerSlot<nat>)
    requires WellOrdered(events) && Sane(sim, HitCount(events, hits))
    ensures Payable25(events, hits)
  {
    assert HitCount(events, hits).Get(A) <= 4 && HitCount(events, hits).Get(B) <= 4;
    hide HitCount;
  }

  lemma {:induction false} RefusalsStayInTick(cfg: Config, s: ServerState, es: seq<MatchEvent>, now: PerSlot<u64>)
    requires s.HasTerms()
    ensures HandleEvents(cfg, s, es, now).settlement.value.capErrors >= s.settlement.value.capErrors
  {
    hide HandleEvent;
    if es != [] {
      RefusalsStayInTick(cfg, s, es[..|es| - 1], now);
      RefusalsStay(cfg, HandleEvents(cfg, s, es[..|es| - 1], now), es[|es| - 1], now);
    }
  }

  /** With everything on track before a tick, the books match every hit of the tick unless one is refused. */
  lemma TickOnTrack(cfg: Config, s: ServerState, now: PerSlot<u64>)
    requires cfg.Valid() && Inv(cfg, s) && s.started && !s.ended && s.HasTerms() && OnTrack(cfg, s)
    ensures OnTrack(cfg, FixedStep(cfg, s, now))
  {
    var (_, events) := Tick(cfg.aim, s.sim, s.latestInputs);
    if Unrefused(s) {
      UnrefusedTick(cfg, s, now);
    } else {
      hide Tick, HandleEvents, FixedStep, Inv, Settles, Backed, ValidConfiguration, Covers;
      TickShape(cfg, s, now);
      var s1 := s.(serverTick := s.serverTick + 1, sim := Tick(cfg.aim, s.sim, s.latestInputs).0);
      RefusalsStayInTick(cfg, s1, events, now);
    }
  }

  lemma UnrefusedTick(cfg: Config, s: ServerState, now: PerSlot<u64>)
    requires cfg.Valid() && Inv(cfg, s) && s.started && !s.ended && s.HasTerms() && OnTrack(cfg, s) && Unrefused(s)
    ensures OnTrack(cfg, FixedStep(cfg, s, now))
  {
    RunningUnless(cfg, s);
    hide Running, Finished, InLobby, Tick, WellOrdered, Sane, HandleEvents, FixedStep, Inv, OnTrack, Settles, Backed,
         Whole, PerPlayer, HitsTaken, HitCount, Covers, ValidConfiguration, Payable25;
    LiveOnTrack(cfg, s);
    var hits := HitsTaken(s.sim);
    var (sim, events) := Tick(cfg.aim, s.sim, s.latestInputs);
    var s1 := s.(serverTick := s.serverTick + 1, sim := sim);
    TickShape(cfg, s, now);
    StillRunning(cfg, s, s1);
    TickIsSane(cfg.aim, s.sim, s.latestInputs, hits);
    SaneHits(sim, HitCount(events, hits));
    EventsAre25(sim, events, hits);
    EventsOnTrack(cfg, s1, events, now, hits);
    DeathIsLast(events, hits);
    EventsRun(cfg, s1, events, now);
    EndedIffFinished(cfg, FixedStep(cfg, s, now));
    StillOnTrack(cfg, FixedStep(cfg, s, now), HitCount(events, hits));
  }

  lemma DeathIsLast(events: seq<MatchEvent>, hits: PerSlot<nat>)
    requires Payable25(events, hits)
    ensures forall k :: 0 <= k < |events| && events[k].DeathEvent? ==> k == |events| - 1
  {
    hide HitCount;
  }

  lemma StillOnTrack(cfg: Config, s: ServerState, hits: PerSlot<nat>)
    requires cfg.Valid() && s.HasTerms() && (Covers(cfg) ==> Unrefused(s))
    requires Unrefused(s) ==>
      && HitsTaken(s.sim) == hits && !s.sim.phase.PaymentPaused?
      && Settles(s.settlement.value, hits)
      && (!s.ended ==> Backed(s.settlement.value, hits, PerPlayer(cfg.amount, cfg.cap)))
    ensures OnTrack(cfg, s)
  {
    hide Settles, Backed, HitsTaken, ValidConfiguration, PerPlayer;
  }

  lemma StepFollows(cfg: Config, s: ServerState, now: PerSlot<u64>)
    requires cfg.Valid() && Inv(cfg, s)
    ensures Follows(cfg, s, FixedStep(cfg, s, now))
  {
    if s.started && !s.ended && s.HasTerms() {
      hide Inv, Follows;
      TickFollows(cfg, s, now);
    } else {
      hide Settles, Backed, NoneFailed, Inv, ValidConfiguration;
    }
  }

  lemma {:induction false} StepsFollow(cfg: Config, s: ServerState, ticks: seq<PerSlot<u64>>)
    requires cfg.Valid() && Inv(cfg, s)
    ensures Follows(cfg, s, FixedSteps(cfg, s, ticks))
  {
    if ticks == [] {
      hide Settles, Backed, NoneFailed, Inv, ValidConfiguration, Covers;
    } else {
      hide Inv, Follows, FixedStep, Covers, ValidConfiguration;
      var front := ticks[..|ticks| - 1];
      StepsFollow(cfg, s, front);
      StepsKeepInv(cfg, s, front);
      StepFollows(cfg, FixedSteps(cfg, s, front), ticks[|ticks| - 1]);
      FollowsTwice(cfg, s, FixedSteps(cfg, s, front), FixedSteps(cfg, s, ticks));
    }
  }

  // ---------------------------------------------------------------------------
  // Runs
  // ---------------------------------------------------------------------------

  lemma RoundFollows(cfg: Config, s: ServerState, r: Round)
    requires cfg.Valid() && EnoughPreimages(cfg, r.preimages) && Inv(cfg, s)
    ensures Follows(cfg, s, DoRound(cfg, s, r))
  {
    hide Inv, Follows, HandleConnections, IssueTerms, ForfeitMatch, HandlePackets, FixedSteps, Covers,
         ValidConfiguration, Start;
    var (s1, gone) := HandleConnections(cfg, s, r.net);
    var s2 := IssueTerms(cfg, s1, r.preimages);
    var s3 := ForfeitMatch(cfg, s2, gone, r.survivor);
    var s4 := BeforeStart(cfg, s, r);
    ConnectionsFollow(cfg, s, r.net);
    ConnectionsKeepInv(cfg, s, r.net);
    TermsFollow(cfg, s1, r.preimages);
    TermsKeepInv(cfg, s1, r.preimages);
    FollowsTwice(cfg, s, s1, s2);
    ForfeitFollows(cfg, s2, gone, r.survivor);
    ForfeitKeepsInv(cfg, s2, gone, r.survivor);
    FollowsTwice(cfg, s, s2, s3);
    if s3.HasTerms() {
      PacketsFollow(cfg, s3, r.packets);
      FollowsTwice(cfg, s, s3, s4);
    }
    BeforeStartKeepsInv(cfg, s, r);
    StartAndStepsFollow(cfg, s4, r.ticks);
    FollowsTwice(cfg, s, s4, DoRound(cfg, s, r));
  }

  lemma StartAndStepsFollow(cfg: Config, s: ServerState, ticks: seq<PerSlot<u64>>)
    requires cfg.Valid() && Inv(cfg, s)
    ensures Follows(cfg, s, FixedSteps(cfg, Start(s), ticks))
  {
    StartFollows(cfg, s);
    StartKeepsInv(cfg, s);
    assert Follows(cfg, s, Start(s)) by { hide Clean, OnTrack, Inv, Start; }
    hide Inv, Follows, FixedSteps, Covers, ValidConfiguration, Start;
    StepsFollow(cfg, Start(s), ticks);
    FollowsTwice(cfg, s, Start(s), FixedSteps(cfg, Start(s), ticks));
  }

  lemma {:induction false} CleanRunsAreOnTrack(cfg: Config, inputs: PerSlot<InputFrame>, rounds: seq<Round>)
    requires cfg.Valid() && Suitable(cfg, rounds)
    requires Clean(Serve(cfg, inputs, rounds))
    ensures OnTrack(cfg, Serve(cfg, inputs, rounds))
  {
    if rounds == [] {
      hide Covers, ValidConfiguration;
    } else {
      var front, r := rounds[..|rounds| - 1], rounds[|rounds| - 1];
      var s := Serve(cfg, inputs, front);
      ServeKeepsInv(cfg, inputs, front);
      RoundFollows(cfg, s, r);
      hide Inv, Clean, OnTrack, DoRound, Covers, ValidConfiguration;
      CleanRunsAreOnTrack(cfg, inputs, front);
    }
  }

  lemma HealthIsHits(sim: SimState, p: PlayerSlot)
    requires Sane(sim, HitsTaken(sim))
    ensures Dealt(HitsTaken(sim), p) + sim.players.Get(p).health == 100
    ensures !sim.players.Get(p).alive ==> sim.players.Get(p).health == 0
  {
    hide HitsTaken;
  }

  /** The end-to-end law. With enough reservations to pay for a life, and no failure report accepted in a started
      match, no damage report is ever refused and the match is never paused for payment. Each player has paid exactly
      one bucket's amount for every whole bucket of health lost; so the loser of a match has paid
      100 / bucket times the amount. */
  lemma EveryHitIsPaid(cfg: Config, inputs: PerSlot<InputFrame>, rounds: seq<Round>, p: PlayerSlot)
    requires cfg.Valid() && Covers(cfg) && Suitable(cfg, rounds)
    requires Clean(Serve(cfg, inputs, rounds))
    ensures var s := Serve(cfg, inputs, rounds);
            && !s.sim.phase.PaymentPaused?
            && (s.settlement.Some? ==> s.settlement.value.capErrors == 0)
            && (s.started ==> s.settlement.Some?)
            && (s.started ==> s.sim.players.Get(p).health <= 100 &&
                              s.settlement.value.ledger.releasedTotal.Get(p) ==
                              (100 - s.sim.players.Get(p).health) / cfg.bucket * cfg.amount)
            && (s.started && !s.sim.players.Get(p).alive ==>
                  s.settlement.value.ledger.releasedTotal.Get(p) == 100 / cfg.bucket * cfg.amount)
  {
    var s := Serve(cfg, inputs, rounds);
    ServeKeepsInv(cfg, inputs, rounds);
    CleanRunsAreOnTrack(cfg, inputs, rounds);
    hide Serve, Covers, Clean, Settles, Backed, Inv, ValidConfiguration, Suitable;
    if s.started {
      PaidFor(cfg, s, p);
    }
  }

  lemma PaidFor(cfg: Config, s: ServerState, p: PlayerSlot)
    requires cfg.Valid() && Inv(cfg, s) && OnTrack(cfg, s) && Unrefused(s) && s.started
    ensures s.settlement.Some? && s.sim.players.Get(p).health <= 100
    ensures s.settlement.value.ledger.releasedTotal.Get(p) ==
            (100 - s.sim.players.Get(p).health) / cfg.bucket * cfg.amount
    ensures !s.sim.players.Get(p).alive ==>
              s.settlement.value.ledger.releasedTotal.Get(p) == 100 / cfg.bucket * cfg.amount
  {
    RunningUnless(cfg, s);
    assert s.settlement.Some?;
    TermsAreIssued(cfg, s);
    BookInPhase(cfg, s);
    SimInStepOf(cfg, s);
    HealthIsHits(s.sim, p);
    var b, dealt := s.settlement.value, Dealt(HitsTaken(s.sim), p);
    assert |IdsOf(b.issued, p)| == Whole(dealt, b.ledger.terms.damageBucket);
    ReleasedFor(cfg, b, p);
  }

  lemma ReleasedFor(cfg: Config, b: Book, p: PlayerSlot)
    requires BookOf(cfg, b)
    ensures b.ledger.releasedTotal.Get(p) == |IdsOf(b.issued, p)| * cfg.amount
  {
    FaithfulAmounts(cfg.crypto, b.ledger, b.issued);
    assert b.ledger.releasedTotal.Get(p) == Charged(b.issued, p);
    hide Sound, Charged, IdsOf;
    ChargedIsCount(b.issued, cfg.amount, p);
  }

  /** Exactly enough: once a player of a clean run is dead, nothing was refused if and only if there were
      reservations for a whole life. */
  lemma CoverIsExact(cfg: Config, inputs: PerSlot<InputFrame>, rounds: seq<Round>, p: PlayerSlot)
    requires cfg.Valid() && Suitable(cfg, rounds)
    requires var s := Serve(cfg, inputs, rounds); Clean(s) && s.started && !s.sim.players.Get(p).alive
    ensures var s := Serve(cfg, inputs, rounds);
            s.settlement.Some? && (s.settlement.value.capErrors == 0 <==> Covers(cfg))
  {
    var s := Serve(cfg, inputs, rounds);
    ServeKeepsInv(cfg, inputs, rounds);
    RunningUnless(cfg, s);
    assert s.settlement.Some?;
    CleanRunsAreOnTrack(cfg, inputs, rounds);
    hide Serve, Settles, Backed, Inv, ValidConfiguration, Suitable, Phased, Running, Finished, InLobby;
    if Unrefused(s) {
      LifeIsCovered(cfg, s, p);
    }
  }

  /** What the dead have paid was within their quota. */
  lemma LifeIsCovered(cfg: Config, s: ServerState, p: PlayerSlot)
    requires cfg.Valid() && Inv(cfg, s) && OnTrack(cfg, s) && Unrefused(s) && s.started && s.settlement.Some?
    requires !s.sim.players.Get(p).alive
    ensures Covers(cfg)
  {
    var b := s.settlement.value;
    TermsAreIssued(cfg, s);
    BookInPhase(cfg, s);
    SimInStepOf(cfg, s);
    HealthIsHits(s.sim, p);
    assert |IdsOf(b.issued, p)| == Whole(100, cfg.bucket);
    QuotaOf(cfg, b);
    PaidByQuota(cfg, b, p);
  }

  lemma PaidByQuota(cfg: Config, b: Book, p: PlayerSlot)
    requires BookOf(cfg, b)
    ensures WellFormedTerms(b.ledger.terms) && |IdsOf(b.issued, p)| <= Quota(b.ledger.terms)
  {
    ListsAreDistinct(Ids(b.issued), b.ledger.reservations, PAID);
    PaidWithinQuota(cfg.crypto, b.ledger, b.issued, p);
  }
}
