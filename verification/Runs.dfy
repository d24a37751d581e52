/** Whole histories of coordinator calls, in any order and with any arguments. */
module Runs {
  import opened Binary
  import opened Protocol
  import opened Sequences
  import opened Settlement
  import opened Accounting

  // ---------------------------------------------------------------------------
  // The books of a fresh coordinator
  // ---------------------------------------------------------------------------

  ghost predicate Fresh(c: Crypto, b: Book) {
    && Sound(c, b)
    && b.issued == [] && b.returned == [] && b.cancelled == [] && b.capErrors == 0
    && forall i :: 0 <= i < |b.ledger.reservations| ==>
         var r := b.ledger.reservations[i];
         r.status == AwaitingInvoice && r.invoice.None? && !r.payerFunded && !r.payeeReceived
  }

  /** The constructor's books are fresh. */
  lemma NewIsFresh(c: Crypto, matchId: u128, key: Bytes, amount: u128, bucket: u16, cap: u128, deadline: u64,
                   preimages: seq<Bytes>)
    requires ValidConfiguration(amount, bucket, cap)
    requires |preimages| == 2 * PerPlayer(amount, cap)
    ensures Fresh(c, NewBook(c, matchId, key, amount, bucket, cap, deadline, preimages))
  {
    NewBookIsSound(c, matchId, key, amount, bucket, cap, deadline, preimages);
  }

  lemma IssuedAtMostOnceEach(c: Crypto, b: Book)
    requires Sound(c, b)
    ensures |b.issued| <= |b.ledger.reservations|
    ensures forall j, k :: 0 <= j < k < |b.issued| ==> b.issued[j].Id() != b.issued[k].Id()
  {
    IdsAt(b.issued);
    Pigeonhole(Ids(b.issued), 0, |b.ledger.reservations|);
  }

  lemma SequenceHasRoom(c: Crypto, b: Book)
    requires Sound(c, b)
    ensures b.ledger.nextSequence + |b.ledger.reservations| <= 0x2_0000
  {
    IssuedAtMostOnceEach(c, b);
  }

  lemma {:induction false} IdsAt(log: seq<HoldInvoiceRelease>)
    ensures |Ids(log)| == |log|
    ensures forall k :: 0 <= k < |log| ==> Ids(log)[k] == log[k].Id()
  {
    if log != [] { IdsAt(log[..|log| - 1]); }
  }

  /** The accounts of every history: no reservation is released twice; each release repeats its reservation's
      terms under its own signature and carries a preimage of its payment hash; sequence numbers are 1, 2, 3, ...;
      a payer's total is the per-bucket amount times the payer's releases, and stays within the cap. No 128-bit
      total saturates and no sequence number comes near the 64-bit limit. */
  lemma EveryHistoryBalances(c: Crypto, b: Book, calls: seq<Call>)
    requires Fresh(c, b)
    ensures var r := Run(c, b, calls);
            var l, log := r.ledger, r.issued;
            && (forall j, k :: 0 <= j < k < |log| ==> log[j].Id() != log[k].Id())
            && (forall k :: 0 <= k < |log| ==> Faithful(c, l, log[k], k + 1))
            && (forall k :: 0 <= k < |log| ==> c.digest(log[k].paymentPreimage) == log[k].intent.body.paymentHash)
            && l.nextSequence == |log| + 1 && l.nextSequence <= 0x1_0000
            && (forall p: PlayerSlot :: l.releasedTotal.Get(p) == |IdsOf(log, p)| * l.terms.amountPerDamageBucket)
            && (forall p: PlayerSlot :: l.releasedTotal.Get(p) <= l.terms.maxTotalPerPlayer)
  {
    var r := Run(c, b, calls);
    RunIsSound(c, b, calls);
    IssuedAtMostOnceEach(c, r);
    SignedPreimages(c, r);
    assert WellFormedTerms(r.ledger.terms);
    hide Faithful, Run, Lists;
    forall p: PlayerSlot
      ensures r.ledger.releasedTotal.Get(p) == |IdsOf(r.issued, p)| * r.ledger.terms.amountPerDamageBucket
      ensures r.ledger.releasedTotal.Get(p) <= r.ledger.terms.maxTotalPerPlayer
    {
      ListsAreDistinct(Ids(r.issued), r.ledger.reservations, PAID);
      ChargedWithinCap(c, r.ledger, r.issued, p);
      FaithfulAmounts(c, r.ledger, r.issued);
      ChargedIsCount(r.issued, r.ledger.terms.amountPerDamageBucket, p);
    }
  }

  lemma SignedPreimages(c: Crypto, b: Book)
    requires Sound(c, b)
    ensures forall k :: 0 <= k < |b.issued| ==> Faithful(c, b.ledger, b.issued[k], k + 1)
    ensures forall k :: 0 <= k < |b.issued| ==>
              c.digest(b.issued[k].paymentPreimage) == b.issued[k].intent.body.paymentHash
  {
    forall k | 0 <= k < |b.issued|
      ensures Faithful(c, b.ledger, b.issued[k], k + 1)
      ensures c.digest(b.issued[k].paymentPreimage) == b.issued[k].intent.body.paymentHash
    {
      assert Faithful(c, b.ledger, b.issued[k], k + 1);
    }
  }

  // ---------------------------------------------------------------------------
  // Statuses only move forward
  // ---------------------------------------------------------------------------

  function Rank(status: ReservationStatus): nat {
    match status
    case AwaitingInvoice => 0
    case Offered => 1
    case Held => 2
    case Released => 3
    case CancelPending => 3
    case Settled => 4
    case Cancelled => 4
    case Failed => 5
  }

  ghost predicate Rises(r: HoldReservation, r': HoldReservation) {
    && (r'.status == r.status || Rank(r'.status) > Rank(r.status))
    && (r.invoice.Some? ==> r'.invoice == r.invoice)
  }

  lemma RisesOnOffer(c: Crypto, l: Ledger, sender: PlayerSlot, offer: HoldInvoiceOffer, i: nat)
    requires SoundLedger(c, l) && i < |l.reservations|
    ensures |RegisterOffer(l, sender, offer).reservations| == |l.reservations|
    ensures Rises(l.reservations[i], RegisterOffer(l, sender, offer).reservations[i])
  {
    hide WellFormedTerms;
  }

  lemma RisesOnAck(c: Crypto, l: Ledger, sender: PlayerSlot, ack: HoldInvoiceAck, i: nat)
    requires SoundLedger(c, l) && i < |l.reservations|
    ensures |Acknowledge(l, sender, ack).reservations| == |l.reservations|
    ensures Rises(l.reservations[i], Acknowledge(l, sender, ack).reservations[i])
  {
    hide WellFormedTerms;
  }

  lemma RisesOnFailure(l: Ledger, sender: PlayerSlot, failure: HoldInvoiceFailure, i: nat)
    requires i < |l.reservations|
    ensures |RecordFailure(l, sender, failure).reservations| == |l.reservations|
    ensures Rises(l.reservations[i], RecordFailure(l, sender, failure).reservations[i])
  {
  }

  lemma RisesOnDamage(l: Ledger, hit: Hit, i: nat)
    requires l.terms.damageBucket > 0 && i < |l.reservations|
    ensures |RecordDamage(l, hit).reservations| == |l.reservations|
    ensures Rises(l.reservations[i], RecordDamage(l, hit).reservations[i])
  {
    var ids := Payable(l, hit);
    assert RecordDamage(l, hit).reservations == MarkReleased(l.reservations, ids);
    hide RecordDamage, Payable, Rises;
    if i in ids {
      var k :| 0 <= k < |ids| && ids[k] == i;
      assert l.reservations[i].status == Held;
    }
    ReleasedRises(l.reservations[i]);
  }

  lemma ReleasedRises(r: HoldReservation)
    ensures Rises(r, r)
    ensures r.status == Held ==> Rises(r, r.(status := Released))
  {
  }

  lemma RisesOnCancel(l: Ledger, i: nat)
    requires i < |l.reservations|
    ensures Rises(l.reservations[i], CancelUnused(l).reservations[i])
  {
  }

  /** Whatever is called, a reservation keeps its status or moves to a higher rank, and a stored invoice stays. */
  lemma StatusOnlyRises(c: Crypto, b: Book, call: Call, i: nat)
    requires b.ledger.terms.damageBucket > 0 && SoundLedger(c, b.ledger) && i < |b.ledger.reservations|
    ensures |Apply(c, b, call).ledger.reservations| == |b.ledger.reservations|
    ensures Rises(b.ledger.reservations[i], Apply(c, b, call).ledger.reservations[i])
  {
    hide SoundLedger, Rises, RegisterOffer, Acknowledge, RecordFailure, RecordDamage;
    match call
    case Offer(sender, offer) => RisesOnOffer(c, b.ledger, sender, offer, i);
    case Ack(sender, ack) => RisesOnAck(c, b.ledger, sender, ack, i);
    case FailureReport(sender, failure) => RisesOnFailure(b.ledger, sender, failure, i);
    case Damaged(hit) => RisesOnDamage(b.ledger, hit, i);
    case CancelRest => RisesOnCancel(b.ledger, i);
  }

  /** In how many calls of a history the status of reservation `i` changes. */
  ghost function Changes(c: Crypto, b: Book, calls: seq<Call>, i: nat): nat
    requires Sound(c, b) && i < |b.ledger.reservations|
  {
    if calls == [] then 0
    else
      var front := calls[..|calls| - 1];
      RunIsSound(c, b, front);
      RunIsSound(c, b, calls);
      RunKeepsLength(c, b, front);
      RunKeepsLength(c, b, calls);
      Changes(c, b, front, i) +
      if Run(c, b, calls).ledger.reservations[i].status == Run(c, b, front).ledger.reservations[i].status then 0 else 1
  }

  lemma RunKeepsLength(c: Crypto, b: Book, calls: seq<Call>)
    requires Sound(c, b)
    ensures |Run(c, b, calls).ledger.reservations| == |b.ledger.reservations|
  {
    RunIsSound(c, b, calls);
  }

  /** A history changes the status of a reservation at most five times. */
  lemma {:induction false} AtMostFiveChanges(c: Crypto, b: Book, calls: seq<Call>, i: nat)
    requires Sound(c, b) && i < |b.ledger.reservations|
    ensures |Run(c, b, calls).ledger.reservations| == |b.ledger.reservations|
    ensures Changes(c, b, calls, i) + Rank(b.ledger.reservations[i].status)
            <= Rank(Run(c, b, calls).ledger.reservations[i].status) <= 5
  {
    RunKeepsLength(c, b, calls);
    if calls != [] {
      var front := calls[..|calls| - 1];
      AtMostFiveChanges(c, b, front, i);
      RunIsSound(c, b, front);
      SoundParts(c, Run(c, b, front));
      hide Sound, SoundLedger, Apply, Rank;
      StatusOnlyRises(c, Run(c, b, front), calls[|calls| - 1], i);
      RankRises(Run(c, b, front).ledger.reservations[i], Run(c, b, calls).ledger.reservations[i]);
    }
  }

  lemma FailedStays(r: HoldReservation, r': HoldReservation)
    requires Rises(r, r') && r.status == Failed
    ensures r'.status == Failed
  {
  }

  lemma SoundParts(c: Crypto, b: Book)
    requires Sound(c, b)
    ensures SoundLedger(c, b.ledger) && b.ledger.terms.damageBucket > 0
  {
  }

  lemma RankRises(r: HoldReservation, r': HoldReservation)
    requires Rises(r, r')
    ensures Rank(r.status) + (if r'.status == r.status then 0 else 1) <= Rank(r'.status) <= 5
  {
  }
}
