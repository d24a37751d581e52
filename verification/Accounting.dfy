/** What every history of coordinator calls keeps: no reservation is paid twice, totals count the releases,
    sequence numbers are consecutive, and nothing is both released and cancelled. */
module Accounting {
  import opened Binary
  import opened Protocol
  import opened Sequences
  import opened Settlement

  // ---------------------------------------------------------------------------
  // The invariant
  // ---------------------------------------------------------------------------

  const PAID := {Released, ReservationStatus.Settled}
  const RETURNED := {CancelPending, ReservationStatus.Cancelled}

  /** The flags and invoice that each status presupposes. */
  predicate Coherent(r: HoldReservation) {
    && (r.status == AwaitingInvoice ==> r.invoice.None?)
    && (r.invoice.None? ==> r.status in {AwaitingInvoice, Failed} && !r.payerFunded && !r.payeeReceived)
    && (r.status == Offered ==> !(r.payerFunded && r.payeeReceived))
    && (r.status == Held || r.status in PAID ==> r.payerFunded && r.payeeReceived)
  }

  ghost predicate SoundLedger(c: Crypto, l: Ledger) {
    && WellFormedTerms(l.terms)
    && l.terms.serverVerifyingKey == c.verifyingKey(l.signingKey)
    && |l.reservations| == |l.terms.holdInvoices|
    && forall i :: 0 <= i < |l.reservations| ==>
         var r := l.reservations[i];
         && r.term == l.terms.holdInvoices[i]
         && c.digest(r.paymentPreimage) == r.term.paymentHash
         && Coherent(r)
  }

  ghost function Ids(log: seq<HoldInvoiceRelease>): seq<int> {
    if log == [] then [] else Ids(log[..|log| - 1]) + [log[|log| - 1].Id() as int]
  }

  ghost function TermIds(terms: seq<HoldInvoiceTerm>): seq<int> {
    if terms == [] then [] else TermIds(terms[..|terms| - 1]) + [terms[|terms| - 1].reservationId as int]
  }

  lemma {:induction false} IdsMembers(log: seq<HoldInvoiceRelease>)
    ensures |Ids(log)| == |log|
    ensures forall r :: r in log ==> r.Id() as int in Ids(log)
    ensures forall i :: i in Ids(log) ==> exists r :: r in log && r.Id() == i
  {
    if log != [] {
      var front, last := log[..|log| - 1], log[|log| - 1];
      IdsMembers(front);
      assert log == front + [last];
      forall i | i in Ids(log) ensures exists r :: r in log && r.Id() == i {
        if i in Ids(front) {
          var r :| r in front && r.Id() == i;
          assert r in log;
        } else {
          assert last in log;
        }
      }
    }
  }

  lemma {:induction false} IdsAppend(log: seq<HoldInvoiceRelease>, more: seq<HoldInvoiceRelease>)
    ensures Ids(log + more) == Ids(log) + Ids(more)
  {
    if more == [] {
      assert log + more == log;
    } else {
      IdsAppend(log, more[..|more| - 1]);
      assert (log + more)[..|log + more| - 1] == log + more[..|more| - 1];
    }
  }

  lemma {:induction false} TermIdsAppend(terms: seq<HoldInvoiceTerm>, more: seq<HoldInvoiceTerm>)
    ensures TermIds(terms + more) == TermIds(terms) + TermIds(more)
  {
    if more == [] {
      assert terms + more == terms;
    } else {
      TermIdsAppend(terms, more[..|more| - 1]);
      assert (terms + more)[..|terms + more| - 1] == terms + more[..|more| - 1];
    }
  }

  /** The ids of the releases charged to one payer. */
  ghost function IdsOf(log: seq<HoldInvoiceRelease>, payer: PlayerSlot): seq<int> {
    if log == [] then []
    else
      var last := log[|log| - 1];
      IdsOf(log[..|log| - 1], payer) + if last.intent.body.payer == payer then [last.Id() as int] else []
  }

  /** The amounts released at one payer's expense. */
  ghost function Charged(log: seq<HoldInvoiceRelease>, payer: PlayerSlot): nat {
    if log == [] then 0
    else
      var last := log[|log| - 1].intent.body;
      Charged(log[..|log| - 1], payer) + if last.payer == payer then last.amount else 0
  }

  /** A logged release says exactly what its reservation says, and is properly signed. */
  ghost predicate Faithful(c: Crypto, l: Ledger, release: HoldInvoiceRelease, sequence: nat) {
    var body := release.intent.body;
    && body.reservationId < |l.reservations|
    && var r := l.reservations[body.reservationId];
    && body.matchId == l.terms.matchId
    && body.sequence == sequence
    && body.payer == r.term.payer
    && body.amount == r.term.amount
    && body.paymentHash == r.term.paymentHash
    && body.reason == SettlementReason.Damage(l.terms.damageBucket)
    && release.paymentPreimage == r.paymentPreimage
    && release.intent.signature == c.sign(body, l.signingKey)
  }

  ghost predicate FaithfulLog(c: Crypto, l: Ledger, log: seq<HoldInvoiceRelease>) {
    forall k :: 0 <= k < |log| ==> Faithful(c, l, log[k], k + 1)
  }

  /** `ids` lists, without repetition, the reservations that reached a status in `statuses`: the ones in such a
      status now, and possibly some that a failure report has marked since. */
  ghost predicate Lists(ids: seq<int>, rs: seq<HoldReservation>, statuses: set<ReservationStatus>) {
    && Distinct(ids)
    && (forall i :: i in ids ==> 0 <= i < |rs| && (rs[i].status in statuses || rs[i].status == Failed))
    && (forall i :: 0 <= i < |rs| && rs[i].status in statuses ==> i in ids)
  }

  ghost predicate SoundTotals(b: Book) {
    forall p: PlayerSlot :: b.ledger.releasedTotal.Get(p) == Charged(b.issued, p)
  }

  ghost predicate SoundReturned(b: Book) {
    && (b.capErrors == 0 ==> b.returned == b.issued)
    && (forall r :: r in b.returned ==> r in b.issued)
    && Distinct(Ids(b.returned))
  }

  ghost predicate SoundCancelled(b: Book) {
    forall k :: 0 <= k < |b.cancelled| ==>
      var id := b.cancelled[k].reservationId;
      id < |b.ledger.reservations| && b.cancelled[k] == b.ledger.reservations[id].term
  }

  ghost predicate Sound(c: Crypto, b: Book) {
    && SoundLedger(c, b.ledger)
    && b.ledger.nextSequence == |b.issued| + 1
    && FaithfulLog(c, b.ledger, b.issued)
    && Lists(Ids(b.issued), b.ledger.reservations, PAID)
    && Lists(TermIds(b.cancelled), b.ledger.reservations, RETURNED)
    && Disjoint(Ids(b.issued), TermIds(b.cancelled))
    && SoundTotals(b)
    && SoundReturned(b)
    && SoundCancelled(b)
  }

  lemma ListsAreDistinct(ids: seq<int>, rs: seq<HoldReservation>, statuses: set<ReservationStatus>)
    requires Lists(ids, rs, statuses)
    ensures Distinct(ids)
  {
  }

  lemma BucketIsPositive(c: Crypto, b: Book)
    requires Sound(c, b)
    ensures b.ledger.terms.damageBucket > 0
  {
  }

  /** Only statuses, flags and invoices change: every reservation keeps its term and preimage. */
  ghost predicate SameTerms(rs: seq<HoldReservation>, rs': seq<HoldReservation>) {
    && |rs'| == |rs|
    && forall i :: 0 <= i < |rs| ==> rs'[i].term == rs[i].term && rs'[i].paymentPreimage == rs[i].paymentPreimage
  }

  lemma FaithfulLater(c: Crypto, l: Ledger, l': Ledger, log: seq<HoldInvoiceRelease>)
    requires FaithfulLog(c, l, log)
    requires l'.terms == l.terms && l'.signingKey == l.signingKey && SameTerms(l.reservations, l'.reservations)
    ensures FaithfulLog(c, l', log)
  {
    forall k | 0 <= k < |log| ensures Faithful(c, l', log[k], k + 1) {
      assert Faithful(c, l, log[k], k + 1);
    }
  }

  /** Moving the reservations `more` into `statuses` extends the list by exactly them. */
  lemma ExtendList(ids: seq<int>, more: seq<int>, rs: seq<HoldReservation>, rs': seq<HoldReservation>,
                   statuses: set<ReservationStatus>)
    requires Lists(ids, rs, statuses) && Distinct(more) && |rs'| == |rs|
    requires forall k :: 0 <= k < |more| ==>
               0 <= more[k] < |rs| && rs[more[k]].status !in statuses && rs[more[k]].status != Failed
    requires forall i :: 0 <= i < |rs| ==>
               if i in more then rs'[i].status in statuses
               else rs'[i].status == rs[i].status || (rs[i].status !in statuses && rs[i].status != Failed &&
                                                      rs'[i].status !in statuses)
    ensures Lists(ids + more, rs', statuses)
    ensures Disjoint(ids, more)
  {
    DistinctAppend(ids, more);
  }

  lemma TotalsDependOnLog(b: Book, b': Book)
    requires SoundTotals(b) && b'.issued == b.issued && b'.ledger.releasedTotal == b.ledger.releasedTotal
    ensures SoundTotals(b')
  {
  }

  lemma ReturnedDependsOnLog(b: Book, b': Book)
    requires SoundReturned(b) && b'.issued == b.issued && b'.returned == b.returned && b'.capErrors == b.capErrors
    ensures SoundReturned(b')
  {
  }

  // ---------------------------------------------------------------------------
  // Offers, acknowledgements and failure reports
  // ---------------------------------------------------------------------------

  /** A change of one reservation that neither pays nor cancels it. */
  ghost predicate Quiet(r: HoldReservation, r': HoldReservation) {
    && Coherent(r')
    && (r'.status in PAID ==> r.status in PAID)
    && (r'.status in RETURNED ==> r.status in RETURNED)
    && (r.status in PAID + {Failed} ==> r'.status in PAID + {Failed})
    && (r.status in RETURNED + {Failed} ==> r'.status in RETURNED + {Failed})
  }

  ghost predicate QuietStep(l: Ledger, l': Ledger) {
    && l' == l.(reservations := l'.reservations)
    && SameTerms(l.reservations, l'.reservations)
    && forall i :: 0 <= i < |l.reservations| ==> Quiet(l.reservations[i], l'.reservations[i])
  }

  lemma OfferIsQuiet(c: Crypto, l: Ledger, sender: PlayerSlot, offer: HoldInvoiceOffer)
    requires SoundLedger(c, l)
    ensures QuietStep(l, RegisterOffer(l, sender, offer))
  {
    hide WellFormedTerms;
  }

  lemma AckIsQuiet(c: Crypto, l: Ledger, sender: PlayerSlot, ack: HoldInvoiceAck)
    requires SoundLedger(c, l)
    ensures QuietStep(l, Acknowledge(l, sender, ack))
  {
    hide WellFormedTerms;
  }

  lemma FailureIsQuiet(c: Crypto, l: Ledger, sender: PlayerSlot, failure: HoldInvoiceFailure)
    requires SoundLedger(c, l)
    ensures QuietStep(l, RecordFailure(l, sender, failure))
  {
    hide WellFormedTerms;
  }

  lemma MessagesAreQuiet(c: Crypto, b: Book, call: Call)
    requires b.ledger.terms.damageBucket > 0 && SoundLedger(c, b.ledger)
    requires call.Offer? || call.Ack? || call.FailureReport?
    ensures QuietStep(b.ledger, Apply(c, b, call).ledger)
  {
    hide SoundLedger, QuietStep, RegisterOffer, Acknowledge, RecordFailure;
    match call
    case Offer(sender, offer) => OfferIsQuiet(c, b.ledger, sender, offer);
    case Ack(sender, ack) => AckIsQuiet(c, b.ledger, sender, ack);
    case FailureReport(sender, failure) => FailureIsQuiet(c, b.ledger, sender, failure);
  }

  lemma QuietKeepsList(ids: seq<int>, l: Ledger, l': Ledger, statuses: set<ReservationStatus>)
    requires QuietStep(l, l') && Lists(ids, l.reservations, statuses) && statuses in {PAID, RETURNED}
    ensures Lists(ids, l'.reservations, statuses)
  {
    forall i | i in ids
      ensures 0 <= i < |l'.reservations|
      ensures l'.reservations[i].status in statuses || l'.reservations[i].status == Failed
    {
      assert Quiet(l.reservations[i], l'.reservations[i]);
    }
    forall i | 0 <= i < |l'.reservations| && l'.reservations[i].status in statuses ensures i in ids {
      assert Quiet(l.reservations[i], l'.reservations[i]);
    }
  }

  lemma QuietIsSound(c: Crypto, b: Book, l': Ledger)
    requires Sound(c, b) && QuietStep(b.ledger, l')
    ensures Sound(c, b.(ledger := l'))
  {
    FaithfulLater(c, b.ledger, l', b.issued);
    QuietKeepsList(Ids(b.issued), b.ledger, l', PAID);
    QuietKeepsList(TermIds(b.cancelled), b.ledger, l', RETURNED);
  }

  // ---------------------------------------------------------------------------
  // Damage
  // ---------------------------------------------------------------------------

  lemma {:induction false} IdsOfMembers(log: seq<HoldInvoiceRelease>, p: PlayerSlot)
    ensures forall i :: i in IdsOf(log, p) ==> exists r :: r in log && r.Id() == i && r.intent.body.payer == p
  {
    if log != [] {
      var front, last := log[..|log| - 1], log[|log| - 1];
      assert log == front + [last];
      IdsOfMembers(front, p);
      forall i | i in IdsOf(front, p) ensures exists r :: r in log && r.Id() == i && r.intent.body.payer == p {
        var r :| r in front && r.Id() == i && r.intent.body.payer == p;
        assert r in log;
      }
      assert last in log;
    }
  }

  lemma {:induction false} CountAppend(log: seq<HoldInvoiceRelease>, more: seq<HoldInvoiceRelease>,
                                       payer: PlayerSlot, p: PlayerSlot)
    requires forall k :: 0 <= k < |more| ==> more[k].intent.body.payer == payer
    ensures |IdsOf(log + more, p)| == |IdsOf(log, p)| + if p == payer then |more| else 0
  {
    if more == [] {
      assert log + more == log;
    } else {
      CountAppend(log, more[..|more| - 1], payer, p);
      assert (log + more)[..|log + more| - 1] == log + more[..|more| - 1];
    }
  }

  lemma IssuedForPayable(c: Crypto, l: Ledger, hit: Hit)
    requires l.terms.damageBucket > 0
    ensures |Issued(c, l, hit)| == |Payable(l, hit)|
    ensures forall k :: 0 <= k < |Issued(c, l, hit)| ==> Issued(c, l, hit)[k].intent.body.payer == hit.victim
  {
    hide HeldIds, Left, Buckets, Owed, AmountOf, MarkReleased;
  }

  /** In a log without repetitions, no id is charged to a payer twice. */
  lemma {:induction false} IdsOfDistinct(log: seq<HoldInvoiceRelease>, p: PlayerSlot)
    requires Distinct(Ids(log))
    ensures Distinct(IdsOf(log, p))
    ensures forall i :: i in IdsOf(log, p) ==> i in Ids(log)
  {
    if log != [] {
      var front, last := log[..|log| - 1], log[|log| - 1].Id() as int;
      assert Ids(log) == Ids(front) + [last];
      assert Distinct(Ids(front)) by { assert Ids(front) == Ids(log)[..|Ids(front)|]; }
      IdsOfDistinct(front, p);
      assert last !in Ids(front) by { assert Ids(log)[|Ids(front)|] == last; }
      DistinctAppend(IdsOf(front, p), [last]);
    }
  }

  /** The releases charged to a payer never outnumber the payer's reservations. */
  lemma PaidWithinQuota(c: Crypto, l: Ledger, log: seq<HoldInvoiceRelease>, p: PlayerSlot)
    requires SoundLedger(c, l) && FaithfulLog(c, l, log) && Distinct(Ids(log))
    ensures |IdsOf(log, p)| <= Quota(l.terms)
  {
    var n := Quota(l.terms);
    var lo := if p == A then 0 else n;
    IdsOfMembers(log, p);
    IdsOfDistinct(log, p);
    forall i | i in IdsOf(log, p) ensures lo <= i < lo + n {
      var r :| r in log && r.Id() == i && r.intent.body.payer == p;
      var k :| 0 <= k < |log| && log[k] == r;
      assert Faithful(c, l, log[k], k + 1);
    }
    Pigeonhole(IdsOf(log, p), lo, lo + n);
  }

  lemma {:induction false} ChargedIsCount(log: seq<HoldInvoiceRelease>, each: nat, p: PlayerSlot)
    requires forall k :: 0 <= k < |log| ==> log[k].intent.body.amount == each
    ensures Charged(log, p) == |IdsOf(log, p)| * each
  {
    if log != [] {
      ChargedIsCount(log[..|log| - 1], each, p);
    }
  }

  lemma FaithfulAmounts(c: Crypto, l: Ledger, log: seq<HoldInvoiceRelease>)
    requires SoundLedger(c, l) && FaithfulLog(c, l, log)
    ensures forall k :: 0 <= k < |log| ==> log[k].intent.body.amount == l.terms.amountPerDamageBucket
  {
    forall k | 0 <= k < |log| ensures log[k].intent.body.amount == l.terms.amountPerDamageBucket {
      assert Faithful(c, l, log[k], k + 1);
    }
  }

  lemma QuotaCovers(n: nat, each: nat, cap: nat)
    requires each > 0 && cap % each == 0 && n <= cap / each
    ensures n * each <= cap
  {
    assert cap == cap / each * each;
    assert n * each <= cap / each * each;
  }

  lemma ChargedWithinCap(c: Crypto, l: Ledger, log: seq<HoldInvoiceRelease>, p: PlayerSlot)
    requires SoundLedger(c, l) && FaithfulLog(c, l, log) && Distinct(Ids(log))
    ensures Charged(log, p) <= l.terms.maxTotalPerPlayer
  {
    hide FaithfulLog, Distinct, Ids, IdsOf, Charged;
    FaithfulAmounts(c, l, log);
    ChargedIsCount(log, l.terms.amountPerDamageBucket, p);
    PaidWithinQuota(c, l, log, p);
    QuotaCovers(|IdsOf(log, p)|, l.terms.amountPerDamageBucket, l.terms.maxTotalPerPlayer);
  }

  lemma {:induction false} ChargedAppend(log: seq<HoldInvoiceRelease>, more: seq<HoldInvoiceRelease>, p: PlayerSlot)
    ensures Charged(log + more, p) == Charged(log, p) + Charged(more, p)
  {
    if more == [] {
      assert log + more == log;
    } else {
      ChargedAppend(log, more[..|more| - 1], p);
      assert (log + more)[..|log + more| - 1] == log + more[..|more| - 1];
    }
  }

  lemma {:induction false} BatchCharges(c: Crypto, l: Ledger, hit: Hit, ids: seq<int>, p: PlayerSlot)
    requires forall k :: 0 <= k < |ids| ==> 0 <= ids[k] < |l.reservations|
    ensures Charged(Batch(c, l, hit, ids), p) == if p == hit.victim then AmountOf(l.reservations, ids) else 0
  {
    if ids != [] {
      BatchCharges(c, l, hit, ids[..|ids| - 1], p);
      assert Batch(c, l, hit, ids)[..|ids| - 1] == Batch(c, l, hit, ids[..|ids| - 1]);
    }
  }

  lemma {:induction false} BatchIds(c: Crypto, l: Ledger, hit: Hit, ids: seq<int>)
    requires forall k :: 0 <= k < |ids| ==>
               0 <= ids[k] < |l.reservations| && l.reservations[ids[k]].term.reservationId == ids[k]
    ensures Ids(Batch(c, l, hit, ids)) == ids
  {
    if ids != [] {
      var front, batch := ids[..|ids| - 1], Batch(c, l, hit, ids);
      BatchIds(c, l, hit, front);
      assert batch[..|ids| - 1] == Batch(c, l, hit, front);
      assert batch[|ids| - 1].Id() == ids[|ids| - 1];
    }
  }

  /** What a hit signs: one release for each reservation it may pay with. */
  lemma HitIds(c: Crypto, l: Ledger, hit: Hit)
    requires SoundLedger(c, l)
    ensures Ids(Issued(c, l, hit)) == Payable(l, hit) && Distinct(Payable(l, hit))
  {
    BatchIds(c, l, hit, Payable(l, hit));
  }

  lemma HitIsFaithful(c: Crypto, l: Ledger, hit: Hit)
    requires SoundLedger(c, l)
    ensures forall k :: 0 <= k < |Issued(c, l, hit)| ==>
              && Issued(c, l, hit)[k].intent.body.payer == hit.victim
              && Faithful(c, l, Issued(c, l, hit)[k], l.nextSequence + k)
  {
    assert l.terms.damageBucket > 0;
    hide *;
    forall k | 0 <= k < |Issued(c, l, hit)|
      ensures Issued(c, l, hit)[k].intent.body.payer == hit.victim
      ensures Faithful(c, l, Issued(c, l, hit)[k], l.nextSequence + k)
    {
      var i := IssuedAt(c, l, hit, k);
      ReleaseIsFaithful(c, l, hit, l.nextSequence + k, i);
    }
  }

  /** The reservation that the `k`-th release of a hit is for. */
  lemma IssuedAt(c: Crypto, l: Ledger, hit: Hit, k: nat) returns (i: nat)
    requires l.terms.damageBucket > 0 && k < |Issued(c, l, hit)|
    ensures i < |l.reservations| && l.reservations[i].term.payer == hit.victim
    ensures Issued(c, l, hit)[k] == ReleaseOf(c, l, hit, l.nextSequence + k, l.reservations[i])
  {
    i := Payable(l, hit)[k];
    assert HeldBy(l.reservations[i], hit.victim);
    hide HeldIds, ReleaseOf;
  }

  lemma ReleaseIsFaithful(c: Crypto, l: Ledger, hit: Hit, sequence: nat, i: nat)
    requires SoundLedger(c, l) && i < |l.reservations| && l.reservations[i].term.payer == hit.victim
    ensures ReleaseOf(c, l, hit, sequence, l.reservations[i]).intent.body.payer == hit.victim
    ensures Faithful(c, l, ReleaseOf(c, l, hit, sequence, l.reservations[i]), sequence)
  {
    hide WellFormedTerms, Coherent;
    TermIsOwn(c, l, i);
  }

  lemma TermIsOwn(c: Crypto, l: Ledger, i: nat)
    requires SoundLedger(c, l) && i < |l.reservations|
    ensures l.reservations[i].term.reservationId == i
  {
    assert l.reservations[i].term == l.terms.holdInvoices[i];
  }

  lemma DamageKeepsLedger(c: Crypto, l: Ledger, hit: Hit)
    requires SoundLedger(c, l)
    ensures SoundLedger(c, RecordDamage(l, hit))
    ensures SameTerms(l.reservations, RecordDamage(l, hit).reservations)
  {
  }

  lemma FaithfulAppend(c: Crypto, l: Ledger, log: seq<HoldInvoiceRelease>, batch: seq<HoldInvoiceRelease>)
    requires FaithfulLog(c, l, log)
    requires forall k :: 0 <= k < |batch| ==> Faithful(c, l, batch[k], |log| + 1 + k)
    ensures FaithfulLog(c, l, log + batch)
  {
    hide Faithful;
    forall k | 0 <= k < |log + batch| ensures Faithful(c, l, (log + batch)[k], k + 1) {
      if k >= |log| { assert (log + batch)[k] == batch[k - |log|]; }
    }
  }

  lemma DamageKeepsLog(c: Crypto, b: Book, hit: Hit)
    requires SoundLedger(c, b.ledger) && FaithfulLog(c, b.ledger, b.issued) && b.ledger.nextSequence == |b.issued| + 1
    ensures FaithfulLog(c, RecordDamage(b.ledger, hit), b.issued + Issued(c, b.ledger, hit))
  {
    assert b.ledger.terms.damageBucket > 0;
    hide SoundLedger, FaithfulLog, Faithful, SameTerms, Issued, Payable;
    HitIsFaithful(c, b.ledger, hit);
    FaithfulAppend(c, b.ledger, b.issued, Issued(c, b.ledger, hit));
    DamageKeepsLedger(c, b.ledger, hit);
    FaithfulLater(c, b.ledger, RecordDamage(b.ledger, hit), b.issued + Issued(c, b.ledger, hit));
  }

  /** Releasing held reservations extends the list of releases and leaves the list of cancellations. */
  lemma ReleaseKeepsLists(issued: seq<int>, cancelled: seq<int>, rs: seq<HoldReservation>, more: seq<int>)
    requires Lists(issued, rs, PAID) && Lists(cancelled, rs, RETURNED) && Disjoint(issued, cancelled)
    requires Distinct(more) && forall k :: 0 <= k < |more| ==> 0 <= more[k] < |rs| && rs[more[k]].status == Held
    ensures Lists(issued + more, MarkReleased(rs, more), PAID)
    ensures Lists(cancelled, MarkReleased(rs, more), RETURNED)
    ensures Disjoint(issued + more, cancelled) && Disjoint(issued, more)
  {
    ExtendList(issued, more, rs, MarkReleased(rs, more), PAID);
    ExtendList(cancelled, [], rs, MarkReleased(rs, more), RETURNED);
    assert cancelled + [] == cancelled;
  }

  lemma TotalsAfter(c: Crypto, b: Book, hit: Hit)
    requires b.ledger.terms.damageBucket > 0 && SoundTotals(b)
    requires forall p: PlayerSlot :: Charged(b.issued + Issued(c, b.ledger, hit), p) <= U128_MAX
    ensures SoundTotals(Apply(c, b, Damaged(hit)))
  {
    hide Charged;
    forall p: PlayerSlot
      ensures RecordDamage(b.ledger, hit).releasedTotal.Get(p) == Charged(b.issued + Issued(c, b.ledger, hit), p)
    {
      ChargedAppend(b.issued, Issued(c, b.ledger, hit), p);
      assert Charged(Issued(c, b.ledger, hit), p) ==
             if p == hit.victim then AmountOf(b.ledger.reservations, Payable(b.ledger, hit)) else 0 by {
        BatchCharges(c, b.ledger, hit, Payable(b.ledger, hit), p);
      }
    }
  }

  lemma ReturnedGrows(b: Book, b': Book, batch: seq<HoldInvoiceRelease>, refused: bool)
    requires SoundReturned(b) && Distinct(Ids(batch)) && Disjoint(Ids(b.issued), Ids(batch))
    requires b'.issued == b.issued + batch
    requires if refused then b'.returned == b.returned && b'.capErrors == b.capErrors + 1
             else b'.returned == b.returned + batch && b'.capErrors == b.capErrors
    ensures SoundReturned(b')
  {
    hide Distinct, Ids;
    IdsAppend(b.returned, batch);
    IdsMembers(b.returned);
    IdsMembers(b.issued);
    forall i | i in Ids(b.returned) ensures i !in Ids(batch) {
      var r :| r in b.returned && r.Id() == i;
      assert r in b.issued;
    }
    DistinctAppend(Ids(b.returned), Ids(batch));
  }

  lemma DamagedBook(c: Crypto, b: Book, hit: Hit)
    requires b.ledger.terms.damageBucket > 0
    ensures var batch, refused := Issued(c, b.ledger, hit), CapReached(b.ledger, hit);
            Apply(c, b, Damaged(hit)) ==
            Book(RecordDamage(b.ledger, hit), b.issued + batch, if refused then b.returned else b.returned + batch,
                 b.cancelled, if refused then b.capErrors + 1 else b.capErrors)
  {
    hide Issued, RecordDamage, CapReached;
    assert b.returned + [] == b.returned;
  }

  lemma ReturnedAfter(c: Crypto, b: Book, hit: Hit)
    requires b.ledger.terms.damageBucket > 0
    requires SoundLedger(c, b.ledger) && SoundReturned(b) && Disjoint(Ids(b.issued), Payable(b.ledger, hit))
    ensures SoundReturned(Apply(c, b, Damaged(hit)))
  {
    hide SoundLedger, SoundReturned, Ids, Payable, Issued, RecordDamage, CapReached, Distinct, Disjoint, Apply;
    HitIds(c, b.ledger, hit);
    DamagedBook(c, b, hit);
    ReturnedGrows(b, Apply(c, b, Damaged(hit)), Issued(c, b.ledger, hit), CapReached(b.ledger, hit));
  }

  lemma CancelledAfter(b: Book, l': Ledger)
    requires SoundCancelled(b) && SameTerms(b.ledger.reservations, l'.reservations)
    ensures SoundCancelled(b.(ledger := l'))
  {
  }

  lemma DamageKeepsPaid(c: Crypto, b: Book, hit: Hit)
    requires SoundLedger(c, b.ledger)
    requires Lists(Ids(b.issued), b.ledger.reservations, PAID)
    requires Lists(TermIds(b.cancelled), b.ledger.reservations, RETURNED)
    requires Disjoint(Ids(b.issued), TermIds(b.cancelled))
    ensures var b' := Apply(c, b, Damaged(hit));
            && Lists(Ids(b'.issued), b'.ledger.reservations, PAID)
            && Lists(TermIds(b'.cancelled), b'.ledger.reservations, RETURNED)
            && Disjoint(Ids(b'.issued), TermIds(b'.cancelled))
    ensures Disjoint(Ids(b.issued), Payable(b.ledger, hit))
  {
    assert b.ledger.terms.damageBucket > 0;
    var b' := Apply(c, b, Damaged(hit));
    assert b'.issued == b.issued + Issued(c, b.ledger, hit) && b'.cancelled == b.cancelled;
    assert b'.ledger.reservations == MarkReleased(b.ledger.reservations, Payable(b.ledger, hit));
    hide SoundLedger, Lists, Disjoint, Ids, TermIds, Payable, Issued, MarkReleased, Apply, RecordDamage, Distinct;
    HitIds(c, b.ledger, hit);
    IdsAppend(b.issued, Issued(c, b.ledger, hit));
    ReleaseKeepsLists(Ids(b.issued), TermIds(b.cancelled), b.ledger.reservations, Payable(b.ledger, hit));
  }

  lemma DamageIsSound(c: Crypto, b: Book, hit: Hit)
    requires Sound(c, b)
    ensures Sound(c, Apply(c, b, Damaged(hit)))
  {
    assert b.ledger.terms.damageBucket > 0;
    hide SoundLedger, FaithfulLog, Lists, Disjoint, Distinct, SoundTotals, SoundReturned, SoundCancelled, SameTerms,
         Charged, Payable, Ids, TermIds, WellFormedTerms;
    var b' := Apply(c, b, Damaged(hit));
    assert b'.ledger.nextSequence == |b'.issued| + 1;
    hide Issued, RecordDamage;
    DamageKeepsPaid(c, b, hit);
    DamageKeepsLedger(c, b.ledger, hit);
    DamageKeepsLog(c, b, hit);
    ListsAreDistinct(Ids(b'.issued), b'.ledger.reservations, PAID);
    forall p: PlayerSlot ensures Charged(b'.issued, p) <= U128_MAX {
      ChargedWithinCap(c, b'.ledger, b'.issued, p);
    }
    TotalsAfter(c, b, hit);
    ReturnedAfter(c, b, hit);
    CancelledAfter(b, b'.ledger);
  }

  // ---------------------------------------------------------------------------
  // Cancellation
  // ---------------------------------------------------------------------------

  lemma {:induction false} TermIdsOf(terms: seq<HoldInvoiceTerm>, ids: seq<int>)
    requires |terms| == |ids|
    requires forall k :: 0 <= k < |ids| ==> terms[k].reservationId == ids[k]
    ensures TermIds(terms) == ids
  {
    if ids != [] {
      TermIdsOf(terms[..|ids| - 1], ids[..|ids| - 1]);
    }
  }

  lemma CancelKeepsLists(issued: seq<int>, cancelled: seq<int>, rs: seq<HoldReservation>)
    requires Lists(issued, rs, PAID) && Lists(cancelled, rs, RETURNED) && Disjoint(issued, cancelled)
    ensures Lists(issued, CancelAll(rs), PAID)
    ensures Lists(cancelled + Positions(rs, Cancellable), CancelAll(rs), RETURNED)
    ensures Disjoint(issued, cancelled + Positions(rs, Cancellable))
  {
    ExtendList(issued, [], rs, CancelAll(rs), PAID);
    assert issued + [] == issued;
    ExtendList(cancelled, Positions(rs, Cancellable), rs, CancelAll(rs), RETURNED);
  }

  lemma CancelIds(c: Crypto, l: Ledger)
    requires SoundLedger(c, l)
    ensures TermIds(CancelledTerms(l.reservations)) == Positions(l.reservations, Cancellable)
  {
    TermIdsOf(CancelledTerms(l.reservations), Positions(l.reservations, Cancellable));
  }

  lemma CancelKeepsLedger(c: Crypto, l: Ledger)
    requires SoundLedger(c, l)
    ensures SoundLedger(c, CancelUnused(l)) && SameTerms(l.reservations, CancelUnused(l).reservations)
  {
  }

  lemma CancelKeepsTerms(c: Crypto, b: Book)
    requires SoundLedger(c, b.ledger) && SoundCancelled(b)
    ensures SoundCancelled(Apply(c, b, CancelRest))
  {
    var rs := b.ledger.reservations;
    forall k | 0 <= k < |CancelledTerms(rs)|
      ensures var id := CancelledTerms(rs)[k].reservationId; id < |rs| && CancelledTerms(rs)[k] == rs[id].term
    {
    }
  }

  lemma CancelIsSound(c: Crypto, b: Book)
    requires Sound(c, b)
    ensures Sound(c, Apply(c, b, CancelRest))
  {
    assert b.ledger.terms.damageBucket > 0;
    hide SoundLedger, FaithfulLog, Lists, Disjoint, SoundTotals, SoundReturned, SoundCancelled, SameTerms, Ids, TermIds;
    var b' := Apply(c, b, CancelRest);
    assert b'.ledger == b.ledger.(reservations := CancelAll(b.ledger.reservations));
    assert b' == b.(ledger := b'.ledger, cancelled := b.cancelled + CancelledTerms(b.ledger.reservations));
    hide CancelAll, CancelledTerms, Positions, WellFormedTerms;
    CancelKeepsLedger(c, b.ledger);
    CancelKeepsTerms(c, b);
    CancelIds(c, b.ledger);
    FaithfulLater(c, b.ledger, b'.ledger, b.issued);
    TermIdsAppend(b.cancelled, CancelledTerms(b.ledger.reservations));
    CancelKeepsLists(Ids(b.issued), TermIds(b.cancelled), b.ledger.reservations);
    TotalsDependOnLog(b, b');
    ReturnedDependsOnLog(b, b');
  }

  // ---------------------------------------------------------------------------
  // Every history
  // ---------------------------------------------------------------------------

  lemma StepIsSound(c: Crypto, b: Book, call: Call)
    requires Sound(c, b)
    ensures Sound(c, Apply(c, b, call))
  {
    match call
    case Damaged(hit) => DamageIsSound(c, b, hit);
    case CancelRest => CancelIsSound(c, b);
    case _ =>
      BucketIsPositive(c, b);
      MessagesAreQuiet(c, b, call);
      QuietIsSound(c, b, Apply(c, b, call).ledger);
  }

  lemma NewBookIsSound(c: Crypto, matchId: u128, key: Bytes, amount: u128, bucket: u16, cap: u128, deadline: u64,
                       preimages: seq<Bytes>)
    requires ValidConfiguration(amount, bucket, cap)
    requires |preimages| == 2 * PerPlayer(amount, cap)
    ensures Sound(c, NewBook(c, matchId, key, amount, bucket, cap, deadline, preimages))
  {
    var b := NewBook(c, matchId, key, amount, bucket, cap, deadline, preimages);
    assert forall p: PlayerSlot :: b.ledger.releasedTotal.Get(p) == 0;
  }

  lemma {:induction false} RunIsSound(c: Crypto, b: Book, calls: seq<Call>)
    requires Sound(c, b)
    ensures Sound(c, Run(c, b, calls))
  {
    if calls != [] {
      RunIsSound(c, b, calls[..|calls| - 1]);
      StepIsSound(c, Run(c, b, calls[..|calls| - 1]), calls[|calls| - 1]);
    }
  }
}
