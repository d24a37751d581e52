/** The client's check of every released preimage (src/client.rs), and why it agrees with the coordinator. */
module Guard {
  import opened Wrappers
  import opened Binary
  import opened Protocol
  import opened Sequences
  import opened Settlement
  import opened Accounting

  datatype GuardError =
    | WrongMatch | Expired | InvalidKey | InvalidSignatureEncoding | InvalidSignature | OtherPayee
    | UnknownReservation | TermsMismatch | WrongPreimage | Duplicate | CapExceeded

  datatype GuardState = GuardState(terms: MatchTerms, processed: set<int>, releasedTotal: PerSlot<u128>)

  function NewGuard(terms: MatchTerms): GuardState {
    GuardState(terms, {}, PerSlot(0, 0))
  }

  /** The first term with a given id. */
  function FindTerm(terms: seq<HoldInvoiceTerm>, id: u16): Option<HoldInvoiceTerm> {
    if terms == [] then None
    else if terms[0].reservationId == id then Some(terms[0])
    else FindTerm(terms[1..], id)
  }

  function SignatureError(c: Crypto, intent: SettlementIntent, serverKey: Bytes, nowMs: u64): Option<GuardError> {
    if nowMs > intent.body.expiresAtMs then Some(Expired)
    else if !c.validKey(serverKey) then Some(InvalidKey)
    else if !c.validSignature(intent.signature) then Some(InvalidSignatureEncoding)
    else if !c.verify(serverKey, intent.body, intent.signature) then Some(InvalidSignature)
    else None
  }

  /** Everything checked before the guard's own record is consulted. */
  function MessageError(c: Crypto, terms: MatchTerms, release: HoldInvoiceRelease, localSlot: PlayerSlot, nowMs: u64)
    : Option<GuardError>
  {
    var body := release.intent.body;
    var signature := SignatureError(c, release.intent, terms.serverVerifyingKey, nowMs);
    var term := FindTerm(terms.holdInvoices, body.reservationId);
    if body.matchId != terms.matchId then Some(GuardError.WrongMatch)
    else if signature.Some? then signature
    else if body.payee != localSlot then Some(OtherPayee)
    else if term.None? then Some(GuardError.UnknownReservation)
    else if term.value.payer != body.payer || term.value.payee != body.payee
            || term.value.amount != body.amount || term.value.paymentHash != body.paymentHash then Some(TermsMismatch)
    else if c.digest(release.paymentPreimage) != term.value.paymentHash then Some(WrongPreimage)
    else None
  }

  function ValidationError(c: Crypto, g: GuardState, release: HoldInvoiceRelease, localSlot: PlayerSlot, nowMs: u64)
    : Option<GuardError>
  {
    var body := release.intent.body;
    var error := MessageError(c, g.terms, release, localSlot, nowMs);
    if error.Some? then error
    else if body.reservationId in g.processed then Some(Duplicate)
    else if Min(g.releasedTotal.Get(body.payer) + body.amount, U128_MAX) > g.terms.maxTotalPerPlayer then
      Some(CapExceeded)
    else None
  }

  /** The guard after a message: an id counts as processed even when the cap check then refuses it. */
  function Validate(c: Crypto, g: GuardState, release: HoldInvoiceRelease, localSlot: PlayerSlot,
          nowMs: u64): GuardState
  {
    var body := release.intent.body;
    var error := ValidationError(c, g, release, localSlot, nowMs);
    if error.None? then
      g.(processed := g.processed + {body.reservationId as int},
         releasedTotal := g.releasedTotal.Set(body.payer, Min(g.releasedTotal.Get(body.payer) + body.amount, U128_MAX)))
    else if error == Some(CapExceeded) then g.(processed := g.processed + {body.reservationId as int})
    else g
  }

  class SettlementGuard {
    const crypto: Crypto
    const terms: MatchTerms
    var processed: set<int>
    var releasedTotal: PerSlot<u128>

    function State(): GuardState
      reads this
    {
      GuardState(terms, processed, releasedTotal)
    }

    constructor (crypto: Crypto, terms: MatchTerms)
      ensures State() == NewGuard(terms) && this.crypto == crypto
    {
      this.crypto := crypto;
      this.terms := terms;
      processed := {};
      releasedTotal := PerSlot(0, 0);
    }

    method Find(id: u16) returns (found: Option<HoldInvoiceTerm>)
      ensures found == FindTerm(terms.holdInvoices, id)
    {
      var i := 0;
      while i < |terms.holdInvoices|
        invariant i <= |terms.holdInvoices|
        invariant FindTerm(terms.holdInvoices, id) == FindTerm(terms.holdInvoices[i..], id)
      {
        if terms.holdInvoices[i].reservationId == id {
          return Some(terms.holdInvoices[i]);
        }
        i := i + 1;
      }
      return None;
    }

    method ValidateRelease(release: HoldInvoiceRelease, localSlot: PlayerSlot, nowMs: u64)
      returns (error: Option<GuardError>)
      modifies this
      ensures State() == Validate(crypto, old(State()), release, localSlot, nowMs)
      ensures error == ValidationError(crypto, old(State()), release, localSlot, nowMs)
    {
      var body := release.intent.body;
      if body.matchId != terms.matchId {
        return Some(GuardError.WrongMatch);
      }
      if nowMs > body.expiresAtMs {
        return Some(Expired);
      }
      if !crypto.validKey(terms.serverVerifyingKey) {
        return Some(InvalidKey);
      }
      if !crypto.validSignature(release.intent.signature) {
        return Some(InvalidSignatureEncoding);
      }
      if !crypto.verify(terms.serverVerifyingKey, body, release.intent.signature) {
        return Some(InvalidSignature);
      }
      if body.payee != localSlot {
        return Some(OtherPayee);
      }
      var found := Find(body.reservationId);
      if found.None? {
        return Some(GuardError.UnknownReservation);
      }
      var term := found.value;
      FindTermId(terms.holdInvoices, body.reservationId);
      if term.payer != body.payer || term.payee != body.payee || term.amount != body.amount
         || term.paymentHash != body.paymentHash {
        return Some(TermsMismatch);
      }
      if crypto.digest(release.paymentPreimage) != term.paymentHash {
        return Some(WrongPreimage);
      }
      if term.reservationId in processed {
        return Some(Duplicate);
      }
      processed := processed + {term.reservationId as int};
      var nextTotal := Min(releasedTotal.Get(term.payer) + term.amount, U128_MAX);
      if nextTotal > terms.maxTotalPerPlayer {
        return Some(CapExceeded);
      }
      releasedTotal := releasedTotal.Set(term.payer, nextTotal);
      return None;
    }
  }

  lemma {:induction false} FindTermId(terms: seq<HoldInvoiceTerm>, id: u16)
    ensures FindTerm(terms, id).Some? ==> FindTerm(terms, id).value.reservationId == id
    ensures FindTerm(terms, id).Some? ==> FindTerm(terms, id).value in terms
  {
    if terms != [] { FindTermId(terms[1..], id); }
  }

  // ---------------------------------------------------------------------------
  // Arbitrary messages against well-formed terms
  // ---------------------------------------------------------------------------

  datatype Delivery = Delivery(release: HoldInvoiceRelease, nowMs: u64)

  function Receive(c: Crypto, g: GuardState, slot: PlayerSlot, ds: seq<Delivery>): GuardState {
    if ds == [] then g
    else Validate(c, Receive(c, g, slot, ds[..|ds| - 1]), ds[|ds| - 1].release, slot, ds[|ds| - 1].nowMs)
  }

  /** The verdict on the `k`-th message. */
  function Verdict(c: Crypto, g: GuardState, slot: PlayerSlot, ds: seq<Delivery>, k: nat): Option<GuardError>
    requires k < |ds|
  {
    ValidationError(c, Receive(c, g, slot, ds[..k]), ds[k].release, slot, ds[k].nowMs)
  }

  lemma {:induction false} FindByPosition(terms: seq<HoldInvoiceTerm>, offset: nat, id: u16)
    requires forall i :: 0 <= i < |terms| ==> terms[i].reservationId == offset + i
    ensures offset <= id < offset + |terms| ==> FindTerm(terms, id) == Some(terms[id - offset])
    ensures !(offset <= id < offset + |terms|) ==> FindTerm(terms, id) == None
  {
    if terms != [] {
      FindByPosition(terms[1..], offset + 1, id);
    }
  }

  /** Everything the guard counted belongs to the local payee, and it counted each reservation once. */
  ghost predicate Counted(g: GuardState, slot: PlayerSlot) {
    && WellFormedTerms(g.terms)
    && (forall i :: i in g.processed ==> 0 <= i < |g.terms.holdInvoices| && g.terms.holdInvoices[i].payee == slot)
    && g.releasedTotal.Get(slot) == 0
    && g.releasedTotal.Get(slot.Opponent()) == |g.processed| * g.terms.amountPerDamageBucket
  }

  /** A payee has as many reservations as its opponent's quota. */
  lemma PayeeQuota(t: MatchTerms, slot: PlayerSlot, ids: set<int>)
    requires WellFormedTerms(t)
    requires forall i :: i in ids ==> 0 <= i < |t.holdInvoices| && t.holdInvoices[i].payee == slot
    ensures |ids| <= Quota(t)
    ensures |ids| * t.amountPerDamageBucket <= t.maxTotalPerPlayer
  {
    var n := Quota(t);
    var lo := if slot == B then 0 else n;
    SubsetCardinality(ids, Range(lo, lo + n));
    QuotaCovers(|ids|, t.amountPerDamageBucket, t.maxTotalPerPlayer);
  }

  /** A message that passes the checks names one of the payee's reservations and its terms. */
  lemma MessageFacts(c: Crypto, t: MatchTerms, release: HoldInvoiceRelease, slot: PlayerSlot, nowMs: u64)
    requires WellFormedTerms(t) && MessageError(c, t, release, slot, nowMs).None?
    ensures release.Id() < |t.holdInvoices| && t.holdInvoices[release.Id()].payee == slot
    ensures release.intent.body.amount == t.amountPerDamageBucket && release.intent.body.payer == slot.Opponent()
  {
    FindByPosition(t.holdInvoices, 0, release.Id());
  }

  lemma OneMore(n: nat, each: nat)
    ensures (n + 1) * each == n * each + each
  {
  }

  /** One message keeps the count exact and never meets the cap. */
  lemma ValidateCounts(c: Crypto, g: GuardState, release: HoldInvoiceRelease, slot: PlayerSlot, nowMs: u64)
    requires Counted(g, slot)
    ensures Counted(Validate(c, g, release, slot, nowMs), slot)
    ensures ValidationError(c, g, release, slot, nowMs) != Some(CapExceeded)
  {
    var id := release.Id() as int;
    if MessageError(c, g.terms, release, slot, nowMs).None? && id !in g.processed {
      MessageFacts(c, g.terms, release, slot, nowMs);
      hide MessageError;
      PayeeQuota(g.terms, slot, g.processed + {id});
      hide WellFormedTerms;
      assert |g.processed + {id}| == |g.processed| + 1;
      OneMore(|g.processed|, g.terms.amountPerDamageBucket);
    }
  }

  /** The ids of the messages a guard accepts. */
  ghost function AcceptedIds(c: Crypto, start: GuardState, slot: PlayerSlot, ds: seq<Delivery>): set<int> {
    set k | 0 <= k < |ds| && Verdict(c, start, slot, ds, k).None? :: ds[k].release.Id() as int
  }

  lemma VerdictOfPrefix(c: Crypto, start: GuardState, slot: PlayerSlot, front: seq<Delivery>, last: Delivery, k: nat)
    requires k <= |front|
    ensures k < |front| ==> Verdict(c, start, slot, front + [last], k) == Verdict(c, start, slot, front, k)
    ensures k == |front| ==>
              Verdict(c, start, slot, front + [last], k)
              == ValidationError(c, Receive(c, start, slot, front), last.release, slot, last.nowMs)
  {
    hide ValidationError, Receive;
    assert (front + [last])[..k] == front[..k] && front[..|front|] == front;
  }

  lemma AcceptedStep(c: Crypto, start: GuardState, slot: PlayerSlot, front: seq<Delivery>, last: Delivery)
    ensures AcceptedIds(c, start, slot, front + [last]) == AcceptedIds(c, start, slot, front) +
      if ValidationError(c, Receive(c, start, slot, front), last.release, slot, last.nowMs).None?
      then {last.release.Id() as int} else {}
  {
    var ds := front + [last];
    var before, after := AcceptedIds(c, start, slot, front), AcceptedIds(c, start, slot, ds);
    VerdictOfPrefix(c, start, slot, front, last, |front|);
    hide ValidationError, Receive, Verdict;
    forall k | 0 <= k < |front|
      ensures Verdict(c, start, slot, ds, k) == Verdict(c, start, slot, front, k) && ds[k] == front[k]
    {
      VerdictOfPrefix(c, start, slot, front, last, k);
    }
    assert ds[|front|] == last;
    forall i | i in before
      ensures i in after
    {
      var k :| 0 <= k < |front| && Verdict(c, start, slot, front, k).None? && front[k].release.Id() == i;
      assert Verdict(c, start, slot, ds, k).None? && ds[k].release.Id() == i;
    }
    forall i | i in after
      ensures i in before || (i == last.release.Id() && Verdict(c, start, slot, ds, |front|).None?)
    {
      var k :| 0 <= k < |ds| && Verdict(c, start, slot, ds, k).None? && ds[k].release.Id() == i;
      assert k < |front| ==> Verdict(c, start, slot, front, k).None? && front[k].release.Id() == i;
    }
  }

  lemma ProcessedStep(c: Crypto, g: GuardState, release: HoldInvoiceRelease, slot: PlayerSlot, nowMs: u64)
    requires Counted(g, slot)
    ensures Validate(c, g, release, slot, nowMs).processed == g.processed +
      if ValidationError(c, g, release, slot, nowMs).None? then {release.Id() as int} else {}
  {
    ValidateCounts(c, g, release, slot, nowMs);
    hide ValidationError, Counted;
  }

  /** What the guard has processed are exactly the ids it accepted. */
  lemma {:induction false} ProcessedIsAccepted(c: Crypto, terms: MatchTerms, slot: PlayerSlot, ds: seq<Delivery>)
    requires WellFormedTerms(terms)
    ensures Receive(c, NewGuard(terms), slot, ds).processed == AcceptedIds(c, NewGuard(terms), slot, ds)
  {
    hide Validate, ValidationError, WellFormedTerms, Counted, Verdict;
    if ds != [] {
      var front, last := ds[..|ds| - 1], ds[|ds| - 1];
      ProcessedIsAccepted(c, terms, slot, front);
      GuardTotalIsExact(c, terms, slot, front);
      hide AcceptedIds;
      ProcessedStep(c, Receive(c, NewGuard(terms), slot, front), last.release, slot, last.nowMs);
      AcceptedStep(c, NewGuard(terms), slot, front, last);
      assert ds == front + [last];
    }
  }

  /** The total of the guard is the amount times the number of distinct reservations it accepted. */
  lemma TotalIsAccepted(c: Crypto, terms: MatchTerms, slot: PlayerSlot, ds: seq<Delivery>)
    requires WellFormedTerms(terms)
    ensures Receive(c, NewGuard(terms), slot, ds).releasedTotal.Get(slot.Opponent())
         == |AcceptedIds(c, NewGuard(terms), slot, ds)| * terms.amountPerDamageBucket
  {
    GuardTotalIsExact(c, terms, slot, ds);
    ProcessedIsAccepted(c, terms, slot, ds);
    hide AcceptedIds, Receive, WellFormedTerms;
  }

  /** Whatever messages arrive, in whatever order and however often: the guard's total for the opponent is the
      amount times the reservations it processed, stays within the cap, and the cap check never fires. */
  lemma {:induction false} GuardTotalIsExact(c: Crypto, terms: MatchTerms, slot: PlayerSlot, ds: seq<Delivery>)
    requires WellFormedTerms(terms)
    ensures var g := Receive(c, NewGuard(terms), slot, ds);
            && g.terms == terms
            && Counted(g, slot)
            && g.releasedTotal.Get(slot.Opponent()) <= terms.maxTotalPerPlayer
    ensures forall k :: 0 <= k < |ds| ==> Verdict(c, NewGuard(terms), slot, ds, k) != Some(CapExceeded)
  {
    var start := NewGuard(terms);
    if ds != [] {
      var front, last := ds[..|ds| - 1], ds[|ds| - 1];
      GuardTotalIsExact(c, terms, slot, front);
      ValidateCounts(c, Receive(c, start, slot, front), last.release, slot, last.nowMs);
      hide Counted, Validate, ValidationError, WellFormedTerms, Verdict;
      assert ds == front + [last];
      forall k | 0 <= k < |ds| ensures Verdict(c, start, slot, ds, k) != Some(CapExceeded) {
        VerdictOfPrefix(c, start, slot, front, last, k);
      }
      ValidateKeepsTerms(c, Receive(c, start, slot, front), last.release, slot, last.nowMs);
    }
    CountedWithinCap(Receive(c, start, slot, ds), slot);
  }

  lemma ValidateKeepsTerms(c: Crypto, g: GuardState, release: HoldInvoiceRelease, slot: PlayerSlot, nowMs: u64)
    ensures Validate(c, g, release, slot, nowMs).terms == g.terms
  {
    hide ValidationError;
  }

  lemma CountedWithinCap(g: GuardState, slot: PlayerSlot)
    requires Counted(g, slot)
    ensures g.releasedTotal.Get(slot.Opponent()) <= g.terms.maxTotalPerPlayer
  {
    PayeeQuota(g.terms, slot, g.processed);
  }
}
