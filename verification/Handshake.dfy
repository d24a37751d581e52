/** Which messages get every reservation held: the handshake that precedes a match. */
module Handshake {
  import opened Wrappers
  import opened Binary
  import opened Protocol
  import opened Settlement
  import opened Accounting
  import opened Runs

  // ---------------------------------------------------------------------------
  // Well-addressed messages
  // ---------------------------------------------------------------------------

  /** `call` offers an invoice of acceptable size for reservation `i`, from its payee. */
  predicate OfferFor(t: MatchTerms, i: nat, call: Call) {
    && call.Offer? && i < |t.holdInvoices|
    && call.offer.matchId == t.matchId
    && call.offer.reservationId == i
    && call.offer.paymentHash == t.holdInvoices[i].paymentHash
    && |call.offer.invoice| <= MAX_INVOICE_BYTES
    && call.sender == t.holdInvoices[i].payee
  }

  /** `call` acknowledges stage `stage` of reservation `i`, from the player who may. */
  predicate AckFor(t: MatchTerms, i: nat, call: Call, stage: HoldInvoiceStage) {
    && call.Ack? && i < |t.holdInvoices|
    && call.ack.matchId == t.matchId
    && call.ack.reservationId == i
    && call.ack.paymentHash == t.holdInvoices[i].paymentHash
    && call.ack.stage == stage
    && call.sender == Reporter(t.holdInvoices[i], stage)
  }

  ghost predicate HandshakeOnly(calls: seq<Call>) {
    forall k :: 0 <= k < |calls| ==> calls[k].Offer? || calls[k].Ack?
  }

  ghost predicate HasOffer(t: MatchTerms, i: nat, calls: seq<Call>) {
    exists k :: 0 <= k < |calls| && OfferFor(t, i, calls[k])
  }

  /** An acknowledgement that comes after some offer. */
  ghost predicate HasAck(t: MatchTerms, i: nat, calls: seq<Call>, stage: HoldInvoiceStage) {
    exists k, m :: 0 <= k < m < |calls| && OfferFor(t, i, calls[k]) && AckFor(t, i, calls[m], stage)
  }

  /** The payee's offer, followed in either order by the payer's and the payee's acknowledgements. */
  ghost predicate Complete(t: MatchTerms, i: nat, calls: seq<Call>) {
    exists k, f, r :: && 0 <= k < f < |calls| && k < r < |calls|
                      && OfferFor(t, i, calls[k])
                      && AckFor(t, i, calls[f], HoldInvoiceStage.Funded)
                      && AckFor(t, i, calls[r], HoldInvoiceStage.Received)
  }

  lemma CompleteIsBothAcks(t: MatchTerms, i: nat, calls: seq<Call>)
    ensures Complete(t, i, calls) <==>
            HasAck(t, i, calls, HoldInvoiceStage.Funded) && HasAck(t, i, calls, HoldInvoiceStage.Received)
  {
    if HasAck(t, i, calls, HoldInvoiceStage.Funded) && HasAck(t, i, calls, HoldInvoiceStage.Received) {
      var k, f :| 0 <= k < f < |calls| && OfferFor(t, i, calls[k]) && AckFor(t, i, calls[f], HoldInvoiceStage.Funded);
      var k', r :| 0 <= k' < r < |calls| && OfferFor(t, i, calls[k'])
                   && AckFor(t, i, calls[r], HoldInvoiceStage.Received);
      var first := if k < k' then k else k';
      assert first < f && first < r && OfferFor(t, i, calls[first]);
    }
  }

  lemma HasOfferStep(t: MatchTerms, i: nat, front: seq<Call>, last: Call)
    ensures HasOffer(t, i, front + [last]) <==> HasOffer(t, i, front) || OfferFor(t, i, last)
  {
    var calls := front + [last];
    hide OfferFor;
    if HasOffer(t, i, front) {
      var k :| 0 <= k < |front| && OfferFor(t, i, front[k]);
      assert calls[k] == front[k];
    }
    assert calls[|front|] == last;
  }

  lemma HasAckStep(t: MatchTerms, i: nat, front: seq<Call>, last: Call, stage: HoldInvoiceStage)
    ensures HasAck(t, i, front + [last], stage) <==>
            HasAck(t, i, front, stage) || (HasOffer(t, i, front) && AckFor(t, i, last, stage))
  {
    var calls := front + [last];
    hide OfferFor, AckFor;
    if HasAck(t, i, front, stage) {
      var k, m :| 0 <= k < m < |front| && OfferFor(t, i, front[k]) && AckFor(t, i, front[m], stage);
      assert calls[k] == front[k] && calls[m] == front[m];
    }
    if HasOffer(t, i, front) && AckFor(t, i, last, stage) {
      var k :| 0 <= k < |front| && OfferFor(t, i, front[k]);
      assert calls[k] == front[k] && calls[|front|] == last;
    }
    if HasAck(t, i, calls, stage) {
      var k, m :| 0 <= k < m < |calls| && OfferFor(t, i, calls[k]) && AckFor(t, i, calls[m], stage);
      assert calls[k] == front[k];
      if m < |front| { assert calls[m] == front[m]; }
    }
  }

  // ---------------------------------------------------------------------------
  // The state a handshake reaches
  // ---------------------------------------------------------------------------

  /** Reservation `r` shows exactly that an offer was seen, and which acknowledgements. */
  predicate Shows(r: HoldReservation, offered: bool, funded: bool, received: bool) {
    && (r.invoice.Some? <==> offered)
    && (r.payerFunded <==> funded)
    && (r.payeeReceived <==> received)
    && r.status == (if funded && received then Held else if offered then Offered else AwaitingInvoice)
  }

  lemma OfferShows(c: Crypto, l: Ledger, sender: PlayerSlot, offer: HoldInvoiceOffer, i: nat,
                   offered: bool, funded: bool, received: bool)
    requires SoundLedger(c, l) && i < |l.reservations| && Shows(l.reservations[i], offered, funded, received)
    ensures Shows(RegisterOffer(l, sender, offer).reservations[i],
                  offered || OfferFor(l.terms, i, Offer(sender, offer)), funded, received)
  {
    assert l.reservations[i].term.reservationId == i && l.reservations[i].term == l.terms.holdInvoices[i];
    hide WellFormedTerms;
  }

  lemma AckShows(c: Crypto, l: Ledger, sender: PlayerSlot, ack: HoldInvoiceAck, i: nat,
                 offered: bool, funded: bool, received: bool)
    requires SoundLedger(c, l) && i < |l.reservations| && Shows(l.reservations[i], offered, funded, received)
    ensures var call := Ack(sender, ack);
            Shows(Acknowledge(l, sender, ack).reservations[i], offered,
                  funded || (offered && AckFor(l.terms, i, call, HoldInvoiceStage.Funded)),
                  received || (offered && AckFor(l.terms, i, call, HoldInvoiceStage.Received)))
  {
    assert l.reservations[i].term.reservationId == i && l.reservations[i].term == l.terms.holdInvoices[i];
    hide WellFormedTerms;
  }

  /** After any offers and acknowledgements, duplicated, misaddressed or out of order, a reservation shows exactly
      the offer it received and the acknowledgements that followed one. */
  lemma {:induction false} HandshakeState(c: Crypto, b: Book, calls: seq<Call>, i: nat)
    requires Fresh(c, b) && HandshakeOnly(calls) && i < |b.ledger.reservations|
    ensures |Run(c, b, calls).ledger.reservations| == |b.ledger.reservations|
    ensures Shows(Run(c, b, calls).ledger.reservations[i], HasOffer(b.ledger.terms, i, calls),
                  HasAck(b.ledger.terms, i, calls, HoldInvoiceStage.Funded),
                  HasAck(b.ledger.terms, i, calls, HoldInvoiceStage.Received))
  {
    if calls != [] {
      var t, front, last := b.ledger.terms, calls[..|calls| - 1], calls[|calls| - 1];
      assert calls == front + [last];
      HandshakeState(c, b, front, i);
      RunIsSound(c, b, front);
      HasOfferStep(t, i, front, last);
      HasAckStep(t, i, front, last, HoldInvoiceStage.Funded);
      HasAckStep(t, i, front, last, HoldInvoiceStage.Received);
      StepShows(c, Run(c, b, front), last, i, HasOffer(t, i, front), HasAck(t, i, front, HoldInvoiceStage.Funded),
                HasAck(t, i, front, HoldInvoiceStage.Received));
    }
  }

  lemma StepShows(c: Crypto, b: Book, call: Call, i: nat, offered: bool, funded: bool, received: bool)
    requires SoundLedger(c, b.ledger) && i < |b.ledger.reservations| && (call.Offer? || call.Ack?)
    requires Shows(b.ledger.reservations[i], offered, funded, received)
    ensures |Apply(c, b, call).ledger.reservations| == |b.ledger.reservations|
    ensures Shows(Apply(c, b, call).ledger.reservations[i],
                  offered || OfferFor(b.ledger.terms, i, call),
                  funded || (offered && AckFor(b.ledger.terms, i, call, HoldInvoiceStage.Funded)),
                  received || (offered && AckFor(b.ledger.terms, i, call, HoldInvoiceStage.Received)))
  {
    hide SoundLedger, Shows;
    match call
    case Offer(sender, offer) => OfferShows(c, b.ledger, sender, offer, i, offered, funded, received);
    case Ack(sender, ack) => AckShows(c, b.ledger, sender, ack, i, offered, funded, received);
  }

  /** Handshake confluence: offers and acknowledgements get every reservation held exactly when each reservation's
      offer was followed, in either order, by its two acknowledgements; nothing else in the sequence matters. */
  lemma AllHeldExactlyWhenComplete(c: Crypto, b: Book, calls: seq<Call>)
    requires Fresh(c, b) && HandshakeOnly(calls)
    ensures AllHeld(Run(c, b, calls).ledger) <==>
            forall i :: 0 <= i < |b.ledger.reservations| ==> Complete(b.ledger.terms, i, calls)
  {
    var t, rs := b.ledger.terms, Run(c, b, calls).ledger.reservations;
    RunKeepsLength(c, b, calls);
    assert |rs| >= 2 by { AtLeastTwo(b.ledger.terms); }
    forall i | 0 <= i < |rs| ensures rs[i].status == Held <==> Complete(t, i, calls) {
      HandshakeState(c, b, calls, i);
      CompleteIsBothAcks(t, i, calls);
    }
    hide Run, HasAck, HasOffer, Complete, Fresh;
    if forall i :: 0 <= i < |rs| ==> Complete(t, i, calls) {
      forall r | r in rs ensures r.status == Held {
        var i :| 0 <= i < |rs| && rs[i] == r;
        assert Complete(t, i, calls);
      }
    }
    if AllHeld(Run(c, b, calls).ledger) {
      forall i | 0 <= i < |rs| ensures Complete(t, i, calls) {
        assert rs[i] in rs;
      }
    }
  }

  lemma AtLeastTwo(t: MatchTerms)
    requires WellFormedTerms(t)
    ensures Quota(t) >= 1 && |t.holdInvoices| >= 2
  {
    var cap, each := t.maxTotalPerPlayer, t.amountPerDamageBucket;
    assert cap == cap / each * each + cap % each;
  }

  // ---------------------------------------------------------------------------
  // Where a held reservation comes from, in any history
  // ---------------------------------------------------------------------------

  /** The `k`-th call of a history was an offer for `i` that the coordinator accepted. */
  ghost predicate OfferAccepted(c: Crypto, b: Book, calls: seq<Call>, k: nat, i: nat)
    requires b.ledger.terms.damageBucket > 0 && k < |calls|
  {
    && OfferFor(b.ledger.terms, i, calls[k])
    && OfferError(Run(c, b, calls[..k]).ledger, calls[k].sender, calls[k].offer).None?
  }

  ghost predicate AckAccepted(c: Crypto, b: Book, calls: seq<Call>, k: nat, i: nat, stage: HoldInvoiceStage)
    requires b.ledger.terms.damageBucket > 0 && k < |calls|
  {
    && AckFor(b.ledger.terms, i, calls[k], stage)
    && AckError(Run(c, b, calls[..k]).ledger, calls[k].sender, calls[k].ack).None?
  }

  ghost predicate WasOffered(c: Crypto, b: Book, calls: seq<Call>, i: nat, invoice: Bytes)
    requires b.ledger.terms.damageBucket > 0
  {
    exists k :: 0 <= k < |calls| && OfferAccepted(c, b, calls, k, i) && calls[k].offer.invoice == invoice
  }

  ghost predicate WasConfirmed(c: Crypto, b: Book, calls: seq<Call>, i: nat, stage: HoldInvoiceStage)
    requires b.ledger.terms.damageBucket > 0
  {
    exists k :: 0 <= k < |calls| && AckAccepted(c, b, calls, k, i, stage)
  }

  lemma WasOfferedLater(c: Crypto, b: Book, front: seq<Call>, last: Call, i: nat, invoice: Bytes)
    requires b.ledger.terms.damageBucket > 0 && WasOffered(c, b, front, i, invoice)
    ensures WasOffered(c, b, front + [last], i, invoice)
  {
    var calls := front + [last];
    hide OfferError, Run;
    var k :| 0 <= k < |front| && OfferAccepted(c, b, front, k, i) && front[k].offer.invoice == invoice;
    assert calls[..k] == front[..k] && calls[k] == front[k];
    assert OfferAccepted(c, b, calls, k, i);
  }

  lemma WasConfirmedLater(c: Crypto, b: Book, front: seq<Call>, last: Call, i: nat, stage: HoldInvoiceStage)
    requires b.ledger.terms.damageBucket > 0 && WasConfirmed(c, b, front, i, stage)
    ensures WasConfirmed(c, b, front + [last], i, stage)
  {
    var calls := front + [last];
    hide AckFor, AckError, Run;
    var k :| 0 <= k < |front| && AckAccepted(c, b, front, k, i, stage);
    assert calls[..k] == front[..k] && calls[k] == front[k];
    assert AckAccepted(c, b, calls, k, i, stage);
  }

  /** What a call may change of a reservation's invoice and flags, and what must have been accepted for it. */
  ghost predicate Accepts(l: Ledger, call: Call, i: nat, r: HoldReservation, r': HoldReservation) {
    && (r'.invoice != r.invoice ==>
          && OfferFor(l.terms, i, call) && r'.invoice == Some(call.offer.invoice)
          && OfferError(l, call.sender, call.offer).None?)
    && (r'.payerFunded && !r.payerFunded ==>
          AckFor(l.terms, i, call, HoldInvoiceStage.Funded) && AckError(l, call.sender, call.ack).None?)
    && (r'.payeeReceived && !r.payeeReceived ==>
          AckFor(l.terms, i, call, HoldInvoiceStage.Received) && AckError(l, call.sender, call.ack).None?)
  }

  lemma OfferIsAccepted(c: Crypto, l: Ledger, sender: PlayerSlot, offer: HoldInvoiceOffer, i: nat)
    requires SoundLedger(c, l) && i < |l.reservations|
    ensures |RegisterOffer(l, sender, offer).reservations| == |l.reservations|
    ensures Accepts(l, Offer(sender, offer), i, l.reservations[i], RegisterOffer(l, sender, offer).reservations[i])
  {
    hide WellFormedTerms;
  }

  lemma AckIsAccepted(c: Crypto, l: Ledger, sender: PlayerSlot, ack: HoldInvoiceAck, i: nat)
    requires SoundLedger(c, l) && i < |l.reservations|
    ensures |Acknowledge(l, sender, ack).reservations| == |l.reservations|
    ensures Accepts(l, Ack(sender, ack), i, l.reservations[i], Acknowledge(l, sender, ack).reservations[i])
  {
    hide WellFormedTerms;
  }

  lemma OthersAcceptNothing(c: Crypto, b: Book, call: Call, i: nat)
    requires b.ledger.terms.damageBucket > 0 && i < |b.ledger.reservations| && !call.Offer? && !call.Ack?
    ensures |Apply(c, b, call).ledger.reservations| == |b.ledger.reservations|
    ensures Accepts(b.ledger, call, i, b.ledger.reservations[i], Apply(c, b, call).ledger.reservations[i])
  {
    hide Payable, Left, AmountOf, CapReached, CancelledTerms, OfferFor, AckFor, OfferError, AckError;
  }

  /** A call stores an invoice or sets a flag only by accepting the message that says so. */
  lemma ChangesAreAccepted(c: Crypto, b: Book, call: Call, i: nat)
    requires b.ledger.terms.damageBucket > 0 && SoundLedger(c, b.ledger) && i < |b.ledger.reservations|
    ensures |Apply(c, b, call).ledger.reservations| == |b.ledger.reservations|
    ensures Accepts(b.ledger, call, i, b.ledger.reservations[i], Apply(c, b, call).ledger.reservations[i])
  {
    hide SoundLedger, Accepts, RegisterOffer, Acknowledge;
    match call
    case Offer(sender, offer) => OfferIsAccepted(c, b.ledger, sender, offer, i);
    case Ack(sender, ack) => AckIsAccepted(c, b.ledger, sender, ack, i);
    case _ => OthersAcceptNothing(c, b, call, i);
  }

  ghost predicate Accounted(c: Crypto, b: Book, calls: seq<Call>, i: nat, r: HoldReservation)
    requires b.ledger.terms.damageBucket > 0
  {
    && (r.invoice.Some? ==> WasOffered(c, b, calls, i, r.invoice.value))
    && (r.payerFunded ==> WasConfirmed(c, b, calls, i, HoldInvoiceStage.Funded))
    && (r.payeeReceived ==> WasConfirmed(c, b, calls, i, HoldInvoiceStage.Received))
  }

  lemma {:induction false} EveryFlagIsAccounted(c: Crypto, b: Book, calls: seq<Call>, i: nat)
    requires Fresh(c, b) && i < |b.ledger.reservations|
    ensures |Run(c, b, calls).ledger.reservations| == |b.ledger.reservations|
    ensures Accounted(c, b, calls, i, Run(c, b, calls).ledger.reservations[i])
  {
    RunKeepsLength(c, b, calls);
    if calls != [] {
      var front, last := calls[..|calls| - 1], calls[|calls| - 1];
      EveryFlagIsAccounted(c, b, front, i);
      RunKeepsLength(c, b, front);
      hide Fresh, Accounted, Apply;
      AccountedStep(c, b, front, last, i);
      assert calls == front + [last];
    }
  }

  lemma AccountedStep(c: Crypto, b: Book, front: seq<Call>, last: Call, i: nat)
    requires Fresh(c, b) && i < |Run(c, b, front).ledger.reservations|
    requires Accounted(c, b, front, i, Run(c, b, front).ledger.reservations[i])
    ensures i < |Run(c, b, front + [last]).ledger.reservations|
    ensures Accounted(c, b, front + [last], i, Run(c, b, front + [last]).ledger.reservations[i])
  {
    var calls, before := front + [last], Run(c, b, front);
    assert calls[..|calls| - 1] == front && calls[|front|] == last && calls[..|front|] == front;
    RunIsSound(c, b, front);
    SoundParts(c, before);
    ChangesAreAccepted(c, before, last, i);
    var r, r' := before.ledger.reservations[i], Run(c, b, calls).ledger.reservations[i];
    StatusOnlyRises(c, before, last, i);
    hide Run, OfferFor, AckFor, OfferError, AckError, Sound, Apply, WasOffered, WasConfirmed;
    if r'.invoice.Some? {
      if r'.invoice == r.invoice {
        WasOfferedLater(c, b, front, last, i, r.invoice.value);
      } else {
        NowOffered(c, b, front, last, i);
      }
    }
    if r'.payerFunded { Confirmed(c, b, front, last, i, HoldInvoiceStage.Funded); }
    if r'.payeeReceived { Confirmed(c, b, front, last, i, HoldInvoiceStage.Received); }
  }

  lemma NowOffered(c: Crypto, b: Book, front: seq<Call>, last: Call, i: nat)
    requires b.ledger.terms.damageBucket > 0 && OfferFor(b.ledger.terms, i, last)
    requires OfferError(Run(c, b, front).ledger, last.sender, last.offer).None?
    ensures WasOffered(c, b, front + [last], i, last.offer.invoice)
  {
    var calls := front + [last];
    assert calls[..|front|] == front && calls[|front|] == last;
    assert OfferAccepted(c, b, calls, |front|, i);
  }

  lemma Confirmed(c: Crypto, b: Book, front: seq<Call>, last: Call, i: nat, stage: HoldInvoiceStage)
    requires b.ledger.terms.damageBucket > 0
    requires WasConfirmed(c, b, front, i, stage) ||
             (AckFor(b.ledger.terms, i, last, stage) && AckError(Run(c, b, front).ledger, last.sender, last.ack).None?)
    ensures WasConfirmed(c, b, front + [last], i, stage)
  {
    if WasConfirmed(c, b, front, i, stage) {
      WasConfirmedLater(c, b, front, last, i, stage);
    } else {
      var calls := front + [last];
      assert calls[..|front|] == front && calls[|front|] == last;
      assert AckAccepted(c, b, calls, |front|, i, stage);
    }
  }

  /** In any history, a held or paid reservation had its invoice accepted from its payee, its funding confirmed by
      its payer, and its receipt confirmed by its payee. */
  lemma HeldIsAccounted(c: Crypto, b: Book, calls: seq<Call>, i: nat)
    requires Fresh(c, b) && i < |Run(c, b, calls).ledger.reservations|
    ensures var r := Run(c, b, calls).ledger.reservations[i];
            r.status == Held || r.status in PAID ==>
              && r.invoice.Some? && WasOffered(c, b, calls, i, r.invoice.value)
              && WasConfirmed(c, b, calls, i, HoldInvoiceStage.Funded)
              && WasConfirmed(c, b, calls, i, HoldInvoiceStage.Received)
  {
    RunKeepsLength(c, b, calls);
    RunIsSound(c, b, calls);
    EveryFlagIsAccounted(c, b, calls, i);
    assert Coherent(Run(c, b, calls).ledger.reservations[i]);
  }
}
