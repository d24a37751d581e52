/** The settlement coordinator as the server holds it: an object whose methods update its fields in place. */
module Coordinator {
  import opened Wrappers
  import opened Binary
  import opened Protocol
  import opened Settlement
  import opened Accounting
  import Histories
  import Runs

  /** The first reservations of a new coordinator, with their terms. */
  ghost predicate LaidOut(crypto: Crypto, amount: u128, cap: u128, preimages: seq<Bytes>,
                          all: seq<HoldReservation>, allTerms: seq<HoldInvoiceTerm>)
  {
    && amount > 0 && |preimages| <= U16_MAX && |all| == |allTerms| <= |preimages|
    && forall i :: 0 <= i < |all| ==>
         && allTerms[i] == NewTerm(crypto, amount, cap, preimages, i)
         && all[i] == HoldReservation(allTerms[i], preimages[i], None, false, false, AwaitingInvoice)
  }

  /** First A's reservations, then B's, numbered through. */
  method LayOut(crypto: Crypto, amount: u128, cap: u128, preimages: seq<Bytes>)
    returns (all: seq<HoldReservation>, allTerms: seq<HoldInvoiceTerm>)
    requires amount > 0 && |preimages| == 2 * PerPlayer(amount, cap) <= U16_MAX
    ensures |all| == |preimages| && LaidOut(crypto, amount, cap, preimages, all, allTerms)
  {
    hide LaidOut, PerPlayer;
    var perPlayer := PerPlayer(amount, cap);
    all, allTerms := [], [];
    NothingLaidOut(crypto, amount, cap, preimages);
    for side := 0 to 2
      invariant |all| == |allTerms| == side * perPlayer
      invariant LaidOut(crypto, amount, cap, preimages, all, allTerms)
    {
      var payer := if side == 0 then A else B;
      for k := 0 to perPlayer
        invariant |all| == |allTerms| == side * perPlayer + k
        invariant LaidOut(crypto, amount, cap, preimages, all, allTerms)
      {
        var preimage := preimages[|all|];
        var term := HoldInvoiceTerm(|allTerms|, payer, payer.Opponent(), amount, crypto.digest(preimage));
        OneMoreLaidOut(crypto, amount, cap, preimages, all, allTerms, term);
        allTerms := allTerms + [term];
        all := all + [HoldReservation(term, preimage, None, false, false, AwaitingInvoice)];
      }
    }
  }

  lemma NothingLaidOut(crypto: Crypto, amount: u128, cap: u128, preimages: seq<Bytes>)
    requires amount > 0 && |preimages| <= U16_MAX
    ensures LaidOut(crypto, amount, cap, preimages, [], [])
  {
  }

  lemma OneMoreLaidOut(crypto: Crypto, amount: u128, cap: u128, preimages: seq<Bytes>,
                       all: seq<HoldReservation>, allTerms: seq<HoldInvoiceTerm>, term: HoldInvoiceTerm)
    requires LaidOut(crypto, amount, cap, preimages, all, allTerms) && |all| < |preimages|
    requires term == NewTerm(crypto, amount, cap, preimages, |all|)
    ensures LaidOut(crypto, amount, cap, preimages,
                    all + [HoldReservation(term, preimages[|all|], None, false, false, AwaitingInvoice)],
                    allTerms + [term])
  {
  }

  class SettlementCoordinator {
    const crypto: Crypto
    const terms: MatchTerms
    const signingKey: Bytes
    var nextSequence: u64
    var damageRemainder: PerSlot<u16>
    var releasedTotal: PerSlot<u128>
    var reservations: seq<HoldReservation>
    /** The history so far; its ledger is the value of the fields above. */
    ghost var book: Book

    ghost function State(): Ledger
      reads this
    {
      Ledger(terms, signingKey, nextSequence, damageRemainder, releasedTotal, reservations)
    }

    ghost predicate Valid()
      reads this
    {
      Sound(crypto, book) && book.ledger == State()
    }

    constructor (crypto: Crypto, matchId: u128, signingKey: Bytes, amount: u128, bucket: u16, cap: u128,
                 deadline: u64, preimages: seq<Bytes>)
      requires ValidConfiguration(amount, bucket, cap)
      requires |preimages| == 2 * PerPlayer(amount, cap)
      ensures Valid() && this.crypto == crypto
      ensures book == NewBook(crypto, matchId, signingKey, amount, bucket, cap, deadline, preimages)
    {
      var all, allTerms := LayOut(crypto, amount, cap, preimages);
      this.crypto := crypto;
      this.signingKey := signingKey;
      terms := MatchTerms(matchId, amount, bucket, cap, deadline, crypto.verifyingKey(signingKey), allTerms);
      nextSequence := 1;
      damageRemainder := PerSlot(0, 0);
      releasedTotal := PerSlot(0, 0);
      reservations := all;
      book := NewBook(crypto, matchId, signingKey, amount, bucket, cap, deadline, preimages);
      new;
      NewBookIsSound(crypto, matchId, signingKey, amount, bucket, cap, deadline, preimages);
      assert allTerms == book.ledger.terms.holdInvoices;
      assert all == book.ledger.reservations;
    }

    method ValidateReference(matchId: u128, id: u16, hash: Bytes) returns (error: Option<SettlementError>)
      requires Valid()
      ensures error == ReferenceError(book.ledger, matchId, id, hash)
    {
      if matchId != terms.matchId {
        return Some(WrongMatch);
      }
      if id >= |reservations| || reservations[id].term.reservationId != id {
        return Some(UnknownReservation(id));
      }
      if reservations[id].term.paymentHash != hash {
        return Some(WrongPaymentHash(id));
      }
      return None;
    }

    method RegisterInvoiceOffer(sender: PlayerSlot, offer: HoldInvoiceOffer)
      returns (result: Result<PlayerSlot, SettlementError>)
      requires Valid()
      modifies this
      ensures Valid() && book == Apply(crypto, old(book), Offer(sender, offer))
      ensures result.Success? ==>
                OfferError(old(book.ledger), sender, offer).None? && result.value == sender.Opponent()
      ensures result.Failure? ==>
                OfferError(old(book.ledger), sender, offer) == Some(result.error) && book == old(book)
    {
      hide Sound;
      BucketIsPositive(crypto, book);
      StepIsSound(crypto, book, Offer(sender, offer));
      var error := ValidateReference(offer.matchId, offer.reservationId, offer.paymentHash);
      if error.Some? {
        return Result.Failure(error.value);
      }
      if |offer.invoice| > MAX_INVOICE_BYTES {
        return Result.Failure(InvoiceTooLarge);
      }
      var id := offer.reservationId;
      var reservation := reservations[id];
      assert reservation.term.payee == reservation.term.payer.Opponent() by { TermOf(id); }
      if reservation.term.payee != sender {
        return Result.Failure(WrongInvoiceOwner);
      }
      if reservation.invoice.Some? {
        if reservation.invoice.value != offer.invoice {
          return Result.Failure(ConflictingInvoice);
        }
        return Success(reservation.term.payer);
      }
      if reservation.status != AwaitingInvoice {
        return Result.Failure(InvalidReservationState(id));
      }
      reservations := reservations[id := reservation.(invoice := Some(offer.invoice), status := Offered)];
      book := Apply(crypto, book, Offer(sender, offer));
      return Success(reservation.term.payer);
    }

    lemma TermOf(id: u16)
      requires Valid() && id < |reservations|
      ensures reservations[id].term.payee == reservations[id].term.payer.Opponent()
      ensures reservations[id].term.amount == terms.amountPerDamageBucket
    {
      assert book.ledger.reservations[id].term == terms.holdInvoices[id];
    }

    method Acknowledge(sender: PlayerSlot, ack: HoldInvoiceAck) returns (error: Option<SettlementError>)
      requires Valid()
      modifies this
      ensures Valid() && book == Apply(crypto, old(book), Ack(sender, ack))
      ensures error == AckError(old(book.ledger), sender, ack)
      ensures error.Some? ==> book == old(book)
    {
      hide Sound;
      BucketIsPositive(crypto, book);
      StepIsSound(crypto, book, Ack(sender, ack));
      error := ValidateReference(ack.matchId, ack.reservationId, ack.paymentHash);
      if error.Some? {
        return;
      }
      var id := ack.reservationId;
      var reservation := reservations[id];
      var expectedSender := match ack.stage
        case Funded => reservation.term.payer
        case _ => reservation.term.payee;
      if sender != expectedSender {
        return Some(WrongAcknowledgementOwner);
      }
      match ack.stage {
        case Funded =>
          if reservation.invoice.None? {
            return Some(MissingInvoice(id));
          }
          if reservation.status == AwaitingInvoice || Closed(reservation.status) {
            return Some(InvalidReservationState(id));
          }
          reservation := reservation.(payerFunded := true);
        case Received =>
          if reservation.invoice.None? {
            return Some(MissingInvoice(id));
          }
          if Closed(reservation.status) {
            return Some(InvalidReservationState(id));
          }
          reservation := reservation.(payeeReceived := true);
        case Settled =>
          if reservation.status == ReservationStatus.Settled {
            assert book.ledger.With(id, reservation) == book.ledger;
            return None;
          }
          if reservation.status != Released {
            return Some(InvalidReservationState(id));
          }
          reservations := reservations[id := reservation.(status := ReservationStatus.Settled)];
          book := Apply(crypto, book, Ack(sender, ack));
          return None;
        case Cancelled =>
          if reservation.status == ReservationStatus.Cancelled {
            assert book.ledger.With(id, reservation) == book.ledger;
            return None;
          }
          if reservation.status != CancelPending {
            return Some(InvalidReservationState(id));
          }
          reservations := reservations[id := reservation.(status := ReservationStatus.Cancelled)];
          book := Apply(crypto, book, Ack(sender, ack));
          return None;
      }
      if reservation.payerFunded && reservation.payeeReceived {
        reservation := reservation.(status := Held);
      }
      reservations := reservations[id := reservation];
      book := Apply(crypto, book, Ack(sender, ack));
      return None;
    }

    method RecordFailure(sender: PlayerSlot, failure: HoldInvoiceFailure) returns (error: Option<SettlementError>)
      requires Valid()
      modifies this
      ensures Valid() && book == Apply(crypto, old(book), FailureReport(sender, failure))
      ensures error == FailureError(old(book.ledger), sender, failure)
      ensures error.Some? ==> book == old(book)
    {
      hide Sound;
      BucketIsPositive(crypto, book);
      StepIsSound(crypto, book, FailureReport(sender, failure));
      error := ValidateReference(failure.matchId, failure.reservationId, failure.paymentHash);
      if error.Some? {
        return;
      }
      var id := failure.reservationId;
      var reservation := reservations[id];
      if sender != Reporter(reservation.term, failure.stage) {
        return Some(WrongAcknowledgementOwner);
      }
      if failure.stage == HoldInvoiceStage.Funded || failure.stage == HoldInvoiceStage.Received {
        reservations := reservations[id := reservation.(status := Failed)];
        book := Apply(crypto, book, FailureReport(sender, failure));
      }
      return None;
    }

    method CheckAllHeld() returns (held: bool)
      requires Valid()
      ensures held <==> AllHeld(book.ledger)
    {
      if reservations == [] {
        return false;
      }
      for i := 0 to |reservations|
        invariant forall k :: 0 <= k < i ==> reservations[k].status == Held
      {
        if reservations[i].status != Held {
          assert reservations[i] in reservations;
          return false;
        }
      }
      return true;
    }

    /** The first reservation the victim still holds. */
    method FirstHeld(victim: PlayerSlot) returns (index: Option<nat>)
      ensures Histories.Finds(reservations, victim, index)
    {
      hide HeldIds;
      Histories.HeldMembers(reservations, victim);
      for i := 0 to |reservations|
        invariant forall k :: 0 <= k < i ==> !HeldBy(reservations[k], victim)
      {
        if reservations[i].term.payer == victim && reservations[i].status == Held {
          assert i in HeldIds(reservations, victim);
          return Some(i);
        }
      }
      return None;
    }

    /** Signs the release of one reservation and enters it in the victim's account. */
    method ReleaseAt(hit: Hit, index: nat) returns (release: HoldInvoiceRelease)
      requires index < |reservations| && nextSequence < U64_MAX
      requires damageRemainder.Get(hit.victim) >= terms.damageBucket
      modifies this`nextSequence, this`damageRemainder, this`releasedTotal, this`reservations
      ensures State() == Histories.ReleaseOne(old(State()), hit, index)
      ensures release == ReleaseOf(crypto, old(State()), hit, old(nextSequence), old(reservations)[index])
    {
      damageRemainder := damageRemainder.Set(hit.victim, damageRemainder.Get(hit.victim) - terms.damageBucket);
      var reservation := reservations[index];
      var body := UnsignedSettlementIntent(
        terms.matchId, nextSequence, reservation.term.reservationId, hit.gameTick, hit.victim, hit.attacker,
        reservation.term.amount, reservation.term.paymentHash, SettlementReason.Damage(terms.damageBucket),
        hit.stateHash, Min(hit.nowMs + terms.paymentDeadlineMs, U64_MAX));
      nextSequence := nextSequence + 1;
      releasedTotal := releasedTotal.Set(hit.victim,
        Min(releasedTotal.Get(hit.victim) + reservation.term.amount, U128_MAX));
      reservations := reservations[index := reservation.(status := Released)];
      release := HoldInvoiceRelease(SettlementIntent(body, crypto.sign(body, signingKey)), reservation.paymentPreimage);
    }

    /** Releases one held reservation for every whole bucket owed. When the victim's reservations run out the call
        reports the cap; what it released up to there stays released. */
    method RecordDamage(hit: Hit) returns (result: Result<seq<HoldInvoiceRelease>, SettlementError>)
      requires Valid()
      modifies this
      ensures Valid() && book == Apply(crypto, old(book), Damaged(hit))
      ensures result == if CapReached(old(book.ledger), hit) then Result.Failure(PaymentCapReached)
                        else Success(Issued(crypto, old(book.ledger), hit))
    {
      ghost var start := book.ledger;
      ghost var n := 0;
      hide Sound, HeldIds, CapReached, Issued, Histories.Midway, Histories.Finds;
      BucketIsPositive(crypto, book);
      StepIsSound(crypto, book, Damaged(hit));
      Runs.SequenceHasRoom(crypto, book);
      Histories.MidwayBegins(crypto, start, hit);
      damageRemainder := damageRemainder.Set(hit.victim, Min(damageRemainder.Get(hit.victim) + hit.damage, U16_MAX));
      var releases: seq<HoldInvoiceRelease> := [];
      hide Settlement.RecordDamage, Apply, ReleaseOf, Owed;
      while damageRemainder.Get(hit.victim) >= terms.damageBucket
        invariant Histories.Midway(crypto, start, hit, n, State(), releases) && book == old(book)
        decreases damageRemainder.Get(hit.victim)
      {
        Histories.MidwayHeld(crypto, start, hit, n, State(), releases);
        var index := FirstHeld(hit.victim);
        if index.None? {
          Finish(hit, n, releases);
          return Result.Failure(PaymentCapReached);
        }
        Histories.FindsInRange(reservations, hit.victim, index.value);
        Histories.MidwayContinues(crypto, start, hit, n, State(), releases, index.value);
        var release := ReleaseAt(hit, index.value);
        releases := releases + [release];
        n := n + 1;
      }
      Finish(hit, n, releases);
      return Success(releases);
    }

    /** Enters a finished damage report in the history. */
    ghost method Finish(hit: Hit, n: nat, releases: seq<HoldInvoiceRelease>)
      requires terms.damageBucket > 0 && book.ledger.terms == terms
      requires Histories.Midway(crypto, book.ledger, hit, n, State(), releases)
      requires damageRemainder.Get(hit.victim) < terms.damageBucket || Histories.Finds(reservations, hit.victim, None)
      modifies this`book
      ensures book == Apply(crypto, old(book), Damaged(hit)) && book.ledger == State()
      ensures releases == Issued(crypto, old(book.ledger), hit)
      ensures CapReached(old(book.ledger), hit) <==> damageRemainder.Get(hit.victim) >= terms.damageBucket
    {
      hide HeldIds, CapReached, Issued, Histories.Midway, Histories.Finds, Settlement.RecordDamage;
      Histories.MidwayEnds(crypto, book.ledger, hit, n, State(), releases);
      book := Apply(crypto, book, Damaged(hit));
    }

    /** Hands out the terms of everything still open and marks it for cancellation. */
    method CancelUnused() returns (cancelled: seq<HoldInvoiceTerm>)
      requires Valid()
      modifies this
      ensures Valid() && book == Apply(crypto, old(book), CancelRest)
      ensures cancelled == CancelledTerms(old(book.ledger.reservations))
    {
      hide Sound, CancelledTerms, CancelAll, Apply;
      cancelled := MarkOpen();
      EnterCancel();
    }

    method MarkOpen() returns (cancelled: seq<HoldInvoiceTerm>)
      modifies this`reservations
      ensures reservations == CancelAll(old(reservations)) && cancelled == CancelledTerms(old(reservations))
    {
      hide CancelledTerms, Positions, CancelAll;
      ghost var start := reservations;
      CancelBegins(start);
      cancelled := [];
      for i := 0 to |reservations|
        modifies this`reservations
        invariant |reservations| == |start| && reservations == CancelAll(start[..i]) + start[i..]
        invariant cancelled == CancelledTerms(start[..i])
      {
        CancelContinues(start, i);
        if reservations[i].status == Offered || reservations[i].status == Held {
          cancelled := cancelled + [reservations[i].term];
          reservations := reservations[i := reservations[i].(status := CancelPending)];
        }
      }
      assert start[..|start|] == start;
    }

    /** Enters a finished cancellation in the history. */
    ghost method EnterCancel()
      requires Sound(crypto, book) && State() == book.ledger.(reservations := CancelAll(book.ledger.reservations))
      modifies this`book
      ensures Valid() && book == Apply(crypto, old(book), CancelRest)
    {
      StepIsSound(crypto, book, CancelRest);
      hide Sound, CancelledTerms, CancelAll;
      book := Apply(crypto, book, CancelRest);
    }
  }

  lemma CancelBegins(rs: seq<HoldReservation>)
    ensures CancelledTerms(rs[..0]) == [] && CancelAll(rs[..0]) + rs[0..] == rs
  {
  }

  lemma CancelContinues(rs: seq<HoldReservation>, i: nat)
    requires i < |rs|
    ensures var before, after := CancelAll(rs[..i]) + rs[i..], CancelAll(rs[..i + 1]) + rs[i + 1..];
            && before[i] == rs[i]
            && after == if Cancellable(rs[i]) then before[i := rs[i].(status := CancelPending)] else before
    ensures CancelledTerms(rs[..i + 1]) == CancelledTerms(rs[..i]) + if Cancellable(rs[i]) then [rs[i].term] else []
  {
    assert rs[..i + 1][..i] == rs[..i];
  }
}
