/** The hold-invoice ledger as a value, and what each call does to it (src/settlement.rs).
    The class in Coordinator.dfy is proved against these functions. */
module Settlement {
  import opened Wrappers
  import opened Binary
  import opened Protocol

  const MAX_INVOICE_BYTES := 8 * 1024

  datatype ReservationStatus =
    AwaitingInvoice | Offered | Held | Released | Settled | CancelPending | Cancelled | Failed

  datatype HoldReservation = HoldReservation(
    term: HoldInvoiceTerm, paymentPreimage: Bytes, invoice: Option<Bytes>,
    payerFunded: bool, payeeReceived: bool, status: ReservationStatus)

  datatype SettlementError =
    | WrongMatch
    | UnknownReservation(id: u16)
    | WrongPaymentHash(id: u16)
    | WrongInvoiceOwner
    | WrongAcknowledgementOwner
    | InvoiceTooLarge
    | ConflictingInvoice
    | MissingInvoice(id: u16)
    | InvalidReservationState(id: u16)
    | PaymentCapReached

  datatype Ledger = Ledger(
    terms: MatchTerms, signingKey: Bytes, nextSequence: nat,
    damageRemainder: PerSlot<u16>, releasedTotal: PerSlot<u128>, reservations: seq<HoldReservation>)
  {
    function With(id: nat, reservation: HoldReservation): Ledger
      requires id < |reservations|
    {
      this.(reservations := reservations[id := reservation])
    }
  }

  // ---------------------------------------------------------------------------
  // Terms
  // ---------------------------------------------------------------------------

  /** Reservations that back one player's cap. */
  function PerPlayer(amount: u128, cap: u128): nat
    requires amount > 0
  {
    cap / amount
  }

  /** What the constructor asserts of its arguments. */
  predicate ValidConfiguration(amount: u128, bucket: u16, cap: u128) {
    && bucket > 0 && amount > 0
    && cap >= amount && cap % amount == 0
    && 2 * PerPlayer(amount, cap) <= U16_MAX
  }

  function PayerAt(perPlayer: nat, index: nat): PlayerSlot {
    if index < perPlayer then A else B
  }

  /** Terms as the constructor lays them out: ids are positions, first A's reservations, then B's. */
  ghost predicate WellFormedTerms(t: MatchTerms) {
    && ValidConfiguration(t.amountPerDamageBucket, t.damageBucket, t.maxTotalPerPlayer)
    && var n := PerPlayer(t.amountPerDamageBucket, t.maxTotalPerPlayer);
    && |t.holdInvoices| == 2 * n
    && forall i :: 0 <= i < 2 * n ==>
         var term := t.holdInvoices[i];
         && term.reservationId == i
         && term.payer == PayerAt(n, i)
         && term.payee == term.payer.Opponent()
         && term.amount == t.amountPerDamageBucket
  }

  ghost function Quota(t: MatchTerms): nat
    requires WellFormedTerms(t)
  {
    PerPlayer(t.amountPerDamageBucket, t.maxTotalPerPlayer)
  }

  // ---------------------------------------------------------------------------
  // Guarded single-reservation calls
  // ---------------------------------------------------------------------------

  function ReferenceError(l: Ledger, matchId: u128, id: u16, hash: Bytes): Option<SettlementError> {
    if matchId != l.terms.matchId then Some(WrongMatch)
    else if id >= |l.reservations| || l.reservations[id].term.reservationId != id then Some(UnknownReservation(id))
    else if l.reservations[id].term.paymentHash != hash then Some(WrongPaymentHash(id))
    else None
  }

  function OfferError(l: Ledger, sender: PlayerSlot, offer: HoldInvoiceOffer): Option<SettlementError> {
    var reference := ReferenceError(l, offer.matchId, offer.reservationId, offer.paymentHash);
    if reference.Some? then reference
    else if |offer.invoice| > MAX_INVOICE_BYTES then Some(InvoiceTooLarge)
    else
      var r := l.reservations[offer.reservationId];
      if r.term.payee != sender then Some(WrongInvoiceOwner)
      else if r.invoice.Some? then
        if r.invoice.value != offer.invoice then Some(ConflictingInvoice) else None
      else if r.status != AwaitingInvoice then Some(InvalidReservationState(offer.reservationId))
      else None
  }

  function RegisterOffer(l: Ledger, sender: PlayerSlot, offer: HoldInvoiceOffer): Ledger {
    if OfferError(l, sender, offer).Some? || l.reservations[offer.reservationId].invoice.Some? then l
    else
      var id := offer.reservationId;
      l.With(id, l.reservations[id].(invoice := Some(offer.invoice), status := Offered))
  }

  /** Funding is reported by the payer, everything else by the payee. */
  function Reporter(term: HoldInvoiceTerm, stage: HoldInvoiceStage): PlayerSlot {
    if stage == HoldInvoiceStage.Funded then term.payer else term.payee
  }

  predicate Closed(status: ReservationStatus) {
    status in {Released, ReservationStatus.Settled, CancelPending, ReservationStatus.Cancelled, Failed}
  }

  function AckError(l: Ledger, sender: PlayerSlot, ack: HoldInvoiceAck): Option<SettlementError> {
    var reference := ReferenceError(l, ack.matchId, ack.reservationId, ack.paymentHash);
    if reference.Some? then reference
    else
      var id := ack.reservationId;
      var r := l.reservations[id];
      if sender != Reporter(r.term, ack.stage) then Some(WrongAcknowledgementOwner)
      else match ack.stage
        case Funded =>
          if r.invoice.None? then Some(MissingInvoice(id))
          else if r.status == AwaitingInvoice || Closed(r.status) then Some(InvalidReservationState(id))
          else None
        case Received =>
          if r.invoice.None? then Some(MissingInvoice(id))
          else if Closed(r.status) then Some(InvalidReservationState(id))
          else None
        case Settled =>
          if r.status in {ReservationStatus.Settled, Released} then None else Some(InvalidReservationState(id))
        case Cancelled =>
          if r.status in {ReservationStatus.Cancelled, CancelPending} then None else Some(InvalidReservationState(id))
  }

  function HeldOnceConfirmed(r: HoldReservation): HoldReservation {
    if r.payerFunded && r.payeeReceived then r.(status := Held) else r
  }

  function Acknowledge(l: Ledger, sender: PlayerSlot, ack: HoldInvoiceAck): Ledger {
    if AckError(l, sender, ack).Some? then l
    else
      var id := ack.reservationId;
      var r := l.reservations[id];
      l.With(id, match ack.stage
                 case Funded => HeldOnceConfirmed(r.(payerFunded := true))
                 case Received => HeldOnceConfirmed(r.(payeeReceived := true))
                 case Settled => r.(status := ReservationStatus.Settled)
                 case Cancelled => r.(status := ReservationStatus.Cancelled))
  }

  function FailureError(l: Ledger, sender: PlayerSlot, failure: HoldInvoiceFailure): Option<SettlementError> {
    var reference := ReferenceError(l, failure.matchId, failure.reservationId, failure.paymentHash);
    if reference.Some? then reference
    else if sender != Reporter(l.reservations[failure.reservationId].term, failure.stage) then
      Some(WrongAcknowledgementOwner)
    else None
  }

  function RecordFailure(l: Ledger, sender: PlayerSlot, failure: HoldInvoiceFailure): Ledger {
    if FailureError(l, sender, failure).Some?
       || failure.stage !in {HoldInvoiceStage.Funded, HoldInvoiceStage.Received} then l
    else
      var id := failure.reservationId;
      l.With(id, l.reservations[id].(status := Failed))
  }

  // ---------------------------------------------------------------------------
  // Damage
  // ---------------------------------------------------------------------------

  predicate HeldBy(r: HoldReservation, payer: PlayerSlot) {
    r.term.payer == payer && r.status == Held
  }

  /** The positions of the chosen reservations, in order. */
  function Positions(rs: seq<HoldReservation>, chosen: HoldReservation -> bool): (ids: seq<int>)
    ensures |ids| <= |rs|
    ensures forall k :: 0 <= k < |ids| ==> 0 <= ids[k] < |rs| && chosen(rs[ids[k]])
    ensures forall i :: 0 <= i < |rs| && chosen(rs[i]) ==> i in ids
    ensures forall j, k :: 0 <= j < k < |ids| ==> ids[j] < ids[k]
  {
    if rs == [] then []
    else
      var last := |rs| - 1;
      var front := Positions(rs[..last], chosen);
      assert forall k :: 0 <= k < |front| ==> 0 <= front[k] < last;
      front + if chosen(rs[last]) then [last] else []
  }

  /** The positions of the reservations a payer still holds, in order. */
  function HeldIds(rs: seq<HoldReservation>, payer: PlayerSlot): (ids: seq<int>)
    ensures |ids| <= |rs|
    ensures forall k :: 0 <= k < |ids| ==> 0 <= ids[k] < |rs| && HeldBy(rs[ids[k]], payer)
    ensures forall i :: 0 <= i < |rs| && HeldBy(rs[i], payer) ==> i in ids
    ensures forall j, k :: 0 <= j < k < |ids| ==> ids[j] < ids[k]
  {
    Positions(rs, r => HeldBy(r, payer))
  }

  function MarkReleased(rs: seq<HoldReservation>, ids: seq<int>): (r: seq<HoldReservation>)
    ensures |r| == |rs|
    ensures forall i :: 0 <= i < |rs| ==> r[i] == if i in ids then rs[i].(status := Released) else rs[i]
  {
    seq(|rs|, i requires 0 <= i < |rs| => if i in ids then rs[i].(status := Released) else rs[i])
  }

  /** One damage report as the game server makes it. */
  datatype Hit = Hit(attacker: PlayerSlot, victim: PlayerSlot, damage: u16, gameTick: nat, stateHash: Bytes, nowMs: u64)

  /** The signed release of reservation `r`, carrying sequence number `sequence`. */
  function ReleaseOf(c: Crypto, l: Ledger, hit: Hit, sequence: nat, r: HoldReservation): HoldInvoiceRelease {
    var body := UnsignedSettlementIntent(
      l.terms.matchId, sequence, r.term.reservationId, hit.gameTick, hit.victim, hit.attacker,
      r.term.amount, r.term.paymentHash, SettlementReason.Damage(l.terms.damageBucket), hit.stateHash,
      Min(hit.nowMs + l.terms.paymentDeadlineMs, U64_MAX));
    HoldInvoiceRelease(SettlementIntent(body, c.sign(body, l.signingKey)), r.paymentPreimage)
  }

  /** Releases of the reservations `ids`, numbered consecutively from the ledger's next sequence number. */
  function Batch(c: Crypto, l: Ledger, hit: Hit, ids: seq<int>): (batch: seq<HoldInvoiceRelease>)
    requires forall k :: 0 <= k < |ids| ==> 0 <= ids[k] < |l.reservations|
    ensures |batch| == |ids|
    ensures forall k :: 0 <= k < |ids| ==>
              batch[k] == ReleaseOf(c, l, hit, l.nextSequence + k, l.reservations[ids[k]])
  {
    seq(|ids|, k requires 0 <= k < |ids| => ReleaseOf(c, l, hit, l.nextSequence + k, l.reservations[ids[k]]))
  }

  function Owed(l: Ledger, hit: Hit): u16 {
    Min(l.damageRemainder.Get(hit.victim) + hit.damage, U16_MAX)
  }

  /** How often a bucket can be taken off what is owed. */
  function Buckets(owed: nat, bucket: nat): nat
    requires bucket > 0
  {
    if owed < bucket then 0 else 1 + Buckets(owed - bucket, bucket)
  }

  /** What is left after taking `n` buckets off. */
  function Left(owed: nat, n: nat, bucket: nat): (left: nat)
    requires bucket > 0 && n <= Buckets(owed, bucket)
    ensures left <= owed
    decreases n
  {
    if n == 0 then owed else Left(owed - bucket, n - 1, bucket)
  }

  function BucketsOwed(l: Ledger, hit: Hit): nat
    requires l.terms.damageBucket > 0
  {
    Buckets(Owed(l, hit), l.terms.damageBucket)
  }

  /** The reservations a hit releases: the first ones held, as many as there are whole buckets owed. */
  function Payable(l: Ledger, hit: Hit): (ids: seq<int>)
    requires l.terms.damageBucket > 0
    ensures |ids| <= BucketsOwed(l, hit)
    ensures forall k :: 0 <= k < |ids| ==> 0 <= ids[k] < |l.reservations| && HeldBy(l.reservations[ids[k]], hit.victim)
    ensures forall j, k :: 0 <= j < k < |ids| ==> ids[j] < ids[k]
  {
    var held := HeldIds(l.reservations, hit.victim);
    held[..Min(BucketsOwed(l, hit), |held|)]
  }

  predicate CapReached(l: Ledger, hit: Hit)
    requires l.terms.damageBucket > 0
  {
    BucketsOwed(l, hit) > |HeldIds(l.reservations, hit.victim)|
  }

  function AmountOf(rs: seq<HoldReservation>, ids: seq<int>): nat
    requires forall k :: 0 <= k < |ids| ==> 0 <= ids[k] < |rs|
  {
    if ids == [] then 0 else AmountOf(rs, ids[..|ids| - 1]) + rs[ids[|ids| - 1]].term.amount
  }

  /** The ledger after releasing the reservations `ids` for a hit. */
  function Pay(l: Ledger, hit: Hit, ids: seq<int>): Ledger
    requires l.terms.damageBucket > 0
    requires |ids| <= BucketsOwed(l, hit)
    requires forall k :: 0 <= k < |ids| ==> 0 <= ids[k] < |l.reservations|
  {
    l.(nextSequence := l.nextSequence + |ids|,
       damageRemainder := l.damageRemainder.Set(hit.victim, Left(Owed(l, hit), |ids|, l.terms.damageBucket)),
       releasedTotal := l.releasedTotal.Set(hit.victim,
         Min(l.releasedTotal.Get(hit.victim) + AmountOf(l.reservations, ids), U128_MAX)),
       reservations := MarkReleased(l.reservations, ids))
  }

  function RecordDamage(l: Ledger, hit: Hit): Ledger
    requires l.terms.damageBucket > 0
  {
    Pay(l, hit, Payable(l, hit))
  }

  /** Everything a damage call signs, whether or not the call goes on to report the cap. */
  function Issued(c: Crypto, l: Ledger, hit: Hit): seq<HoldInvoiceRelease>
    requires l.terms.damageBucket > 0
  {
    Batch(c, l, hit, Payable(l, hit))
  }

  // ---------------------------------------------------------------------------
  // Cancellation
  // ---------------------------------------------------------------------------

  predicate Cancellable(r: HoldReservation) {
    r.status in {Offered, Held}
  }

  /** The terms a cancellation hands out: those of the open reservations, in order. */
  function CancelledTerms(rs: seq<HoldReservation>): (terms: seq<HoldInvoiceTerm>)
    ensures |terms| == |Positions(rs, Cancellable)|
    ensures forall k :: 0 <= k < |terms| ==> terms[k] == rs[Positions(rs, Cancellable)[k]].term
  {
    var ids := Positions(rs, Cancellable);
    seq(|ids|, k requires 0 <= k < |ids| => rs[ids[k]].term)
  }

  function CancelAll(rs: seq<HoldReservation>): (r: seq<HoldReservation>)
    ensures |r| == |rs|
    ensures forall i :: 0 <= i < |rs| ==> r[i] == if Cancellable(rs[i]) then rs[i].(status := CancelPending) else rs[i]
  {
    seq(|rs|, i requires 0 <= i < |rs| => if Cancellable(rs[i]) then rs[i].(status := CancelPending) else rs[i])
  }

  function CancelUnused(l: Ledger): Ledger {
    l.(reservations := CancelAll(l.reservations))
  }

  predicate AllHeld(l: Ledger) {
    l.reservations != [] && forall r :: r in l.reservations ==> r.status == Held
  }

  // ---------------------------------------------------------------------------
  // Histories
  // ---------------------------------------------------------------------------

  datatype Call =
    | Offer(sender: PlayerSlot, offer: HoldInvoiceOffer)
    | Ack(sender: PlayerSlot, ack: HoldInvoiceAck)
    | FailureReport(sender: PlayerSlot, failure: HoldInvoiceFailure)
    | Damaged(hit: Hit)
    | CancelRest

  /** A ledger with what it has put out so far: every release signed, those returned to the caller (a call that
      reports the cap returns none of its own), the terms handed out for cancellation, and the calls that
      reported the cap. */
  datatype Book = Book(
    ledger: Ledger, issued: seq<HoldInvoiceRelease>, returned: seq<HoldInvoiceRelease>,
    cancelled: seq<HoldInvoiceTerm>, capErrors: nat)

  function Apply(c: Crypto, b: Book, call: Call): Book
    requires b.ledger.terms.damageBucket > 0
  {
    match call
    case Offer(sender, offer) => b.(ledger := RegisterOffer(b.ledger, sender, offer))
    case Ack(sender, ack) => b.(ledger := Acknowledge(b.ledger, sender, ack))
    case FailureReport(sender, failure) => b.(ledger := RecordFailure(b.ledger, sender, failure))
    case Damaged(hit) =>
      var batch := Issued(c, b.ledger, hit);
      var refused := CapReached(b.ledger, hit);
      b.(ledger := RecordDamage(b.ledger, hit),
         issued := b.issued + batch,
         returned := b.returned + if refused then [] else batch,
         capErrors := b.capErrors + if refused then 1 else 0)
    case CancelRest =>
      b.(ledger := CancelUnused(b.ledger), cancelled := b.cancelled + CancelledTerms(b.ledger.reservations))
  }

  /** The history after a sequence of calls with arbitrary arguments. */
  function Run(c: Crypto, b: Book, calls: seq<Call>): (r: Book)
    requires b.ledger.terms.damageBucket > 0
    ensures r.ledger.terms == b.ledger.terms && r.ledger.signingKey == b.ledger.signingKey
  {
    if calls == [] then b else Apply(c, Run(c, b, calls[..|calls| - 1]), calls[|calls| - 1])
  }

  function NewTerm(c: Crypto, amount: u128, cap: u128, preimages: seq<Bytes>, i: nat): HoldInvoiceTerm
    requires amount > 0 && i < |preimages| && i < U16_MAX
  {
    var payer := PayerAt(PerPlayer(amount, cap), i);
    HoldInvoiceTerm(i, payer, payer.Opponent(), amount, c.digest(preimages[i]))
  }

  /** A fresh coordinator: the random preimages are an arbitrary input. */
  function NewBook(c: Crypto, matchId: u128, signingKey: Bytes, amount: u128, bucket: u16, cap: u128,
                   deadline: u64, preimages: seq<Bytes>): Book
    requires ValidConfiguration(amount, bucket, cap)
    requires |preimages| == 2 * PerPlayer(amount, cap)
  {
    var terms := seq(|preimages|, i requires 0 <= i < |preimages| => NewTerm(c, amount, cap, preimages, i));
    var reservations := seq(|preimages|, i requires 0 <= i < |preimages| =>
      HoldReservation(terms[i], preimages[i], None, false, false, AwaitingInvoice));
    Book(Ledger(MatchTerms(matchId, amount, bucket, cap, deadline, c.verifyingKey(signingKey), terms), signingKey,
                1, PerSlot(0, 0), PerSlot(0, 0), reservations), [], [], [], 0)
  }
}
