/** Wire entities shared by the server and its clients (src/protocol.rs). */
module Protocol {
  import opened Binary

  type u64 = x: int | 0 <= x < 0x1_0000_0000_0000_0000
  type u128 = x: int | 0 <= x < 0x1_0000_0000_0000_0000_0000_0000_0000_0000

  const U16_MAX: u16 := 0xFFFF
  const U64_MAX: u64 := 0xFFFF_FFFF_FFFF_FFFF
  const U128_MAX: u128 := 0xFFFF_FFFF_FFFF_FFFF_FFFF_FFFF_FFFF_FFFF

  function Min(x: int, y: int): int {
    if x <= y then x else y
  }

  datatype PlayerSlot = A | B {
    function Opponent(): PlayerSlot {
      if this == A then B else A
    }
  }

  /** A two-element array indexed by player slot. */
  datatype PerSlot<T> = PerSlot(a: T, b: T) {
    function Get(slot: PlayerSlot): T {
      if slot == A then a else b
    }

    function Set(slot: PlayerSlot, value: T): PerSlot<T> {
      if slot == A then this.(a := value) else this.(b := value)
    }
  }

  function Clamp(x: real, lo: real, hi: real): real
    requires lo <= hi
  {
    if x < lo then lo else if x > hi then hi else x
  }

  datatype InputFrame = InputFrame(
    sequence: u32, moveX: real, moveY: real, yaw: real, pitch: real,
    walk: bool, jump: bool, fire: bool, reload: bool)
  {
    function Sanitized(): InputFrame {
      this.(moveX := Clamp(moveX, -1.0, 1.0), moveY := Clamp(moveY, -1.0, 1.0),
            pitch := Clamp(pitch, -1.553343, 1.553343))
    }
  }

  datatype MatchPhase = Waiting | Live | PaymentPaused(payer: PlayerSlot) | Ended(winner: PlayerSlot)

  datatype HoldInvoiceTerm = HoldInvoiceTerm(
    reservationId: u16, payer: PlayerSlot, payee: PlayerSlot, amount: u128, paymentHash: Bytes)

  datatype MatchTerms = MatchTerms(
    matchId: u128, amountPerDamageBucket: u128, damageBucket: u16, maxTotalPerPlayer: u128,
    paymentDeadlineMs: u64, serverVerifyingKey: Bytes, holdInvoices: seq<HoldInvoiceTerm>)

  datatype SettlementReason = Damage(amount: u16) | Forfeit

  datatype UnsignedSettlementIntent = UnsignedSettlementIntent(
    matchId: u128, sequence: nat, reservationId: u16, gameTick: nat, payer: PlayerSlot, payee: PlayerSlot,
    amount: u128, paymentHash: Bytes, reason: SettlementReason, stateHash: Bytes, expiresAtMs: u64)

  datatype SettlementIntent = SettlementIntent(body: UnsignedSettlementIntent, signature: Bytes)

  datatype HoldInvoiceRelease = HoldInvoiceRelease(intent: SettlementIntent, paymentPreimage: Bytes) {
    function Id(): u16 {
      intent.body.reservationId
    }
  }

  datatype HoldInvoiceStage = Funded | Received | Settled | Cancelled

  datatype HoldInvoiceOffer = HoldInvoiceOffer(
    matchId: u128, reservationId: u16, paymentHash: Bytes, invoice: Bytes)

  /** An acknowledgement and a failure report carry the same reference and stage. */
  datatype HoldInvoiceAck = HoldInvoiceAck(
    matchId: u128, reservationId: u16, paymentHash: Bytes, stage: HoldInvoiceStage)

  datatype HoldInvoiceFailure = HoldInvoiceFailure(
    matchId: u128, reservationId: u16, paymentHash: Bytes, stage: HoldInvoiceStage)

  /** The cryptographic primitives, left uninterpreted. */
  datatype Crypto = Crypto(
    digest: Bytes -> Bytes,
    verifyingKey: Bytes -> Bytes,
    sign: (UnsignedSettlementIntent, Bytes) -> Bytes,
    validKey: Bytes -> bool,
    validSignature: Bytes -> bool,
    verify: (Bytes, UnsignedSettlementIntent, Bytes) -> bool)
  {
    /** The one law assumed of a signature scheme: what a key signs is well formed and its verifying key accepts it. */
    ghost predicate Lawful() {
      forall body, key ::
        && validKey(verifyingKey(key)) && validSignature(sign(body, key))
        && verify(verifyingKey(key), body, sign(body, key))
    }
  }
}
