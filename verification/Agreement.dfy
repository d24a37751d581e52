/** The payee's guard and the coordinator keep the same accounts. */
module Agreement {
  import opened Wrappers
  import opened Protocol
  import opened Arithmetic
  import opened Sequences
  import opened Settlement
  import opened Accounting
  import opened Runs
  import opened Guard

  /** The caller's obligation on damage reports: attacker and victim are opponents. */
  ghost predicate ProperHits(calls: seq<Call>) {
    forall k :: 0 <= k < |calls| && calls[k].Damaged? ==> calls[k].hit.attacker == calls[k].hit.victim.Opponent()
  }

  ghost predicate Opposed(log: seq<HoldInvoiceRelease>) {
    forall r :: r in log ==> r.intent.body.payee == r.intent.body.payer.Opponent()
  }

  lemma {:induction false} HistoryIsOpposed(c: Crypto, b: Book, calls: seq<Call>)
    requires Fresh(c, b) && ProperHits(calls)
    ensures Opposed(Run(c, b, calls).issued)
  {
    if calls != [] {
      var front, last := calls[..|calls| - 1], calls[|calls| - 1];
      HistoryIsOpposed(c, b, front);
      if last.Damaged? {
        IssuedOpposed(c, Run(c, b, front).ledger, last.hit);
      }
    }
  }

  lemma IssuedOpposed(c: Crypto, l: Ledger, hit: Hit)
    requires l.terms.damageBucket > 0 && hit.attacker == hit.victim.Opponent()
    ensures Opposed(Issued(c, l, hit))
  {
    hide Payable;
  }

  /** Messages the coordinator handed out for `slot`, each arriving before it expires. */
  ghost predicate Genuine(b: Book, slot: PlayerSlot, ds: seq<Delivery>) {
    forall d :: d in ds ==>
      && d.release in b.returned
      && d.release.intent.body.payee == slot
      && d.nowMs <= d.release.intent.body.expiresAtMs
  }

  ghost function Delivered(ds: seq<Delivery>): set<int> {
    set d | d in ds :: d.release.Id() as int
  }

  /** A genuine message passes every check that does not depend on what came before. */
  lemma GenuinePasses(c: Crypto, b: Book, d: Delivery, slot: PlayerSlot)
    requires Sound(c, b) && c.Lawful() && Opposed(b.issued)
    requires d.release in b.issued && d.release.intent.body.payee == slot
    requires d.nowMs <= d.release.intent.body.expiresAtMs
    ensures MessageError(c, b.ledger.terms, d.release, slot, d.nowMs).None?
  {
    var l := b.ledger;
    var k :| 0 <= k < |b.issued| && b.issued[k] == d.release;
    assert Faithful(c, l, d.release, k + 1);
    var r := l.reservations[d.release.Id()];
    assert r.term == l.terms.holdInvoices[d.release.Id()];
    assert c.verify(c.verifyingKey(l.signingKey), d.release.intent.body, c.sign(d.release.intent.body, l.signingKey));
    hide Lists, SoundTotals, SoundReturned, SoundCancelled, Faithful, FaithfulLog, Coherent;
    FindByPosition(l.terms.holdInvoices, 0, d.release.Id());
  }

  /** The verdict due on the `k`-th genuine message. */
  ghost predicate DueVerdict(c: Crypto, terms: MatchTerms, slot: PlayerSlot, ds: seq<Delivery>, k: nat)
    requires k < |ds|
  {
    Verdict(c, NewGuard(terms), slot, ds, k) ==
    if ds[k].release.Id() as int in Delivered(ds[..k]) then Some(Duplicate) else None
  }

  /** Any permutation of genuine messages, with any duplicates: each id is accepted the first time it comes and
      refused as a duplicate afterwards, and the guard ends having processed exactly the ids delivered. */
  lemma {:induction false} EachAcceptedOnce(c: Crypto, b: Book, slot: PlayerSlot, ds: seq<Delivery>)
    requires Sound(c, b) && c.Lawful() && Opposed(b.issued) && Genuine(b, slot, ds)
    ensures Receive(c, NewGuard(b.ledger.terms), slot, ds).processed == Delivered(ds)
    ensures forall k :: 0 <= k < |ds| ==> DueVerdict(c, b.ledger.terms, slot, ds, k)
  {
    if ds != [] {
      var terms, front, last := b.ledger.terms, ds[..|ds| - 1], ds[|ds| - 1];
      assert ds == front + [last];
      EachAcceptedOnce(c, b, slot, front);
      assert last in ds && WellFormedTerms(terms);
      assert Genuine(b, slot, [last]) && last.release in b.issued;
      hide Sound, MessageError, Receive, Delivered, DueVerdict, WellFormedTerms;
      GenuinePasses(c, b, last, slot);
      StepVerdict(c, terms, slot, front, last);
      DeliveredStep(front, last);
      forall k | 0 <= k < |ds| ensures DueVerdict(c, terms, slot, ds, k) {
        EarlierVerdict(c, terms, slot, front, last, k);
      }
    }
  }

  lemma EarlierVerdict(c: Crypto, terms: MatchTerms, slot: PlayerSlot, front: seq<Delivery>, last: Delivery, k: nat)
    requires k <= |front|
    requires k < |front| ==> DueVerdict(c, terms, slot, front, k)
    requires k == |front| ==> Verdict(c, NewGuard(terms), slot, front + [last], k) ==
                              if last.release.Id() as int in Delivered(front) then Some(Duplicate) else None
    ensures DueVerdict(c, terms, slot, front + [last], k)
  {
    var ds := front + [last];
    hide Receive, Delivered, ValidationError;
    assert ds[..k] == front[..k] && ds[|front|] == last && front[..|front|] == front;
    if k < |front| { assert ds[k] == front[k]; }
  }

  lemma StepVerdict(c: Crypto, terms: MatchTerms, slot: PlayerSlot, front: seq<Delivery>, last: Delivery)
    requires WellFormedTerms(terms) && MessageError(c, terms, last.release, slot, last.nowMs).None?
    ensures var g, ds := Receive(c, NewGuard(terms), slot, front), front + [last];
            && Receive(c, NewGuard(terms), slot, ds).processed == g.processed + {last.release.Id() as int}
            && Verdict(c, NewGuard(terms), slot, ds, |front|) ==
               if last.release.Id() as int in g.processed then Some(Duplicate) else None
  {
    var g, ds := Receive(c, NewGuard(terms), slot, front), front + [last];
    assert ds[..|front|] == front && ds[|ds| - 1] == last;
    GuardTotalIsExact(c, terms, slot, front);
    hide MessageError, WellFormedTerms;
    ValidateCounts(c, g, last.release, slot, last.nowMs);
  }

  lemma DeliveredStep(front: seq<Delivery>, last: Delivery)
    ensures Delivered(front + [last]) == Delivered(front) + {last.release.Id() as int}
  {
    var ds := front + [last];
    assert last in ds;
    forall d | d in front ensures d in ds {}
  }

  /** The guard's state depends only on which releases were delivered. */
  lemma OrderDoesNotMatter(c: Crypto, b: Book, slot: PlayerSlot, ds: seq<Delivery>, ds': seq<Delivery>)
    requires Sound(c, b) && c.Lawful() && Opposed(b.issued)
    requires Genuine(b, slot, ds) && Genuine(b, slot, ds') && Delivered(ds) == Delivered(ds')
    ensures Receive(c, NewGuard(b.ledger.terms), slot, ds) == Receive(c, NewGuard(b.ledger.terms), slot, ds')
  {
    EachAcceptedOnce(c, b, slot, ds);
    EachAcceptedOnce(c, b, slot, ds');
    assert WellFormedTerms(b.ledger.terms);
    hide Sound, Genuine, Delivered, Receive, Opposed;
    GuardTotalIsExact(c, b.ledger.terms, slot, ds);
    GuardTotalIsExact(c, b.ledger.terms, slot, ds');
    SameCounts(Receive(c, NewGuard(b.ledger.terms), slot, ds), Receive(c, NewGuard(b.ledger.terms), slot, ds'), slot);
  }

  lemma SameCounts(g: GuardState, g': GuardState, slot: PlayerSlot)
    requires Counted(g, slot) && Counted(g', slot) && g.processed == g'.processed && g.terms == g'.terms
    ensures g == g'
  {
    hide WellFormedTerms;
  }

  /** The releases at `p`'s expense that refused damage reports signed and did not return: everything `p` still held. */
  ghost function Dropped(c: Crypto, start: Book, calls: seq<Call>, p: PlayerSlot): nat
    requires start.ledger.terms.damageBucket > 0
  {
    if calls == [] then 0
    else
      var front, last := calls[..|calls| - 1], calls[|calls| - 1];
      var l := Run(c, start, front).ledger;
      Dropped(c, start, front, p)
      + if last.Damaged? && last.hit.victim == p && CapReached(l, last.hit) then |HeldIds(l.reservations, p)| else 0
  }

  lemma RefusedTakesAll(l: Ledger, hit: Hit)
    requires l.terms.damageBucket > 0 && CapReached(l, hit)
    ensures |Payable(l, hit)| == |HeldIds(l.reservations, hit.victim)|
  {
    hide HeldIds, Buckets, Owed;
  }

  /** Everything signed was returned or dropped. */
  lemma {:induction false} ReturnedOrDropped(c: Crypto, start: Book, calls: seq<Call>, p: PlayerSlot)
    requires Fresh(c, start) && start.ledger.terms.damageBucket > 0
    ensures var b := Run(c, start, calls);
            |IdsOf(b.issued, p)| == |IdsOf(b.returned, p)| + Dropped(c, start, calls, p)
  {
    hide Sound, HeldIds, CapReached, Issued, Settlement.RecordDamage, IdsOf;
    if calls != [] {
      var front, last := calls[..|calls| - 1], calls[|calls| - 1];
      var b := Run(c, start, front);
      ReturnedOrDropped(c, start, front, p);
      if last.Damaged? {
        DamagedBook(c, b, last.hit);
        IssuedForPayable(c, b.ledger, last.hit);
        CountAppend(b.issued, Issued(c, b.ledger, last.hit), last.hit.victim, p);
        CountAppend(b.returned, Issued(c, b.ledger, last.hit), last.hit.victim, p);
        if CapReached(b.ledger, last.hit) {
          RefusedTakesAll(b.ledger, last.hit);
        }
      }
    }
  }

  /** After any history, a payee that received every release returned for it has counted what the coordinator charged
      to the opponent, short of exactly the amounts of the dropped releases; so the two agree if and only if no
      refused report found anything held. */
  lemma GuardAgrees(c: Crypto, start: Book, calls: seq<Call>, slot: PlayerSlot, ds: seq<Delivery>)
    requires Fresh(c, start) && ProperHits(calls) && c.Lawful() && start.ledger.terms.damageBucket > 0
    requires Genuine(Run(c, start, calls), slot, ds)
    requires forall r :: r in Run(c, start, calls).returned && r.intent.body.payee == slot ==>
               r.Id() as int in Delivered(ds)
    ensures var charged := Run(c, start, calls).ledger.releasedTotal.Get(slot.Opponent());
            var counted := Receive(c, NewGuard(start.ledger.terms), slot, ds).releasedTotal.Get(slot.Opponent());
            && charged == counted + Dropped(c, start, calls, slot.Opponent()) * start.ledger.terms.amountPerDamageBucket
            && (charged == counted <==> Dropped(c, start, calls, slot.Opponent()) == 0)
  {
    hide *;
    var b, p := Run(c, start, calls), slot.Opponent();
    CountedTotal(c, start, calls, slot, ds);
    ChargedTotal(c, start, calls, p);
    ReturnedOrDropped(c, start, calls, p);
    ShortBy(|IdsOf(b.returned, p)|, Dropped(c, start, calls, p), start.ledger.terms.amountPerDamageBucket);
  }

  lemma CountedTotal(c: Crypto, start: Book, calls: seq<Call>, slot: PlayerSlot, ds: seq<Delivery>)
    requires Fresh(c, start) && ProperHits(calls) && c.Lawful() && start.ledger.terms.damageBucket > 0
    requires Genuine(Run(c, start, calls), slot, ds)
    requires forall r :: r in Run(c, start, calls).returned && r.intent.body.payee == slot ==>
               r.Id() as int in Delivered(ds)
    ensures Receive(c, NewGuard(start.ledger.terms), slot, ds).releasedTotal.Get(slot.Opponent())
         == |IdsOf(Run(c, start, calls).returned, slot.Opponent())| * start.ledger.terms.amountPerDamageBucket
  {
    var b := Run(c, start, calls);
    RunIsSound(c, start, calls);
    HistoryIsOpposed(c, start, calls);
    AmountIsPositive(c, b);
    hide Sound, Receive, Delivered, Opposed, IdsOf, WellFormedTerms;
    EachAcceptedOnce(c, b, slot, ds);
    GuardCounts(c, b.ledger.terms, slot, ds);
    DeliveredIsReturned(c, b, slot, ds);
  }

  lemma ChargedTotal(c: Crypto, start: Book, calls: seq<Call>, p: PlayerSlot)
    requires Fresh(c, start) && start.ledger.terms.damageBucket > 0
    ensures Run(c, start, calls).ledger.releasedTotal.Get(p)
         == |IdsOf(Run(c, start, calls).issued, p)| * start.ledger.terms.amountPerDamageBucket
    ensures start.ledger.terms.amountPerDamageBucket > 0
  {
    EveryHistoryBalances(c, start, calls);
    AmountIsPositive(c, start);
  }

  lemma AmountIsPositive(c: Crypto, b: Book)
    requires Sound(c, b)
    ensures b.ledger.terms.amountPerDamageBucket > 0 && WellFormedTerms(b.ledger.terms)
  {
  }

  lemma GuardCounts(c: Crypto, terms: MatchTerms, slot: PlayerSlot, ds: seq<Delivery>)
    requires WellFormedTerms(terms)
    ensures var g := Receive(c, NewGuard(terms), slot, ds);
            g.releasedTotal.Get(slot.Opponent()) == |g.processed| * terms.amountPerDamageBucket
  {
    GuardTotalIsExact(c, terms, slot, ds);
  }

  lemma ShortBy(n: nat, dropped: nat, each: nat)
    requires each > 0
    ensures (n + dropped) * each == n * each + dropped * each
    ensures dropped * each == 0 <==> dropped == 0
  {
    if dropped > 0 {
      ProductMonotone(1, dropped, each);
    }
  }

  lemma DeliveredIsReturned(c: Crypto, b: Book, slot: PlayerSlot, ds: seq<Delivery>)
    requires Sound(c, b) && Opposed(b.issued) && Genuine(b, slot, ds)
    requires forall r :: r in b.returned && r.intent.body.payee == slot ==> r.Id() as int in Delivered(ds)
    ensures |Delivered(ds)| == |IdsOf(b.returned, slot.Opponent())|
  {
    var ids := IdsOf(b.returned, slot.Opponent());
    assert Distinct(Ids(b.returned)) && forall r :: r in b.returned ==> r in b.issued;
    hide Sound;
    IdsOfMembers(b.returned, slot.Opponent());
    IdsOfContains(b.returned, slot.Opponent());
    IdsOfDistinct(b.returned, slot.Opponent());
    DistinctCardinality(ids);
    forall i | i in ids ensures i in Delivered(ds) {
      var r :| r in b.returned && r.Id() == i && r.intent.body.payer == slot.Opponent();
      assert r in b.issued;
    }
    forall d | d in ds ensures d.release.Id() as int in ids {
      assert d.release in b.issued;
    }
    assert Delivered(ds) == Elements(ids);
  }

  lemma {:induction false} IdsOfContains(log: seq<HoldInvoiceRelease>, p: PlayerSlot)
    ensures forall r :: r in log && r.intent.body.payer == p ==> r.Id() as int in IdsOf(log, p)
  {
    if log != [] {
      IdsOfContains(log[..|log| - 1], p);
      assert log == log[..|log| - 1] + [log[|log| - 1]];
    }
  }
}
