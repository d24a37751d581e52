/** Results about single damage reports and about whole histories of coordinator calls. */
module Histories {
  import opened Wrappers
  import opened Binary
  import opened Protocol
  import opened Arithmetic
  import opened Sequences
  import opened Settlement
  import opened Accounting

  // ---------------------------------------------------------------------------
  // Exact arithmetic of a damage report
  // ---------------------------------------------------------------------------

  lemma {:induction false} BucketsAreQuotient(owed: nat, bucket: nat)
    requires bucket > 0
    ensures Buckets(owed, bucket) == owed / bucket
    decreases owed
  {
    if owed >= bucket {
      BucketsAreQuotient(owed - bucket, bucket);
      QuotientStep(owed, bucket);
    }
  }

  lemma QuotientStep(owed: nat, bucket: nat)
    requires 0 < bucket <= owed
    ensures owed / bucket == 1 + (owed - bucket) / bucket
  {
    var q, r := (owed - bucket) / bucket, (owed - bucket) % bucket;
    assert owed == q * bucket + bucket + r == (q + 1) * bucket + r;
    DivisionUnique(owed, bucket, q + 1, r);
  }

  lemma {:induction false} LeftIsDifference(owed: nat, n: nat, bucket: nat)
    requires bucket > 0 && n <= Buckets(owed, bucket)
    ensures Left(owed, n, bucket) == owed - n * bucket
    ensures Buckets(Left(owed, n, bucket), bucket) == Buckets(owed, bucket) - n
    decreases n
  {
    if n > 0 {
      LeftIsDifference(owed - bucket, n - 1, bucket);
    }
  }

  /** The whole buckets in `owed` are its quotient, and what they leave is its remainder. */
  lemma LeftIsRemainder(owed: nat, bucket: nat)
    requires bucket > 0
    ensures Left(owed, Buckets(owed, bucket), bucket) == owed % bucket
  {
    BucketsAreQuotient(owed, bucket);
    LeftIsDifference(owed, Buckets(owed, bucket), bucket);
    assert owed == owed / bucket * bucket + owed % bucket;
  }

  /** A damage report succeeds exactly when the held reservations cover the whole buckets owed; then it releases
      that many of the first held ones and keeps the remainder. Otherwise it releases everything held and at least
      a bucket stays owed. The other player's account is not touched. */
  lemma RecordDamageExact(l: Ledger, hit: Hit)
    requires l.terms.damageBucket > 0
    ensures var bucket, s, held := l.terms.damageBucket, Owed(l, hit), HeldIds(l.reservations, hit.victim);
            var paid, left := Payable(l, hit), RecordDamage(l, hit).damageRemainder.Get(hit.victim);
            && (CapReached(l, hit) <==> s / bucket > |held|)
            && paid == held[..|paid|]
            && (!CapReached(l, hit) ==> |paid| == s / bucket && left == s % bucket)
            && (CapReached(l, hit) ==> |paid| == |held| && left == s - |held| * bucket && left >= bucket)
  {
    var bucket, s, held := l.terms.damageBucket, Owed(l, hit), HeldIds(l.reservations, hit.victim);
    var n := if CapReached(l, hit) then |held| else Buckets(s, bucket);
    hide HeldIds, MarkReleased, AmountOf, Owed;
    BucketsAreQuotient(s, bucket);
    if CapReached(l, hit) {
      LeftIsDifference(s, n, bucket);
    } else {
      LeftIsRemainder(s, bucket);
    }
  }

  /** The opponent's remainder, total and reservations stay as they were, and what was not paid stays held. */
  lemma RecordDamageFrame(l: Ledger, hit: Hit)
    requires l.terms.damageBucket > 0
    ensures var l', other := RecordDamage(l, hit), hit.victim.Opponent();
            && l'.damageRemainder.Get(other) == l.damageRemainder.Get(other)
            && l'.releasedTotal.Get(other) == l.releasedTotal.Get(other)
            && HeldIds(l'.reservations, other) == HeldIds(l.reservations, other)
            && HeldIds(l'.reservations, hit.victim) == HeldIds(l.reservations, hit.victim)[|Payable(l, hit)|..]
  {
    hide HeldIds, MarkReleased, AmountOf;
    HeldAfterRelease(l.reservations, hit.victim, |Payable(l, hit)|);
  }

  lemma SameHeld(rs: seq<HoldReservation>, rs': seq<HoldReservation>, payer: PlayerSlot)
    requires |rs| == |rs'|
    requires forall i :: 0 <= i < |rs| ==> (HeldBy(rs[i], payer) <==> HeldBy(rs'[i], payer))
    ensures HeldIds(rs, payer) == HeldIds(rs', payer)
  {
    IncreasingUnique(HeldIds(rs, payer), HeldIds(rs', payer));
  }

  lemma HeldMembers(rs: seq<HoldReservation>, payer: PlayerSlot)
    ensures Increasing(HeldIds(rs, payer))
    ensures forall i :: i in HeldIds(rs, payer) <==> 0 <= i < |rs| && HeldBy(rs[i], payer)
  {
  }

  lemma IncreasingSuffix(s: seq<int>, n: nat)
    requires Increasing(s) && n <= |s|
    ensures Increasing(s[n..])
    ensures forall x :: x in s[n..] <==> x in s && x !in s[..n]
  {
    assert s == s[..n] + s[n..];
    forall x | x in s[n..] ensures x !in s[..n] {
      var k :| n <= k < |s| && s[k] == x;
    }
  }

  /** Releasing the first held reservations leaves the later ones held, and the opponent's alone. */
  lemma HeldAfterRelease(rs: seq<HoldReservation>, payer: PlayerSlot, n: nat)
    requires n <= |HeldIds(rs, payer)|
    ensures HeldIds(MarkReleased(rs, HeldIds(rs, payer)[..n]), payer) == HeldIds(rs, payer)[n..]
    ensures HeldIds(MarkReleased(rs, HeldIds(rs, payer)[..n]), payer.Opponent()) == HeldIds(rs, payer.Opponent())
  {
    var held := HeldIds(rs, payer);
    var rs' := MarkReleased(rs, held[..n]);
    hide HeldIds;
    HeldMembers(rs, payer);
    HeldMembers(rs', payer);
    IncreasingSuffix(held, n);
    IncreasingUnique(HeldIds(rs', payer), held[n..]);
    SameHeld(rs, rs', payer.Opponent());
  }

  // ---------------------------------------------------------------------------
  // One bucket at a time
  // ---------------------------------------------------------------------------

  lemma {:induction false} LeftStep(owed: nat, n: nat, bucket: nat)
    requires bucket > 0 && n <= Buckets(owed, bucket)
    ensures Left(owed, n, bucket) >= bucket <==> n < Buckets(owed, bucket)
    ensures n < Buckets(owed, bucket) ==> Left(owed, n + 1, bucket) == Left(owed, n, bucket) - bucket
    decreases n
  {
    if n > 0 {
      LeftStep(owed - bucket, n - 1, bucket);
    }
  }

  lemma AmountOneMore(rs: seq<HoldReservation>, ids: seq<int>, n: nat)
    requires n < |ids| && forall k :: 0 <= k < |ids| ==> 0 <= ids[k] < |rs|
    ensures AmountOf(rs, ids[..n + 1]) == AmountOf(rs, ids[..n]) + rs[ids[n]].term.amount
  {
    assert ids[..n + 1][..n] == ids[..n];
  }

  lemma MarkOneMore(rs: seq<HoldReservation>, ids: seq<int>, n: nat)
    requires Increasing(ids) && n < |ids| && 0 <= ids[n] < |rs|
    ensures MarkReleased(rs, ids[..n])[ids[n]] == rs[ids[n]]
    ensures MarkReleased(rs, ids[..n + 1]) ==
            MarkReleased(rs, ids[..n])[ids[n] := rs[ids[n]].(status := Released)]
  {
    assert ids[..n + 1] == ids[..n] + [ids[n]];
  }

  lemma BatchOneMore(c: Crypto, l: Ledger, hit: Hit, ids: seq<int>, n: nat)
    requires n < |ids| && forall k :: 0 <= k < |ids| ==> 0 <= ids[k] < |l.reservations|
    ensures Batch(c, l, hit, ids[..n + 1]) ==
            Batch(c, l, hit, ids[..n]) + [ReleaseOf(c, l, hit, l.nextSequence + n, l.reservations[ids[n]])]
  {
  }

  /** The ledger after signing the release of one more reservation. */
  ghost function ReleaseOne(l: Ledger, hit: Hit, i: nat): Ledger
    requires i < |l.reservations| && l.damageRemainder.Get(hit.victim) >= l.terms.damageBucket
  {
    l.(nextSequence := l.nextSequence + 1,
       damageRemainder := l.damageRemainder.Set(hit.victim,
         l.damageRemainder.Get(hit.victim) - l.terms.damageBucket),
       releasedTotal := l.releasedTotal.Set(hit.victim,
         Min(l.releasedTotal.Get(hit.victim) + l.reservations[i].term.amount, U128_MAX)),
       reservations := l.reservations[i := l.reservations[i].(status := Released)])
  }

  /** Midway through a damage report: `n` of the reservations held at its start have been released. */
  ghost predicate Midway(c: Crypto, start: Ledger, hit: Hit, n: nat, l: Ledger, releases: seq<HoldInvoiceRelease>)
    requires start.terms.damageBucket > 0
  {
    var held := HeldIds(start.reservations, hit.victim);
    && n <= |held| && n <= BucketsOwed(start, hit)
    && l == Pay(start, hit, held[..n])
    && releases == Batch(c, start, hit, held[..n])
  }

  lemma MidwayBegins(c: Crypto, l: Ledger, hit: Hit)
    requires l.terms.damageBucket > 0
    ensures Midway(c, l, hit, 0, l.(damageRemainder := l.damageRemainder.Set(hit.victim, Owed(l, hit))), [])
  {
    assert MarkReleased(l.reservations, []) == l.reservations;
  }

  /** What the loop finds midway: the reservations still held are the remaining ones. */
  lemma MidwayHeld(c: Crypto, start: Ledger, hit: Hit, n: nat, l: Ledger, releases: seq<HoldInvoiceRelease>)
    requires start.terms.damageBucket > 0 && Midway(c, start, hit, n, l, releases)
    ensures HeldIds(l.reservations, hit.victim) == HeldIds(start.reservations, hit.victim)[n..]
    ensures l.terms == start.terms && l.signingKey == start.signingKey && l.nextSequence == start.nextSequence + n
    ensures |l.reservations| == |start.reservations| && n <= |HeldIds(start.reservations, hit.victim)|
  {
    hide HeldIds, AmountOf, Left, Buckets;
    HeldAfterRelease(start.reservations, hit.victim, n);
  }

  /** `index` is where a search from the start finds a reservation the payer still holds. */
  ghost predicate Finds(rs: seq<HoldReservation>, payer: PlayerSlot, index: Option<nat>) {
    var held := HeldIds(rs, payer);
    if held == [] then index == None else index == Some(held[0])
  }

  lemma FindsInRange(rs: seq<HoldReservation>, payer: PlayerSlot, i: nat)
    requires Finds(rs, payer, Some(i))
    ensures i < |rs|
  {
  }

  lemma MidwayFinds(c: Crypto, start: Ledger, hit: Hit, n: nat, l: Ledger, releases: seq<HoldInvoiceRelease>, i: nat)
    requires start.terms.damageBucket > 0 && Midway(c, start, hit, n, l, releases)
    requires Finds(l.reservations, hit.victim, Some(i))
    ensures n < |HeldIds(start.reservations, hit.victim)| && i == HeldIds(start.reservations, hit.victim)[n]
  {
    hide HeldIds, Midway;
    MidwayHeld(c, start, hit, n, l, releases);
  }

  lemma MidwayStep(c: Crypto, start: Ledger, hit: Hit, n: nat, l: Ledger, releases: seq<HoldInvoiceRelease>)
    requires start.terms.damageBucket > 0 && Midway(c, start, hit, n, l, releases)
    requires n < |HeldIds(start.reservations, hit.victim)|
    requires l.damageRemainder.Get(hit.victim) >= l.terms.damageBucket
    ensures var i := HeldIds(start.reservations, hit.victim)[n];
            && i < |l.reservations|
            && Midway(c, start, hit, n + 1, ReleaseOne(l, hit, i),
                      releases + [ReleaseOf(c, l, hit, l.nextSequence, l.reservations[i])])
  {
    var held := HeldIds(start.reservations, hit.victim);
    hide HeldIds, MarkReleased, AmountOf, Left, Buckets, Owed, Batch;
    LeftStep(Owed(start, hit), n, start.terms.damageBucket);
    AmountOneMore(start.reservations, held, n);
    MarkOneMore(start.reservations, held, n);
    BatchOneMore(c, start, hit, held, n);
  }

  /** Releasing what the search finds goes one reservation further. */
  lemma MidwayContinues(c: Crypto, start: Ledger, hit: Hit, n: nat, l: Ledger, releases: seq<HoldInvoiceRelease>,
          i: nat)
    requires start.terms.damageBucket > 0 && Midway(c, start, hit, n, l, releases)
    requires Finds(l.reservations, hit.victim, Some(i)) && i < |l.reservations|
    requires l.damageRemainder.Get(hit.victim) >= l.terms.damageBucket
    ensures Midway(c, start, hit, n + 1, ReleaseOne(l, hit, i),
                   releases + [ReleaseOf(c, l, hit, l.nextSequence, l.reservations[i])])
  {
    hide Midway, Finds, ReleaseOne, ReleaseOf, HeldIds;
    MidwayFinds(c, start, hit, n, l, releases, i);
    MidwayStep(c, start, hit, n, l, releases);
  }

  /** Once less than a bucket is left, or no reservation is held any more, the hit has been dealt with. */
  lemma MidwayEnds(c: Crypto, start: Ledger, hit: Hit, n: nat, l: Ledger, releases: seq<HoldInvoiceRelease>)
    requires start.terms.damageBucket > 0 && Midway(c, start, hit, n, l, releases)
    requires l.damageRemainder.Get(hit.victim) < l.terms.damageBucket || Finds(l.reservations, hit.victim, None)
    ensures l == RecordDamage(start, hit) && releases == Issued(c, start, hit)
    ensures CapReached(start, hit) <==> l.damageRemainder.Get(hit.victim) >= l.terms.damageBucket
  {
    hide HeldIds, MarkReleased, AmountOf, Owed, Left, Buckets, Batch;
    MidwayHeld(c, start, hit, n, l, releases);
    LeftStep(Owed(start, hit), n, start.terms.damageBucket);
    assert Payable(start, hit) == HeldIds(start.reservations, hit.victim)[..n];
  }

  // ---------------------------------------------------------------------------
  // Splitting a damage report
  // ---------------------------------------------------------------------------

  lemma {:induction false} BucketsSplit(owed: nat, more: nat, bucket: nat)
    requires bucket > 0
    ensures var n := Buckets(owed, bucket);
            var rest := Left(owed, n, bucket) + more;
            && Buckets(owed + more, bucket) == n + Buckets(rest, bucket)
            && Left(owed + more, n + Buckets(rest, bucket), bucket) == Left(rest, Buckets(rest, bucket), bucket)
    decreases owed
  {
    if owed >= bucket {
      BucketsSplit(owed - bucket, more, bucket);
    }
  }

  lemma {:induction false} AmountSplit(rs: seq<HoldReservation>, rs': seq<HoldReservation>, ids: seq<int>,
          more: seq<int>)
    requires SameTerms(rs, rs')
    requires forall k :: 0 <= k < |ids| ==> 0 <= ids[k] < |rs|
    requires forall k :: 0 <= k < |more| ==> 0 <= more[k] < |rs|
    ensures forall k :: 0 <= k < |ids + more| ==> 0 <= (ids + more)[k] < |rs|
    ensures AmountOf(rs, ids + more) == AmountOf(rs, ids) + AmountOf(rs', more)
  {
    if more == [] {
      assert ids + more == ids;
    } else {
      var front := more[..|more| - 1];
      AmountSplit(rs, rs', ids, front);
      assert (ids + more)[..|ids + more| - 1] == ids + front;
    }
  }

  lemma MarkSplit(rs: seq<HoldReservation>, ids: seq<int>, more: seq<int>)
    ensures MarkReleased(MarkReleased(rs, ids), more) == MarkReleased(rs, ids + more)
  {
  }

  lemma BatchSplit(c: Crypto, l: Ledger, l': Ledger, hit: Hit, hit': Hit, ids: seq<int>, more: seq<int>)
    requires l'.terms == l.terms && l'.signingKey == l.signingKey && l'.nextSequence == l.nextSequence + |ids|
    requires SameTerms(l.reservations, l'.reservations) && hit' == hit.(damage := hit'.damage)
    requires forall k :: 0 <= k < |ids| ==> 0 <= ids[k] < |l.reservations|
    requires forall k :: 0 <= k < |more| ==> 0 <= more[k] < |l.reservations|
    ensures forall k :: 0 <= k < |ids + more| ==> 0 <= (ids + more)[k] < |l.reservations|
    ensures Batch(c, l, hit', ids + more) == Batch(c, l, hit, ids) + Batch(c, l', hit', more)
  {
  }

  /** The two parts of a split hit, and the whole. */
  ghost predicate Splits(first: Hit, second: Hit, whole: Hit) {
    && second == first.(damage := second.damage)
    && first.damage + second.damage == whole.damage
    && whole == first.(damage := whole.damage)
  }

  lemma SplitOwed(l: Ledger, first: Hit, second: Hit, whole: Hit)
    requires l.terms.damageBucket > 0 && Splits(first, second, whole)
    requires l.damageRemainder.Get(first.victim) + whole.damage <= U16_MAX && !CapReached(l, whole)
    ensures var l' := RecordDamage(l, first);
            && !CapReached(l, first)
            && Owed(l', second) == Left(Owed(l, first), BucketsOwed(l, first), l.terms.damageBucket) + second.damage
            && BucketsOwed(l, whole) == BucketsOwed(l, first) + BucketsOwed(l', second)
            && Left(Owed(l, whole), BucketsOwed(l, whole), l.terms.damageBucket) ==
               Left(Owed(l', second), BucketsOwed(l', second), l.terms.damageBucket)
  {
    hide HeldIds, MarkReleased, AmountOf, Buckets, Left;
    BucketsSplit(Owed(l, first), second.damage, l.terms.damageBucket);
  }

  lemma SplitPayable(l: Ledger, first: Hit, second: Hit, whole: Hit)
    requires l.terms.damageBucket > 0 && Splits(first, second, whole)
    requires l.damageRemainder.Get(first.victim) + whole.damage <= U16_MAX && !CapReached(l, whole)
    ensures var l' := RecordDamage(l, first);
            && !CapReached(l, first) && !CapReached(l', second)
            && Payable(l, whole) == Payable(l, first) + Payable(l', second)
            && Left(Owed(l, whole), |Payable(l, whole)|, l.terms.damageBucket) ==
               Left(Owed(l', second), |Payable(l', second)|, l.terms.damageBucket)
  {
    var l' := RecordDamage(l, first);
    SplitOwed(l, first, second, whole);
    RecordDamageFrame(l, first);
    hide HeldIds, RecordDamage, Left, BucketsOwed, Owed;
    SliceSplit(HeldIds(l.reservations, first.victim), BucketsOwed(l, first), BucketsOwed(l', second));
  }

  lemma ReleasingKeepsTerms(rs: seq<HoldReservation>, ids: seq<int>)
    ensures SameTerms(rs, MarkReleased(rs, ids))
  {
  }

  lemma SplitTotal(total: u128, more: nat, yet: nat)
    ensures Min(Min(total + more, U128_MAX) + yet, U128_MAX) == Min(total + (more + yet), U128_MAX)
  {
  }

  lemma SetTwice<T>(values: PerSlot<T>, slot: PlayerSlot, x: T, y: T)
    ensures values.Set(slot, x).Set(slot, y) == values.Set(slot, y) && values.Set(slot, x).Get(slot) == x
  {
  }

  lemma SplitRemainder(l: Ledger, first: Hit, second: Hit, whole: Hit)
    requires l.terms.damageBucket > 0 && Splits(first, second, whole)
    requires l.damageRemainder.Get(first.victim) + whole.damage <= U16_MAX && !CapReached(l, whole)
    ensures var after, once := RecordDamage(RecordDamage(l, first), second), RecordDamage(l, whole);
            after.nextSequence == once.nextSequence && after.damageRemainder == once.damageRemainder
  {
    var l', v := RecordDamage(l, first), first.victim;
    var after := RecordDamage(l', second);
    hide MarkReleased, AmountOf, Payable, Left, Owed, BucketsOwed, CapReached;
    SplitPayable(l, first, second, whole);
    SetTwice(l.damageRemainder, v, l'.damageRemainder.Get(v), after.damageRemainder.Get(v));
  }

  lemma DamageTotals(l: Ledger, hit: Hit)
    requires l.terms.damageBucket > 0
    ensures RecordDamage(l, hit).terms == l.terms
    ensures RecordDamage(l, hit).reservations == MarkReleased(l.reservations, Payable(l, hit))
    ensures RecordDamage(l, hit).releasedTotal == l.releasedTotal.Set(hit.victim,
              Raised(l.releasedTotal.Get(hit.victim), AmountOf(l.reservations, Payable(l, hit))))
  {
    hide MarkReleased, AmountOf, Payable, Left, Owed;
  }

  /** A total raised, without passing the 128-bit limit. */
  function Raised(total: u128, amount: nat): u128 {
    Min(total + amount, U128_MAX)
  }

  lemma RaisedTwice(totals: PerSlot<u128>, v: PlayerSlot, more: nat, yet: nat)
    ensures var once := totals.Set(v, Raised(totals.Get(v), more));
            once.Set(v, Raised(once.Get(v), yet)) == totals.Set(v, Raised(totals.Get(v), more + yet))
  {
    SplitTotal(totals.Get(v), more, yet);
  }

  lemma SplitReservations(l: Ledger, first: Hit, second: Hit, whole: Hit)
    requires l.terms.damageBucket > 0 && Splits(first, second, whole)
    requires l.damageRemainder.Get(first.victim) + whole.damage <= U16_MAX && !CapReached(l, whole)
    ensures RecordDamage(l, first).terms == l.terms
    ensures RecordDamage(RecordDamage(l, first), second).reservations == RecordDamage(l, whole).reservations
  {
    hide MarkReleased, AmountOf, Payable, CapReached, RecordDamage;
    DamageTotals(l, first);
    DamageTotals(RecordDamage(l, first), second);
    DamageTotals(l, whole);
    SplitPayable(l, first, second, whole);
    MarkSplit(l.reservations, Payable(l, first), Payable(RecordDamage(l, first), second));
  }

  lemma SplitTotals(l: Ledger, first: Hit, second: Hit, whole: Hit)
    requires l.terms.damageBucket > 0 && Splits(first, second, whole)
    requires l.damageRemainder.Get(first.victim) + whole.damage <= U16_MAX && !CapReached(l, whole)
    ensures RecordDamage(l, first).terms == l.terms
    ensures RecordDamage(RecordDamage(l, first), second).releasedTotal == RecordDamage(l, whole).releasedTotal
  {
    hide MarkReleased, AmountOf, Payable, CapReached, RecordDamage, Raised;
    var l' := RecordDamage(l, first);
    DamageTotals(l, first);
    DamageTotals(l', second);
    DamageTotals(l, whole);
    SplitPayable(l, first, second, whole);
    var ids, more := Payable(l, first), Payable(l', second);
    ReleasingKeepsTerms(l.reservations, ids);
    AmountSplit(l.reservations, l'.reservations, ids, more);
    RaisedTwice(l.releasedTotal, first.victim, AmountOf(l.reservations, ids), AmountOf(l'.reservations, more));
  }

  lemma SplitLedger(l: Ledger, first: Hit, second: Hit, whole: Hit)
    requires l.terms.damageBucket > 0 && Splits(first, second, whole)
    requires l.damageRemainder.Get(first.victim) + whole.damage <= U16_MAX && !CapReached(l, whole)
    ensures RecordDamage(l, first).terms == l.terms
    ensures RecordDamage(RecordDamage(l, first), second) == RecordDamage(l, whole)
  {
    hide MarkReleased, AmountOf, Payable, Left, Owed, BucketsOwed, CapReached;
    SplitRemainder(l, first, second, whole);
    SplitReservations(l, first, second, whole);
    SplitTotals(l, first, second, whole);
  }

  /** The releases of a hit do not mention how large it was. */
  lemma BatchDamage(c: Crypto, l: Ledger, hit: Hit, hit': Hit, ids: seq<int>)
    requires hit' == hit.(damage := hit'.damage)
    requires forall k :: 0 <= k < |ids| ==> 0 <= ids[k] < |l.reservations|
    ensures Batch(c, l, hit, ids) == Batch(c, l, hit', ids)
  {
  }

  lemma SplitIssued(c: Crypto, l: Ledger, first: Hit, second: Hit, whole: Hit)
    requires l.terms.damageBucket > 0 && Splits(first, second, whole)
    requires l.damageRemainder.Get(first.victim) + whole.damage <= U16_MAX && !CapReached(l, whole)
    ensures Issued(c, l, whole) == Issued(c, l, first) + Issued(c, RecordDamage(l, first), second)
  {
    var l' := RecordDamage(l, first);
    assert l'.reservations == MarkReleased(l.reservations, Payable(l, first));
    hide HeldIds, MarkReleased, AmountOf, Payable, Left, Owed, CapReached, SameTerms, Batch;
    SplitPayable(l, first, second, whole);
    ReleasingKeepsTerms(l.reservations, Payable(l, first));
    BatchSplit(c, l, l', first, whole, Payable(l, first), Payable(l', second));
    BatchDamage(c, l', second, whole, Payable(l', second));
  }

  lemma UnrefusedDamage(c: Crypto, b: Book, hit: Hit)
    requires b.ledger.terms.damageBucket > 0 && !CapReached(b.ledger, hit)
    ensures Apply(c, b, Damaged(hit)) ==
            Book(RecordDamage(b.ledger, hit), b.issued + Issued(c, b.ledger, hit),
                 b.returned + Issued(c, b.ledger, hit), b.cancelled, b.capErrors)
  {
    hide RecordDamage, Issued, CapReached;
  }

  /** Below saturation and the cap, two reports in a row release the same reservations under the same numbers, and
      leave the same books, as one report of the sum. */
  lemma SplitDamage(c: Crypto, b: Book, first: Hit, second: Hit, whole: Hit)
    requires b.ledger.terms.damageBucket > 0 && Splits(first, second, whole)
    requires b.ledger.damageRemainder.Get(first.victim) + whole.damage <= U16_MAX && !CapReached(b.ledger, whole)
    ensures Apply(c, Apply(c, b, Damaged(first)), Damaged(second)) == Apply(c, b, Damaged(whole))
  {
    var l, l' := b.ledger, RecordDamage(b.ledger, first);
    assert l'.terms == l.terms;
    hide CapReached, RecordDamage, Issued, Owed, Payable, Left, Apply;
    SplitLedger(l, first, second, whole);
    SplitPayable(l, first, second, whole);
    SplitIssued(c, l, first, second, whole);
    UnrefusedDamage(c, b, first);
    UnrefusedDamage(c, Apply(c, b, Damaged(first)), second);
    UnrefusedDamage(c, b, whole);
    AppendAssociative(b.issued, Issued(c, l, first), Issued(c, l', second));
    AppendAssociative(b.returned, Issued(c, l, first), Issued(c, l', second));
  }

  // ---------------------------------------------------------------------------
  // When splitting matters
  // ---------------------------------------------------------------------------

  /** A report that owes no whole bucket only adds to the remainder. */
  lemma NoWholeBucket(c: Crypto, b: Book, hit: Hit)
    requires b.ledger.terms.damageBucket > 0 && BucketsOwed(b.ledger, hit) == 0
    ensures Owed(b.ledger, hit) < b.ledger.terms.damageBucket
    ensures Apply(c, b, Damaged(hit)) ==
            b.(ledger := b.ledger.(damageRemainder := b.ledger.damageRemainder.Set(hit.victim, Owed(b.ledger, hit))))
  {
    var l := b.ledger;
    assert Payable(l, hit) == [];
    DamageTotals(l, hit);
    hide HeldIds, Buckets, Payable, Owed;
    NothingMarked(l.reservations);
    DamagedBook(c, b, hit);
    assert Issued(c, l, hit) == [];
    assert b.issued + [] == b.issued && b.returned + [] == b.returned;
    SetSame(l.releasedTotal, hit.victim);
  }

  lemma NothingMarked(rs: seq<HoldReservation>)
    ensures MarkReleased(rs, []) == rs && AmountOf(rs, []) == 0
  {
  }

  lemma SetSame<T>(values: PerSlot<T>, slot: PlayerSlot)
    ensures values.Set(slot, values.Get(slot)) == values
  {
  }

  lemma SameOwed(c: Crypto, b: Book, b': Book, x: u16, hit: Hit, hit': Hit)
    requires b.ledger.terms.damageBucket > 0 && hit' == hit.(damage := hit'.damage)
    requires b' == b.(ledger := b.ledger.(damageRemainder := b.ledger.damageRemainder.Set(hit.victim, x)))
    requires Owed(b'.ledger, hit') == Owed(b.ledger, hit)
    ensures Apply(c, b', Damaged(hit')) == Apply(c, b, Damaged(hit))
  {
    var l, l' := b.ledger, b'.ledger;
    assert Payable(l', hit') == Payable(l, hit);
    assert CapReached(l', hit') == CapReached(l, hit);
    hide Payable, CapReached, HeldIds, Owed, MarkReleased, AmountOf, Left, Buckets;
    BatchDamage(c, l, hit, hit', Payable(l, hit));
    assert Issued(c, l', hit') == Issued(c, l, hit);
    SetTwice(l.damageRemainder, hit.victim, x, RecordDamage(l, hit).damageRemainder.Get(hit.victim));
    assert RecordDamage(l', hit') == RecordDamage(l, hit);
    hide Issued, RecordDamage;
    DamagedBook(c, b, hit);
    DamagedBook(c, b', hit');
  }

  lemma QuietFirst(c: Crypto, b: Book, first: Hit, second: Hit, whole: Hit)
    requires b.ledger.terms.damageBucket > 0 && Splits(first, second, whole) && BucketsOwed(b.ledger, first) == 0
    ensures Apply(c, Apply(c, b, Damaged(first)), Damaged(second)) == Apply(c, b, Damaged(whole))
  {
    var b' := Apply(c, b, Damaged(first));
    hide Apply, BucketsOwed;
    NoWholeBucket(c, b, first);
    assert b'.ledger.damageRemainder.Get(first.victim) == Owed(b.ledger, first);
    SameOwed(c, b, b', Owed(b.ledger, first), whole, second);
  }

  lemma QuietSecond(c: Crypto, b: Book, first: Hit, second: Hit, whole: Hit)
    requires b.ledger.terms.damageBucket > 0 && Splits(first, second, whole)
    requires second.damage == 0 && !CapReached(b.ledger, whole)
    ensures Apply(c, Apply(c, b, Damaged(first)), Damaged(second)) == Apply(c, b, Damaged(whole))
  {
    var l, l' := b.ledger, RecordDamage(b.ledger, first);
    var b' := Apply(c, b, Damaged(first));
    assert first == whole;
    RecordDamageExact(l, first);
    UnrefusedDamage(c, b, first);
    DamageTotals(l, first);
    assert Owed(l', second) == l'.damageRemainder.Get(first.victim) < l.terms.damageBucket;
    assert BucketsOwed(l', second) == 0;
    hide Apply, BucketsOwed, RecordDamage, Issued, CapReached, HeldIds, Payable;
    NoWholeBucket(c, b', second);
    SetSame(l'.damageRemainder, first.victim);
  }

  lemma ReportGrows(c: Crypto, b: Book, hit: Hit)
    requires b.ledger.terms.damageBucket > 0
    ensures var b' := Apply(c, b, Damaged(hit));
            && |b'.returned| == |b.returned| + (if CapReached(b.ledger, hit) then 0 else |Payable(b.ledger, hit)|)
            && b'.capErrors == b.capErrors + (if CapReached(b.ledger, hit) then 1 else 0)
            && b'.ledger == RecordDamage(b.ledger, hit) && b'.ledger.terms == b.ledger.terms
            && b'.ledger.nextSequence == b.ledger.nextSequence + |Payable(b.ledger, hit)|
  {
    DamageTotals(b.ledger, hit);
    IssuedForPayable(c, b.ledger, hit);
    assert RecordDamage(b.ledger, hit).nextSequence == b.ledger.nextSequence + |Payable(b.ledger, hit)|;
    hide RecordDamage, Issued, CapReached, Payable;
    DamagedBook(c, b, hit);
  }

  /** After a refusal nothing is held and at least a bucket stays owed, so any further report is refused as well. */
  lemma RefusedAgain(l: Ledger, hit: Hit, again: Hit)
    requires l.terms.damageBucket > 0 && CapReached(l, hit) && again == hit.(damage := again.damage)
    ensures var l' := RecordDamage(l, hit); l'.terms == l.terms && CapReached(l', again)
  {
    var l' := RecordDamage(l, hit);
    DamageTotals(l, hit);
    RecordDamageExact(l, hit);
    RecordDamageFrame(l, hit);
    assert |HeldIds(l'.reservations, hit.victim)| == 0;
    assert Owed(l', again) >= l.terms.damageBucket;
    hide RecordDamage, HeldIds, Payable, Owed;
  }

  lemma RefusedDiffers(c: Crypto, b: Book, first: Hit, second: Hit, whole: Hit)
    requires b.ledger.terms.damageBucket > 0 && Splits(first, second, whole)
    requires CapReached(b.ledger, whole) && BucketsOwed(b.ledger, first) > 0
    ensures Apply(c, Apply(c, b, Damaged(first)), Damaged(second)) != Apply(c, b, Damaged(whole))
  {
    var b' := Apply(c, b, Damaged(first));
    if !CapReached(b.ledger, first) {
      CoveredPays(b.ledger, first);
    }
    hide Apply, CapReached, BucketsOwed, Payable, RecordDamage;
    ReportGrows(c, b, first);
    ReportGrows(c, b', second);
    ReportGrows(c, b, whole);
    if CapReached(b.ledger, first) {
      RefusedAgain(b.ledger, first, second);
    }
  }

  lemma CoveredPays(l: Ledger, hit: Hit)
    requires l.terms.damageBucket > 0 && !CapReached(l, hit)
    ensures |Payable(l, hit)| == BucketsOwed(l, hit)
  {
    hide HeldIds, Buckets, Owed;
  }

  /** The damage that `n` buckets stand for. */
  function Worth(n: nat, bucket: nat): nat {
    n * bucket
  }

  lemma WorthAdds(n: nat, m: nat, bucket: nat)
    ensures Worth(n + m, bucket) == Worth(n, bucket) + Worth(m, bucket)
    ensures n > 0 && bucket > 0 ==> Worth(n, bucket) > 0
  {
    if n > 0 {
      ProductMonotone(1, n, bucket);
    }
  }

  lemma LeftIsWorth(owed: nat, n: nat, bucket: nat)
    requires bucket > 0 && n <= Buckets(owed, bucket)
    ensures Worth(n, bucket) + Left(owed, n, bucket) == owed
  {
    LeftIsDifference(owed, n, bucket);
  }

  /** What is paid and what stays owed add up to what was owed. */
  lemma PaidPlusLeft(l: Ledger, hit: Hit)
    requires l.terms.damageBucket > 0 && !CapReached(l, hit)
    ensures Worth(|Payable(l, hit)|, l.terms.damageBucket) + RecordDamage(l, hit).damageRemainder.Get(hit.victim)
         == Owed(l, hit)
    ensures |Payable(l, hit)| == BucketsOwed(l, hit)
  {
    hide HeldIds, Owed, Buckets, Left, Worth, MarkReleased, AmountOf;
    CoveredPays(l, hit);
    LeftIsWorth(Owed(l, hit), BucketsOwed(l, hit), l.terms.damageBucket);
  }

  lemma {:induction false} BucketsRise(x: nat, y: nat, bucket: nat)
    requires bucket > 0 && x <= y
    ensures Buckets(x, bucket) <= Buckets(y, bucket)
  {
    if x >= bucket {
      BucketsRise(x - bucket, y - bucket, bucket);
    }
  }

  lemma SmallerIsCovered(l: Ledger, first: Hit, second: Hit, whole: Hit)
    requires l.terms.damageBucket > 0 && Splits(first, second, whole) && !CapReached(l, whole)
    ensures !CapReached(l, first)
  {
    assert Owed(l, first) <= Owed(l, whole);
    hide HeldIds, Owed, Buckets;
    BucketsRise(Owed(l, first), Owed(l, whole), l.terms.damageBucket);
  }

  /** The whole is cut off at 16 bits, the parts together are not. */
  lemma SaturatedDiffers(c: Crypto, b: Book, first: Hit, second: Hit, whole: Hit)
    requires b.ledger.terms.damageBucket > 0 && Splits(first, second, whole)
    requires !CapReached(b.ledger, whole) && BucketsOwed(b.ledger, first) > 0 && second.damage > 0
    requires b.ledger.damageRemainder.Get(first.victim) + whole.damage > U16_MAX
    ensures Apply(c, Apply(c, b, Damaged(first)), Damaged(second)) != Apply(c, b, Damaged(whole))
  {
    var l, l' := b.ledger, RecordDamage(b.ledger, first);
    var b' := Apply(c, b, Damaged(first));
    hide *;
    ReportGrows(c, b, first);
    ReportGrows(c, b', second);
    ReportGrows(c, b, whole);
    SmallerIsCovered(l, first, second, whole);
    if !CapReached(l', second) {
      SaturatedLedgers(l, first, second, whole);
    }
  }

  lemma SaturatedLedgers(l: Ledger, first: Hit, second: Hit, whole: Hit)
    requires l.terms.damageBucket > 0 && Splits(first, second, whole)
    requires l.damageRemainder.Get(first.victim) + whole.damage > U16_MAX
    requires BucketsOwed(l, first) > 0 && second.damage > 0 && !CapReached(l, first) && !CapReached(l, whole)
    ensures var l' := RecordDamage(l, first);
      l'.terms == l.terms &&
      (!CapReached(l', second) ==>
        !(|Payable(l, first)| + |Payable(l', second)| == |Payable(l, whole)|
          && RecordDamage(l', second).damageRemainder == RecordDamage(l, whole).damageRemainder))
  {
    var l', bucket, v := RecordDamage(l, first), l.terms.damageBucket, first.victim;
    hide *;
    SplitSums(l, first, second, whole);
    if !CapReached(l', second) {
      PaidPlusLeft(l, first);
      PaidPlusLeft(l, whole);
      PaidPlusLeft(l', second);
      SaturatedCounts(l.damageRemainder.Get(v), first.damage, second.damage,
                      |Payable(l, first)|, l'.damageRemainder.Get(v),
                      |Payable(l', second)|, RecordDamage(l', second).damageRemainder.Get(v),
                      |Payable(l, whole)|, RecordDamage(l, whole).damageRemainder.Get(v), bucket);
    }
  }

  lemma SplitSums(l: Ledger, first: Hit, second: Hit, whole: Hit)
    requires l.terms.damageBucket > 0 && Splits(first, second, whole)
    ensures whole.victim == second.victim == first.victim && first.damage + second.damage == whole.damage
    ensures Owed(l, first) == Min(l.damageRemainder.Get(first.victim) + first.damage, U16_MAX)
    ensures Owed(l, whole) == Min(l.damageRemainder.Get(first.victim) + whole.damage, U16_MAX)
    ensures var l' := RecordDamage(l, first);
      l'.terms == l.terms
      && Owed(l', second) == Min(l'.damageRemainder.Get(first.victim) + second.damage, U16_MAX)
  {
    DamageTotals(l, first);
    hide RecordDamage;
  }

  lemma SaturatedCounts(r: nat, d: nat, d': nat, paid: nat, left: nat, paid': nat, left': nat,
                        all: nat, rest: nat, bucket: nat)
    requires r + d + d' > U16_MAX && paid > 0 && d' > 0 && bucket > 0
    requires Worth(paid, bucket) + left == Min(r + d, U16_MAX)
    requires Worth(paid', bucket) + left' == Min(left + d', U16_MAX)
    requires Worth(all, bucket) + rest == Min(r + (d + d'), U16_MAX)
    ensures !(paid + paid' == all && left' == rest)
  {
    WorthAdds(paid, paid', bucket);
    hide Worth;
  }

  /** Splitting a report in two leaves the same books, releases included, in exactly these cases: the first part owes
      no whole bucket, or the whole is not refused and either stays within 16 bits or has no second part. */
  lemma SplitIsExact(c: Crypto, b: Book, first: Hit, second: Hit, whole: Hit)
    requires b.ledger.terms.damageBucket > 0 && Splits(first, second, whole)
    ensures Apply(c, b, Damaged(first)).ledger.terms == b.ledger.terms
    ensures Apply(c, Apply(c, b, Damaged(first)), Damaged(second)) == Apply(c, b, Damaged(whole)) <==>
            || BucketsOwed(b.ledger, first) == 0
            || (!CapReached(b.ledger, whole)
                && (b.ledger.damageRemainder.Get(first.victim) + whole.damage <= U16_MAX || second.damage == 0))
  {
    hide Apply, CapReached, BucketsOwed;
    ReportGrows(c, b, first);
    if BucketsOwed(b.ledger, first) == 0 {
      QuietFirst(c, b, first, second, whole);
    } else if CapReached(b.ledger, whole) {
      RefusedDiffers(c, b, first, second, whole);
    } else if second.damage == 0 {
      QuietSecond(c, b, first, second, whole);
    } else if b.ledger.damageRemainder.Get(first.victim) + whole.damage <= U16_MAX {
      SplitDamage(c, b, first, second, whole);
    } else {
      SaturatedDiffers(c, b, first, second, whole);
    }
  }
}
