/** How the rows of one state may differ from those of an earlier one. */
module Evolution {
  import opened Schema
  import opened Payments
  import opened Moves

  // ---------------------------------------------------------- how rows evolve

  predicate Final(o: Order) { o.status.PaymentFailed? || o.status.Closed? || o.status.Refunded? }

  predicate OrderNext(a: Order, b: Order) {
    && SameOrder(a, b)
    && (Final(a) ==> b.status == a.status)
    && (a.txn.Some? && a.quote.provider != TEST_PROVIDER ==> b.txn == a.txn)
    && (Unclaimable(a) ==> Unclaimable(b))
    && (!Untouched(a) ==> !Untouched(b))
    && (a.Credited() ==> b.Credited() || b.status.Refunded?)
  }

  predicate RefundNext(a: Refund, b: Refund) {
    && SameRefund(a, b)
    && (a.providerRefund.Some? ==> b.providerRefund == a.providerRefund)
    && (a.status.RefundDone? ==> b.status.RefundDone?)
    && (a.status.Risk? ==> b.status.Risk? || b.status.Resolved?)
    && (a.status.Resolved? ==> b.status.Resolved?)
  }

  predicate RequestNext(a: Request, b: Request) {
    && a.user == b.user && a.budget == b.budget && a.hold == b.hold
    && (!a.Live() ==> b == a)
    && (b.Live() ==> b == a.(status := b.status))
    && (a.status.PendingReconciliation? ==> !b.status.Reserved?)
  }

  ghost predicate Evolves(a: Tables, b: Tables) {
    && a.journal <= b.journal && a.events <= b.events
    && |a.orders| <= |b.orders| && |a.refunds| <= |b.refunds| && |a.requests| <= |b.requests|
    && (forall i | 0 <= i < |a.orders| :: OrderNext(a.orders[i], b.orders[i]))
    && (forall i | 0 <= i < |a.refunds| :: RefundNext(a.refunds[i], b.refunds[i]))
    && (forall i | 0 <= i < |a.requests| :: RequestNext(a.requests[i], b.requests[i]))
  }

  lemma MeteringEvolves(db: Tables, m: Move)
    requires Legal(db, m) && IsMetering(m)
    ensures Evolves(db, Make(db, m))
  {
  }

  lemma OrderingEvolves(db: Tables, m: Move)
    requires Legal(db, m) && IsOrdering(m)
    ensures Evolves(db, Make(db, m))
  {
  }

  lemma ReversalEvolves(db: Tables, m: Move)
    requires Legal(db, m) && m.Reversal?
    ensures Evolves(db, Make(db, m))
  {
  }

  lemma RefundEvolves(db: Tables, m: Move)
    requires Legal(db, m) && !IsMetering(m) && !IsOrdering(m) && !m.Reversal?
    ensures Evolves(db, Make(db, m))
  {
  }

  lemma MoveEvolves(db: Tables, m: Move)
    requires Legal(db, m)
    ensures Evolves(db, Make(db, m))
  {
    if IsMetering(m) { MeteringEvolves(db, m); }
    else if IsOrdering(m) { OrderingEvolves(db, m); }
    else if m.Reversal? { ReversalEvolves(db, m); }
    else { RefundEvolves(db, m); }
  }

  lemma EvolvesTransitive(a: Tables, b: Tables, c: Tables)
    requires Evolves(a, b) && Evolves(b, c)
    ensures Evolves(a, c)
  {
    forall i | 0 <= i < |a.orders| ensures OrderNext(a.orders[i], c.orders[i]) {
      assert OrderNext(a.orders[i], b.orders[i]) && OrderNext(b.orders[i], c.orders[i]);
    }
    forall i | 0 <= i < |a.refunds| ensures RefundNext(a.refunds[i], c.refunds[i]) {
      assert RefundNext(a.refunds[i], b.refunds[i]) && RefundNext(b.refunds[i], c.refunds[i]);
    }
    forall i | 0 <= i < |a.requests| ensures RequestNext(a.requests[i], c.requests[i]) {
      assert RequestNext(a.requests[i], b.requests[i]) && RequestNext(b.requests[i], c.requests[i]);
    }
  }
}
