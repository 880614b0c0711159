/** The metering services as they run: each changes the session's tables column by
    column and leaves exactly what its specification in Billing or Budgets says
    (app/services/gateway_billing.py, budget.py, reconciliation_maintenance.py). */
module GatewayServices {
  import opened Schema
  import opened Pricing
  import opened Budgets
  import opened JournalBooks
  import opened Identity
  import opened Billing
  import opened Store

  /** `reserve_model_request`. */
  method ReserveModelRequest(session: Session, user: nat, key: nat, d: Demand, clientKey: Option<string>, clock: Clock)
    returns (out: Outcome)
    requires session.Clean()
    modifies session
    ensures session.Clean()
    ensures Reply(session.committed, out) == Reserve(old(session.committed), user, key, d, clientKey, clock)
  {
    if d.price.None? { return Err(PriceMissing); }
    var price := d.price.value;
    if d.maxOutput > price.maxOutput { return Err(OutputLimitExceeded); }
    var estimatedInput := EstimateTokens(d.text);
    var reservedInput := InputTokenReservationUpperBound(d.value, d.text);
    var amount := Max(1, TokenCost(reservedInput, price.input) + TokenCost(d.maxOutput, price.output));
    out := ReserveAmount(session, user, key, d, clientKey, clock, estimatedInput, amount);
  }

  /** The part of the reservation that reads and writes the database. */
  method ReserveAmount(session: Session, user: nat, key: nat, d: Demand, clientKey: Option<string>, clock: Clock,
                       estimatedInput: nat, amount: Money)
    returns (out: Outcome)
    requires session.Clean() && d.price.Some? && d.maxOutput <= d.price.value.maxOutput
    requires estimatedInput == EstimateTokens(d.text) && amount == HoldFor(d.price.value, d.value, d.text, d.maxOutput)
    modifies session
    ensures session.Clean()
    ensures Reply(session.committed, out) == Reserve(old(session.committed), user, key, d, clientKey, clock)
  {
    var price := d.price.value;
    if clientKey.Some? && clientKey.value != "" && ClientKeyTaken(session.requests, user, clientKey.value) {
      return Err(ClientKeyUsed);
    }
    var refused := CheckAccount(session, user, key);
    if refused.Some? {
      out := session.Reject(refused.value);
      return;
    }
    var budget, error := HoldFunds(session, user, amount, clock);
    if error.Some? {
      out := session.Reject(error.value);
      return;
    }
    var request := Request(user, key, budget, clientKey, Reserved, price.input, price.output, amount, 0, 0,
                           estimatedInput, 0, true, clock.created);
    out := InsertRequest(session, request);
  }

  /** The account, its key and its wallet, locked in this order. */
  method CheckAccount(session: Session, user: nat, key: nat) returns (refused: Option<Error>)
    ensures refused == if !IsActive(session.View(), user) then Some(AccountUnavailable)
                       else if !OwnedActiveKey(session.keys, user, key) then Some(KeyRevoked)
                       else if user >= |session.wallets| then Some(WalletMissing)
                       else None
  {
    if user >= |session.users| || !session.users[user].status.Active? { return Some(AccountUnavailable); }
    if key >= |session.keys| || session.keys[key].user != user || !session.keys[key].active { return Some(KeyRevoked); }
    if user >= |session.wallets| { return Some(WalletMissing); }
    refused := None;
  }

  /** Set the amount aside in the wallet and in the budget that governs now. */
  method HoldFunds(session: Session, user: nat, amount: Money, clock: Clock)
    returns (budget: Option<nat>, error: Option<Error>)
    requires user < |session.wallets|
    modifies session`wallets, session`budgets
    ensures budget == ActiveBudget(old(session.budgets), user, clock.lookup)
    ensures error == if old(session.wallets)[user].balance < amount then Some(InsufficientBalance)
                     else if budget.None? then None
                     else
                       var b := old(session.budgets)[budget.value];
                       if b.limit - b.spent - b.reserved < amount then Some(InsufficientBudget)
                       else if !Governs(b, user, clock.update) then Some(BudgetChanged)
                       else None
    ensures error.None? ==>
              && session.wallets == old(session.wallets)[user := Hold(old(session.wallets)[user], amount)]
              && session.budgets == if budget.None? then old(session.budgets)
                                    else old(session.budgets)[budget.value := HoldBudget(old(session.budgets)[budget.value], amount)]
  {
    budget := ActiveBudget(session.budgets, user, clock.lookup);
    var wallet := session.wallets[user];
    if wallet.balance < amount { return budget, Some(InsufficientBalance); }
    session.wallets := session.wallets[user := Wallet(wallet.balance - amount, wallet.reserved + amount)];
    if budget.Some? {
      var b := session.budgets[budget.value];
      var available := b.limit - b.spent - b.reserved;
      if available < amount { return budget, Some(InsufficientBudget); }
      if !Governs(b, user, clock.update) { return budget, Some(BudgetChanged); }
      session.budgets := session.budgets[budget.value := b.(reserved := b.reserved + amount)];
    }
    error := None;
  }

  /** Insert the reservation with its posting and commit; the unique constraint on
      client keys may still refuse the row. */
  method InsertRequest(session: Session, request: Request) returns (out: Outcome)
    modifies session
    ensures session.Clean()
    ensures var id := |old(session.requests)|;
            Reply(session.committed, out)
            == match DuplicateClientKey(old(session.View()), request.user, request.clientKey)
               case Some(error) => Refuse(old(session.committed), error)
               case None =>
                 Commit(old(session.committed), old(session.View()).(requests := old(session.requests) + [request]),
                        Post(old(session.journal), request.user, KindReserve, RequestRef(id), ReserveKey(id),
                             Entries2(CustomerAvailable, -request.hold, CustomerReserved, request.hold)),
                        Row(id))
  {
    if request.clientKey.Some? && ClientKeyTaken(session.requests, request.user, request.clientKey.value) {
      out := session.Reject(RequestConflict);
      return;
    }
    var id := |session.requests|;
    session.requests := session.requests + [request];
    out := session.PostAndCommit(request.user, KindReserve, RequestRef(id), ReserveKey(id),
                                 [Entry(CustomerAvailable, -request.hold), Entry(CustomerReserved, request.hold)], Row(id));
  }

  // ---------------------------------------------------------------- settlement

  /** The entry list of a settlement, grown conditionally. */
  method ListEntries(hold: Money, cost: Money, upstream: Money) returns (entries: seq<Entry>)
    ensures Normalize(entries) == Normalize(SettlementEntries(hold, cost, upstream))
  {
    var charged := Min(cost, hold);
    var release := hold - charged;
    ghost var es := SettlementEntries(hold, cost, upstream);
    Prefixes(es);
    entries := [Entry(CustomerReserved, -hold)];
    entries := AppendIf(release != 0, entries, CustomerAvailable, release, es[..1]);
    entries := AppendIf(cost != 0, entries, PlatformRevenue, cost, es[..2]);
    entries := AppendIf(cost > charged, entries, PlatformRisk, -(cost - charged), es[..3]);
    entries := AppendIf(upstream != 0, entries, ProviderExpense, upstream, es[..4]);
    entries := AppendIf(upstream != 0, entries, ProviderPayable, -upstream, es[..5]);
  }

  lemma Prefixes(es: seq<Entry>)
    requires |es| == 6
    ensures es[..1] == [es[0]] && es[..5] + [es[5]] == es
    ensures forall i | 1 <= i < 5 :: es[..i] + [es[i]] == es[..i + 1]
  {
  }

  /** What the customer and what the provider is owed for a usage. */
  method PriceUsage(request: Request, usage: Usage, up: Upstream) returns (customerCost: nat, upstreamCost: int)
    ensures customerCost == CustomerCost(request, usage) && upstreamCost == UpstreamCost(request, usage, up)
  {
    var inputTokens, outputTokens := usage.Input(request.inputTokens), usage.Output();
    customerCost := TokenCost(inputTokens, request.inputPrice) + TokenCost(outputTokens, request.outputPrice);
    if up.cost.Some? {
      upstreamCost := up.cost.value;
    } else {
      upstreamCost :=
        TokenCost(inputTokens, if up.inputPrice.None? then request.inputPrice else up.inputPrice.value)
        + TokenCost(outputTokens, if up.outputPrice.None? then request.outputPrice else up.outputPrice.value);
    }
  }

  /** `settle_model_request` from the usage its response reports. */
  method SettleModelRequest(session: Session, id: nat, usage: Usage, forceUsageEstimated: bool, up: Upstream, caller: Caller)
    returns (out: Outcome)
    requires session.Clean()
    modifies session
    ensures session.Clean()
    ensures Reply(session.committed, out) == Settle(old(session.committed), id, usage, forceUsageEstimated, up, caller)
  {
    if id >= |session.requests| || session.requests[id].status != caller.Allowed() { return Err(RequestNotLive); }
    var request := session.requests[id];
    var usageEstimated := usage.Unreported? || forceUsageEstimated;
    var customerCost, upstreamCost := PriceUsage(request, usage, up);
    if upstreamCost < 0 { return Err(NegativeUpstreamCost); }
    var reserved := request.hold;
    var charged := Min(customerCost, reserved);
    var release := reserved - charged;
    var entries := ListEntries(reserved, customerCost, upstreamCost);
    assert Post(session.journal, request.user, KindSettle, RequestRef(id), SettleKey(id), entries)
           == Post(session.journal, request.user, KindSettle, RequestRef(id), SettleKey(id),
                   SettlementEntries(reserved, customerCost, upstreamCost));
    var done := request.(status := if customerCost <= reserved then Settled else UnderReserved,
                         charged := charged, upstreamCost := upstreamCost,
                         inputTokens := usage.Input(request.inputTokens), outputTokens := usage.Output(), estimated := usageEstimated);
    out := CloseRequest(session, id, done, release, charged, KindSettle, SettleKey(id), entries, Charge(charged, usageEstimated));
  }

  /** The two guarded updates by which a request gives up its hold: `back` returns
      to the balance and `spent` is added to the budget's spend. */
  method TakeHold(session: Session, request: Request, back: Money, spent: Money) returns (anomaly: Option<Error>)
    modifies session`wallets, session`budgets
    ensures anomaly == HoldAnomaly(old(session.View()), request)
    ensures anomaly.None? ==>
              && session.wallets == old(session.wallets)[request.user := Unhold(old(session.wallets[request.user]), request.hold, back)]
              && session.budgets == if request.budget.None? then old(session.budgets)
                                    else old(session.budgets)[request.budget.value :=
                                           UnholdBudget(old(session.budgets[request.budget.value]), request.hold, spent)]
  {
    if request.user >= |session.wallets| || session.wallets[request.user].reserved < request.hold {
      return Some(WalletHoldAnomaly);
    }
    var w := session.wallets[request.user];
    session.wallets := session.wallets[request.user := Wallet(w.balance + back, w.reserved - request.hold)];
    if request.budget.Some? {
      var b := request.budget.value;
      if b >= |session.budgets| || session.budgets[b].reserved < request.hold { return Some(BudgetHoldAnomaly); }
      var row := session.budgets[b];
      session.budgets := session.budgets[b := row.(reserved := row.reserved - request.hold, spent := row.spent + spent)];
    }
    anomaly := None;
  }

  /** The writes that settlement and release share: wallet, budget, journal, request
      row, commit; a missing pre-authorization or a refused posting undoes them. */
  method CloseRequest(session: Session, id: nat, done: Request, back: Money, spent: Money,
                      kind: Kind, key: JournalKey, entries: seq<Entry>, answer: Answer)
    returns (out: Outcome)
    requires session.Clean() && id < |session.requests|
    modifies session
    ensures session.Clean()
    ensures Reply(session.committed, out)
            == var db := old(session.committed); var r := db.requests[id];
               if HoldAnomaly(db, r).Some? then Refuse(db, HoldAnomaly(db, r).value)
               else Commit(db, FinishRequest(db, id, done, back, spent),
                           Post(db.journal, r.user, kind, RequestRef(id), key, entries), answer)
  {
    var request := session.requests[id];
    var anomaly := TakeHold(session, request, back, spent);
    if anomaly.Some? {
      out := session.Reject(anomaly.value);
      return;
    }
    session.requests := session.requests[id := done];
    out := session.PostAndCommit(request.user, kind, RequestRef(id), key, entries, answer);
  }

  /** `release_model_request`. */
  method ReleaseModelRequest(session: Session, id: nat, caller: Caller) returns (out: Outcome)
    requires session.Clean()
    modifies session
    ensures session.Clean()
    ensures Reply(session.committed, out) == Release(old(session.committed), id, caller)
  {
    if id >= |session.requests| || session.requests[id].status != caller.Allowed() { return Ok(Nothing); }
    var request := session.requests[id];
    var reserved := request.hold;
    var done := request.(status := if caller.Gateway? then Failed else ReconciledReleased);
    out := CloseRequest(session, id, done, reserved, 0, if caller.Gateway? then KindRelease else KindOperatorRelease,
                        ReleaseKey(id), [Entry(CustomerReserved, -reserved), Entry(CustomerAvailable, reserved)], Nothing);
  }

  /** `mark_pending_reconciliation`. */
  method MarkPendingReconciliation(session: Session, id: nat) returns (out: Outcome)
    requires session.Clean()
    modifies session
    ensures session.Clean()
    ensures Reply(session.committed, out) == MarkPending(old(session.committed), id)
  {
    out := Ok(Nothing);
    if id >= |session.requests| || !session.requests[id].status.Reserved? { return; }
    session.requests := session.requests[id := session.requests[id].(status := PendingReconciliation)];
    session.Commit();
  }

  // ---------------------------------------------------------------------- sweep

  lemma CountPrefix<T>(rows: seq<T>, p: T -> bool, i: nat)
    requires i < |rows|
    ensures CountRows(rows[..i + 1], p) == CountRows(rows[..i], p) + if p(rows[i]) then 1 else 0
  {
    assert rows[..i + 1][..i] == rows[..i];
  }

  /** `recover_stale_model_reservations` and its caller's commit: one guarded bulk
      update that counts the rows it changes. */
  method RecoverStaleModelReservations(session: Session, leaseSeconds: int, now: Time) returns (out: Outcome)
    requires session.Clean()
    modifies session
    ensures session.Clean()
    ensures Reply(session.committed, out) == Sweep(old(session.committed), leaseSeconds, now)
  {
    if !(60 <= leaseSeconds <= 86_400) { return Err(LeaseOutOfRange); }
    var cutoff := now - leaseSeconds * SECOND;
    var stale := (r: Request) => Stale(r, cutoff);
    var rows := session.requests;
    var changed := 0;
    for i := 0 to |rows|
      invariant |session.requests| == |rows| == |old(session.requests)| && rows == old(session.requests)
      invariant session.View() == old(session.View()).(requests := session.requests)
      invariant session.committed == old(session.committed)
      invariant forall k | 0 <= k < i :: session.requests[k] == SweepRows(rows, cutoff)[k]
      invariant forall k | i <= k < |rows| :: session.requests[k] == rows[k]
      invariant changed == CountRows(rows[..i], stale)
    {
      var row := session.requests[i];
      CountPrefix(rows, stale, i);
      if row.status.Reserved? && row.createdAt <= cutoff {
        session.requests := session.requests[i := row.(status := PendingReconciliation)];
        changed := changed + 1;
      }
    }
    assert rows[..|rows|] == rows;
    assert session.requests == SweepRows(rows, cutoff);
    session.Commit();
    out := Ok(Counted(changed));
  }

  // -------------------------------------------------------------------- budgets

  /** `create_budget`: supersede the month's active budget and carry its spend. */
  method CreateBudgetFor(session: Session, user: nat, amount: Money, now: Date) returns (out: Outcome)
    requires session.Clean()
    modifies session
    ensures session.Clean()
    ensures Reply(session.committed, out) == CreateBudget(old(session.committed), user, amount, now)
  {
    if amount <= 0 { return Err(BudgetNotPositive); }
    var (start, end) := MonthBounds(now);
    if user >= |session.wallets| {
      out := session.Reject(WalletMissing);
      return;
    }
    var current := CurrentBudget(session.budgets, user, start);
    var carriedSpend := 0;
    if current.Some? {
      var row := session.budgets[current.value];
      if row.reserved > 0 {
        out := session.Reject(BudgetBusy);
        return;
      }
      carriedSpend := row.spent;
      if amount < carriedSpend {
        out := session.Reject(BudgetBelowSpend);
        return;
      }
      session.budgets := session.budgets[current.value := row.(active := false)];
    }
    var id := |session.budgets|;
    session.budgets := session.budgets + [Budget(user, amount, carriedSpend, 0, true, start, end)];
    session.Commit();
    out := Ok(Row(id));
  }
}
