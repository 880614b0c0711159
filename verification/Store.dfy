/** One database session: the tables as the running transaction sees them, and
    the tables as they were last committed. Services change the first, column by
    column, and commit or roll back the whole. */
module Store {
  import opened Schema
  import opened JournalBooks

  class Session {
    var users: seq<User>
    var wallets: seq<Wallet>
    var keys: seq<ApiKey>
    var sessions: seq<AccessSession>
    var resets: seq<OneTimeToken>
    var verifications: seq<OneTimeToken>
    var budgets: seq<Budget>
    var requests: seq<Request>
    var orders: seq<Order>
    var refunds: seq<Refund>
    var events: seq<WebhookEvent>
    var journal: Journal
    var committed: Tables

    /** What a query inside the transaction reads. */
    function View(): Tables
      reads this
    {
      Tables(users, wallets, keys, sessions, resets, verifications, budgets, requests, orders, refunds, events, journal)
    }

    /** No write is pending. */
    predicate Clean()
      reads this
    {
      committed == View()
    }

    constructor (db: Tables)
      ensures Clean() && committed == db
    {
      users, wallets, keys, sessions := db.users, db.wallets, db.keys, db.sessions;
      resets, verifications, budgets, requests := db.resets, db.verifications, db.budgets, db.requests;
      orders, refunds, events, journal := db.orders, db.refunds, db.events, db.journal;
      committed := db;
    }

    method Commit()
      modifies `committed
      ensures Clean()
    {
      committed := View();
    }

    /** Also what closing the session after an exception does. */
    method Rollback()
      modifies this
      ensures Clean() && committed == old(committed)
    {
      RestoreAccounts();
      RestoreMoney();
    }

    method RestoreAccounts()
      modifies `users, `wallets, `keys, `sessions, `resets, `verifications
      ensures users == committed.users && wallets == committed.wallets && keys == committed.keys
      ensures sessions == committed.sessions && resets == committed.resets && verifications == committed.verifications
    {
      users, wallets, keys := committed.users, committed.wallets, committed.keys;
      sessions, resets, verifications := committed.sessions, committed.resets, committed.verifications;
    }

    method RestoreMoney()
      modifies `budgets, `requests, `orders, `refunds, `events, `journal
      ensures budgets == committed.budgets && requests == committed.requests && orders == committed.orders
      ensures refunds == committed.refunds && events == committed.events && journal == committed.journal
    {
      budgets, requests, orders := committed.budgets, committed.requests, committed.orders;
      refunds, events, journal := committed.refunds, committed.events, committed.journal;
    }

    /** Begin again on tables that other sessions have committed meanwhile. */
    method Refresh(db: Tables)
      modifies this
      ensures Clean() && committed == db
    {
      committed := db;
      Rollback();
    }

    /** Roll back and report a rejection. */
    method Reject(error: Error) returns (out: Outcome)
      modifies this
      ensures Clean() && committed == old(committed) && out == Err(error)
    {
      Rollback();
      out := Err(error);
    }

    // ----------------------------------------------------------- app/services/ledger.py

    /** `post_transaction`: keep the nonzero amounts, insist that they balance,
        write the header, then the entries one by one. */
    method PostTransaction(user: nat, kind: Kind, ref: Ref, key: JournalKey, entries: seq<Entry>)
      returns (error: Option<Error>)
      modifies `journal
      ensures match Post(old(journal), user, kind, ref, key, entries)
              case Posted(after) => error == None && journal == after
              case Unposted(e) => error == Some(e) && journal == old(journal)
    {
      var normalized, total := NormalizeEntries(entries);
      if |normalized| < 2 || total != 0 { return Some(JournalUnbalanced); }
      if KeyUsed(journal, key) { return Some(JournalConflict); }
      AppendTransaction(Transaction(user, kind, ref, key, []), normalized);
      error := None;
    }

    /** Post and commit, or roll everything back with the posting's rejection. */
    method PostAndCommit(user: nat, kind: Kind, ref: Ref, key: JournalKey, entries: seq<Entry>, answer: Answer)
      returns (out: Outcome)
      modifies this
      ensures Clean()
      ensures Reply(committed, out)
              == JournalBooks.Commit(old(committed), old(View()), Post(old(journal), user, kind, ref, key, entries), answer)
    {
      var error := PostTransaction(user, kind, ref, key, entries);
      if error.Some? {
        out := Reject(error.value);
      } else {
        Commit();
        out := Ok(answer);
      }
    }

    /** The header row, then one entry row after the other. */
    method AppendTransaction(header: Transaction, entries: seq<Entry>)
      requires header.entries == []
      modifies `journal
      ensures journal == old(journal) + [header.(entries := entries)]
    {
      var id := |journal|;
      journal := journal + [header];
      assert entries[..0] == [];
      for i := 0 to |entries|
        invariant journal == old(journal) + [header.(entries := entries[..i])]
      {
        var row := journal[id];
        journal := journal[id := row.(entries := row.entries + [entries[i]])];
        assert entries[..i] + [entries[i]] == entries[..i + 1];
      }
      assert entries[..|entries|] == entries;
    }
  }

  /** The nonzero entries and their sum. */
  method NormalizeEntries(entries: seq<Entry>) returns (normalized: seq<Entry>, total: Money)
    ensures normalized == Normalize(entries) && total == EntryTotal(normalized)
  {
    normalized, total := [], 0;
    for i := 0 to |entries|
      invariant normalized == Normalize(entries[..i]) && total == EntryTotal(normalized)
    {
      assert entries[..i + 1] == entries[..i] + [entries[i]];
      AppendListed(entries[..i], entries[i]);
      if entries[i].amount != 0 {
        TotalsConcat(normalized, [entries[i]], entries[i].account);
        normalized := normalized + [entries[i]];
        total := total + entries[i].amount;
      }
    }
    assert entries[..|entries|] == entries;
  }

  // ------------------------------------------------- lists that leave zero amounts out

  function Listed(account: Account, amount: Money): seq<Entry> {
    if amount != 0 then [Entry(account, amount)] else []
  }

  lemma AppendListed(entries: seq<Entry>, e: Entry)
    ensures Normalize(entries + [e]) == Normalize(entries) + Listed(e.account, e.amount)
  {
    NormalizeConcat(entries, [e]);
  }

  /** Append an entry under a condition that holds for every nonzero amount: what is
      written stays that of the unconditional list `full`. */
  method AppendIf(condition: bool, entries: seq<Entry>, account: Account, amount: Money, ghost full: seq<Entry>)
    returns (longer: seq<Entry>)
    requires condition || amount == 0
    requires Normalize(entries) == Normalize(full)
    ensures Normalize(longer) == Normalize(full + [Entry(account, amount)])
  {
    var e := Entry(account, amount);
    longer := entries;
    AppendListed(entries, e);
    AppendListed(full, e);
    if condition { longer := entries + [e]; }
  }
}
