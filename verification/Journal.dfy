/** The append-only, double-entry journal (app/services/ledger.py) and the sums
    the rest of the system reads out of it. */
module JournalBooks {
  import opened Schema

  // ------------------------------------------------------------------ entries

  function EntryTotal(entries: seq<Entry>): Money {
    if |entries| == 0 then 0 else entries[0].amount + EntryTotal(entries[1..])
  }

  function AccountTotal(entries: seq<Entry>, account: Account): Money {
    if |entries| == 0 then 0
    else (if entries[0].account == account then entries[0].amount else 0) + AccountTotal(entries[1..], account)
  }

  /** The entries that are written: those with a nonzero amount, in order. */
  function Normalize(entries: seq<Entry>): (kept: seq<Entry>) {
    if |entries| == 0 then []
    else (if entries[0].amount != 0 then [entries[0]] else []) + Normalize(entries[1..])
  }

  lemma {:induction false} TotalsConcat(a: seq<Entry>, b: seq<Entry>, account: Account)
    ensures EntryTotal(a + b) == EntryTotal(a) + EntryTotal(b)
    ensures AccountTotal(a + b, account) == AccountTotal(a, account) + AccountTotal(b, account)
  {
    if |a| == 0 {
      assert a + b == b;
    } else {
      assert (a + b)[1..] == a[1..] + b;
      TotalsConcat(a[1..], b, account);
    }
  }

  lemma {:induction false} NormalizeConcat(a: seq<Entry>, b: seq<Entry>)
    ensures Normalize(a + b) == Normalize(a) + Normalize(b)
  {
    if |a| == 0 {
      assert a + b == b;
    } else {
      assert (a + b)[1..] == a[1..] + b;
      NormalizeConcat(a[1..], b);
    }
  }

  /** Dropping zero amounts changes no sum and leaves only nonzero ones. */
  lemma {:induction false} NormalizeKeepsTotals(entries: seq<Entry>, account: Account)
    ensures EntryTotal(Normalize(entries)) == EntryTotal(entries)
    ensures AccountTotal(Normalize(entries), account) == AccountTotal(entries, account)
    ensures forall e :: e in Normalize(entries) ==> e.amount != 0
  {
    if |entries| > 0 {
      var head := if entries[0].amount != 0 then [entries[0]] else [];
      NormalizeKeepsTotals(entries[1..], account);
      TotalsConcat(head, Normalize(entries[1..]), account);
    }
  }

  // ------------------------------------------------------------------ posting

  /** `post_transaction` accepts these entries. */
  predicate Postable(entries: seq<Entry>) {
    |Normalize(entries)| >= 2 && EntryTotal(Normalize(entries)) == 0
  }

  predicate KeyUsed(journal: Journal, key: JournalKey) {
    exists i | 0 <= i < |journal| :: journal[i].key == key
  }

  datatype Posting = Posted(journal: Journal) | Unposted(error: Error)

  function Post(journal: Journal, user: nat, kind: Kind, ref: Ref, key: JournalKey, entries: seq<Entry>): Posting {
    if !Postable(entries) then Unposted(JournalUnbalanced)
    else if KeyUsed(journal, key) then Unposted(JournalConflict)
    else Posted(journal + [Transaction(user, kind, ref, key, Normalize(entries))])
  }

  /** Finish a transaction whose last write is one posting: all of `db` or nothing. */
  function Commit(before: Tables, db: Tables, posting: Posting, answer: Answer): Reply {
    match posting
    case Unposted(error) => Refuse(before, error)
    case Posted(journal) => Reply(db.(journal := journal), Ok(answer))
  }

  // --------------------------------------------------------------------- sums

  /** What is read out of one journal transaction. */
  datatype Meter =
    | OfUser(user: nat, userAccount: Account)
    | OfOrder(order: nat, orderAccount: Account)
    | OfOrderKinds(kindOrder: nat, kindAccount: Account, kinds: set<Kind>)
    | Postings(ref: Ref, postingKinds: set<Kind>)

  function Reading(m: Meter, t: Transaction): int {
    match m
    case OfUser(u, a) => if t.user == u then AccountTotal(t.entries, a) else 0
    case OfOrder(o, a) => if t.ref == OrderRef(o) then AccountTotal(t.entries, a) else 0
    case OfOrderKinds(o, a, ks) => if t.ref == OrderRef(o) && t.kind in ks then AccountTotal(t.entries, a) else 0
    case Postings(r, ks) => if t.ref == r && t.kind in ks then 1 else 0
  }

  function Sum(m: Meter, journal: Journal): int {
    if |journal| == 0 then 0
    else Sum(m, journal[..|journal| - 1]) + Reading(m, journal[|journal| - 1])
  }

  lemma SumAppend(m: Meter, journal: Journal, t: Transaction)
    ensures Sum(m, journal + [t]) == Sum(m, journal) + Reading(m, t)
  {
    assert (journal + [t])[..|journal|] == journal;
  }

  /** Nothing is read where no transaction has anything to read. */
  lemma {:induction false} SumZero(m: Meter, journal: Journal)
    requires forall i | 0 <= i < |journal| :: Reading(m, journal[i]) == 0
    ensures Sum(m, journal) == 0
  {
    if |journal| > 0 {
      SumZero(m, journal[..|journal| - 1]);
    }
  }

  // ------------------------------------------------- entry lists of the system

  function Entries2(a: Account, x: Money, b: Account, y: Money): seq<Entry> {
    [Entry(a, x), Entry(b, y)]
  }

  function Entries3(a: Account, x: Money, b: Account, y: Money, c: Account, z: Money): seq<Entry> {
    [Entry(a, x), Entry(b, y), Entry(c, z)]
  }

  function Amount(on: Account, e: Entry): Money { if e.account == on then e.amount else 0 }

  /** One step of every recursion over an entry list. */
  lemma Peel(e: Entry, rest: seq<Entry>, on: Account)
    ensures EntryTotal([e] + rest) == e.amount + EntryTotal(rest)
    ensures AccountTotal([e] + rest, on) == Amount(on, e) + AccountTotal(rest, on)
    ensures |Normalize([e] + rest)| == (if e.amount != 0 then 1 else 0) + |Normalize(rest)|
  {
    assert ([e] + rest)[1..] == rest;
  }

  /** A two-entry transfer is postable exactly when it moves a nonzero amount. */
  lemma Transfer(a: Account, b: Account, x: Money, y: Money, on: Account)
    requires a != b
    ensures Postable(Entries2(a, x, b, y)) <==> x != 0 && x + y == 0
    ensures AccountTotal(Normalize(Entries2(a, x, b, y)), on) == Amount(on, Entry(a, x)) + Amount(on, Entry(b, y))
  {
    var es := Entries2(a, x, b, y);
    assert es == [Entry(a, x)] + ([Entry(b, y)] + []);
    Peel(Entry(b, y), [], on);
    Peel(Entry(a, x), [Entry(b, y)] + [], on);
    NormalizeKeepsTotals(es, on);
  }

  /** Three entries that cancel are postable when at least two are nonzero. */
  lemma Split(a: Account, b: Account, c: Account, x: Money, y: Money, z: Money, on: Account)
    requires x + y + z == 0 && (x != 0 || y != 0) && (x != 0 || z != 0) && (y != 0 || z != 0)
    ensures Postable(Entries3(a, x, b, y, c, z))
    ensures AccountTotal(Normalize(Entries3(a, x, b, y, c, z)), on)
            == Amount(on, Entry(a, x)) + Amount(on, Entry(b, y)) + Amount(on, Entry(c, z))
  {
    var es := Entries3(a, x, b, y, c, z);
    assert es == [Entry(a, x)] + ([Entry(b, y)] + ([Entry(c, z)] + []));
    Peel(Entry(c, z), [], on);
    Peel(Entry(b, y), [Entry(c, z)] + [], on);
    Peel(Entry(a, x), [Entry(b, y)] + ([Entry(c, z)] + []), on);
    NormalizeKeepsTotals(es, on);
  }
}
