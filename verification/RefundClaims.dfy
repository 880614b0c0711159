/** Refund claims one read and one compare-and-swap at a time: `prepare_refund` with
    its look-up and its guarded update as separate steps of any number of callers,
    interleaved with the route's move to reconciliation and with completion
    (app/services/payment_domain.py, app/__init__.py). */
module RefundClaims {
  import opened Schema
  import opened Payments

  // ------------------------------------------------------------------ the machine

  /** The two columns a claim compares and swaps. */
  datatype Claimed = Claimed(status: RefundStatus, at: Time)

  predicate InFlight(c: Claimed) { c.status.Requesting? || c.status.Retrying? || c.status.RefundReconciliation? }

  /** What a caller read, and its clock right after. */
  datatype Look = Look(seen: Claimed, now: Time)

  datatype Event =
    | Won(caller: nat, look: Look)
    | Requeued                       // the provider's answer was uncertain
    | Finished(status: RefundStatus) // completed, or disposed of afterwards

  /** The command row, what each caller last read, and what happened so far. */
  datatype Claims = Claims(row: Claimed, looks: map<nat, Look>, log: seq<Event>)

  datatype Step =
    | Read(reader: nat, now: Time)
    | Swap(swapper: nat)
    | Requeue
    | Finish(outcome: RefundStatus)

  /** The look-up lets the caller go on to its update. */
  predicate MaySwap(look: Look, lease: Time) {
    look.seen.status.RefundReconciliation?
    || ((look.seen.status.Requesting? || look.seen.status.Retrying?) && look.seen.at <= look.now - lease)
  }

  /** The update's condition: status and claim time for a claimed command, the
      status alone for one in reconciliation. */
  predicate Matches(row: Claimed, seen: Claimed) {
    if seen.status.RefundReconciliation? then row.status.RefundReconciliation? else row == seen
  }

  function NextStatus(s: RefundStatus): RefundStatus { if s.Requesting? then Retrying else Requesting }

  function After(look: Look): Claimed { Claimed(NextStatus(look.seen.status), look.now) }

  function Do(c: Claims, s: Step, lease: Time): Claims {
    match s
    case Read(who, now) => c.(looks := c.looks[who := Look(c.row, now)])
    case Swap(who) =>
      if who in c.looks && MaySwap(c.looks[who], lease) && Matches(c.row, c.looks[who].seen) then
        Claims(After(c.looks[who]), c.looks, c.log + [Won(who, c.looks[who])])
      else c
    case Requeue =>
      if c.row.status.Requesting? || c.row.status.Retrying? then
        c.(row := c.row.(status := RefundReconciliation), log := c.log + [Requeued])
      else c
    case Finish(outcome) =>
      if (InFlight(c.row) && (outcome.RefundDone? || outcome.Risk?)) || (c.row.status.Risk? && outcome.Resolved?) then
        c.(row := c.row.(status := outcome), log := c.log + [Finished(outcome)])
      else c
  }

  function DoAll(c: Claims, steps: seq<Step>, lease: Time): Claims
    decreases |steps|
  {
    if |steps| == 0 then c else DoAll(Do(c, steps[0], lease), steps[1..], lease)
  }

  /** A command just created by its first claim. */
  function Created(now: Time): Claims { Claims(Claimed(Requesting, now), map[], []) }

  // -------------------------------------------------- the row is what the log says

  function RowAfter(start: Claimed, log: seq<Event>): Claimed {
    if |log| == 0 then start
    else
      var before := RowAfter(start, log[..|log| - 1]);
      match log[|log| - 1]
      case Won(_, look) => After(look)
      case Requeued => before.(status := RefundReconciliation)
      case Finished(status) => before.(status := status)
  }

  /** The i-th event was possible when it happened. */
  ghost predicate Possible(start: Claimed, log: seq<Event>, i: nat, lease: Time)
    requires i < |log|
  {
    var row := RowAfter(start, log[..i]);
    match log[i]
    case Won(_, look) => MaySwap(look, lease) && Matches(row, look.seen)
    case Requeued => row.status.Requesting? || row.status.Retrying?
    case Finished(status) =>
      (InFlight(row) && (status.RefundDone? || status.Risk?)) || (row.status.Risk? && status.Resolved?)
  }

  ghost predicate Lawful(start: Claimed, log: seq<Event>, lease: Time) {
    forall i | 0 <= i < |log| :: Possible(start, log, i, lease)
  }

  ghost predicate Logged(start: Claimed, c: Claims, lease: Time) {
    c.row == RowAfter(start, c.log) && Lawful(start, c.log, lease)
  }

  lemma StepLogged(start: Claimed, c: Claims, s: Step, lease: Time)
    requires Logged(start, c, lease)
    ensures Logged(start, Do(c, s, lease), lease)
  {
    var log := Do(c, s, lease).log;
    if log != c.log {
      assert log[..|c.log|] == c.log;
      forall i | 0 <= i < |log| ensures Possible(start, log, i, lease) {
        if i < |c.log| {
          assert Possible(start, c.log, i, lease);
          assert log[..i] == c.log[..i];
        }
      }
    }
  }

  /** Of every interleaving, the log and the row tell the same story. */
  lemma {:induction false} RunLogged(start: Claimed, c: Claims, steps: seq<Step>, lease: Time)
    requires Logged(start, c, lease)
    ensures Logged(start, DoAll(c, steps, lease), lease)
    decreases |steps|
  {
    if |steps| > 0 {
      StepLogged(start, c, steps[0], lease);
      RunLogged(start, Do(c, steps[0], lease), steps[1..], lease);
    }
  }

  // ---------------------------------------------------------------- mutual exclusion

  /** Without a move to reconciliation the recorded claim time never goes back, and
      a claim advances it by the lease at least. */
  lemma {:induction false} ClaimsAdvance(start: Claimed, log: seq<Event>, i: nat, j: nat, lease: Time)
    requires Lawful(start, log, lease) && lease > 0 && i < j <= |log| && log[i].Won?
    requires forall k | i < k < j :: !log[k].Requeued?
    ensures RowAfter(start, log[..j]).at >= log[i].look.now
    ensures !RowAfter(start, log[..j]).status.RefundReconciliation?
    decreases j
  {
    assert log[..j][..j - 1] == log[..j - 1] && log[..j][j - 1] == log[j - 1];
    if i < j - 1 {
      ClaimsAdvance(start, log, i, j - 1, lease);
      assert Possible(start, log, j - 1, lease);
    }
  }

  predicate RequeuedBetween(log: seq<Event>, i: nat, j: nat)
    requires i <= j <= |log|
  {
    exists k | i < k < j :: log[k].Requeued?
  }

  /** Of the callers that hold one (status, claim time) snapshot at most one wins,
      unless the command was moved to reconciliation between their wins. */
  lemma SnapshotWinsOnce(start: Claimed, log: seq<Event>, i: nat, j: nat, lease: Time)
    requires Lawful(start, log, lease) && lease > 0
    requires i < j < |log| && log[i].Won? && log[j].Won? && log[i].look.seen == log[j].look.seen
    ensures RequeuedBetween(log, i, j)
  {
    assert Possible(start, log, i, lease) && Possible(start, log, j, lease);
    if !RequeuedBetween(log, i, j) {
      assert forall k | i < k < j :: !log[k].Requeued?;
      ClaimsAdvance(start, log, i, j, lease);
      assert false;
    }
  }

  /** Between two claims the recorded claim times differ by at least the lease, or
      the command was moved to reconciliation. */
  lemma ClaimsAreALeaseApart(start: Claimed, log: seq<Event>, i: nat, j: nat, lease: Time)
    requires Lawful(start, log, lease) && lease > 0
    requires i < j < |log| && log[i].Won? && log[j].Won?
    ensures log[j].look.now >= log[i].look.now + lease || RequeuedBetween(log, i, j)
  {
    if !RequeuedBetween(log, i, j) {
      assert forall k | i < k < j :: !log[k].Requeued?;
      ClaimsAdvance(start, log, i, j, lease);
      assert Possible(start, log, j, lease);
    }
  }

  /** The same for the claim that created the command. */
  lemma FirstClaimIsALeaseApart(start: Claimed, log: seq<Event>, j: nat, lease: Time)
    requires Lawful(start, log, lease) && lease > 0 && j < |log| && log[j].Won?
    requires start.status.Requesting? && forall k | 0 <= k < j :: log[k].Finished?
    ensures log[j].look.now >= start.at + lease
  {
    SameClaimTime(start, log[..j]);
    assert Possible(start, log, j, lease);
    if j > 0 { assert Possible(start, log, j - 1, lease); }
  }

  lemma {:induction false} SameClaimTime(start: Claimed, log: seq<Event>)
    requires forall k | 0 <= k < |log| :: log[k].Finished?
    requires start.status.Requesting?
    ensures RowAfter(start, log).at == start.at
    ensures |log| > 0 ==> RowAfter(start, log).status == log[|log| - 1].status
  {
    if |log| > 0 { SameClaimTime(start, log[..|log| - 1]); }
  }

  /** Every interleaving of any callers, in one statement. */
  lemma RefundClaimsExclude(created: Time, steps: seq<Step>, lease: Time, i: nat, j: nat)
    requires lease > 0
    requires var log := DoAll(Created(created), steps, lease).log; i < j < |log| && log[i].Won? && log[j].Won?
    ensures var log := DoAll(Created(created), steps, lease).log;
            RequeuedBetween(log, i, j)
            || (log[i].look.seen != log[j].look.seen && log[j].look.now >= log[i].look.now + lease)
  {
    var start := Claimed(Requesting, created);
    RunLogged(start, Created(created), steps, lease);
    var log := DoAll(Created(created), steps, lease).log;
    ClaimsAreALeaseApart(start, log, i, j, lease);
    if log[i].look.seen == log[j].look.seen { SnapshotWinsOnce(start, log, i, j, lease); }
  }

  // ----------------------------------------------- where exclusion stops to hold

  /** A caller whose snapshot another caller already won with wins as well exactly
      when the swap's own condition holds again: the command is back in
      reconciliation for a snapshot taken there, or back in the very same row. */
  lemma StaleSnapshotWinsIff(start: Claimed, c: Claims, i: nat, who: nat, lease: Time)
    requires Logged(start, c, lease) && lease > 0 && i < |c.log| && c.log[i].Won?
    requires who in c.looks && c.looks[who].seen == c.log[i].look.seen && MaySwap(c.looks[who], lease)
    ensures Do(c, Swap(who), lease).log != c.log <==> Matches(c.row, c.looks[who].seen)
    ensures Do(c, Swap(who), lease).log != c.log ==> RequeuedBetween(c.log, i, |c.log|)
  {
    var after := Do(c, Swap(who), lease);
    if after.log != c.log {
      StepLogged(start, c, Swap(who), lease);
      SnapshotWinsOnce(start, after.log, i, |c.log|, lease);
      var k :| i < k < |c.log| && after.log[k].Requeued?;
      assert c.log[k].Requeued?;
    }
  }

  // -------------------------------------------- claimed snapshots and strict clocks

  /** No two claims recorded the same time. */
  ghost predicate DistinctTimes(start: Claimed, log: seq<Event>) {
    && (forall i | 0 <= i < |log| :: log[i].Won? ==> log[i].look.now != start.at)
    && (forall i, j | 0 <= i < j < |log| :: log[i].Won? && log[j].Won? ==> log[i].look.now != log[j].look.now)
  }

  /** The recorded claim time is that of the latest claim. */
  lemma {:induction false} ClaimTimeSince(start: Claimed, log: seq<Event>, i: nat) returns (k: nat)
    requires i < |log| && log[i].Won?
    ensures i <= k < |log| && log[k].Won? && RowAfter(start, log).at == log[k].look.now
  {
    var last := |log| - 1;
    if log[last].Won? { return last; }
    k := ClaimTimeSince(start, log[..last], i);
  }

  lemma {:induction false} ClaimTimeBefore(start: Claimed, log: seq<Event>)
    ensures RowAfter(start, log).at == start.at
            || exists k | 0 <= k < |log| :: log[k].Won? && RowAfter(start, log).at == log[k].look.now
  {
    if |log| > 0 && !log[|log| - 1].Won? {
      var init := log[..|log| - 1];
      ClaimTimeBefore(start, init);
      if RowAfter(start, init).at != start.at {
        var k :| 0 <= k < |init| && init[k].Won? && RowAfter(start, init).at == init[k].look.now;
        assert log[k].Won? && RowAfter(start, log).at == log[k].look.now;
      }
    }
  }

  /** A snapshot of a claimed command, whoever holds it, never wins twice while no two
      claims record the same time. */
  lemma ClaimedSnapshotWinsOnce(start: Claimed, log: seq<Event>, i: nat, j: nat, lease: Time)
    requires Lawful(start, log, lease) && DistinctTimes(start, log)
    requires i < j < |log| && log[i].Won? && log[j].Won? && log[i].look.seen == log[j].look.seen
    ensures log[i].look.seen.status.RefundReconciliation?
  {
    assert Possible(start, log, i, lease) && Possible(start, log, j, lease);
    ClaimTimeBefore(start, log[..i]);
    var k := ClaimTimeSince(start, log[..j], i);
    assert RowAfter(start, log[..j]).at == log[k].look.now;
  }

  /** Every caller reads once and swaps once at most, and every reading of the clock
      is later than the one before it and than the creation. */
  ghost predicate OneShot(created: Time, steps: seq<Step>) {
    && (forall i | 0 <= i < |steps| :: steps[i].Read? ==> steps[i].now > created)
    && (forall i, j | 0 <= i < j < |steps| :: steps[i].Read? && steps[j].Read? ==>
          steps[i].reader != steps[j].reader && steps[i].now < steps[j].now)
    && (forall i, j | 0 <= i < j < |steps| :: steps[i].Swap? && steps[j].Swap? ==> steps[i].swapper != steps[j].swapper)
  }

  /** Readings so far are distinct, and older than those to come. */
  ghost predicate LooksOnTime(created: Time, looks: map<nat, Look>, rest: seq<Step>) {
    && (forall w | w in looks :: looks[w].now > created)
    && (forall v, w | v in looks && w in looks :: v != w ==> looks[v].now != looks[w].now)
    && (forall i, w | 0 <= i < |rest| && w in looks :: rest[i].Read? ==> rest[i].reader != w && rest[i].now > looks[w].now)
  }

  /** Winners are distinct, won with their reading, and do not swap again. */
  ghost predicate WinsOnTime(log: seq<Event>, looks: map<nat, Look>, rest: seq<Step>) {
    && (forall k | 0 <= k < |log| :: log[k].Won? ==> log[k].caller in looks && log[k].look == looks[log[k].caller])
    && (forall k, i | 0 <= k < |log| && 0 <= i < |rest| :: log[k].Won? && rest[i].Swap? ==> rest[i].swapper != log[k].caller)
    && (forall k, m | 0 <= k < m < |log| :: log[k].Won? && log[m].Won? ==> log[k].caller != log[m].caller)
  }

  /** Where a one-shot run stands before its remaining steps. */
  ghost predicate OnTime(created: Time, c: Claims, rest: seq<Step>) {
    OneShot(created, rest) && LooksOnTime(created, c.looks, rest) && WinsOnTime(c.log, c.looks, rest)
  }

  lemma RestOneShot(created: Time, steps: seq<Step>)
    requires |steps| > 0 && OneShot(created, steps)
    ensures OneShot(created, steps[1..])
  {
    assert forall i | 0 <= i < |steps| - 1 :: steps[1..][i] == steps[i + 1];
  }

  lemma LooksStep(created: Time, c: Claims, steps: seq<Step>, lease: Time)
    requires |steps| > 0 && OneShot(created, steps) && LooksOnTime(created, c.looks, steps)
    ensures LooksOnTime(created, Do(c, steps[0], lease).looks, steps[1..])
  {
    assert forall i | 0 <= i < |steps| - 1 :: steps[1..][i] == steps[i + 1];
  }

  lemma WinsStep(created: Time, c: Claims, steps: seq<Step>, lease: Time)
    requires |steps| > 0 && OneShot(created, steps)
    requires LooksOnTime(created, c.looks, steps) && WinsOnTime(c.log, c.looks, steps)
    ensures var after := Do(c, steps[0], lease); WinsOnTime(after.log, after.looks, steps[1..])
  {
    assert forall i | 0 <= i < |steps| - 1 :: steps[1..][i] == steps[i + 1];
  }

  lemma StepOnTime(created: Time, c: Claims, steps: seq<Step>, lease: Time)
    requires |steps| > 0 && OnTime(created, c, steps)
    ensures OnTime(created, Do(c, steps[0], lease), steps[1..])
  {
    RestOneShot(created, steps);
    LooksStep(created, c, steps, lease);
    WinsStep(created, c, steps, lease);
  }

  lemma {:induction false} RunOnTime(created: Time, c: Claims, steps: seq<Step>, lease: Time)
    requires OnTime(created, c, steps)
    ensures OnTime(created, DoAll(c, steps, lease), [])
    decreases |steps|
  {
    if |steps| > 0 {
      StepOnTime(created, c, steps, lease);
      RunOnTime(created, Do(c, steps[0], lease), steps[1..], lease);
    } else {
      assert steps == [];
    }
  }

  /** In every interleaving of callers that each read a strictly advancing clock and
      swap once, two winners with one snapshot can only have read it in
      reconciliation. */
  lemma StrictClockExcludes(created: Time, steps: seq<Step>, lease: Time, i: nat, j: nat)
    requires OneShot(created, steps)
    requires var log := DoAll(Created(created), steps, lease).log;
             i < j < |log| && log[i].Won? && log[j].Won? && log[i].look.seen == log[j].look.seen
    ensures DoAll(Created(created), steps, lease).log[i].look.seen.status.RefundReconciliation?
  {
    var start := Claimed(Requesting, created);
    RunLogged(start, Created(created), steps, lease);
    RunOnTime(created, Created(created), steps, lease);
    ClaimedSnapshotWinsOnce(start, DoAll(Created(created), steps, lease).log, i, j, lease);
  }

  /** The clock must advance strictly: with two equal readings in reconciliation the
      same claimed row comes back, and one snapshot of it wins twice. */
  lemma EqualReadingsDoNotExclude()
    ensures exists steps, i: nat, j: nat ::
              var log := DoAll(Created(0), steps, LEASE).log;
              && i < j < |log| && log[i].Won? && log[j].Won? && log[i].caller != log[j].caller
              && log[i].look.seen == log[j].look.seen && !log[i].look.seen.status.RefundReconciliation?
  {
    var later := 7 + LEASE;
    var early := [Requeue, Read(1, 7), Read(2, 7), Swap(1), Read(3, later)];
    var late := [Read(4, later), Swap(3), Requeue, Swap(2), Swap(4)];
    var c5 := FiveSteps(Created(0), early);
    assert c5.row == Claimed(Requesting, 7) && |c5.log| == 2;
    var c10 := FiveSteps(c5, late);
    DoAllConcat(Created(0), early, late);
    var steps := early + late;
    var log := DoAll(Created(0), steps, LEASE).log;
    var i: nat, j: nat := 2, 5;
    assert i < j < |log| && log[i].Won? && log[j].Won? && log[i].caller != log[j].caller
           && log[i].look.seen == log[j].look.seen && !log[i].look.seen.status.RefundReconciliation?;
  }

  lemma FiveSteps(c: Claims, s: seq<Step>) returns (after: Claims)
    requires |s| == 5
    ensures after == Do(Do(Do(Do(Do(c, s[0], LEASE), s[1], LEASE), s[2], LEASE), s[3], LEASE), s[4], LEASE)
    ensures after == DoAll(c, s, LEASE)
  {
    var c1 := Do(c, s[0], LEASE);
    var c2 := Do(c1, s[1], LEASE);
    var c3 := Do(c2, s[2], LEASE);
    var c4 := Do(c3, s[3], LEASE);
    Unroll(c, s);
    Unroll(c1, s[1..]);
    Unroll(c2, s[2..]);
    Unroll(c3, s[3..]);
    Unroll(c4, s[4..]);
    after := Do(c4, s[4], LEASE);
    assert s[4..][1..] == [];
  }

  lemma {:induction false} DoAllConcat(c: Claims, a: seq<Step>, b: seq<Step>)
    ensures DoAll(c, a + b, LEASE) == DoAll(DoAll(c, a, LEASE), b, LEASE)
    decreases |a|
  {
    if |a| == 0 {
      assert a + b == b;
    } else {
      assert (a + b)[0] == a[0] && (a + b)[1..] == a[1..] + b;
      DoAllConcat(Do(c, a[0], LEASE), a[1..], b);
    }
  }

  /** Two callers read the command in reconciliation; the first claims it and is
      answered uncertainly, and then the second wins with the snapshot the first
      has already used, without any lease between the two claims. */
  lemma OneSnapshotWinsTwice()
    ensures exists steps, i: nat, j: nat ::
              var log := DoAll(Created(0), steps, LEASE).log;
              && i < j < |log| && log[i].Won? && log[j].Won? && log[i].caller != log[j].caller
              && log[i].look == log[j].look
  {
    var c0 := Created(0);
    var c1 := Do(c0, Requeue, LEASE);
    var c2 := Do(c1, Read(1, 7), LEASE);
    var c3 := Do(c2, Read(2, 7), LEASE);
    var c4 := Do(c3, Swap(1), LEASE);
    var c5 := Do(c4, Requeue, LEASE);
    var c6 := Do(c5, Swap(2), LEASE);
    var steps := [Requeue, Read(1, 7), Read(2, 7), Swap(1), Requeue, Swap(2)];
    Unroll(c0, steps);
    Unroll(c1, steps[1..]);
    Unroll(c2, steps[2..]);
    Unroll(c3, steps[3..]);
    Unroll(c4, steps[4..]);
    Unroll(c5, steps[5..]);
    var look := Look(Claimed(RefundReconciliation, 0), 7);
    assert c6.log == [Requeued, Won(1, look), Requeued, Won(2, look)];
    assert DoAll(c0, steps, LEASE) == c6;
    var log := DoAll(c0, steps, LEASE).log;
    var i: nat, j: nat := 1, 3;
    assert i < j < |log| && log[i].Won? && log[j].Won? && log[i].caller != log[j].caller && log[i].look == log[j].look;
  }

  lemma Unroll(c: Claims, steps: seq<Step>)
    requires |steps| > 0
    ensures DoAll(c, steps, LEASE) == DoAll(Do(c, steps[0], LEASE), steps[1..], LEASE)
    ensures |steps| > 1 ==> steps[1..][0] == steps[1] && forall k | 1 <= k < |steps| :: steps[1..][k - 1..] == steps[k..]
  {
  }

  // ------------------------------------------------------------------ linearization

  /** The claim columns of a refund row. */
  function ClaimOf(r: Refund): Claimed { Claimed(r.status, r.claimedAt) }

  /** Every winning swap, however old its snapshot, does what the whole of
      `prepare_refund` would do if it ran at that instant with the caller's clock:
      treating the call as one atomic step loses no behaviour. A losing swap
      changes nothing. */
  lemma SwapIsAtomicClaim(db: Tables, o: nat, clientKey: string, f: nat, c: Claims, who: nat, lease: Time)
    requires clientKey != "" && RefundByKey(db.refunds, o, clientKey) == Some(f) && c.row == ClaimOf(db.refunds[f])
    ensures var after := Do(c, Swap(who), lease);
            if after.log == c.log then after == c
            else
              var reply := PrepareRefund(db, o, clientKey, c.looks[who].now, lease);
              && reply.out == Ok(RefundClaim(f, true))
              && reply.db == PutRefund(db, f, db.refunds[f].(status := after.row.status, claimedAt := after.row.at))
  {
    var after := Do(c, Swap(who), lease);
    if who in c.looks && MaySwap(c.looks[who], lease) && Matches(c.row, c.looks[who].seen) {
      assert |after.log| == |c.log| + 1;
    }
  }

  /** And an undisturbed read and swap is the atomic claim of the payment services. */
  lemma ReadThenSwap(db: Tables, o: nat, clientKey: string, f: nat, c: Claims, who: nat, now: Time, lease: Time)
    requires clientKey != "" && RefundByKey(db.refunds, o, clientKey) == Some(f) && c.row == ClaimOf(db.refunds[f])
    ensures var after := Do(Do(c, Read(who, now), lease), Swap(who), lease);
            PrepareRefund(db, o, clientKey, now, lease).db
            == PutRefund(db, f, db.refunds[f].(status := after.row.status, claimedAt := after.row.at))
  {
    assert db.refunds[f := db.refunds[f]] == db.refunds;
  }
}
