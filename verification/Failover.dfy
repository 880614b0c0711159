/** The provider loop of `chat_completions` and its stream forwarder
    (app/__init__.py, gateway.py). Between any two of its transactions every other
    user, operator and the sweep may run any commands of the machine. */
module Failover {
  import opened Schema
  import opened Billing
  import opened Charges
  import opened Payments
  import opened Machine
  import opened Evolution
  import opened Reachability
  import opened History
  import opened Anomalies
  import opened Streaming
  import opened Synthesis
  import opened Text
  import opened Store
  import opened Interleaving
  import opened GatewayServices

  // --------------------------------------------------------- providers' answers

  /** `ProviderError`, with the two flags an adapter may set or leave out. */
  datatype Failure = Failure(statusCode: int, safe: Option<bool>, billable: Option<bool>) {
    predicate SafeToFailover() { if safe.Some? then safe.value else statusCode == 429 }
    predicate MayBeBillable() { if billable.Some? then billable.value else statusCode >= 500 }
  }

  /** How an opened stream stops after its chunks: at its end, with an exception of
      one of three kinds, or because nobody ever reads it. */
  datatype StreamStop = AtEnd | ProviderFailed | Disconnected | UnexpectedStop | NeverRead

  /** What the forwarder reads a stream with: the JSON parser, and the input estimate
      of the reservation. */
  datatype Reader = Reader(parse: Parser, fallbackInput: nat)

  /** The tracker's default limit. */
  const STREAM_LIMIT: nat := 10 * 1024 * 1024

  datatype Attempted =
    | Answered(answer: Usage, up: Upstream)
    | AnsweredThenLost(cancelled: bool)      // recorded, then interrupted before its settlement
    | NotAnObject
    | Opened(chunks: seq<Bytes>, stop: StreamStop, streamUp: Upstream)
    | Failed(failure: Failure)
    | Cancelled
    | Unexpected
  {
    /** The provider may have accepted, and so may bill, the request. */
    predicate MayBill() { Failed? ==> failure.MayBeBillable() }

    predicate LetsNextTry() { Failed? && !failure.MayBeBillable() && failure.SafeToFailover() }
  }

  datatype AttemptStatus = AttemptSucceeded | AttemptFailed | AttemptStreamOpened
  datatype Attempt = Attempt(ordinal: nat, status: AttemptStatus)

  datatype Verdict =
    | Served                // 200, or the stream was forwarded to its end
    | SettlementPending     // 503 settlement_pending
    | Uncertain             // 502 reconciliation_pending, or the client went away
    | Rejected              // the failure's own status
    | Unread                // a stream nobody read
    | AllProvidersFailed    // the fall-through after the loop

  // ----------------------------------------------------------- the handler's steps

  /** What every step of the handler leaves: the request row is there and evolves. */
  ghost predicate Carries(before: Tables, after: Tables, id: nat) {
    id < |before.requests| <= |after.requests| && RequestNext(before.requests[id], after.requests[id])
  }

  lemma OwnStep(start: Tables, run: seq<Command>, db: Tables, c: MeterCommand, id: nat)
    requires Reachable(start) && db == Run(start, run) && id < |db.requests|
    ensures MeterStep(db, c).db == Run(start, run + [OnMeter(c)])
    ensures Carries(db, MeterStep(db, c).db, id)
  {
    TracksInvariant(start, run);
    StepEvolves(db, OnMeter(c));
    RunSnoc(start, run, OnMeter(c));
  }

  /** The handler's commands with everyone else's after the first of them. */
  function Woven(mine: seq<MeterCommand>, others: seq<Command>): seq<Command> {
    if |mine| == 0 then []
    else if |mine| == 1 then [OnMeter(mine[0])]
    else [OnMeter(mine[0])] + others + OnMeters(mine[1..])
  }

  function OnMeters(mine: seq<MeterCommand>): seq<Command> { seq(|mine|, i requires 0 <= i < |mine| => OnMeter(mine[i])) }

  // --------------------------------------------------------- settling the hold

  /** The gateway's own settlement goes through exactly when the request is still
      reserved: no other rejection is possible. */
  lemma GatewaySettles(db: Tables, id: nat, usage: Usage, forced: bool, up: Upstream)
    requires Invariant(db) && up.cost.None?
    ensures Settle(db, id, usage, forced, up, Gateway).out.Ok? <==> id < |db.requests| && db.requests[id].status.Reserved?
  {
    SettleClean(db, id, usage, forced, up, Gateway);
  }

  /** Nor does the gateway's own release meet any other. */
  lemma GatewayReleases(db: Tables, id: nat)
    requires Invariant(db) && id < |db.requests|
    ensures !Release(db, id, Gateway).db.requests[id].status.Reserved?
  {
    ReleaseClean(db, id, Gateway);
  }

  /** What the gateway's settlement does to the request it names. */
  lemma SettleOutcome(start: Tables, run: seq<Command>, db: Tables, id: nat, usage: Usage, forced: bool, up: Upstream)
    requires Reachable(start) && db == Run(start, run) && id < |db.requests| && up.cost.None?
    ensures var reply := Settle(db, id, usage, forced, up, Gateway);
            && reply.db == Run(start, run + [OnMeter(DoSettle(id, usage, forced, up, Gateway))])
            && Carries(db, reply.db, id)
            && (reply.out.Ok? <==> db.requests[id].status.Reserved?)
            && (if reply.out.Ok? then SettledFor(db.requests[id], reply.db.requests[id], usage, forced, up)
                                      && reply.db.requests[id].status in {Settled, UnderReserved}
                else !reply.db.requests[id].status.Reserved?)
  {
    OwnStep(start, run, db, DoSettle(id, usage, forced, up, Gateway), id);
    if Settle(db, id, usage, forced, up, Gateway).out.Ok? { SettlementIsPriced(db, id, usage, forced, up, Gateway); }
    assert Settle(db, id, usage, forced, up, Gateway).out.Ok? <==> db.requests[id].status.Reserved? by {
      TracksInvariant(start, run);
      GatewaySettles(db, id, usage, forced, up);
    }
  }

  /** What the gateway's release does to the request it names. */
  lemma ReleaseOutcome(start: Tables, run: seq<Command>, db: Tables, id: nat)
    requires Reachable(start) && db == Run(start, run) && id < |db.requests|
    ensures var after := Release(db, id, Gateway).db;
            && after == Run(start, run + [OnMeter(DoRelease(id, Gateway))])
            && Carries(db, after, id) && !after.requests[id].status.Reserved?
  {
    OwnStep(start, run, db, DoRelease(id, Gateway), id);
    assert !Release(db, id, Gateway).db.requests[id].status.Reserved? by {
      TracksInvariant(start, run);
      GatewayReleases(db, id);
    }
  }

  /** Settle, or leave the request to an operator. */
  method SettleOrSuspend(session: Session, id: nat, usage: Usage, estimated: bool, up: Upstream,
                         others: seq<Command>, ghost start: Tables, ghost run: seq<Command>)
    returns (verdict: Verdict, mine: seq<MeterCommand>, ghost run': seq<Command>)
    requires Tracks(session, start, run) && id < |session.committed.requests| && up.cost.None?
    modifies session
    ensures Tracks(session, start, run') && Carries(old(session.committed), session.committed, id)
    ensures verdict == (if old(session.committed.requests[id]).status.Reserved? then Served else SettlementPending)
    ensures verdict.Served? ==> session.committed.requests[id].status in {Settled, UnderReserved}
    ensures verdict.Served? ==>
              SettledFor(old(session.committed.requests[id]), session.committed.requests[id], usage, estimated, up)
    ensures !session.committed.requests[id].status.Reserved?
    ensures mine == [DoSettle(id, usage, estimated, up, Gateway)] + (if verdict.Served? then [] else [DoMarkPending(id)])
    ensures run' == run + Woven(mine, others)
  {
    var settle := DoSettle(id, usage, estimated, up, Gateway);
    mine := [settle];
    SettleOutcome(start, run, session.committed, id, usage, estimated, up);
    var out := SettleModelRequest(session, id, usage, estimated, up, Gateway);
    run' := run + [OnMeter(settle)];
    if out.Ok? { return Served, mine, run'; }
    var moved;
    moved, run' := SuspendLater(session, id, others, start, run');
    verdict, mine := SettlementPending, mine + moved;
    assert OnMeters(mine[1..]) == [OnMeter(DoMarkPending(id))];
    assert run' == run + Woven(mine, others);
  }

  /** Others may run before the request is marked. */
  method SuspendLater(session: Session, id: nat, others: seq<Command>, ghost start: Tables, ghost run: seq<Command>)
    returns (mine: seq<MeterCommand>, ghost run': seq<Command>)
    requires Tracks(session, start, run) && id < |session.committed.requests|
    modifies session
    ensures Tracks(session, start, run') && Carries(old(session.committed), session.committed, id)
    ensures !session.committed.requests[id].status.Reserved?
    ensures mine == [DoMarkPending(id)] && run' == run + others + [OnMeter(DoMarkPending(id))]
  {
    LetOthersRun(session, others, start, run);
    run' := run + others;
    mine, run' := Suspend(session, id, start, run');
  }

  /** Mark the request for reconciliation. */
  method Suspend(session: Session, id: nat, ghost start: Tables, ghost run: seq<Command>)
    returns (mine: seq<MeterCommand>, ghost run': seq<Command>)
    requires Tracks(session, start, run) && id < |session.committed.requests|
    modifies session
    ensures Tracks(session, start, run') && Carries(old(session.committed), session.committed, id)
    ensures !session.committed.requests[id].status.Reserved?
    ensures mine == [DoMarkPending(id)] && run' == run + [OnMeter(DoMarkPending(id))]
  {
    mine := [DoMarkPending(id)];
    OwnStep(start, run, session.committed, DoMarkPending(id), id);
    var _ := MarkPendingReconciliation(session, id);
    run' := run + [OnMeter(DoMarkPending(id))];
  }

  /** Give the hold back, unless the request is no longer the gateway's. */
  method GiveBack(session: Session, id: nat, ghost start: Tables, ghost run: seq<Command>)
    returns (mine: seq<MeterCommand>, ghost run': seq<Command>)
    requires Tracks(session, start, run) && id < |session.committed.requests|
    modifies session
    ensures Tracks(session, start, run') && Carries(old(session.committed), session.committed, id)
    ensures !session.committed.requests[id].status.Reserved?
    ensures mine == [DoRelease(id, Gateway)] && run' == run + [OnMeter(DoRelease(id, Gateway))]
  {
    mine := [DoRelease(id, Gateway)];
    ReleaseOutcome(start, run, session.committed, id);
    var _ := ReleaseModelRequest(session, id, Gateway);
    run' := run + [OnMeter(DoRelease(id, Gateway))];
  }

  /** What the tracker has seen of a stream. */
  function Read(reader: Reader, chunks: seq<Bytes>): Streaming.Tally { Tracked(reader.parse, chunks, STREAM_LIMIT) }

  /** The stream was read to its end, without an error and up to its end marker. */
  predicate Finished(reader: Reader, chunks: seq<Bytes>, stop: StreamStop) {
    stop.AtEnd? && Read(reader, chunks).error.None? && Read(reader, chunks).counters.done
  }

  /** Feed every chunk and finish: what was counted, if the stream was finished. */
  method ReadStream(reader: Reader, chunks: seq<Bytes>, stop: StreamStop) returns (counted: Option<Counters>)
    ensures counted == if Finished(reader, chunks, stop) then Some(Read(reader, chunks).counters) else None
  {
    var tracker := new SSEUsageTracker(reader.parse, STREAM_LIMIT);
    var error;
    if stop.AtEnd? { error := tracker.Consume(chunks); } else { error := tracker.Receive(chunks); }
    counted := if stop.AtEnd? && error.None? && tracker.done then Some(tracker.Seen()) else None;
  }

  /** `forward_stream`: read the stream, and settle what was counted or suspend the
      request. */
  method ForwardStream(session: Session, id: nat, reader: Reader, chunks: seq<Bytes>, stop: StreamStop, up: Upstream,
                       others: seq<Command>, ghost start: Tables, ghost run: seq<Command>)
    returns (verdict: Verdict, mine: seq<MeterCommand>, ghost run': seq<Command>)
    requires Tracks(session, start, run) && id < |session.committed.requests| && up.cost.None?
    modifies session
    ensures Tracks(session, start, run') && Carries(old(session.committed), session.committed, id)
    ensures verdict.Served? <==> Finished(reader, chunks, stop) && old(session.committed.requests[id]).status.Reserved?
    ensures verdict.Served? ==> session.committed.requests[id].status in {Settled, UnderReserved}
    ensures var counted := Read(reader, chunks).counters; var usage := CountedUsage(counted, reader.fallbackInput);
            && (verdict.Served? ==>
                  SettledFor(old(session.committed.requests[id]), session.committed.requests[id], usage, Estimated(counted), up))
            && (Finished(reader, chunks, stop) ==>
                  && verdict in {Served, SettlementPending}
                  && mine == [DoSettle(id, usage, Estimated(counted), up, Gateway)] + if verdict.Served? then [] else [DoMarkPending(id)])
    ensures !Finished(reader, chunks, stop) ==>
              if stop.NeverRead? then verdict.Unread? && mine == [] else verdict.Uncertain? && mine == [DoMarkPending(id)]
    ensures !verdict.Unread? ==> !session.committed.requests[id].status.Reserved?
    ensures run' == run + Woven(mine, others)
  {
    if stop.NeverRead? { return Unread, [], run; }
    var seen := ReadStream(reader, chunks, stop);
    if seen.Some? {
      var counted := seen.value;
      verdict, mine, run' :=
        SettleOrSuspend(session, id, CountedUsage(counted, reader.fallbackInput), Estimated(counted), up, others, start, run);
    } else {
      mine, run' := Suspend(session, id, start, run);
      verdict := Uncertain;
    }
  }

  // ------------------------------------------------------------------- the loop

  /** How many of the attempted providers left an attempt row: all, except that an
      interrupted last call may leave none. */
  predicate Recorded(attempts: seq<Attempt>, contacted: nat) {
    && contacted - 1 <= |attempts| <= contacted
    && forall i | 0 <= i < |attempts| :: attempts[i].ordinal == i + 1
  }

  /** The provider gave a whole answer, or a stream that was read to its end marker. */
  predicate Completed(reader: Reader, a: Attempted) { a.Answered? || (a.Opened? && Finished(reader, a.chunks, a.stop)) }

  /** The gateway never overrides the upstream cost. */
  predicate NoCostOverride(a: Attempted) {
    (a.Answered? ==> a.up.cost.None?) && (a.Opened? ==> a.streamUp.cost.None?)
  }

  /** What a provider's answer is settled for. */
  datatype Bill = Bill(usage: Usage, estimated: bool, up: Upstream)

  /** A whole answer is settled for the usage it reports, a finished stream for what
      was counted in it, each at its provider's prices; nothing else is settled. */
  function BillOf(reader: Reader, a: Attempted): Option<Bill> {
    match a
    case Answered(usage, up) => Some(Bill(usage, false, up))
    case Opened(chunks, stop, up) =>
      var counted := Read(reader, chunks).counters;
      if Finished(reader, chunks, stop) then Some(Bill(CountedUsage(counted, reader.fallbackInput), Estimated(counted), up)) else None
    case _ => None
  }

  /** How a turn that ends the loop ends, and the commands it commits: its settlement,
      with the mark if that came too late; the release after a failure that cannot be
      billed; the mark otherwise, unless nobody reads the stream. */
  predicate Concludes(id: nat, reader: Reader, a: Attempted, verdict: Verdict, mine: seq<MeterCommand>) {
    match BillOf(reader, a)
    case Some(bill) =>
      && verdict in {Served, SettlementPending}
      && mine == [DoSettle(id, bill.usage, bill.estimated, bill.up, Gateway)] + (if verdict.Served? then [] else [DoMarkPending(id)])
    case None =>
      if !a.MayBill() then verdict.Rejected? && mine == [DoRelease(id, Gateway)]
      else if a.Opened? && a.stop.NeverRead? then verdict.Unread? && mine == []
      else verdict.Uncertain? && mine == [DoMarkPending(id)]
  }

  /** A served request's row is the one its provider's bill makes of the row before. */
  predicate Billed(reader: Reader, a: Attempted, before: Request, after: Request) {
    && BillOf(reader, a).Some?
    && var bill := BillOf(reader, a).value;
    && SettledFor(before, after, bill.usage, bill.estimated, bill.up) && after.status in {Settled, UnderReserved}
  }

  /** The attempt row a contact leaves. */
  predicate LeavesRow(a: Attempted, row: Option<AttemptStatus>) {
    match a
    case Answered(_, _) => row == Some(AttemptSucceeded)
    case AnsweredThenLost(_) => row == Some(AttemptSucceeded)
    case Opened(_, _, _) => row == Some(AttemptStreamOpened)
    case NotAnObject => row == Some(AttemptFailed)
    case Failed(_) => row == Some(AttemptFailed)
    case _ => row == None
  }

  /** One turn of the loop: what is recorded of the attempt, and the verdict unless
      the next provider is tried. */
  method TryProvider(session: Session, id: nat, reader: Reader, attempted: Attempted, more: bool, others: seq<Command>,
                     ghost start: Tables, ghost run: seq<Command>)
    returns (verdict: Option<Verdict>, recorded: Option<AttemptStatus>, mine: seq<MeterCommand>, ghost run': seq<Command>)
    requires Tracks(session, start, run) && id < |session.committed.requests| && NoCostOverride(attempted)
    modifies session
    ensures Tracks(session, start, run') && Carries(old(session.committed), session.committed, id)
    ensures verdict.None? <==> attempted.LetsNextTry() && more
    ensures verdict.None? ==> mine == [] && session.committed == old(session.committed)
    ensures LeavesRow(attempted, recorded)
    ensures verdict.Some? ==> Concludes(id, reader, attempted, verdict.value, mine)
    ensures BillOf(reader, attempted).Some? ==> (verdict == Some(Served) <==> old(session.committed.requests[id]).status.Reserved?)
    ensures verdict == Some(Served) ==> Billed(reader, attempted, old(session.committed.requests[id]), session.committed.requests[id])
    ensures verdict.Some? && session.committed.requests[id].status.Reserved? ==> verdict == Some(Unread)
    ensures run' == run + Woven(mine, others)
  {
    var v;
    match attempted {
      case Answered(usage, up) =>
        v, mine, run' := SettleOrSuspend(session, id, usage, false, up, others, start, run);
        return Some(v), Some(AttemptSucceeded), mine, run';
      case Opened(chunks, stop, up) =>
        v, mine, run' := ForwardStream(session, id, reader, chunks, stop, up, others, start, run);
        return Some(v), Some(AttemptStreamOpened), mine, run';
      case AnsweredThenLost(_) =>
        mine, run' := Suspend(session, id, start, run);
        return Some(Uncertain), Some(AttemptSucceeded), mine, run';
      case NotAnObject =>
        mine, run' := Suspend(session, id, start, run);
        return Some(Uncertain), Some(AttemptFailed), mine, run';
      case Failed(failure) =>
        verdict, mine, run' := HandleFailure(session, id, failure, more, start, run);
        return verdict, Some(AttemptFailed), mine, run';
      case _ =>
        mine, run' := Suspend(session, id, start, run);
        return Some(Uncertain), None, mine, run';
    }
  }

  /** The handler of a `ProviderError`. */
  method HandleFailure(session: Session, id: nat, failure: Failure, more: bool, ghost start: Tables, ghost run: seq<Command>)
    returns (verdict: Option<Verdict>, mine: seq<MeterCommand>, ghost run': seq<Command>)
    requires Tracks(session, start, run) && id < |session.committed.requests|
    modifies session
    ensures Tracks(session, start, run') && Carries(old(session.committed), session.committed, id)
    ensures verdict == (if failure.MayBeBillable() then Some(Uncertain)
                        else if failure.SafeToFailover() && more then None else Some(Rejected))
    ensures verdict.None? ==> mine == [] && session.committed == old(session.committed)
    ensures verdict == Some(Uncertain) ==> mine == [DoMarkPending(id)]
    ensures verdict == Some(Rejected) ==> mine == [DoRelease(id, Gateway)]
    ensures verdict.Some? ==> !session.committed.requests[id].status.Reserved?
    ensures run' == run + Woven(mine, [])
  {
    if failure.MayBeBillable() {
      mine, run' := Suspend(session, id, start, run);
      return Some(Uncertain), mine, run';
    }
    if failure.SafeToFailover() && more { return None, [], run; }
    mine, run' := GiveBack(session, id, start, run);
    verdict := Some(Rejected);
  }

  /** A turn after everyone else's, with its attempt row: one pass of the loop's body. */
  method NextProvider(session: Session, id: nat, reader: Reader, attempted: Attempted, more: bool, attempts: seq<Attempt>,
                      before: seq<Command>, others: seq<Command>, ghost start: Tables, ghost run: seq<Command>)
    returns (verdict: Option<Verdict>, attempts': seq<Attempt>, mine: seq<MeterCommand>, ghost run': seq<Command>)
    requires Tracks(session, start, run) && Carries(start, session.committed, id) && NoCostOverride(attempted)
    modifies session
    ensures Tracks(session, start, run') && Carries(start, session.committed, id)
    ensures verdict.None? <==> attempted.LetsNextTry() && more
    ensures attempts <= attempts' && |attempts'| <= |attempts| + 1
    ensures |attempts'| > |attempts| ==> attempts'[|attempts|].ordinal == |attempts| + 1
    ensures LeavesRow(attempted, if |attempts'| > |attempts| then Some(attempts'[|attempts|].status) else None)
    ensures verdict.None? ==> mine == []
    ensures verdict.Some? ==> Concludes(id, reader, attempted, verdict.value, mine)
    ensures BillOf(reader, attempted).Some? ==>
              (verdict == Some(Served) <==> StillReserved(Run(start, run + before), id))
    ensures verdict == Some(Served) ==> Billed(reader, attempted, start.requests[id], session.committed.requests[id])
    ensures verdict.Some? && session.committed.requests[id].status.Reserved? ==> verdict == Some(Unread)
    ensures run' == run + before + Woven(mine, others)
  {
    ghost var was := session.committed;
    LetOthersRun(session, before, start, run);
    CarriesOn(start, was, session.committed, id);
    run' := run + before;
    ghost var found := session.committed;
    var recorded;
    verdict, recorded, mine, run' := TryProvider(session, id, reader, attempted, more, others, start, run');
    CarriesOn(start, found, session.committed, id);
    if verdict == Some(Served) { BilledSince(reader, attempted, start, found, session.committed, id); }
    attempts' := if recorded.Some? then attempts + [Attempt(|attempts| + 1, recorded.value)] else attempts;
  }

  lemma CarriesOn(a: Tables, b: Tables, c: Tables, id: nat)
    requires Carries(a, b, id) && (Evolves(b, c) || Carries(b, c, id))
    ensures Carries(a, c, id) && (Evolves(b, c) ==> Carries(b, c, id))
  {
  }

  /** A row that was still live when it was billed differs from an earlier one in its
      status only, so it was billed as the earlier one would have been. */
  lemma BilledSince(reader: Reader, a: Attempted, start: Tables, found: Tables, after: Tables, id: nat)
    requires Carries(start, found, id) && id < |after.requests| && found.requests[id].Live()
    requires Billed(reader, a, found.requests[id], after.requests[id])
    ensures Billed(reader, a, start.requests[id], after.requests[id])
  {
  }

  /** The provider refused safely: the adapter says so, or the status is 429 and the
      adapter does not deny it; and it will not bill: the adapter says so, or the status
      is below 500 and the adapter says nothing. */
  predicate RefusedSafely(a: Attempted) {
    && a.Failed?
    && a.failure.safe != Some(false) && (a.failure.safe == Some(true) || a.failure.statusCode == 429)
    && a.failure.billable != Some(true) && (a.failure.billable == Some(false) || a.failure.statusCode < 500)
  }

  lemma LetsNextTryIff(a: Attempted)
    ensures a.LetsNextTry() <==> RefusedSafely(a)
    ensures a.MayBill() <==> !a.Failed? || a.failure.billable == Some(true) || (a.failure.billable.None? && a.failure.statusCode >= 500)
  {
  }

  /** A provider's answer, whole or streamed to its end, is what is settled first. */
  predicate SettlesItsAnswer(id: nat, reader: Reader, a: Attempted, mine: seq<MeterCommand>) {
    && (a.Answered? ==> |mine| > 0 && mine[0] == DoSettle(id, a.answer, false, a.up, Gateway))
    && (a.Opened? && Finished(reader, a.chunks, a.stop) ==>
          var counted := Read(reader, a.chunks).counters;
          && |mine| > 0
          && mine[0] == DoSettle(id, CountedUsage(counted, reader.fallbackInput), Estimated(counted), a.streamUp, Gateway))
  }

  predicate StillReserved(db: Tables, id: nat) { id < |db.requests| && db.requests[id].status.Reserved? }

  /** The hold is given back exactly after a failure that cannot be billed, and only a
      whole answer or a finished stream is served. */
  lemma ConclusionMeans(id: nat, reader: Reader, a: Attempted, verdict: Verdict, mine: seq<MeterCommand>)
    requires Concludes(id, reader, a, verdict, mine)
    ensures SettlesItsAnswer(id, reader, a, mine)
    ensures DoRelease(id, Gateway) in mine <==> verdict.Rejected?
    ensures verdict.Rejected? <==> !a.MayBill()
    ensures Completed(reader, a) <==> BillOf(reader, a).Some?
    ensures verdict.Served? ==> Completed(reader, a)
    ensures !verdict.AllProvidersFailed?
  {
  }

  /** What everyone else commits before the first `n` looks at the database. */
  function Before(others: nat -> seq<Command>, n: nat): seq<Command> {
    if n == 0 then [] else Before(others, n - 1) + others(n - 1)
  }

  /** The first `n` providers failed safely, each with its attempt row. */
  predicate PassedOver(eligible: seq<Attempted>, attempts: seq<Attempt>, n: nat) {
    && n <= |eligible| && n <= |attempts|
    && forall i | 0 <= i < n :: eligible[i].LetsNextTry() && attempts[i] == Attempt(i + 1, AttemptFailed)
  }

  /** The loop itself. */
  method TryInTurn(session: Session, id: nat, reader: Reader, eligible: seq<Attempted>, others: nat -> seq<Command>)
    returns (verdict: Verdict, contacted: nat, attempts: seq<Attempt>, mine: seq<MeterCommand>, ghost run: seq<Command>)
    requires session.Clean() && Reachable(session.committed) && id < |session.committed.requests|
    requires |eligible| > 0
    requires forall a :: a in eligible ==> NoCostOverride(a)
    modifies session
    ensures Tracks(session, old(session.committed), run) && Carries(old(session.committed), session.committed, id)
    ensures run == Before(others, contacted) + Woven(mine, others(|eligible|))
    ensures 1 <= contacted <= |eligible| && PassedOver(eligible, attempts, contacted - 1) && |attempts| <= contacted
    ensures contacted < |eligible| ==> !eligible[contacted - 1].LetsNextTry()
    ensures |attempts| == contacted ==> attempts[contacted - 1].ordinal == contacted
    ensures LeavesRow(eligible[contacted - 1], if |attempts| == contacted then Some(attempts[contacted - 1].status) else None)
    ensures Concludes(id, reader, eligible[contacted - 1], verdict, mine)
    ensures BillOf(reader, eligible[contacted - 1]).Some? ==>
              (verdict.Served? <==> StillReserved(Run(old(session.committed), Before(others, contacted)), id))
    ensures verdict.Served? ==>
              Billed(reader, eligible[contacted - 1], old(session.committed.requests[id]), session.committed.requests[id])
    ensures session.committed.requests[id].status.Reserved? ==> verdict.Unread?
  {
    ghost var start := session.committed;
    run, attempts, mine := [], [], [];
    assert Run(start, run) == start;
    for index := 0 to |eligible|
      invariant Tracks(session, start, run) && Carries(start, session.committed, id)
      invariant run == Before(others, index)
      invariant |attempts| == index < |eligible| && PassedOver(eligible, attempts, index)
    {
      contacted := index + 1;
      assert eligible[index] in eligible;
      var v;
      v, attempts, mine, run := NextProvider(session, id, reader, eligible[index], index + 1 < |eligible|, attempts,
                                             others(index), others(|eligible|), start, run);
      if v.Some? { return v.value, contacted, attempts, mine, run; }
    }
    assert false;
  }

  /** The provider loop over the eligible providers' answers. `others(t)` is what
      everyone else commits before the handler's t-th look at the database. */
  method Complete(session: Session, id: nat, reader: Reader, eligible: seq<Attempted>, others: nat -> seq<Command>)
    returns (verdict: Verdict, contacted: nat, attempts: seq<Attempt>, mine: seq<MeterCommand>, ghost run: seq<Command>)
    requires session.Clean() && Reachable(session.committed) && id < |session.committed.requests|
    requires |eligible| > 0
    requires forall a :: a in eligible ==> NoCostOverride(a)
    modifies session
    // one history together with everyone else's, in which only the last turn commits anything
    ensures Tracks(session, old(session.committed), run) && Carries(old(session.committed), session.committed, id)
    ensures run == Before(others, contacted) + Woven(mine, others(|eligible|))
    // who is contacted, and what is recorded of it
    ensures 1 <= contacted <= |eligible| && Recorded(attempts, contacted)
    ensures forall i | 0 <= i < contacted - 1 :: eligible[i].LetsNextTry() && attempts[i].status.AttemptFailed?
    ensures contacted < |eligible| ==> !eligible[contacted - 1].LetsNextTry()
    ensures LeavesRow(eligible[contacted - 1], if |attempts| == contacted then Some(attempts[contacted - 1].status) else None)
    ensures Concludes(id, reader, eligible[contacted - 1], verdict, mine)
    // at most one contact may be billed, the last, and then the hold is not given back
    ensures forall i | 0 <= i < contacted - 1 :: !eligible[i].MayBill()
    ensures DoRelease(id, Gateway) in mine <==> verdict.Rejected?
    ensures verdict.Rejected? <==> !eligible[contacted - 1].MayBill()
    // only a whole answer or a finished stream is served, and then it is settled for its usage
    ensures SettlesItsAnswer(id, reader, eligible[contacted - 1], mine)
    ensures verdict.Served? <==>
              && Completed(reader, eligible[contacted - 1])
              && StillReserved(Run(old(session.committed), Before(others, contacted)), id)
    ensures verdict.Served? ==>
              Billed(reader, eligible[contacted - 1], old(session.committed.requests[id]), session.committed.requests[id])
    // the fall-through is never reached, and nothing but an unread stream stays reserved
    ensures !verdict.AllProvidersFailed?
    ensures session.committed.requests[id].status.Reserved? ==> verdict.Unread?
  {
    verdict, contacted, attempts, mine, run := TryInTurn(session, id, reader, eligible, others);
    ConclusionMeans(id, reader, eligible[contacted - 1], verdict, mine);
  }

  // ----------------------------------------------------- swept in the middle

  /** An operator finishes this request. */
  predicate OperatorFinishes(c: Command, id: nat) {
    && c.OnMeter?
    && ((c.meter.DoSettle? && c.meter.settled == id && c.meter.settler.Operator?)
        || (c.meter.DoRelease? && c.meter.released == id && c.meter.releaser.Operator?))
  }

  lemma SuspendedStep(db: Tables, c: Command, id: nat)
    requires Invariant(db) && id < |db.requests| && db.requests[id].status.PendingReconciliation?
    requires !OperatorFinishes(c, id)
    ensures id < |Step(db, c).db.requests| && Step(db, c).db.requests[id] == db.requests[id]
  {
    match c
    case OnAccount(a) => AccountFrame(db, a);
    case OnMeter(a) => SuspendedMeter(db, a, id);
    case OnPayment(a) => PaymentKeepsRequests(db, a);
  }

  lemma SuspendedMeter(db: Tables, c: MeterCommand, id: nat)
    requires id < |db.requests| && db.requests[id].status.PendingReconciliation?
    requires !OperatorFinishes(OnMeter(c), id)
    ensures id < |MeterStep(db, c).db.requests| && MeterStep(db, c).db.requests[id] == db.requests[id]
  {
  }

  lemma PaymentKeepsRequests(db: Tables, c: PaymentCommand)
    ensures PaymentStep(db, c).db.requests == db.requests
  {
    if c.DoWebhook? { WebhookKeepsRequests(db, c.notice); }
  }

  lemma WebhookKeepsRequests(db: Tables, n: Notice)
    ensures ApplyWebhook(db, n).db.requests == db.requests
  {
    if n.order < |db.orders| && n.providerRefund.Some? { RefundKeepsRequests(db, n); }
  }

  lemma RefundKeepsRequests(db: Tables, n: Notice)
    requires n.order < |db.orders| && n.providerRefund.Some?
    ensures NoticeOfRefund(db, n).db.requests == db.requests
  {
    forall key: string { ReversalKeepsRequests(Payments.Recorded(db, n, false), n.order, key, n.providerRefund.value); }
  }

  lemma ReversalKeepsRequests(db: Tables, o: nat, clientKey: string, refundId: string)
    ensures ApplyRefund(db, o, clientKey, refundId).db.requests == db.requests
  {
  }

  /** A request that awaits reconciliation keeps its whole row, its hold included,
      over any run in which no operator finishes it: later settlements and releases
      of the gateway do nothing. */
  lemma {:induction false} SuspendedStays(db: Tables, commands: seq<Command>, id: nat)
    requires Invariant(db) && id < |db.requests| && db.requests[id].status.PendingReconciliation?
    requires forall c :: c in commands ==> !OperatorFinishes(c, id)
    ensures id < |Run(db, commands).requests| && Run(db, commands).requests[id] == db.requests[id]
    decreases |commands|
  {
    if |commands| > 0 {
      assert commands[0] in commands;
      SuspendedStep(db, commands[0], id);
      StepKeeps(db, commands[0]);
      SuspendedStays(Step(db, commands[0]).db, commands[1..], id);
    }
  }

  /** Applied to the history `run` of the loop: if the sweep suspends the request at
      any point of it, the request ends as the sweep left it. */
  lemma SweptMidLoopKeepsHold(start: Tables, run: seq<Command>, k: nat, id: nat)
    requires Reachable(start) && k <= |run|
    requires var swept := Run(start, run[..k]); id < |swept.requests| && swept.requests[id].status.PendingReconciliation?
    requires forall c :: c in run ==> !OperatorFinishes(c, id)
    ensures id < |Run(start, run).requests| && Run(start, run).requests[id] == Run(start, run[..k]).requests[id]
  {
    TracksInvariant(start, run[..k]);
    RunConcat(start, run[..k], run[k..]);
    assert run[..k] + run[k..] == run;
    SuspendedStays(Run(start, run[..k]), run[k..], id);
  }
}
