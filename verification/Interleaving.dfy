/** One handler's session among everyone else's: the history the database goes
    through is a single run of the machine. */
module Interleaving {
  import opened Schema
  import opened Machine
  import opened Evolution
  import opened Reachability
  import opened History
  import opened Store

  /** The session is where `run` leads from `start`. */
  ghost predicate Tracks(session: Session, start: Tables, run: seq<Command>)
    reads session
  {
    session.Clean() && session.committed == Run(start, run) && Reachable(start)
  }

  lemma TracksInvariant(start: Tables, run: seq<Command>)
    requires Reachable(start)
    ensures Invariant(Run(start, run))
  {
    ReachableInvariant(start);
    RunKeeps(start, run);
  }

  lemma RunSnoc(start: Tables, run: seq<Command>, c: Command)
    ensures Run(start, run + [c]) == Step(Run(start, run), c).db
  {
    RunConcat(start, run, [c]);
    RunOne(Run(start, run), c, []);
    assert [c] + [] == [c];
  }

  /** Other sessions commit. */
  method LetOthersRun(session: Session, commands: seq<Command>, ghost start: Tables, ghost run: seq<Command>)
    requires Tracks(session, start, run)
    modifies session
    ensures Tracks(session, start, run + commands)
    ensures Evolves(old(session.committed), session.committed)
  {
    RunConcat(start, run, commands);
    TracksInvariant(start, run);
    RunEvolves(session.committed, commands);
    session.Refresh(Run(session.committed, commands));
  }
}
