/** src/acp/domain/states.py: the transition table is what runs do, no more and no less. */
module Edges {
  import opened Wrappers
  import opened States
  import opened Tables
  import opened Completion
  import opened Finalize
  import opened Claim
  import opened Reap
  import opened Tasks
  import opened Ledger
  import opened Protocol
  import opened Moves
  import I = Incidents
  import R = Retry

  /** After these steps, this step takes the task from one state to another. */
  ghost predicate Takes(steps: seq<Step>, s: Step, id: TaskId, from: State, to: State) {
    var db := Run(EMPTY, steps);
    && id in db.tasks && db.tasks[id].state == from
    && id in Apply(db, s).tasks && Apply(db, s).tasks[id].state == to && from != to
  }

  const ALONE: I.Call := I.Call(1, [], 1)

  lemma FromQueued(s: Step, to: State)
    requires (s == Cancellation(0) && to == Cancelled) || (s == I.Take(ALONE, I.TTL) && to == Running)
    ensures Takes(I.Entering(3), s, 0, Queued, to)
  {
    var db := Run(EMPTY, I.Entering(3));
    I.Entered(3);
    if s == Cancellation(0) {
      CancelShape(db, 0);
    } else {
      I.ClaimStep(db, I.Submitted(3), ALONE, I.TTL);
    }
  }

  function ReportOf(run: RunOutcome, cancelled: bool, draw: R.Unit): Step {
    Finishing(0, 1, I.W, run, cancelled, draw, draw)
  }

  lemma ReportTakes(db: Db, s: Step)
    requires s.Finishing? && Holds(db, s.id, s.attempt, s.worker)
    ensures s.id in Apply(db, s).tasks && Apply(db, s).tasks[s.id].state == Target(EndingOf(db, s))
  {
    CompleteMoves(db, s.id, s.attempt, s.worker, EndingOf(db, s));
  }

  lemma FromRunning(run: RunOutcome, cancelled: bool, draw: R.Unit)
    ensures var s := ReportOf(run, cancelled, draw);
            Takes(I.Opening(3, ALONE), s, 0, Running, Target(EndingOf(Run(EMPTY, I.Opening(3, ALONE)), s)))
  {
    I.Opened(3, ALONE);
    ReportTakes(Run(EMPTY, I.Opening(3, ALONE)), ReportOf(run, cancelled, draw));
  }

  /** Which report takes which edge, with two more attempts left. */
  lemma ReportFor(db: Db, to: State, draw: R.Unit) returns (run: RunOutcome)
    requires 0 in db.tasks && db.tasks[0].maxAttempts == 3 && IsLegal(Running, to)
    ensures Target(EndingOf(db, ReportOf(run, to == Cancelled, draw))) == to
  {
    run := if to == Succeeded then RanOk(map[]) else RanBadly(if to == Queued then R.Transient else R.Permanent, None);
  }

  lemma TakenSomewhere(from: State, to: State, draw: R.Unit)
    requires IsLegal(from, to)
    ensures exists steps, s, id :: Takes(steps, s, id, from, to)
  {
    if from == Queued {
      FromQueued(if to == Running then I.Take(ALONE, I.TTL) else Cancellation(0), to);
    } else {
      I.Opened(3, ALONE);
      var run := ReportFor(Run(EMPTY, I.Opening(3, ALONE)), to, draw);
      FromRunning(run, to == Cancelled, draw);
    }
  }

  /** The table allows an edge exactly when some step of some run from the empty database takes it. */
  lemma EdgeIffTaken(from: State, to: State)
    ensures IsLegal(from, to) <==> exists steps, s, id :: Takes(steps, s, id, from, to)
  {
    if steps, s, id :| Takes(steps, s, id, from, to) {
      EmptyCoherent();
      RunCoherent(EMPTY, steps);
      StepsAreLegal(Run(EMPTY, steps), s, id);
    }
    if IsLegal(from, to) { TakenSomewhere(from, to, 0.5); }
  }
}
