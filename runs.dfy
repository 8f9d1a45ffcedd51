/** The run-tracking row of a refresh (the ScrapeRun model of backend/db/models.py) and the
    status transitions incremental_refresh drives it through. */
module Runs {
  import opened Common

  /** The `status` column: 'running', 'completed' or 'failed'. */
  datatype RunStatus = Running | Completed | Failed

  /** One ScrapeRun row. The counters and `completed_at` are NULL until the run ends;
      timestamps are clock readings. */
  class ScrapeRun {
    const zipcode: string
    const distance: nat
    const startedAt: nat
    var status: RunStatus
    var contractorsFound: Option<nat>
    var contractorsNew: Option<nat>
    var contractorsUpdated: Option<nat>
    var completedAt: Option<nat>
    var errorMessage: Option<string>
    /** The statuses the row has held, oldest first. */
    ghost var history: seq<RunStatus>

    /** A run starts running and ends at most once, in exactly one terminal state; only a
        finished run has `completed_at`, only a completed one has counters and only a failed
        one an error message. */
    ghost predicate Valid()
      reads this
    {
      && (history == [Running] || history == [Running, Completed] || history == [Running, Failed])
      && status == history[|history| - 1]
      && (completedAt.Some? <==> status != Running)
      && (errorMessage.Some? <==> status == Failed)
      && (contractorsFound.Some? <==> status == Completed)
      && (contractorsNew.Some? <==> status == Completed)
      && (contractorsUpdated.Some? <==> status == Completed)
    }

    /** The row added and committed before the refresh begins. */
    constructor(zipcode: string, distance: nat, now: nat)
      ensures Valid()
      ensures this.zipcode == zipcode && this.distance == distance && startedAt == now
      ensures status == Running && history == [Running]
    {
      this.zipcode := zipcode;
      this.distance := distance;
      startedAt := now;
      status := Running;
      contractorsFound := None;
      contractorsNew := None;
      contractorsUpdated := None;
      completedAt := None;
      errorMessage := None;
      history := [Running];
    }

    /** The success path: record the counters, the end time and 'completed'. */
    method Complete(found: nat, added: nat, updated: nat, now: nat)
      requires Valid() && status == Running
      modifies this
      ensures Valid()
      ensures status == Completed && history == [Running, Completed]
      ensures contractorsFound == Some(found) && contractorsNew == Some(added) && contractorsUpdated == Some(updated)
      ensures completedAt == Some(now) && errorMessage == None
    {
      contractorsFound := Some(found);
      contractorsNew := Some(added);
      contractorsUpdated := Some(updated);
      completedAt := Some(now);
      status := Completed;
      history := history + [Completed];
    }

    /** The failure path: record the end time, 'failed' and the exception's text. */
    method Fail(message: string, now: nat)
      requires Valid() && status == Running
      modifies this
      ensures Valid()
      ensures status == Failed && history == [Running, Failed]
      ensures completedAt == Some(now) && errorMessage == Some(message)
      ensures contractorsFound == None && contractorsNew == None && contractorsUpdated == None
    {
      completedAt := Some(now);
      status := Failed;
      errorMessage := Some(message);
      history := history + [Failed];
    }
  }
}
