/** The task state machine (task_orchestrator/state/transition_guard.py). */
module TaskState {

  /** Where a task in state `current` may go; an unknown state goes nowhere. */
  function LegalTransitions(current: string): set<string> {
    if current == "queued" then {"authorized", "blocked", "cancelled", "failed"}
    else if current == "authorized" then {"dispatched", "blocked", "failed", "cancelled"}
    else if current == "dispatched" then {"running", "blocked", "completed", "failed", "cancelled"}
    else if current == "running" then {"completed", "failed", "blocked", "cancelled"}
    else if current == "blocked" then {"queued", "dispatched", "cancelled", "failed"}
    else {}
  }

  /** `update_task_status` accepts staying put, and otherwise asks the guard. */
  predicate UpdateAllowed(current: string, next: string) {
    current == next || next in LegalTransitions(current)
  }

  /** The states a task can still leave. */
  predicate Unfinished(status: string) {
    status in {"queued", "authorized", "dispatched", "running", "blocked"}
  }

  /** A finished task is never reactivated. */
  lemma FinishedStaysFinished(current: string, next: string)
    requires UpdateAllowed(current, next) && !Unfinished(current)
    ensures next == current
  {
  }

  const ROUND := ["queued", "authorized", "dispatched", "running", "blocked", "queued"]

  predicate NextInRound(current: string, next: string) {
    exists k :: 0 <= k < 5 && ROUND[k] == current && ROUND[k + 1] == next
  }

  /** The unfinished statuses form a round, so that from each of them all the others can be reached. The
      only other ways are out (done, from where it is worked on; cancelled; failed), into blocked, and from
      there straight to dispatched. */
  lemma UpdatesAreRound(current: string, next: string)
    requires Unfinished(current)
    ensures UpdateAllowed(current, next) <==>
      || next == current || NextInRound(current, next)
      || next in {"cancelled", "failed", "blocked"}
      || (next == "completed" && current in {"dispatched", "running"})
      || (next == "dispatched" && current == "blocked")
  {
    var r := ROUND;
    assert r[0] == "queued" && r[1] == "authorized" && r[2] == "dispatched" && r[3] == "running" && r[4] == "blocked" && r[5] == "queued";
    assert |"queued"| == 6 && |"authorized"| == 10 && |"dispatched"| == 10 && |"running"| == 7 && |"blocked"| == 7;
    assert r[1][0] == 'a' && r[2][0] == 'd' && r[3][0] == 'r' && r[4][0] == 'b';
  }
}
