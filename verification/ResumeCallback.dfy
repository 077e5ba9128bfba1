/** One resume callback and one dead-letter move, as they change the FlowRun row and the unit. */
module ResumeCallback {
  import opened Prelude
  import RC = ResumeClaim
  import EU = ExecutionUnits

  class FlowRunRow {
    var status: RC.Status
    var waitingFor: Option<string>
    var waitDeadline: Option<int>
    var deadLetterReason: Option<string>
    var errorMessage: Option<string>
    var completedAt: Option<int>
    var deadLetteredAt: Option<int>
    var updatedAt: int

    constructor (status: RC.Status, waitingFor: Option<string>, waitDeadline: Option<int>, updatedAt: int)
      ensures this.status == status && this.waitingFor == waitingFor && this.waitDeadline == waitDeadline
      ensures deadLetterReason == None && errorMessage == None && completedAt == None && deadLetteredAt == None
      ensures this.updatedAt == updatedAt
    {
      this.status, this.waitingFor, this.waitDeadline := status, waitingFor, waitDeadline;
      deadLetterReason, errorMessage, completedAt, deadLetteredAt := None, None, None, None;
      this.updatedAt := updatedAt;
    }

    /** UPDATE ... WHERE status = 'waiting', then commit. */
    method ClaimWaiting(commitOk: bool) returns (won: bool)
      modifies this`status
      ensures won <==> old(status).Waiting? && commitOk
      ensures status == if won then RC.Executing else old(status)
    {
      var rows := if status.Waiting? then 1 else 0;
      if !commitOk {
        return false;
      }
      if rows == 0 {
        return false;
      }
      status := RC.Executing;
      won := true;
    }

    /** The competing transition: only from waiting, and then with all its fields. */
    method MoveToDeadLetter(reason: string, now: int, commitOk: bool) returns (moved: bool)
      modifies this
      ensures moved <==> old(status).Waiting? && commitOk
      ensures !moved ==> unchanged(this)
      ensures moved ==>
                && status == RC.DeadLetter
                && deadLetterReason == Some(reason) && errorMessage == Some(reason)
                && waitingFor == None && waitDeadline == None
                && completedAt == Some(now) && deadLetteredAt == Some(now) && updatedAt == now
    {
      if !status.Waiting? || !commitOk {
        return false;
      }
      status := RC.DeadLetter;
      deadLetterReason, errorMessage := Some(reason), Some(reason);
      waitingFor, waitDeadline := None, None;
      completedAt, deadLetteredAt, updatedAt := Some(now), Some(now), now;
      moved := true;
    }
  }

  /** The callback up to the point where it hands over to the flow runner. `ran` tells whether it
      did; otherwise neither the row nor any unit has changed. */
  method Callback(row: FlowRunRow, units: EU.ExecutionUnitService, found: bool, eu: Option<nat>,
                  commitOk: bool, now: int)
    returns (ran: bool)
    modifies row`status, units
    ensures ran <==> found && commitOk && old(row.status).Waiting?
    ensures !ran ==> row.status == old(row.status) && units.rows == old(units.rows)
    ensures ran ==>
              && row.status == RC.Executing
              && units.rows == (if eu.Some? then EU.Resume(old(units.rows), eu.value, now).0 else old(units.rows))
  {
    if !found {
      return false;
    }
    var won := row.ClaimWaiting(commitOk);
    if !won {
      return false;
    }
    if eu.Some? {
      var resumed := units.ResumeUnit(eu.value, now);
    }
    ran := true;
  }

  /** Callbacks fired one after another, with no other writer between them: the first whose commit
      succeeds runs and every later one leaves row and units alone. */
  method FireAll(row: FlowRunRow, units: EU.ExecutionUnitService, commits: seq<bool>, eu: Option<nat>, now: int)
    returns (runs: nat)
    modifies row`status, units
    ensures runs == (if old(row.status).Waiting? && true in commits then 1 else 0)
    ensures runs == 0 ==> row.status == old(row.status) && units.rows == old(units.rows)
    ensures runs == 1 ==>
              && row.status == RC.Executing
              && units.rows == (if eu.Some? then EU.Resume(old(units.rows), eu.value, now).0 else old(units.rows))
  {
    runs := 0;
    var i := 0;
    while i < |commits|
      invariant i <= |commits|
      invariant runs == (if old(row.status).Waiting? && true in commits[..i] then 1 else 0)
      invariant runs == 0 ==> row.status == old(row.status) && units.rows == old(units.rows)
      invariant runs == 1 ==>
                  && row.status == RC.Executing
                  && units.rows == (if eu.Some? then EU.Resume(old(units.rows), eu.value, now).0 else old(units.rows))
    {
      assert commits[..i + 1] == commits[..i] + [commits[i]];
      var ran := Callback(row, units, true, eu, commits[i], now);
      if ran {
        runs := runs + 1;
      }
      i := i + 1;
    }
    assert commits[..i] == commits;
  }
}
