/** What the SQL statements do to one row of the task and compensation_task tables
    (infrastructure/persistence/task_repository.go, compensation_task_repository.go), and the
    arithmetic of retries that follows from it. */
module Rows {
  import opened StateMachine
  import opened Domain

  /** The rows that CancelByExecution and HasActiveTasks select. */
  predicate Active(r: Row) {
    r.state == Created || r.state == Running
  }

  /** The WHERE clause of FindAndLockPending, the queue aside. */
  predicate Eligible(r: Row, now: int) {
    || (r.state == Created && r.scheduledAt <= now)
    || (r.state == Running && r.lockedUntil.Some? && r.lockedUntil.value < now)
  }

  function LockRow(r: Row, now: int, lease: int): Row {
    r.(state := Running, lockedUntil := Some(now + lease), attempt := r.attempt + 1)
  }

  /** Lease length of a compensation task: 300 seconds unless the row has a positive timeout. */
  function CompensationLease(r: Row): int {
    if r.timeoutSeconds <= 0 then 300 else r.timeoutSeconds
  }

  function RenewRow(r: Row, now: int, lease: int): Row {
    r.(lockedUntil := Some(now + lease))
  }

  /** UpdateCompleted: there is no guard on the row's present state. */
  function ReportRow(r: Row, result: Bytes, err: string): Row {
    r.(state := if err != "" then Failed else Completed, output := result, error := err)
  }

  function CancelRow(r: Row): Row {
    if Active(r) then r.(state := Cancelled, lockedUntil := None) else r
  }

  function CancelRows(rows: map<int, Row>): map<int, Row> {
    map id | id in rows :: CancelRow(rows[id])
  }

  function Backoff(attempt: int): int {
    (attempt + 1) * (attempt + 1) * 5
  }

  /** The row inserted in place of a failed one. */
  function RetryRow(r: Row, now: int): Row {
    r.(state := Created, output := [], error := "", attempt := r.attempt + 1,
       scheduledAt := now + Backoff(r.attempt), lockedUntil := None)
  }

  // ---------------------------------------------------------------- retry arithmetic

  /** Seconds between the first lease and the earliest lease after retry n. */
  function BackoffSum(n: nat): nat {
    if n == 0 then 0 else BackoffSum(n - 1) + 20 * n * n
  }

  lemma {:induction false} BackoffSumClosedForm(n: nat)
    ensures 3 * BackoffSum(n) == 10 * n * (n + 1) * (2 * n + 1)
  {
    if n > 0 {
      BackoffSumClosedForm(n - 1);
      ClosedFormGrows(n);
    }
  }

  lemma ClosedFormGrows(n: nat)
    requires n > 0
    ensures 10 * (n - 1) * n * (2 * (n - 1) + 1) + 3 * (20 * n * n) == 10 * n * (n + 1) * (2 * n + 1)
  {
    calc {
      10 * (n - 1) * n * (2 * (n - 1) + 1) + 3 * (20 * n * n);
      10 * n * ((n - 1) * (2 * n - 1)) + 10 * n * (6 * n);
      10 * n * ((n - 1) * (2 * n - 1) + 6 * n);
      { assert (n - 1) * (2 * n - 1) + 6 * n == (n + 1) * (2 * n + 1); }
      10 * n * ((n + 1) * (2 * n + 1));
    }
  }

  lemma BackoffGrows(attempt: int, n: nat)
    requires attempt >= 2 * n + 1
    ensures BackoffSum(n + 1) <= BackoffSum(n) + Backoff(attempt)
  {
    var a, b := attempt + 1, 2 * (n + 1);
    assert a * a >= a * b >= b * b;
    assert b * b * 5 == 20 * (n + 1) * (n + 1);
  }

  // ---------------------------------------------------------------- leases

  /** Renewing never shortens the lease of a task row, because its lease and its renewal have the
      same length. The renewal of a compensation row is always five minutes, so it keeps the
      promise of every earlier grant if and only if the row's timeout is at most 300 seconds. */
  lemma RenewalKeepsLease(r: Row, granted: int, now: int)
    requires granted <= now
    ensures RenewRow(LockRow(r, granted, r.timeoutSeconds), now, r.timeoutSeconds).lockedUntil.value
            >= LockRow(r, granted, r.timeoutSeconds).lockedUntil.value
    ensures (forall later {:trigger RenewRow(LockRow(r, granted, CompensationLease(r)), later, 300)} ::
               granted <= later ==>
                 RenewRow(LockRow(r, granted, CompensationLease(r)), later, 300).lockedUntil.value
                 >= LockRow(r, granted, CompensationLease(r)).lockedUntil.value)
            <==> r.timeoutSeconds <= 300
  {
    var first := RenewRow(LockRow(r, granted, CompensationLease(r)), granted, 300);
    assert first.lockedUntil.value == granted + 300;
  }
}
