/** Reconciliation of asynchronous tasks, `models/llm/react_async_task_sync.go`: leases claimed by
    competing workers, and status observations that arrive late, twice or out of order.

    A transaction is one atomic step on the table of rows.  Columns hold the stored values, so an unset
    time is the sentinel of `react_async_task.go`, which is before every clock reading. */
module AsyncTask {
  import opened Common

  type Time = int

  const UNSET: Time := 0
  const DEFAULT_LIMIT := 100

  datatype Execution = Unmanaged | Processing | Succeeded | Failed

  predicate IsTerminal(e: Execution) {
    e.Succeeded? || e.Failed?
  }

  datatype Row = Row(
    id: nat, scheduler: string, taskKey: string,
    execution: Execution, provider: string, progress: int, error: string,
    eventId: string, sequence: int, observedAt: Time, completedAt: Time,
    nextSyncAt: Time, retryCount: nat, leaseOwner: string, leaseUntil: Time, syncError: string)

  datatype Observation = Observation(
    execution: Execution, provider: string, progress: Option<int>, error: string,
    eventId: string, sequence: int, at: Time)

  /** `locked` are the rows that other transactions hold (`SKIP LOCKED`). */
  datatype ClaimArgs = ClaimArgs(
    scheduler: string, owner: string, now: Time, staleBefore: Time, limit: int, lease: int, locked: set<nat>)

  // ---------- the effect on one row ----------

  predicate Eligible(r: Row, scheduler: string, key: string, o: Observation) {
    && r.scheduler == scheduler && r.taskKey == key
    && (r.execution.Processing? || (IsTerminal(o.execution) && r.execution == o.execution))
  }

  predicate Accepts(r: Row, o: Observation) {
    && !(r.eventId != "" && o.eventId != "" && r.eventId == o.eventId)
    && !(o.sequence > 0 && r.sequence > 0 && o.sequence <= r.sequence)
    && !(r.observedAt != UNSET && o.at < r.observedAt)
    && !(IsTerminal(r.execution) && o.execution != r.execution)
  }

  predicate Takes(r: Row, scheduler: string, key: string, o: Observation) {
    Eligible(r, scheduler, key, o) && Accepts(r, o)
  }

  function Observed(r: Row, o: Observation): Row {
    var r1 := r.(execution := o.execution, provider := o.provider, error := o.error, observedAt := o.at,
                 retryCount := 0, syncError := "", leaseOwner := "", leaseUntil := UNSET);
    var r2 := if o.progress.Some? then r1.(progress := o.progress.value) else r1;
    var r3 := if o.eventId != "" then r2.(eventId := o.eventId) else r2;
    var r4 := if o.sequence > 0 then r3.(sequence := o.sequence) else r3;
    if IsTerminal(o.execution) then r4.(completedAt := o.at, nextSyncAt := UNSET) else r4
  }

  function Observe(r: Row, scheduler: string, key: string, o: Observation): Row {
    if Eligible(r, scheduler, key, o) && Accepts(r, o) then Observed(r, o) else r
  }

  function Retried(r: Row, owner: string, next: Time, cause: string): Row {
    if r.leaseOwner == owner then
      r.(retryCount := r.retryCount + 1, syncError := cause, nextSyncAt := next, leaseOwner := "", leaseUntil := UNSET)
    else r
  }

  function Released(r: Row, owner: string, next: Time): Row {
    if r.leaseOwner == owner then r.(nextSyncAt := next, leaseOwner := "", leaseUntil := UNSET) else r
  }

  predicate Claimable(r: Row, a: ClaimArgs) {
    && r.scheduler == a.scheduler && r.execution.Processing?
    && r.nextSyncAt <= a.now && r.leaseUntil < a.now && r.observedAt <= a.staleBefore
    && r.id !in a.locked
  }

  function Leased(r: Row, a: ClaimArgs): Row {
    r.(leaseOwner := a.owner, leaseUntil := a.now + a.lease)
  }

  // ---------- the effect on the table ----------

  datatype Step =
    | ClaimStep(a: ClaimArgs)
    | ObserveStep(scheduler: string, key: string, o: Observation)
    | RetryStep(id: nat, owner: string, next: Time, cause: string)
    | ReleaseStep(id: nat, owner: string, next: Time)

  function Limit(a: ClaimArgs): nat {
    if a.limit <= 0 then DEFAULT_LIMIT else a.limit
  }

  function CountClaimable(rows: seq<Row>, a: ClaimArgs): nat {
    if |rows| == 0 then 0
    else CountClaimable(rows[..|rows| - 1], a) + if Claimable(rows[|rows| - 1], a) then 1 else 0
  }

  /** Row `i` is among the first claimable rows, in id order, that fit the limit. */
  predicate Taken(rows: seq<Row>, a: ClaimArgs, i: nat)
    requires i < |rows|
  {
    Claimable(rows[i], a) && CountClaimable(rows[..i], a) < Limit(a)
  }

  function CountTakers(rows: seq<Row>, scheduler: string, key: string, o: Observation): nat {
    if |rows| == 0 then 0
    else
      var r := rows[|rows| - 1];
      CountTakers(rows[..|rows| - 1], scheduler, key, o) + if Eligible(r, scheduler, key, o) && Accepts(r, o) then 1 else 0
  }

  function StepRow(rows: seq<Row>, step: Step, i: nat): Row
    requires i < |rows|
  {
    match step
    case ClaimStep(a) => if Taken(rows, a, i) then Leased(rows[i], a) else rows[i]
    case ObserveStep(scheduler, key, o) => Observe(rows[i], scheduler, key, o)
    case RetryStep(id, owner, next, cause) => if rows[i].id == id then Retried(rows[i], owner, next, cause) else rows[i]
    case ReleaseStep(id, owner, next) => if rows[i].id == id then Released(rows[i], owner, next) else rows[i]
  }

  function Apply(rows: seq<Row>, step: Step): seq<Row> {
    seq(|rows|, i requires 0 <= i < |rows| => StepRow(rows, step, i))
  }

  ghost predicate IsRun(states: seq<seq<Row>>, steps: seq<Step>) {
    && |states| == |steps| + 1
    && forall k :: 0 <= k < |steps| ==> states[k + 1] == Apply(states[k], steps[k])
  }

  class TaskTable {
    /** In id order. */
    var rows: seq<Row>

    constructor (rows: seq<Row>)
      ensures this.rows == rows
    {
      this.rows := rows;
    }

    /** The locking select: the first claimable rows in id order. */
    method SelectCandidates(a: ClaimArgs) returns (candidates: seq<nat>)
      ensures |candidates| <= Limit(a)
      ensures forall x, y :: 0 <= x < y < |candidates| ==> candidates[x] < candidates[y]
      ensures forall j: nat :: j in candidates <==> j < |rows| && Taken(rows, a, j)
    {
      var limit := if a.limit <= 0 then DEFAULT_LIMIT else a.limit;
      candidates := [];
      for i := 0 to |rows|
        invariant |candidates| == if CountClaimable(rows[..i], a) < limit then CountClaimable(rows[..i], a) else limit
        invariant forall x :: 0 <= x < |candidates| ==> candidates[x] < i
        invariant forall x, y :: 0 <= x < y < |candidates| ==> candidates[x] < candidates[y]
        invariant forall j: nat :: j in candidates <==> j < i && Taken(rows, a, j)
      {
        assert rows[..i + 1][..i] == rows[..i];
        if Claimable(rows[i], a) && |candidates| < limit {
          candidates := candidates + [i];
        }
      }
    }

    /** The updates of the selected rows; each repeats the conditions that matter. */
    method LeaseAll(candidates: seq<nat>, a: ClaimArgs) returns (claimed: seq<Row>)
      requires forall x, y :: 0 <= x < y < |candidates| ==> candidates[x] < candidates[y]
      requires forall x :: 0 <= x < |candidates| ==> candidates[x] < |rows| && Claimable(rows[candidates[x]], a)
      modifies this
      ensures |rows| == |old(rows)|
      ensures forall j: nat :: j < |rows| ==> rows[j] == if j in candidates then Leased(old(rows)[j], a) else old(rows)[j]
      ensures |claimed| == |candidates|
      ensures forall x :: 0 <= x < |claimed| ==> claimed[x] == Leased(old(rows)[candidates[x]], a)
    {
      claimed := [];
      for n := 0 to |candidates|
        invariant |claimed| == n && |rows| == |old(rows)|
        invariant forall x :: n <= x < |candidates| ==> rows[candidates[x]] == old(rows)[candidates[x]]
        invariant forall x :: 0 <= x < n ==> rows[candidates[x]] == Leased(old(rows)[candidates[x]], a)
        invariant forall j: nat :: j < |rows| && j !in candidates ==> rows[j] == old(rows)[j]
        invariant forall x :: 0 <= x < n ==> claimed[x] == Leased(old(rows)[candidates[x]], a)
      {
        var c := candidates[n];
        if rows[c].execution.Processing? && rows[c].leaseUntil < a.now {
          rows := rows[c := rows[c].(leaseOwner := a.owner, leaseUntil := a.now + a.lease)];
          claimed := claimed + [rows[c]];
        }
      }
    }

    /** One transaction: select the candidates under lock, then lease each of them. */
    method ClaimTasks(a: ClaimArgs) returns (claimed: seq<Row>)
      modifies this
      ensures rows == Apply(old(rows), ClaimStep(a))
      ensures |claimed| <= Limit(a)
      ensures forall i: nat :: i < |old(rows)| && Taken(old(rows), a, i) ==> rows[i] in claimed
      ensures forall r :: r in claimed ==> exists i: nat :: i < |old(rows)| && Taken(old(rows), a, i) && r == rows[i]
    {
      var candidates := SelectCandidates(a);
      assert forall x :: 0 <= x < |candidates| ==> candidates[x] in candidates;
      claimed := LeaseAll(candidates, a);
      forall i: nat | i < |old(rows)| && Taken(old(rows), a, i)
        ensures rows[i] in claimed
      {
        var x :| 0 <= x < |candidates| && candidates[x] == i;
        assert claimed[x] == rows[i];
      }
    }

    /** The body of the observation loop for one row. */
    static method ApplyToRow(task: Row, o: Observation) returns (changed: bool, row: Row)
      ensures changed == Accepts(task, o)
      ensures row == if changed then Observed(task, o) else task
    {
      changed, row := false, task;
      if task.eventId != "" && o.eventId != "" && task.eventId == o.eventId { return; }
      if o.sequence > 0 && task.sequence > 0 && o.sequence <= task.sequence { return; }
      if task.observedAt != UNSET && o.at < task.observedAt { return; }
      if IsTerminal(task.execution) && o.execution != task.execution { return; }
      changed := true;
      row := row.(execution := o.execution, provider := o.provider, error := o.error, observedAt := o.at,
                  retryCount := 0, syncError := "", leaseOwner := "", leaseUntil := UNSET);
      if o.progress.Some? { row := row.(progress := o.progress.value); }
      if o.eventId != "" { row := row.(eventId := o.eventId); }
      if o.sequence > 0 { row := row.(sequence := o.sequence); }
      if IsTerminal(o.execution) { row := row.(completedAt := o.at, nextSyncAt := UNSET); }
    }

    /** One transaction over all rows of a task; returns how many rows it updated. */
    method ApplyObservation(scheduler: string, key: string, o: Observation) returns (affected: nat)
      modifies this
      ensures rows == Apply(old(rows), ObserveStep(scheduler, key, o))
      ensures affected == CountTakers(old(rows), scheduler, key, o)
    {
      affected := 0;
      for i := 0 to |rows|
        invariant |rows| == |old(rows)| && affected == CountTakers(old(rows)[..i], scheduler, key, o)
        invariant forall j :: 0 <= j < |rows| ==>
                    rows[j] == if j < i then Observe(old(rows)[j], scheduler, key, o) else old(rows)[j]
      {
        assert old(rows)[..i + 1][..i] == old(rows)[..i];
        if Eligible(rows[i], scheduler, key, o) {
          var changed, row := ApplyToRow(rows[i], o);
          if changed {
            rows := rows[i := row];
            affected := affected + 1;
          }
        }
      }
      assert old(rows)[..|rows|] == old(rows);
    }

    /** `UPDATE ... WHERE id = ? AND lease_owner = ?`. */
    method ScheduleRetry(id: nat, owner: string, next: Time, cause: string)
      modifies this
      ensures rows == Apply(old(rows), RetryStep(id, owner, next, cause))
    {
      for i := 0 to |rows|
        invariant |rows| == |old(rows)|
        invariant forall j :: 0 <= j < |rows| ==>
                    rows[j] == if j < i then StepRow(old(rows), RetryStep(id, owner, next, cause), j) else old(rows)[j]
      {
        if rows[i].id == id && rows[i].leaseOwner == owner {
          rows := rows[i := rows[i].(retryCount := rows[i].retryCount + 1, syncError := cause,
                                     nextSyncAt := next, leaseOwner := "", leaseUntil := UNSET)];
        }
      }
    }

    method ReleaseLease(id: nat, owner: string, next: Time)
      modifies this
      ensures rows == Apply(old(rows), ReleaseStep(id, owner, next))
    {
      for i := 0 to |rows|
        invariant |rows| == |old(rows)|
        invariant forall j :: 0 <= j < |rows| ==>
                    rows[j] == if j < i then StepRow(old(rows), ReleaseStep(id, owner, next), j) else old(rows)[j]
      {
        if rows[i].id == id && rows[i].leaseOwner == owner {
          rows := rows[i := rows[i].(nextSyncAt := next, leaseOwner := "", leaseUntil := UNSET)];
        }
      }
    }
  }

  // ---------- leases over whole runs ----------

  /** The step gives up the lease on row `i`: an accepted observation, or the owner's retry or release. */
  predicate Clears(rows: seq<Row>, step: Step, i: nat)
    requires i < |rows|
  {
    match step
    case ClaimStep(_) => false
    case ObserveStep(scheduler, key, o) => Eligible(rows[i], scheduler, key, o) && Accepts(rows[i], o)
    case RetryStep(id, owner, _, _) => rows[i].id == id && rows[i].leaseOwner == owner
    case ReleaseStep(id, owner, _) => rows[i].id == id && rows[i].leaseOwner == owner
  }

  predicate Claims(rows: seq<Row>, step: Step, i: nat)
    requires i < |rows|
  {
    step.ClaimStep? && Taken(rows, step.a, i)
  }

  ghost predicate NoClear(states: seq<seq<Row>>, steps: seq<Step>, i: nat, m: nat, n: nat)
    requires IsRun(states, steps) && n <= |steps|
  {
    forall k :: m < k < n ==> i < |states[k]| && !Clears(states[k], steps[k], i)
  }

  lemma {:induction false} TableSize(states: seq<seq<Row>>, steps: seq<Step>, k: nat)
    requires IsRun(states, steps) && k < |states|
    ensures |states[k]| == |states[0]|
  {
    if k > 0 {
      TableSize(states, steps, k - 1);
    }
  }

  ghost predicate LeasesForward(steps: seq<Step>) {
    forall k :: 0 <= k < |steps| && steps[k].ClaimStep? ==> steps[k].a.lease >= 0
  }

  lemma {:induction false} LeaseOutlasts(states: seq<seq<Row>>, steps: seq<Step>, i: nat, m: nat, n: nat)
    requires IsRun(states, steps) && LeasesForward(steps) && i < |states[0]| && m < n <= |steps|
    requires |states[m]| == |states[0]| && Claims(states[m], steps[m], i) && NoClear(states, steps, i, m, n)
    ensures |states[n]| == |states[0]| && states[n][i].leaseUntil >= steps[m].a.now + steps[m].a.lease
    decreases n
  {
    if n > m + 1 {
      LeaseOutlasts(states, steps, i, m, n - 1);
    }
  }

  /** Two claims of one row with no clearing step between them are further apart than the first lease. */
  lemma LeaseExclusion(states: seq<seq<Row>>, steps: seq<Step>, i: nat, m: nat, n: nat)
    requires IsRun(states, steps) && LeasesForward(steps) && i < |states[0]| && m < n < |steps|
    requires |states[m]| == |states[0]| && Claims(states[m], steps[m], i) && NoClear(states, steps, i, m, n)
    requires |states[n]| == |states[0]| && Claims(states[n], steps[n], i)
    ensures steps[n].a.now > steps[m].a.now + steps[m].a.lease
  {
    LeaseOutlasts(states, steps, i, m, n);
  }

  /** Until the lease runs out on the clocks of all claimers, or is cleared, the claimer is the owner. */
  lemma {:induction false} LeaseHeld(states: seq<seq<Row>>, steps: seq<Step>, i: nat, m: nat, n: nat)
    requires IsRun(states, steps) && i < |states[0]| && m < n <= |steps|
    requires |states[m]| == |states[0]| && Claims(states[m], steps[m], i) && NoClear(states, steps, i, m, n)
    requires forall k :: m < k < n && steps[k].ClaimStep? ==> steps[k].a.now <= steps[m].a.now + steps[m].a.lease
    ensures |states[n]| == |states[0]| && states[n][i].leaseOwner == steps[m].a.owner
    ensures states[n][i].leaseUntil == steps[m].a.now + steps[m].a.lease
    decreases n
  {
    if n > m + 1 {
      LeaseHeld(states, steps, i, m, n - 1);
    }
  }

  /** A worker that is not the owner of a row, and does not claim it again, can no longer change it. */
  lemma {:induction false} FencedOut(states: seq<seq<Row>>, steps: seq<Step>, i: nat, m: nat, n: nat, owner: string)
    requires IsRun(states, steps) && i < |states[0]| && m <= n < |steps| && owner != ""
    requires |states[m]| == |states[0]| && states[m][i].leaseOwner != owner
    requires forall k :: m <= k < n && i < |states[k]| && Claims(states[k], steps[k], i) ==> steps[k].a.owner != owner
    ensures |states[n]| == |states[0]| && states[n][i].leaseOwner != owner
    ensures (steps[n].RetryStep? || steps[n].ReleaseStep?) && steps[n].owner == owner ==> states[n + 1][i] == states[n][i]
    decreases n
  {
    if n > m {
      FencedOut(states, steps, i, m, n - 1, owner);
    }
  }

  predicate TerminalIsFree(r: Row) {
    IsTerminal(r.execution) ==> r.leaseOwner == "" && r.leaseUntil == UNSET
  }

  /** A terminal row has no owner, keeps its status, and is never claimed again. */
  lemma {:induction false} TerminalForGood(states: seq<seq<Row>>, steps: seq<Step>, i: nat, m: nat, n: nat)
    requires IsRun(states, steps) && i < |states[0]| && m <= n <= |steps|
    requires TerminalIsFree(states[0][i])
    requires |states[m]| == |states[0]|
    ensures |states[n]| == |states[0]| && TerminalIsFree(states[n][i])
    ensures IsTerminal(states[m][i].execution) ==> states[n][i].execution == states[m][i].execution
    ensures IsTerminal(states[m][i].execution) && n < |steps| ==> !Claims(states[n], steps[n], i)
    decreases n
  {
    if n > m {
      TerminalForGood(states, steps, i, m, n - 1);
    } else if n > 0 {
      TableSize(states, steps, n - 1);
      TerminalForGood(states, steps, i, n - 1, n - 1);
    }
  }

  /** The empty name is no fence: it is the owner recorded on every free row, even a terminal one. */
  lemma EmptyOwnerIsNoFence(r: Row, next: Time, cause: string)
    requires r.leaseOwner == ""
    ensures Retried(r, "", next, cause) != r
    ensures Released(r, "", next) != r <==> r.nextSyncAt != next || r.leaseUntil != UNSET
  {
  }

  // ---------- which rows a claim takes ----------

  /** What the claim's query asks for: rows of its scheduler that are processing, not locked by others, due, out
      of lease, and not observed since `staleBefore`. */
  function DueRows(rows: seq<Row>, a: ClaimArgs): set<nat> {
    set i: nat |
      && i < |rows| && rows[i].scheduler == a.scheduler && rows[i].execution == Processing && rows[i].id !in a.locked
      && rows[i].nextSyncAt <= a.now && rows[i].leaseUntil < a.now && rows[i].observedAt <= a.staleBefore
  }

  /** The due rows among the first `n`, and those of them that fit the limit. */
  function DueBefore(rows: seq<Row>, a: ClaimArgs, n: nat): set<nat> {
    set i: nat | i in DueRows(rows, a) && i < n
  }

  function TakenBefore(rows: seq<Row>, a: ClaimArgs, n: nat): set<nat>
    requires n <= |rows|
  {
    set i: nat | i < n && Taken(rows, a, i)
  }

  lemma CardNext(s: set<nat>, s': set<nat>, k: nat, more: bool)
    requires k !in s && s' == if more then s + {k} else s
    ensures |s'| == |s| + if more then 1 else 0
  {
  }

  lemma CountNext(rows: seq<Row>, a: ClaimArgs, k: nat)
    requires k < |rows|
    ensures CountClaimable(rows[..k + 1], a) == CountClaimable(rows[..k], a) + if Claimable(rows[k], a) then 1 else 0
  {
    assert rows[..k + 1][..k] == rows[..k];
  }

  lemma DueNext(rows: seq<Row>, a: ClaimArgs, k: nat)
    requires k < |rows|
    ensures |DueBefore(rows, a, k + 1)| == |DueBefore(rows, a, k)| + if Claimable(rows[k], a) then 1 else 0
  {
    CardNext(DueBefore(rows, a, k), DueBefore(rows, a, k + 1), k, Claimable(rows[k], a));
  }

  lemma TakenNext(rows: seq<Row>, a: ClaimArgs, k: nat)
    requires k < |rows|
    ensures |TakenBefore(rows, a, k + 1)| == |TakenBefore(rows, a, k)| + if Taken(rows, a, k) then 1 else 0
  {
    var before, after := TakenBefore(rows, a, k), TakenBefore(rows, a, k + 1);
    assert forall i :: i in after <==> i in before || (i == k && Taken(rows, a, k));
    CardNext(before, after, k, Taken(rows, a, k));
  }

  lemma {:induction false} DueCount(rows: seq<Row>, a: ClaimArgs, n: nat)
    requires n <= |rows|
    ensures |DueBefore(rows, a, n)| == CountClaimable(rows[..n], a)
  {
    if n > 0 {
      DueCount(rows, a, n - 1);
      DueNext(rows, a, n - 1);
      CountNext(rows, a, n - 1);
    }
  }

  lemma {:induction false} TakenCount(rows: seq<Row>, a: ClaimArgs, n: nat)
    requires n <= |rows|
    ensures |TakenBefore(rows, a, n)| ==
            if CountClaimable(rows[..n], a) < Limit(a) then CountClaimable(rows[..n], a) else Limit(a)
  {
    if n > 0 {
      TakenCount(rows, a, n - 1);
      TakenNext(rows, a, n - 1);
      CountNext(rows, a, n - 1);
    }
  }

  lemma {:induction false} CountMonotone(rows: seq<Row>, a: ClaimArgs, i: nat, j: nat)
    requires i <= j <= |rows|
    ensures CountClaimable(rows[..i], a) <= CountClaimable(rows[..j], a)
    decreases j
  {
    if i < j {
      CountMonotone(rows, a, i, j - 1);
      assert rows[..j][..j - 1] == rows[..j - 1];
    }
  }

  /** The claimed rows are the lowest of the due ones, all of them if they fit the limit. */
  ghost predicate LowestDue(rows: seq<Row>, a: ClaimArgs, taken: set<nat>) {
    var cap := if a.limit <= 0 then 100 else a.limit;
    && taken <= DueRows(rows, a)
    && (forall i, j :: i in DueRows(rows, a) && j in taken && i < j ==> i in taken)
    && |taken| == if |DueRows(rows, a)| < cap then |DueRows(rows, a)| else cap
  }

  /** The rows of `taken` got the owner and the lease of the claim, and no other row changed. */
  ghost predicate Leases(rows: seq<Row>, a: ClaimArgs, taken: set<nat>, rows': seq<Row>) {
    && |rows'| == |rows|
    && forall i :: 0 <= i < |rows| ==>
         rows'[i] == if i in taken then rows[i].(leaseOwner := a.owner, leaseUntil := a.now + a.lease) else rows[i]
  }

  /** A claim leases exactly the lowest due rows. */
  lemma ClaimTakesLowestDue(rows: seq<Row>, a: ClaimArgs)
    ensures exists taken :: LowestDue(rows, a, taken) && Leases(rows, a, taken, Apply(rows, ClaimStep(a)))
  {
    var taken := TakenBefore(rows, a, |rows|);
    TakenCount(rows, a, |rows|);
    DueCount(rows, a, |rows|);
    assert DueBefore(rows, a, |rows|) == DueRows(rows, a);
    forall i, j | i in DueRows(rows, a) && j in taken && i < j
      ensures i in taken
    {
      CountMonotone(rows, a, i, j);
    }
    assert LowestDue(rows, a, taken) && Leases(rows, a, taken, Apply(rows, ClaimStep(a)));
  }

  lemma FullCard(due: set<nat>, n: nat)
    requires forall i :: i in due ==> i < n
    ensures |due| <= n
  {
    if n > 0 {
      FullCard(due - {n - 1}, n - 1);
      assert n - 1 in due ==> due == (due - {n - 1}) + {n - 1};
      assert n - 1 !in due ==> due == due - {n - 1};
    } else {
      assert due == {};
    }
  }

  lemma WholeSet(taken: set<nat>, due: set<nat>)
    requires taken <= due && |taken| == |due|
    ensures taken == due
  {
    assert due == taken + (due - taken);
    assert |due - taken| == 0;
  }

  /** A claim with a limit for all rows leases a row if and only if it is due. */
  lemma ClaimTakesAllDue(rows: seq<Row>, a: ClaimArgs, i: nat)
    requires i < |rows| && |rows| <= if a.limit <= 0 then 100 else a.limit
    ensures |Apply(rows, ClaimStep(a))| == |rows|
    ensures Apply(rows, ClaimStep(a))[i] ==
            if && rows[i].scheduler == a.scheduler && rows[i].execution == Processing && rows[i].id !in a.locked
               && rows[i].nextSyncAt <= a.now && rows[i].leaseUntil < a.now && rows[i].observedAt <= a.staleBefore
            then rows[i].(leaseOwner := a.owner, leaseUntil := a.now + a.lease) else rows[i]
  {
    ClaimTakesLowestDue(rows, a);
    var taken :| LowestDue(rows, a, taken) && Leases(rows, a, taken, Apply(rows, ClaimStep(a)));
    FullCard(DueRows(rows, a), |rows|);
    WholeSet(taken, DueRows(rows, a));
  }

  /** The step is a retry or a release of row `i` by the owner it has. */
  predicate PutsOff(rows: seq<Row>, step: Step, i: nat)
    requires i < |rows|
  {
    && (step.RetryStep? || step.ReleaseStep?)
    && step.id == rows[i].id && step.owner == rows[i].leaseOwner
  }

  /** A row that its owner put off until `next` is not claimed by a clock before `next`, until it is put off again:
      an observation leaves the time alone or closes the task. */
  lemma {:induction false} PutOffUntil(states: seq<seq<Row>>, steps: seq<Step>, i: nat, m: nat, n: nat)
    requires IsRun(states, steps) && i < |states[0]| && m < n <= |steps|
    requires |states[m]| == |states[0]| && PutsOff(states[m], steps[m], i)
    requires forall k :: m < k < n && i < |states[k]| ==> !PutsOff(states[k], steps[k], i)
    ensures |states[n]| == |states[0]|
    ensures states[n][i].execution == Processing ==> states[n][i].nextSyncAt == steps[m].next
    ensures n < |steps| && steps[n].ClaimStep? && steps[n].a.now < steps[m].next ==> states[n + 1][i] == states[n][i]
    decreases n
  {
    if n > m + 1 {
      PutOffUntil(states, steps, i, m, n - 1);
    }
  }

  // ---------- what a row remembers ----------

  /** Retries since the last observation and the cause of the last one, the two times of the task, and the last
      event id, sequence number and progress that were given. */
  datatype Book = Book(
    retries: nat, cause: string, completedAt: Time, nextSyncAt: Time, eventId: string, sequence: int, progress: int)

  function RowBook(r: Row): Book {
    Book(r.retryCount, r.syncError, r.completedAt, r.nextSyncAt, r.eventId, r.sequence, r.progress)
  }

  /** How one step changes it: an observation that is taken starts over, the owner's retry counts. */
  function NextBook(book: Book, rows: seq<Row>, step: Step, i: nat): Book
    requires i < |rows|
  {
    if step.ObserveStep? && Takes(rows[i], step.scheduler, step.key, step.o) then
      var o, over := step.o, step.o.execution == Succeeded || step.o.execution == Failed;
      Book(0, "", if over then o.at else book.completedAt, if over then UNSET else book.nextSyncAt,
           if o.eventId == "" then book.eventId else o.eventId, if o.sequence <= 0 then book.sequence else o.sequence,
           if o.progress == None then book.progress else o.progress.value)
    else if PutsOff(rows, step, i) then
      if step.RetryStep? then book.(retries := book.retries + 1, cause := step.cause, nextSyncAt := step.next)
      else book.(nextSyncAt := step.next)
    else book
  }

  lemma BookStep(rows: seq<Row>, step: Step, i: nat)
    requires i < |rows|
    ensures RowBook(StepRow(rows, step, i)) == NextBook(RowBook(rows[i]), rows, step, i)
  {
  }

  /** Read off the steps of a run, from what the row held at its start. */
  ghost function BookOf(states: seq<seq<Row>>, steps: seq<Step>, i: nat, n: nat): Book
    requires |states| == |steps| + 1 && n <= |steps| && i < |states[0]|
  {
    if n == 0 then RowBook(states[0][i])
    else if i >= |states[n - 1]| then BookOf(states, steps, i, n - 1)
    else NextBook(BookOf(states, steps, i, n - 1), states[n - 1], steps[n - 1], i)
  }

  /** An observation that is taken, and the owner's retry or release, leave the row without owner and lease. */
  lemma StepFrees(rows: seq<Row>, step: Step, i: nat)
    requires i < |rows|
    requires (step.ObserveStep? && Takes(rows[i], step.scheduler, step.key, step.o)) || PutsOff(rows, step, i)
    ensures StepRow(rows, step, i).leaseOwner == "" && StepRow(rows, step, i).leaseUntil == UNSET
  {
  }

  /** So a row that was put off is claimed again by a claim for all rows once its time has come. */
  lemma DueAgain(rows: seq<Row>, step: Step, i: nat, a: ClaimArgs)
    requires i < |rows| && PutsOff(rows, step, i) && rows[i].execution == Processing
    requires a.scheduler == rows[i].scheduler && rows[i].id !in a.locked && rows[i].observedAt <= a.staleBefore
    requires UNSET < a.now && step.next <= a.now && |rows| <= if a.limit <= 0 then 100 else a.limit
    ensures
      var rows' := Apply(Apply(rows, step), ClaimStep(a));
      |rows'| == |rows| && rows'[i].leaseOwner == a.owner && rows'[i].leaseUntil == a.now + a.lease
  {
    ClaimTakesAllDue(Apply(rows, step), a, i);
  }

  /** The rows that take an observation, as the result of the call counts them. */
  lemma {:induction false} TakersCounted(rows: seq<Row>, scheduler: string, key: string, o: Observation)
    ensures CountTakers(rows, scheduler, key, o) == |set i | 0 <= i < |rows| && Takes(rows[i], scheduler, key, o)|
  {
    var takers := set i | 0 <= i < |rows| && Takes(rows[i], scheduler, key, o);
    if |rows| > 0 {
      var n := |rows| - 1;
      var front := rows[..n];
      var before := set i | 0 <= i < n && Takes(front[i], scheduler, key, o);
      TakersCounted(front, scheduler, key, o);
      assert before == set i | 0 <= i < |front| && Takes(front[i], scheduler, key, o);
      var more := Takes(rows[n], scheduler, key, o);
      assert takers == if more then before + {n} else before;
      assert |takers| == |before| + if more then 1 else 0;
    } else {
      assert takers == {};
    }
  }

  /** In every run the row counts the retries since the last observation it took, and shows the cause of the last of
      them, the time it was put off to, the time it was completed, and the last event id, sequence number and
      progress it was given. */
  lemma {:induction false} BookKept(states: seq<seq<Row>>, steps: seq<Step>, i: nat, n: nat)
    requires IsRun(states, steps) && i < |states[0]| && n <= |steps|
    ensures |states[n]| == |states[0]| && RowBook(states[n][i]) == BookOf(states, steps, i, n)
  {
    if n > 0 {
      BookKept(states, steps, i, n - 1);
      BookStep(states[n - 1], steps[n - 1], i);
    }
  }

  // ---------- convergence of observations ----------

  ghost predicate Fresh(r: Row) {
    r.execution.Processing? && r.sequence == 0 && r.eventId == "" && r.observedAt == UNSET
  }

  /** The row shows what `o` carries; an observation without progress, event id or sequence number leaves
      those columns alone. */
  ghost predicate Shows(r: Row, o: Observation) {
    && r.execution == o.execution && r.provider == o.provider && r.error == o.error && r.observedAt == o.at
    && (o.progress.Some? ==> r.progress == o.progress.value)
    && (o.eventId != "" ==> r.eventId == o.eventId)
    && (o.sequence > 0 ==> r.sequence == o.sequence)
  }

  /** On the columns of two observations: once `a` has been taken, `b` is refused, as a repetition, as out
      of sequence, as older, or because `a` closed the task with another status. */
  predicate Shuts(a: Observation, b: Observation) {
    || (a.eventId != "" && a.eventId == b.eventId)
    || (0 < b.sequence <= a.sequence)
    || (a.at != UNSET && b.at < a.at)
    || !(a.execution.Processing? || (IsTerminal(b.execution) && a.execution == b.execution))
  }

  /** `top` is taken after `p`, and `p` is refused after `top`. */
  predicate Prevails(top: Observation, p: Observation) {
    Shuts(top, p) && !Shuts(p, top)
  }

  ghost predicate PrevailsOverAll(top: Observation, os: set<Observation>) {
    forall p :: p in os && p != top ==> Prevails(top, p)
  }

  /** What was delivered to the task in the first `n` steps. */
  ghost function Delivered(steps: seq<Step>, scheduler: string, key: string, n: nat): set<Observation>
    requires n <= |steps|
  {
    set k | 0 <= k < n && steps[k].ObserveStep? && steps[k].scheduler == scheduler && steps[k].key == key :: steps[k].o
  }

  /** The observation that row `i` took last in the first `n` steps. */
  ghost function LastTaken(states: seq<seq<Row>>, steps: seq<Step>, i: nat, n: nat): Option<Observation>
    requires |states| == |steps| + 1 && n <= |steps|
  {
    if n == 0 then None
    else
      var step := steps[n - 1];
      if step.ObserveStep? && i < |states[n - 1]| && Takes(states[n - 1][i], step.scheduler, step.key, step.o)
      then Some(step.o) else LastTaken(states, steps, i, n - 1)
  }

  /** A run that starts with row `r` at `i` and delivers exactly `os` to its task, in any order, each any
      number of times, with any claims, retries and releases in between. */
  ghost predicate Delivers(states: seq<seq<Row>>, steps: seq<Step>, i: nat, r: Row, os: set<Observation>) {
    && IsRun(states, steps) && i < |states[0]| && states[0][i] == r
    && Delivered(steps, r.scheduler, r.taskKey, |steps|) == os
  }

  /** Before `top` has come, event id and sequence number of the row are from what came. */
  ghost predicate Waiting(r: Row, got: set<Observation>) {
    && (exists l :: l in got && Shows(r, l))
    && (r.eventId == "" || exists e :: e in got && e.eventId == r.eventId)
    && (r.sequence <= 0 || exists e :: e in got && e.sequence == r.sequence)
  }

  ghost predicate UpToDate(r: Row, got: set<Observation>, top: Observation) {
    if got == {} then Fresh(r)
    else if top in got then Shows(r, top)
    else Waiting(r, got)
  }

  lemma TopIsTaken(r: Row, got: set<Observation>, top: Observation)
    requires PrevailsOverAll(top, got) && top !in got && UpToDate(r, got, top)
    ensures Takes(r, r.scheduler, r.taskKey, top)
  {
    if got != {} {
      var l :| l in got && Shows(r, l);
      assert Prevails(top, l);
    }
  }

  lemma OthersAreRefused(r: Row, top: Observation, p: Observation)
    requires Shows(r, top) && Prevails(top, p)
    ensures !Takes(r, r.scheduler, r.taskKey, p)
  {
  }

  lemma WaitingGrows(r: Row, got: set<Observation>, o: Observation)
    requires Waiting(r, got)
    ensures Waiting(r, got + {o})
  {
    var l :| l in got && Shows(r, l);
    assert l in got + {o};
    if r.eventId != "" {
      var e :| e in got && e.eventId == r.eventId;
      assert e in got + {o};
    }
    if r.sequence > 0 {
      var e :| e in got && e.sequence == r.sequence;
      assert e in got + {o};
    }
  }

  lemma TakenIsWaiting(r: Row, got: set<Observation>, o: Observation)
    requires Waiting(r, got) || (got == {} && Fresh(r))
    ensures Waiting(Observed(r, o), got + {o})
  {
    assert Shows(Observed(r, o), o) && o in got + {o};
    if got != {} {
      WaitingGrows(r, got, o);
    }
  }

  lemma ObserveKeepsUpToDate(r: Row, got: set<Observation>, o: Observation, top: Observation)
    requires PrevailsOverAll(top, got + {o}) && UpToDate(r, got, top)
    ensures UpToDate(Observe(r, r.scheduler, r.taskKey, o), got + {o}, top)
  {
    if top in got {
      if o != top {
        assert o in got + {o};
        OthersAreRefused(r, top, o);
      }
    } else if o == top {
      TopIsTaken(r, got, top);
    } else if Takes(r, r.scheduler, r.taskKey, o) {
      TakenIsWaiting(r, got, o);
    } else {
      WaitingGrows(r, got, o);
    }
  }

  function Arrived(step: Step, scheduler: string, key: string): set<Observation> {
    if step.ObserveStep? && step.scheduler == scheduler && step.key == key then {step.o} else {}
  }

  lemma DeliveredNext(steps: seq<Step>, scheduler: string, key: string, n: nat)
    requires 0 < n <= |steps|
    ensures Delivered(steps, scheduler, key, n) == Delivered(steps, scheduler, key, n - 1) + Arrived(steps[n - 1], scheduler, key)
    ensures Delivered(steps, scheduler, key, n) <= Delivered(steps, scheduler, key, |steps|)
  {
  }

  lemma OtherStepsKeepUpToDate(rows: seq<Row>, step: Step, i: nat, got: set<Observation>, top: Observation)
    requires i < |rows| && UpToDate(rows[i], got, top)
    requires Arrived(step, rows[i].scheduler, rows[i].taskKey) == {}
    ensures UpToDate(StepRow(rows, step, i), got, top)
  {
    var r, r' := rows[i], StepRow(rows, step, i);
    assert r'.eventId == r.eventId && r'.sequence == r.sequence;
    if got != {} && top !in got {
      var l :| l in got && Shows(r, l);
      assert Shows(r', l);
    }
  }

  lemma SameTask(rows: seq<Row>, step: Step, i: nat)
    requires i < |rows|
    ensures StepRow(rows, step, i).scheduler == rows[i].scheduler && StepRow(rows, step, i).taskKey == rows[i].taskKey
  {
  }

  lemma {:induction false} RowUpToDate(states: seq<seq<Row>>, steps: seq<Step>, i: nat, n: nat,
                                       scheduler: string, key: string, top: Observation)
    requires IsRun(states, steps) && i < |states[0]| && n <= |steps| && Fresh(states[0][i])
    requires states[0][i].scheduler == scheduler && states[0][i].taskKey == key
    requires PrevailsOverAll(top, Delivered(steps, scheduler, key, |steps|))
    ensures |states[n]| == |states[0]| && states[n][i].scheduler == scheduler && states[n][i].taskKey == key
    ensures UpToDate(states[n][i], Delivered(steps, scheduler, key, n), top)
  {
    if n > 0 {
      RowUpToDate(states, steps, i, n - 1, scheduler, key, top);
      DeliveredNext(steps, scheduler, key, n);
      SameTask(states[n - 1], steps[n - 1], i);
      var got := Delivered(steps, scheduler, key, n - 1);
      if Arrived(steps[n - 1], scheduler, key) == {} {
        OtherStepsKeepUpToDate(states[n - 1], steps[n - 1], i, got, top);
      } else {
        ObserveKeepsUpToDate(states[n - 1][i], got, steps[n - 1].o, top);
      }
    }
  }

  /** Once `top` has come it stays the observation taken last. */
  lemma {:induction false} TopIsLast(states: seq<seq<Row>>, steps: seq<Step>, i: nat, n: nat,
                                     scheduler: string, key: string, top: Observation)
    requires IsRun(states, steps) && i < |states[0]| && n <= |steps| && Fresh(states[0][i])
    requires states[0][i].scheduler == scheduler && states[0][i].taskKey == key
    requires PrevailsOverAll(top, Delivered(steps, scheduler, key, |steps|))
    requires top in Delivered(steps, scheduler, key, n)
    ensures LastTaken(states, steps, i, n) == Some(top)
  {
    RowUpToDate(states, steps, i, n - 1, scheduler, key, top);
    DeliveredNext(steps, scheduler, key, n);
    var r, step := states[n - 1][i], steps[n - 1];
    if top in Delivered(steps, scheduler, key, n - 1) {
      TopIsLast(states, steps, i, n - 1, scheduler, key, top);
      if Arrived(step, scheduler, key) != {} && step.o != top {
        assert step.o in Delivered(steps, scheduler, key, n);
        OthersAreRefused(r, top, step.o);
      }
    } else {
      DeliveredNext(steps, scheduler, key, n);
      TopIsTaken(r, Delivered(steps, scheduler, key, n - 1), top);
    }
  }

  /** Whatever the order, the repetitions, and the claims, retries and releases in between, the observation
      that prevails over the others is taken last and is what the row shows. */
  lemma Convergence(states: seq<seq<Row>>, steps: seq<Step>, i: nat, r: Row, os: set<Observation>, top: Observation)
    requires Delivers(states, steps, i, r, os) && Fresh(r)
    requires top in os && PrevailsOverAll(top, os)
    ensures LastTaken(states, steps, i, |steps|) == Some(top)
    ensures |states[|steps|]| == |states[0]| && Shows(states[|steps|][i], top)
  {
    RowUpToDate(states, steps, i, |steps|, r.scheduler, r.taskKey, top);
    TopIsLast(states, steps, i, |steps|, r.scheduler, r.taskKey, top);
  }

  // ---------- and only then ----------

  lemma {:induction false} Listing(os: set<Observation>) returns (list: seq<Observation>)
    ensures forall o :: o in list <==> o in os
  {
    if os == {} {
      list := [];
    } else {
      var o :| o in os;
      var rest := Listing(os - {o});
      list := [o] + rest;
    }
  }

  /** The run that delivers `list` to the task of the only row. */
  ghost function Trace(r: Row, list: seq<Observation>): (states: seq<seq<Row>>)
    ensures |states| == |list| + 1
    decreases |list|
  {
    if list == [] then [[r]]
    else
      var prev := Trace(r, list[..|list| - 1]);
      var o := list[|list| - 1];
      prev + [Apply(prev[|list| - 1], ObserveStep(r.scheduler, r.taskKey, o))]
  }

  ghost function Feed(r: Row, list: seq<Observation>): (steps: seq<Step>)
    ensures |steps| == |list|
    ensures forall k :: 0 <= k < |list| ==> steps[k] == ObserveStep(r.scheduler, r.taskKey, list[k])
  {
    seq(|list|, k requires 0 <= k < |list| => ObserveStep(r.scheduler, r.taskKey, list[k]))
  }

  lemma {:induction false} TraceIsRun(r: Row, list: seq<Observation>)
    ensures IsRun(Trace(r, list), Feed(r, list)) && Trace(r, list)[0] == [r]
    decreases |list|
  {
    if list != [] {
      var front := list[..|list| - 1];
      TraceIsRun(r, front);
      var prev := Trace(r, front);
      forall k | 0 <= k < |list|
        ensures Trace(r, list)[k + 1] == Apply(Trace(r, list)[k], Feed(r, list)[k])
      {
        if k < |front| {
          assert prev[k + 1] == Apply(prev[k], Feed(r, front)[k]);
          assert front[k] == list[k];
        }
      }
    }
  }

  lemma FeedDelivers(r: Row, list: seq<Observation>)
    ensures Delivered(Feed(r, list), r.scheduler, r.taskKey, |list|) == set o | o in list
  {
    var steps := Feed(r, list);
    forall o | o in list
      ensures o in Delivered(steps, r.scheduler, r.taskKey, |list|)
    {
      var k :| 0 <= k < |list| && list[k] == o;
      assert steps[k].o == o;
    }
  }

  lemma {:induction false} NotLast(states: seq<seq<Row>>, steps: seq<Step>, i: nat, n: nat, top: Observation)
    requires |states| == |steps| + 1 && 2 <= n <= |steps| && LastTaken(states, steps, i, 2) != Some(top)
    requires forall k :: 2 <= k < n && steps[k].ObserveStep? ==> steps[k].o != top
    ensures LastTaken(states, steps, i, n) != Some(top)
  {
    if n > 2 {
      NotLast(states, steps, i, n - 1, top);
    }
  }

  /** The first observation is always taken, and then it decides about the second. */
  lemma SecondIsTakenIff(r: Row, a: Observation, b: Observation)
    requires Fresh(r)
    ensures Takes(r, r.scheduler, r.taskKey, a)
    ensures Takes(Observed(r, a), r.scheduler, r.taskKey, b) <==> !Shuts(a, b)
  {
  }

  /** If `top` does not prevail over `p`, then one of the orders of these two, before everything else, ends
      with another observation. */
  lemma SomeOrderMisses(r: Row, os: set<Observation>, top: Observation, p: Observation)
    requires Fresh(r) && top in os && p in os && p != top && !Prevails(top, p)
    ensures exists states, steps :: Delivers(states, steps, 0, r, os) && LastTaken(states, steps, 0, |steps|) != Some(top)
  {
    var rest := Listing(os - {p, top});
    var two := if Shuts(p, top) then [p, top] else [top, p];
    var list := two + rest;
    var states, steps := Trace(r, list), Feed(r, list);
    TraceIsRun(r, list);
    FeedDelivers(r, list);
    assert list[0] == two[0] && list[1] == two[1];
    SecondIsTakenIff(r, list[0], list[1]);
    assert states[1] == [Observed(r, list[0])];
    assert LastTaken(states, steps, 0, 1) == Some(list[0]);
    forall k | 2 <= k < |steps|
      ensures steps[k].o != top
    {
      assert list[k] == rest[k - 2];
      assert list[k] in rest;
    }
    NotLast(states, steps, 0, |steps|, top);
    assert forall o :: o in list <==> o in os;
    assert Delivers(states, steps, 0, r, os);
  }

  /** Every delivery of `os` ends with `top` if and only if `top` prevails over each of the others. */
  lemma ConvergesIff(r: Row, os: set<Observation>, top: Observation)
    requires Fresh(r) && top in os
    ensures PrevailsOverAll(top, os) <==>
            forall states, steps, i :: Delivers(states, steps, i, r, os) ==> LastTaken(states, steps, i, |steps|) == Some(top)
  {
    if PrevailsOverAll(top, os) {
      forall states, steps, i | Delivers(states, steps, i, r, os)
        ensures LastTaken(states, steps, i, |steps|) == Some(top)
      {
        Convergence(states, steps, i, r, os, top);
      }
    } else {
      var p :| p in os && p != top && !Prevails(top, p);
      SomeOrderMisses(r, os, top, p);
    }
  }

  /** Distinct positive sequence numbers, distinct event ids, and times that do not go back as the sequence
      goes up: what a provider that numbers its observations sends. */
  ghost predicate Numbered(os: set<Observation>) {
    && (forall o :: o in os ==> o.sequence > 0 && !o.execution.Unmanaged?)
    && (forall o, p :: o in os && p in os && o.sequence == p.sequence ==> o == p)
    && (forall o, p :: o in os && p in os && o.eventId == p.eventId && o.eventId != "" ==> o == p)
    && (forall o, p :: o in os && p in os && o.sequence <= p.sequence ==> o.at <= p.at)
  }

  ghost predicate IsHighest(o: Observation, os: set<Observation>) {
    o in os && forall p :: p in os ==> p.sequence <= o.sequence
  }

  /** Numbered observations end with the highest one in every order of delivery if and only if all terminal
      ones among them have its status. */
  lemma NumberedConvergesIff(r: Row, os: set<Observation>, top: Observation)
    requires Fresh(r) && Numbered(os) && IsHighest(top, os)
    ensures (forall o :: o in os && IsTerminal(o.execution) ==> o.execution == top.execution) <==>
            forall states, steps, i :: Delivers(states, steps, i, r, os) ==> LastTaken(states, steps, i, |steps|) == Some(top)
  {
    ConvergesIff(r, os, top);
    if forall o :: o in os && IsTerminal(o.execution) ==> o.execution == top.execution {
      assert PrevailsOverAll(top, os);
    } else {
      var o :| o in os && IsTerminal(o.execution) && o.execution != top.execution;
      assert !Prevails(top, o);
    }
  }

  /** A row that took a terminal observation never shows one of another status, in any continuation. */
  lemma EarlyTerminalDiverges(states: seq<seq<Row>>, steps: seq<Step>, i: nat, m: nat, n: nat,
                              low: Observation, high: Observation)
    requires IsRun(states, steps) && i < |states[0]| && m < n <= |steps| && TerminalIsFree(states[0][i])
    requires |states[m]| == |states[0]| && steps[m].ObserveStep? && steps[m].o == low
    requires Takes(states[m][i], steps[m].scheduler, steps[m].key, low)
    requires IsTerminal(low.execution) && high.execution != low.execution
    ensures |states[n]| == |states[0]| && states[n][i].execution == low.execution && !Shows(states[n][i], high)
  {
    TableSize(states, steps, m + 1);
    TerminalForGood(states, steps, i, m + 1, n);
  }
}
