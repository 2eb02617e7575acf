/** One round of tool calls, `executeToolCalls` of `service/react/engine.go`: delegations run in parallel behind a
    semaphore while the other calls run one after the other, and every result goes to the place of its call.
    What a call gives is chosen when it returns, so it may depend on whatever ran before. */
module ToolRound {
  import opened Common

  datatype Call = Delegation | Other

  datatype Outcome = Outcome(result: string, err: Option<string>)

  /** `slots` are the results; `waiting` and `running` the delegations before and after they got the semaphore;
      `next` the serial loop, which an error stops. */
  datatype Round = Round(
    slots: seq<Option<Outcome>>, waiting: set<nat>, running: set<nat>, next: nat, stopped: bool, firstErr: Option<string>)

  datatype Step = Acquire(i: nat) | FinishDelegate(i: nat, out: Outcome) | Serial(out: Outcome)

  function Delegates(calls: seq<Call>): set<nat> {
    set i: nat | i < |calls| && calls[i].Delegation?
  }

  function Empty(n: nat): seq<Option<Outcome>> {
    seq(n, i => None)
  }

  function Init(calls: seq<Call>): Round {
    Round(Empty(|calls|), Delegates(calls), {}, 0, false, None)
  }

  predicate Enabled(calls: seq<Call>, maxParallel: nat, r: Round, step: Step) {
    match step
    case Acquire(i) => i in r.waiting && |r.running| < maxParallel
    case FinishDelegate(i, _) => i in r.running && i < |calls| && i < |r.slots|
    case Serial(_) => r.next < |calls| && r.next < |r.slots| && !r.stopped
  }

  function Recorded(firstErr: Option<string>, err: Option<string>): Option<string> {
    if firstErr.Some? then firstErr else err
  }

  function Apply(calls: seq<Call>, maxParallel: nat, r: Round, step: Step): Round
    requires Enabled(calls, maxParallel, r, step)
  {
    match step
    case Acquire(i) => r.(waiting := r.waiting - {i}, running := r.running + {i})
    case FinishDelegate(i, out) =>
      r.(slots := r.slots[i := Some(out)], running := r.running - {i}, firstErr := Recorded(r.firstErr, out.err))
    case Serial(out) =>
      if calls[r.next].Delegation? then r.(next := r.next + 1)
      else
        r.(slots := r.slots[r.next := Some(out)], firstErr := Recorded(r.firstErr, out.err),
           next := if out.err.Some? then r.next else r.next + 1, stopped := out.err.Some?)
  }

  ghost predicate IsRun(calls: seq<Call>, maxParallel: nat, rounds: seq<Round>, steps: seq<Step>) {
    && |rounds| == |steps| + 1 && rounds[0] == Init(calls)
    && (forall i :: 0 <= i < |steps| ==>
          Enabled(calls, maxParallel, rounds[i], steps[i]) && rounds[i + 1] == Apply(calls, maxParallel, rounds[i], steps[i]))
  }

  /** What `wg.Wait` waits for. */
  predicate Complete(calls: seq<Call>, r: Round) {
    r.waiting == {} && r.running == {} && (r.stopped || r.next == |calls|)
  }

  // ---------- the serial form ----------

  /** `executeToolCallsSerial`, with what each call gives: everything up to and including the first error. */
  method ExecuteSerial(outs: seq<Outcome>) returns (slots: seq<Option<Outcome>>, err: Option<string>)
    ensures (slots, err) == SerialResult(outs)
  {
    slots, err := Empty(|outs|), None;
    var i := 0;
    while i < |outs|
      invariant 0 <= i <= |outs| && |slots| == |outs|
      invariant forall j :: 0 <= j < i ==> outs[j].err.None?
      invariant forall j :: 0 <= j < |outs| ==> slots[j] == if j < i then Some(outs[j]) else None
    {
      slots := slots[i := Some(outs[i])];
      if outs[i].err.Some? {
        FirstErrorAt(outs, i);
        assert slots == SerialResult(outs).0;
        return slots, outs[i].err;
      }
      i := i + 1;
    }
    FirstErrorAt(outs, i);
    assert slots == SerialResult(outs).0;
  }

  /** The position of the first error, or the number of calls. */
  function FirstError(outs: seq<Outcome>): (k: nat)
    ensures k <= |outs| && (k < |outs| ==> outs[k].err.Some?)
    ensures forall j :: 0 <= j < k ==> outs[j].err.None?
  {
    if |outs| == 0 || outs[0].err.Some? then 0
    else
      var k := FirstError(outs[1..]);
      assert forall j :: 0 < j < k + 1 ==> outs[j] == outs[1..][j - 1];
      k + 1
  }

  function SerialResult(outs: seq<Outcome>): (seq<Option<Outcome>>, Option<string>) {
    var k := FirstError(outs);
    (seq(|outs|, i requires 0 <= i < |outs| => if i <= k then Some(outs[i]) else None),
     if k < |outs| then outs[k].err else None)
  }

  lemma FirstErrorAt(outs: seq<Outcome>, i: nat)
    requires i <= |outs| && (i < |outs| ==> outs[i].err.Some?) && forall j :: 0 <= j < i ==> outs[j].err.None?
    ensures FirstError(outs) == i
  {
    var k := FirstError(outs);
    assert i <= k <= i;
  }

  // ---------- what every interleaving keeps ----------

  /** The call was executed. */
  predicate Ran(calls: seq<Call>, r: Round, i: nat)
    requires i < |calls|
  {
    if calls[i].Delegation? then i !in r.waiting && i !in r.running else i < r.next || (i == r.next && r.stopped)
  }

  predicate Failed(slots: seq<Option<Outcome>>, i: nat)
    requires i < |slots|
  {
    slots[i].Some? && slots[i].value.err.Some?
  }

  ghost predicate Inv(calls: seq<Call>, maxParallel: nat, r: Round) {
    && |r.slots| == |calls| && r.next <= |calls| && |r.running| <= maxParallel
    && r.waiting <= Delegates(calls) && r.running <= Delegates(calls) && r.waiting !! r.running
    && (forall i :: 0 <= i < |calls| ==> (r.slots[i].Some? <==> Ran(calls, r, i)))
    && (r.stopped ==> r.next < |calls| && calls[r.next].Other? && Failed(r.slots, r.next))
    && (forall i :: 0 <= i < r.next && calls[i].Other? ==> !Failed(r.slots, i))
    && (forall i :: 0 <= i < |calls| && Failed(r.slots, i) ==> r.firstErr.Some?)
    && (r.firstErr.Some? ==> exists i :: 0 <= i < |calls| && Failed(r.slots, i) && r.slots[i].value.err == r.firstErr)
  }

  lemma OneLess(s: set<nat>, i: nat)
    requires i in s
    ensures |s - {i}| == |s| - 1
  {
  }

  lemma OneMore(s: set<nat>, i: nat)
    requires i !in s
    ensures |s + {i}| == |s| + 1
  {
  }

  lemma AcquireKeeps(calls: seq<Call>, maxParallel: nat, r: Round, i: nat)
    requires Inv(calls, maxParallel, r) && Enabled(calls, maxParallel, r, Acquire(i))
    ensures Inv(calls, maxParallel, Apply(calls, maxParallel, r, Acquire(i)))
  {
    var r' := Apply(calls, maxParallel, r, Acquire(i));
    OneMore(r.running, i);
    assert forall j :: 0 <= j < |calls| ==> (Ran(calls, r', j) <==> Ran(calls, r, j));
  }

  /** A result in an empty place keeps an error that was recorded, or is the first. */
  lemma RecordKeeps(r: Round, r': Round, i: nat, out: Outcome)
    requires i < |r.slots| && r.slots[i].None?
    requires r'.slots == r.slots[i := Some(out)] && r'.firstErr == Recorded(r.firstErr, out.err)
    requires forall j :: 0 <= j < |r.slots| && Failed(r.slots, j) ==> r.firstErr.Some?
    requires r.firstErr.Some? ==> exists j :: 0 <= j < |r.slots| && Failed(r.slots, j) && r.slots[j].value.err == r.firstErr
    ensures forall j :: 0 <= j < |r'.slots| && Failed(r'.slots, j) ==> r'.firstErr.Some?
    ensures r'.firstErr.Some? ==> exists j :: 0 <= j < |r'.slots| && Failed(r'.slots, j) && r'.slots[j].value.err == r'.firstErr
  {
    forall j | 0 <= j < |r'.slots| && Failed(r'.slots, j)
      ensures r'.firstErr.Some?
    {
      assert j != i ==> Failed(r.slots, j);
    }
    if r.firstErr.Some? {
      var j :| 0 <= j < |r.slots| && Failed(r.slots, j) && r.slots[j].value.err == r.firstErr;
      assert Failed(r'.slots, j);
    } else if out.err.Some? {
      assert Failed(r'.slots, i);
    }
  }

  lemma FinishKeeps(calls: seq<Call>, maxParallel: nat, r: Round, i: nat, out: Outcome)
    requires Inv(calls, maxParallel, r) && Enabled(calls, maxParallel, r, FinishDelegate(i, out))
    ensures Inv(calls, maxParallel, Apply(calls, maxParallel, r, FinishDelegate(i, out)))
  {
    var r' := Apply(calls, maxParallel, r, FinishDelegate(i, out));
    assert i in Delegates(calls);
    OneLess(r.running, i);
    assert forall j :: 0 <= j < |calls| ==> (Ran(calls, r', j) <==> Ran(calls, r, j) || j == i);
    RecordKeeps(r, r', i, out);
  }

  lemma SerialKeeps(calls: seq<Call>, maxParallel: nat, r: Round, out: Outcome)
    requires Inv(calls, maxParallel, r) && Enabled(calls, maxParallel, r, Serial(out))
    ensures Inv(calls, maxParallel, Apply(calls, maxParallel, r, Serial(out)))
  {
    var r', n := Apply(calls, maxParallel, r, Serial(out)), r.next;
    assert forall j :: 0 <= j < |calls| ==> (Ran(calls, r', j) <==> Ran(calls, r, j) || (j == n && calls[n].Other?));
    if calls[n].Other? {
      RecordKeeps(r, r', n, out);
    }
  }

  lemma StepKeeps(calls: seq<Call>, maxParallel: nat, r: Round, step: Step)
    requires Inv(calls, maxParallel, r) && Enabled(calls, maxParallel, r, step)
    ensures Inv(calls, maxParallel, Apply(calls, maxParallel, r, step))
  {
    match step {
      case Acquire(i) => AcquireKeeps(calls, maxParallel, r, i);
      case FinishDelegate(i, out) => FinishKeeps(calls, maxParallel, r, i, out);
      case Serial(out) => SerialKeeps(calls, maxParallel, r, out);
    }
  }

  lemma {:induction false} EveryRound(calls: seq<Call>, maxParallel: nat, rounds: seq<Round>, steps: seq<Step>, i: nat)
    requires IsRun(calls, maxParallel, rounds, steps) && i < |rounds|
    ensures Inv(calls, maxParallel, rounds[i])
  {
    if i > 0 {
      EveryRound(calls, maxParallel, rounds, steps, i - 1);
      StepKeeps(calls, maxParallel, rounds[i - 1], steps[i - 1]);
    }
  }

  /** Never more delegations at once than allowed. */
  lemma ParallelismBounded(calls: seq<Call>, maxParallel: nat, rounds: seq<Round>, steps: seq<Step>, i: nat)
    requires IsRun(calls, maxParallel, rounds, steps) && i < |rounds|
    ensures |rounds[i].running| <= maxParallel
  {
    EveryRound(calls, maxParallel, rounds, steps, i);
  }

  /** `outs` is what the calls that ran gave, and anything for the others. */
  predicate GaveAs(r: Round, outs: seq<Outcome>) {
    |outs| == |r.slots| && forall i :: 0 <= i < |outs| && r.slots[i].Some? ==> r.slots[i] == Some(outs[i])
  }

  /** In every interleaving a finished round agrees with the serial execution of calls that give the same: it
      reports an error exactly when serial execution does, and the error of a call that ran; it holds every result
      that serial execution produces, in its place; and without an error the results are the same. */
  lemma ParallelRefinesSerial(calls: seq<Call>, maxParallel: nat, rounds: seq<Round>, steps: seq<Step>, outs: seq<Outcome>)
    requires IsRun(calls, maxParallel, rounds, steps) && Complete(calls, rounds[|steps|]) && GaveAs(rounds[|steps|], outs)
    ensures
      var r := rounds[|steps|];
      var (slots, err) := SerialResult(outs);
      && |r.slots| == |slots|
      && (r.firstErr.None? <==> err.None?)
      && (r.firstErr.Some? ==> exists i :: 0 <= i < |outs| && r.slots[i] == Some(outs[i]) && outs[i].err == r.firstErr)
      && (forall i :: 0 <= i < |slots| && slots[i].Some? ==> r.slots[i] == slots[i])
      && (err.None? ==> r.slots == slots)
  {
    var r := rounds[|steps|];
    EveryRound(calls, maxParallel, rounds, steps, |steps|);
    var k := FirstError(outs);
    forall i | 0 <= i < |calls| && i <= k
      ensures Ran(calls, r, i)
    {
      assert r.stopped ==> Ran(calls, r, r.next) && outs[r.next].err.Some?;
    }
    if k < |calls| {
      assert Failed(r.slots, k);
    }
  }

  /** What is left to do. */
  function Left(calls: seq<Call>, r: Round): int {
    2 * |r.waiting| + |r.running| + if r.stopped then 0 else |calls| - r.next + 1
  }

  ghost predicate CanMove(calls: seq<Call>, maxParallel: nat, r: Round) {
    exists step :: Enabled(calls, maxParallel, r, step)
  }

  lemma SomeStep(calls: seq<Call>, maxParallel: nat, r: Round)
    requires Inv(calls, maxParallel, r) && maxParallel > 0
    ensures Complete(calls, r) || CanMove(calls, maxParallel, r)
  {
    var out := Outcome("", None);
    if i :| i in r.running {
      assert i in Delegates(calls) && Enabled(calls, maxParallel, r, FinishDelegate(i, out));
    } else if i :| i in r.waiting {
      assert Enabled(calls, maxParallel, r, Acquire(i));
    } else if !r.stopped && r.next < |calls| {
      assert Enabled(calls, maxParallel, r, Serial(out));
    }
  }

  lemma StepShrinks(calls: seq<Call>, maxParallel: nat, r: Round, step: Step)
    requires Inv(calls, maxParallel, r) && Enabled(calls, maxParallel, r, step)
    ensures Left(calls, Apply(calls, maxParallel, r, step)) < Left(calls, r)
  {
    match step {
      case Acquire(i) =>
        OneLess(r.waiting, i);
        OneMore(r.running, i);
      case FinishDelegate(i, _) => OneLess(r.running, i);
      case Serial(_) =>
    }
  }

  /** With at least one permit a round never hangs: until it is complete some step can be taken, and every step
      leaves less to do. */
  lemma RoundsFinish(calls: seq<Call>, maxParallel: nat, r: Round)
    requires Inv(calls, maxParallel, r) && maxParallel > 0
    ensures Left(calls, r) >= 0
    ensures Complete(calls, r) || CanMove(calls, maxParallel, r)
    ensures forall step :: Enabled(calls, maxParallel, r, step) ==> Left(calls, Apply(calls, maxParallel, r, step)) < Left(calls, r)
  {
    SomeStep(calls, maxParallel, r);
    forall step | Enabled(calls, maxParallel, r, step)
      ensures Left(calls, Apply(calls, maxParallel, r, step)) < Left(calls, r)
    {
      StepShrinks(calls, maxParallel, r, step);
    }
  }
}
