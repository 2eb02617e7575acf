/** Rounds and accounting together: every run of `Delegation` goes through rounds of `ToolRound`, and a delegation
    of a round starts a child run and returns once that run was added to its parent (`service/react/engine.go`,
    `service/react/delegate.go`).  That no child is under way when a loop returns is not a rule here: it follows
    from the wait at the end of each round.

    Calls that run one after the other, `executeToolCallsSerial`, are rounds of one call each. */
module RoundTree {
  import opened Common
  import D = Delegation
  import R = ToolRound

  /** A round under way; `child` are the runs that its running delegations have started. */
  datatype Active = Active(calls: seq<R.Call>, round: R.Round, child: map<nat, nat>)

  datatype Tree = Tree(table: D.Table, active: seq<Option<Active>>)

  datatype Limits = Limits(maxDepth: nat, maxParallel: nat)

  datatype Step =
    | Outer
    | Usage(run: nat, tokens: D.Tokens)
    | StartRound(run: nat, calls: seq<R.Call>)
    | Acquire(run: nat, i: nat)
    | StartChild(run: nat, i: nat)
    | Return(run: nat, i: nat, out: R.Outcome)
    | Serial(run: nat, out: R.Outcome)
    | EndRound(run: nat)
    | Finish(run: nat)
    | Account(step: D.Step)

  predicate InRound(t: Tree, r: nat) {
    r < |t.table| && r < |t.active| && t.table[r].phase.Looping? && t.active[r].Some?
  }

  predicate BetweenRounds(t: Tree, r: nat) {
    r < |t.table| && r < |t.active| && t.table[r].phase.Looping? && t.active[r].None?
  }

  predicate RoundStep(l: Limits, t: Tree, r: nat, step: R.Step) {
    InRound(t, r) && R.Enabled(t.active[r].value.calls, l.maxParallel, t.active[r].value.round, step)
  }

  predicate Enabled(l: Limits, t: Tree, step: Step) {
    match step
    case Outer => true
    case Usage(r, _) => BetweenRounds(t, r)
    case StartRound(r, _) => BetweenRounds(t, r)
    case Acquire(r, i) => RoundStep(l, t, r, R.Acquire(i))
    case StartChild(r, i) =>
      && InRound(t, r) && i in t.active[r].value.round.running && i !in t.active[r].value.child
      && t.table[r].depth + 1 <= l.maxDepth
    case Return(r, i, out) =>
      && RoundStep(l, t, r, R.FinishDelegate(i, out))
      && (i in t.active[r].value.child ==>
            t.active[r].value.child[i] < |t.table| && t.table[t.active[r].value.child[i]].phase.Done?)
    case Serial(r, out) => RoundStep(l, t, r, R.Serial(out))
    case EndRound(r) => InRound(t, r) && R.Complete(t.active[r].value.calls, t.active[r].value.round)
    case Finish(r) => BetweenRounds(t, r)
    case Account(s) =>
      && (s.ReadRow? || s.AddColumn? || s.AddMirrorInput? || s.AddMirrorOutput?)
      && D.Enabled(l.maxDepth, t.table, s)
  }

  function Advance(l: Limits, t: Tree, r: nat, step: R.Step): Tree
    requires RoundStep(l, t, r, step)
  {
    var a := t.active[r].value;
    t.(active := t.active[r := Some(a.(round := R.Apply(a.calls, l.maxParallel, a.round, step)))])
  }

  function Apply(l: Limits, t: Tree, step: Step): Tree
    requires Enabled(l, t, step)
  {
    match step
    case Outer => Tree(t.table + [D.NewRun(D.Top, 0)], t.active + [None])
    case Usage(r, tokens) => t.(table := D.Apply(l.maxDepth, t.table, D.Usage(r, tokens)))
    case StartRound(r, calls) => t.(active := t.active[r := Some(Active(calls, R.Init(calls), map[]))])
    case Acquire(r, i) => Advance(l, t, r, R.Acquire(i))
    case StartChild(r, i) =>
      var a := t.active[r].value;
      Tree(t.table + [D.NewRun(D.Under(r), t.table[r].depth + 1)],
           t.active[r := Some(a.(child := a.child[i := |t.table|]))] + [None])
    case Return(r, i, out) => Advance(l, t, r, R.FinishDelegate(i, out))
    case Serial(r, out) => Advance(l, t, r, R.Serial(out))
    case EndRound(r) => t.(active := t.active[r := None])
    case Finish(r) => t.(table := t.table[r := t.table[r].(phase := D.Ended)])
    case Account(s) => t.(table := D.Apply(l.maxDepth, t.table, s))
  }

  ghost predicate IsRun(l: Limits, states: seq<Tree>, steps: seq<Step>) {
    && |states| == |steps| + 1 && states[0] == Tree([], [])
    && forall i :: 0 <= i < |steps| ==> Enabled(l, states[i], steps[i]) && states[i + 1] == Apply(l, states[i], steps[i])
  }

  // ---------- a child that is under way is waited for ----------

  /** Child `c` of `r` belongs to a delegation of `r`'s round that has not returned. */
  ghost predicate WaitedFor(t: Tree, r: nat, c: nat)
    requires r < |t.active|
  {
    && t.active[r].Some?
    && exists i :: i in t.active[r].value.round.running && i in t.active[r].value.child && t.active[r].value.child[i] == c
  }

  ghost predicate ChildrenWaitedFor(t: Tree) {
    && |t.active| == |t.table|
    && forall c, r :: 0 <= c < |t.table| && 0 <= r < |t.table| && D.ChildOf(t.table, c, r) && !t.table[c].phase.Done? ==>
         WaitedFor(t, r, c)
  }

  ghost predicate Inv(l: Limits, t: Tree) {
    ChildrenWaitedFor(t) && D.Inv(l.maxDepth, t.table)
  }

  /** The guard that the accounting needs, from the wait of the last round. */
  lemma BetweenRoundsChildrenDone(t: Tree, r: nat)
    requires ChildrenWaitedFor(t) && r < |t.table| && t.active[r].None?
    ensures D.ChildrenDone(t.table, r)
  {
    forall c | 0 <= c < |t.table| && D.ChildOf(t.table, c, r)
      ensures t.table[c].phase.Done?
    {
      assert !WaitedFor(t, r, c);
    }
  }

  /** The table takes a step of the accounting, or none. */
  ghost predicate TableMoves(l: Limits, s: D.Table, s': D.Table) {
    s' == s || exists step :: D.Enabled(l.maxDepth, s, step) && s' == D.Apply(l.maxDepth, s, step)
  }

  lemma StepMovesTable(l: Limits, t: Tree, step: Step)
    requires Inv(l, t) && Enabled(l, t, step)
    ensures TableMoves(l, t.table, Apply(l, t, step).table)
  {
    match step {
      case Outer => assert D.Enabled(l.maxDepth, t.table, D.Outer);
      case Usage(r, tokens) => assert D.Enabled(l.maxDepth, t.table, D.Usage(r, tokens));
      case StartChild(r, _) => assert D.Enabled(l.maxDepth, t.table, D.Delegate(r));
      case Finish(r) =>
        BetweenRoundsChildrenDone(t, r);
        assert D.Enabled(l.maxDepth, t.table, D.Finish(r));
      case _ =>
    }
  }

  /** Rounds change on one run only, and lose none of its children under way. */
  lemma SameTableWaits(t: Tree, t': Tree, r: nat)
    requires ChildrenWaitedFor(t) && t'.table == t.table && |t'.active| == |t.active| && r < |t.table|
    requires forall q :: 0 <= q < |t.active| && q != r ==> t'.active[q] == t.active[q]
    requires forall c :: 0 <= c < |t.table| && !t.table[c].phase.Done? && WaitedFor(t, r, c) ==> WaitedFor(t', r, c)
    ensures ChildrenWaitedFor(t')
  {
    forall c, q | 0 <= c < |t.table| && 0 <= q < |t.table| && D.ChildOf(t.table, c, q) && !t.table[c].phase.Done?
      ensures WaitedFor(t', q, c)
    {
      assert WaitedFor(t, q, c);
    }
  }

  lemma AdvanceWaits(l: Limits, t: Tree, r: nat, step: R.Step)
    requires ChildrenWaitedFor(t) && RoundStep(l, t, r, step)
    requires step.FinishDelegate? && step.i in t.active[r].value.child ==>
               t.active[r].value.child[step.i] < |t.table| && t.table[t.active[r].value.child[step.i]].phase.Done?
    ensures ChildrenWaitedFor(Advance(l, t, r, step))
  {
    var t' := Advance(l, t, r, step);
    forall c | 0 <= c < |t.table| && !t.table[c].phase.Done? && WaitedFor(t, r, c)
      ensures WaitedFor(t', r, c)
    {
      var i :| i in t.active[r].value.round.running && i in t.active[r].value.child && t.active[r].value.child[i] == c;
      assert i in t'.active[r].value.round.running;
    }
    SameTableWaits(t, t', r);
  }

  lemma StartRoundWaits(l: Limits, t: Tree, r: nat, calls: seq<R.Call>)
    requires ChildrenWaitedFor(t) && Enabled(l, t, StartRound(r, calls))
    ensures ChildrenWaitedFor(Apply(l, t, StartRound(r, calls)))
  {
    forall c | 0 <= c < |t.table|
      ensures !WaitedFor(t, r, c)
    {
    }
    SameTableWaits(t, Apply(l, t, StartRound(r, calls)), r);
  }

  lemma EndRoundWaits(l: Limits, t: Tree, r: nat)
    requires ChildrenWaitedFor(t) && Enabled(l, t, EndRound(r))
    ensures ChildrenWaitedFor(Apply(l, t, EndRound(r)))
  {
    forall c | 0 <= c < |t.table|
      ensures !WaitedFor(t, r, c)
    {
    }
    SameTableWaits(t, Apply(l, t, EndRound(r)), r);
  }

  /** A new run joins the table; if it is a child, its delegation waits for it. */
  lemma NewRunWaits(l: Limits, t: Tree, t': Tree, run: D.Run)
    requires Inv(l, t) && t'.table == t.table + [run] && |t'.active| == |t'.table|
    requires forall q, c :: 0 <= q < |t.table| && 0 <= c < |t.table| && WaitedFor(t, q, c) ==> WaitedFor(t', q, c)
    requires run.parent.Under? ==> run.parent.run < |t.table| && WaitedFor(t', run.parent.run, |t.table|)
    ensures ChildrenWaitedFor(t')
  {
    var n := |t.table|;
    forall c, q | 0 <= c < |t'.table| && 0 <= q < |t'.table| && D.ChildOf(t'.table, c, q) && !t'.table[c].phase.Done?
      ensures WaitedFor(t', q, c)
    {
      if c < n {
        assert D.RunOk(l.maxDepth, t.table, c);
        assert D.ChildOf(t.table, c, q) && WaitedFor(t, q, c);
      }
    }
  }

  lemma StartChildWaits(l: Limits, t: Tree, r: nat, i: nat)
    requires Inv(l, t) && Enabled(l, t, StartChild(r, i))
    ensures ChildrenWaitedFor(Apply(l, t, StartChild(r, i)))
  {
    var t' := Apply(l, t, StartChild(r, i));
    var a, a' := t.active[r].value, t'.active[r].value;
    forall q, c | 0 <= q < |t.table| && 0 <= c < |t.table| && WaitedFor(t, q, c)
      ensures WaitedFor(t', q, c)
    {
      var j :| j in t.active[q].value.round.running && j in t.active[q].value.child && t.active[q].value.child[j] == c;
      assert j in t'.active[q].value.child;
    }
    assert i in a'.round.running && a'.child[i] == |t.table|;
    NewRunWaits(l, t, t', D.NewRun(D.Under(r), t.table[r].depth + 1));
  }

  lemma OuterWaits(l: Limits, t: Tree)
    requires Inv(l, t)
    ensures ChildrenWaitedFor(Apply(l, t, Outer))
  {
    var t' := Apply(l, t, Outer);
    forall q, c | 0 <= q < |t.table| && 0 <= c < |t.table| && WaitedFor(t, q, c)
      ensures WaitedFor(t', q, c)
    {
      var j :| j in t.active[q].value.round.running && j in t.active[q].value.child && t.active[q].value.child[j] == c;
      assert j in t'.active[q].value.child;
    }
    NewRunWaits(l, t, t', D.NewRun(D.Top, 0));
  }

  /** The other steps leave parents and rounds alone, and take no run back from being done. */
  lemma TableStepWaits(t: Tree, t': Tree)
    requires ChildrenWaitedFor(t) && t'.active == t.active && |t'.table| == |t.table|
    requires forall c :: 0 <= c < |t.table| ==>
               t'.table[c].parent == t.table[c].parent && (t.table[c].phase.Done? ==> t'.table[c].phase.Done?)
    ensures ChildrenWaitedFor(t')
  {
    forall c, q | 0 <= c < |t'.table| && 0 <= q < |t'.table| && D.ChildOf(t'.table, c, q) && !t'.table[c].phase.Done?
      ensures WaitedFor(t', q, c)
    {
      assert D.ChildOf(t.table, c, q) && WaitedFor(t, q, c);
    }
  }

  lemma StepWaits(l: Limits, t: Tree, step: Step)
    requires Inv(l, t) && Enabled(l, t, step)
    ensures ChildrenWaitedFor(Apply(l, t, step))
  {
    match step {
      case Outer => OuterWaits(l, t);
      case StartRound(r, calls) => StartRoundWaits(l, t, r, calls);
      case Acquire(r, i) => AdvanceWaits(l, t, r, R.Acquire(i));
      case StartChild(r, i) => StartChildWaits(l, t, r, i);
      case Return(r, i, out) => AdvanceWaits(l, t, r, R.FinishDelegate(i, out));
      case Serial(r, out) => AdvanceWaits(l, t, r, R.Serial(out));
      case EndRound(r) => EndRoundWaits(l, t, r);
      case _ => TableStepWaits(t, Apply(l, t, step));
    }
  }

  /** Every step keeps the books, and every child under way with a delegation that is waited for. */
  lemma StepKeepsInv(l: Limits, t: Tree, step: Step)
    requires Inv(l, t) && Enabled(l, t, step)
    ensures Inv(l, Apply(l, t, step))
  {
    StepWaits(l, t, step);
    StepMovesTable(l, t, step);
    var s' := Apply(l, t, step).table;
    if s' != t.table {
      var move :| D.Enabled(l.maxDepth, t.table, move) && s' == D.Apply(l.maxDepth, t.table, move);
      D.StepKeepsInv(l.maxDepth, t.table, move);
    }
  }

  lemma {:induction false} EveryTree(l: Limits, states: seq<Tree>, steps: seq<Step>, i: nat)
    requires IsRun(l, states, steps) && i < |states|
    ensures Inv(l, states[i])
  {
    if i > 0 {
      EveryTree(l, states, steps, i - 1);
      StepKeepsInv(l, states[i - 1], steps[i - 1]);
    }
  }

  /** The accounting simulates the tree: in every interleaving each step is one of its steps, with its guards, or
      leaves the table alone; and a run is between rounds only when all its children are done. */
  lemma WaitImpliesGuards(l: Limits, states: seq<Tree>, steps: seq<Step>, i: nat)
    requires IsRun(l, states, steps) && i < |states|
    ensures i < |steps| ==> TableMoves(l, states[i].table, states[i + 1].table)
    ensures forall r :: 0 <= r < |states[i].table| && BetweenRounds(states[i], r) ==> D.ChildrenDone(states[i].table, r)
  {
    EveryTree(l, states, steps, i);
    if i < |steps| {
      StepMovesTable(l, states[i], steps[i]);
    }
    forall r | 0 <= r < |states[i].table| && BetweenRounds(states[i], r)
      ensures D.ChildrenDone(states[i].table, r)
    {
      BetweenRoundsChildrenDone(states[i], r);
    }
  }

  /** What a run reported as its own use in the first `n` steps. */
  function Used(steps: seq<Step>, r: nat, n: nat, k: D.Kind): nat
    requires n <= |steps|
  {
    if n == 0 then 0
    else
      var step := steps[n - 1];
      Used(steps, r, n - 1, k) +
        if step.Usage? && step.run == r then (if k == D.Input then step.tokens.input else step.tokens.output) else 0
  }

  /** The own columns of a run hold exactly what it reported. */
  lemma {:induction false} OwnIsUsed(l: Limits, states: seq<Tree>, steps: seq<Step>, i: nat, r: nat, k: D.Kind)
    requires IsRun(l, states, steps) && i < |states|
    ensures if r < |states[i].table| then D.Pick(states[i].table[r].own, k) == Used(steps, r, i, k) else Used(steps, r, i, k) == 0
  {
    if i > 0 {
      OwnIsUsed(l, states, steps, i - 1, r, k);
      StepOwns(l, states[i - 1], steps[i - 1], r, k);
    }
  }

  lemma StepOwns(l: Limits, t: Tree, step: Step, r: nat, k: D.Kind)
    requires Enabled(l, t, step)
    ensures
      var t' := Apply(l, t, step);
      var more := if step.Usage? && step.run == r then (if k == D.Input then step.tokens.input else step.tokens.output) else 0;
      && |t.table| <= |t'.table|
      && (r < |t.table| ==> D.Pick(t'.table[r].own, k) == D.Pick(t.table[r].own, k) + more)
      && (|t.table| <= r < |t'.table| ==> D.Pick(t'.table[r].own, k) == 0 && more == 0)
      && (r >= |t'.table| ==> more == 0)
  {
  }

  /** In every interleaving of rounds: once the loop of a run has returned, its own and its delegated total add up
      to what its whole subtree used, counted once, and the counters agree with the columns. */
  lemma EndedRunHoldsSubtree(l: Limits, states: seq<Tree>, steps: seq<Step>, i: nat, r: nat, k: D.Kind)
    requires IsRun(l, states, steps) && i < |states|
    requires r < |states[i].table| && !states[i].table[r].phase.Looping?
    ensures
      var s := states[i].table;
      && D.Pick(s[r].own, k) + D.Pick(s[r].delegated, k) == D.Subtree(s, r, k)
      && D.Pick(s[r].mirror, k) == D.Pick(s[r].delegated, k)
  {
    EveryTree(l, states, steps, i);
    D.EndedHoldsSubtree(l.maxDepth, states[i].table, r, k);
  }

  /** Once all outer runs have ended, what they report is what all runs together used. */
  lemma NothingLostOrDoubled(l: Limits, states: seq<Tree>, steps: seq<Step>, i: nat, k: D.Kind)
    requires IsRun(l, states, steps) && i < |states|
    requires forall r :: 0 <= r < |states[i].table| && states[i].table[r].parent.Top? ==> states[i].table[r].phase.Ended?
    ensures D.OuterTotals(states[i].table, k) == D.OwnSum(states[i].table, k)
  {
    EveryTree(l, states, steps, i);
    D.OutersHoldAll(l.maxDepth, states[i].table, k);
  }

  /** Between two rounds of a run the budget check sees its whole subtree. */
  lemma BudgetSeesSubtree(l: Limits, states: seq<Tree>, steps: seq<Step>, i: nat, r: nat, budget: int)
    requires IsRun(l, states, steps) && i < |states| && BetweenRounds(states[i], r)
    ensures
      var s := states[i].table;
      D.Exceeds(budget, s[r].own, s[r].mirror) <==> budget > 0 && D.Subtree(s, r, D.Input) + D.Subtree(s, r, D.Output) > budget
  {
    EveryTree(l, states, steps, i);
    BetweenRoundsChildrenDone(states[i], r);
    D.BudgetSeesBelow(l.maxDepth, states[i].table, r, budget);
  }
}
