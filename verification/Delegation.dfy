/** Token accounting over nested, partly parallel sub-runs: `service/react/delegate.go` with the counters of
    `service/react/engine.go` and the run columns of `models/llm/react_run.go`.

    Every step is one atomic action of one goroutine, and steps of different runs interleave freely.  Run ids are
    positions in the table, so a child comes after its parent. */
module Delegation {
  import opened Common

  datatype Tokens = Tokens(input: nat, output: nat)

  const Zero := Tokens(0, 0)

  function Plus(a: Tokens, b: Tokens): Tokens {
    Tokens(a.input + b.input, a.output + b.output)
  }

  datatype Parent = Top | Under(run: nat)

  /** Where a run is: its loop, the end of it, and the stages of being added to its parent. */
  datatype Phase = Looping | Ended | RowRead(read: Tokens) | Added(read: Tokens) | MirroredInput(read: Tokens) | Done

  /** `own` and `delegated` are columns; `mirror` is the pair of atomic counters in the parent's memory. */
  datatype Run = Run(parent: Parent, depth: nat, own: Tokens, delegated: Tokens, mirror: Tokens, phase: Phase)

  type Table = seq<Run>

  function Stage(p: Phase): nat {
    match p
    case Looping => 0
    case Ended => 1
    case RowRead(_) => 2
    case Added(_) => 3
    case MirroredInput(_) => 4
    case Done => 5
  }

  function Total(r: Run): Tokens {
    Plus(r.own, r.delegated)
  }

  /** Input and output tokens are counted apart. */
  datatype Kind = Input | Output

  function Pick(t: Tokens, k: Kind): nat {
    if k.Input? then t.input else t.output
  }

  predicate ChildOf(s: Table, c: nat, r: nat)
    requires c < |s|
  {
    s[c].parent == Under(r)
  }

  predicate ChildrenDone(s: Table, r: nat) {
    forall c :: 0 <= c < |s| && ChildOf(s, c, r) ==> s[c].phase.Done?
  }

  datatype Step =
    | Outer
    | Delegate(parent: nat)
    | Usage(run: nat, tokens: Tokens)
    | Finish(run: nat)
    | ReadRow(run: nat)
    | AddColumn(run: nat)
    | AddMirrorInput(run: nat)
    | AddMirrorOutput(run: nat)

  predicate Enabled(maxDepth: nat, s: Table, step: Step) {
    match step
    case Outer => true
    case Delegate(p) => p < |s| && s[p].phase.Looping? && s[p].depth + 1 <= maxDepth
    case Usage(r, _) => r < |s| && s[r].phase.Looping?
    case Finish(r) => r < |s| && s[r].phase.Looping? && ChildrenDone(s, r)
    case ReadRow(c) => c < |s| && s[c].phase.Ended? && s[c].parent.Under?
    case AddColumn(c) => c < |s| && s[c].phase.RowRead? && s[c].parent.Under? && s[c].parent.run < c
    case AddMirrorInput(c) => c < |s| && s[c].phase.Added? && s[c].parent.Under? && s[c].parent.run < c
    case AddMirrorOutput(c) => c < |s| && s[c].phase.MirroredInput? && s[c].parent.Under? && s[c].parent.run < c
  }

  function NewRun(parent: Parent, depth: nat): Run {
    Run(parent, depth, Zero, Zero, Zero, Looping)
  }

  function Apply(maxDepth: nat, s: Table, step: Step): Table
    requires Enabled(maxDepth, s, step)
  {
    match step
    case Outer => s + [NewRun(Top, 0)]
    case Delegate(p) => s + [NewRun(Under(p), s[p].depth + 1)]
    case Usage(r, t) => s[r := s[r].(own := Plus(s[r].own, t))]
    case Finish(r) => s[r := s[r].(phase := Ended)]
    case ReadRow(c) => s[c := s[c].(phase := if Total(s[c]) == Zero then Done else RowRead(Total(s[c])))]
    case AddColumn(c) =>
      var p, t := s[c].parent.run, s[c].phase.read;
      s[p := s[p].(delegated := Plus(s[p].delegated, t))][c := s[c].(phase := Added(t))]
    case AddMirrorInput(c) =>
      var p, t := s[c].parent.run, s[c].phase.read;
      s[p := s[p].(mirror := Plus(s[p].mirror, Tokens(t.input, 0)))][c := s[c].(phase := MirroredInput(t))]
    case AddMirrorOutput(c) =>
      var p, t := s[c].parent.run, s[c].phase.read;
      s[p := s[p].(mirror := Plus(s[p].mirror, Tokens(0, t.output)))][c := s[c].(phase := Done)]
  }

  ghost predicate IsRun(maxDepth: nat, states: seq<Table>, steps: seq<Step>) {
    && |states| == |steps| + 1
    && forall i :: 0 <= i < |steps| ==> Enabled(maxDepth, states[i], steps[i]) && states[i + 1] == Apply(maxDepth, states[i], steps[i])
  }

  // ---------- sums over children ----------

  /** What a run has given to its parent `r` at `stage`. */
  function Given(run: Run, r: nat, stage: nat, k: Kind): nat {
    if run.parent == Under(r) && Stage(run.phase) >= stage then Pick(Total(run), k) else 0
  }

  function SumGiven(s: Table, r: nat, stage: nat, k: Kind): nat {
    if |s| == 0 then 0 else SumGiven(s[..|s| - 1], r, stage, k) + Given(s[|s| - 1], r, stage, k)
  }

  lemma SumMore(s: Table, run: Run, r: nat, stage: nat, k: Kind)
    ensures SumGiven(s + [run], r, stage, k) == SumGiven(s, r, stage, k) + Given(run, r, stage, k)
  {
    assert (s + [run])[..|s|] == s;
  }

  /** Replacing one run exchanges what it gave. */
  lemma {:induction false} SumUpdate(s: Table, j: nat, run: Run, r: nat, stage: nat, k: Kind)
    requires j < |s|
    ensures SumGiven(s[j := run], r, stage, k) + Given(s[j], r, stage, k) == SumGiven(s, r, stage, k) + Given(run, r, stage, k)
    decreases |s|
  {
    var n := |s| - 1;
    if j < n {
      SumUpdate(s[..n], j, run, r, stage, k);
      assert s[j := run][..n] == s[..n][j := run];
    } else {
      assert s[j := run][..n] == s[..n];
    }
  }

  lemma {:induction false} NoChildrenYet(s: Table, r: nat, stage: nat, k: Kind)
    requires forall c :: 0 <= c < |s| ==> !ChildOf(s, c, r)
    ensures SumGiven(s, r, stage, k) == 0
  {
    if |s| > 0 {
      var n := |s| - 1;
      forall c | 0 <= c < n
        ensures !ChildOf(s[..n], c, r)
      {
        assert !ChildOf(s, c, r);
      }
      assert !ChildOf(s, n, r);
      NoChildrenYet(s[..n], r, stage, k);
    }
  }

  // ---------- what every step keeps ----------

  predicate PlacedOk(maxDepth: nat, s: Table, r: nat)
    requires r < |s|
  {
    if s[r].parent.Top? then s[r].depth == 0 && (s[r].phase.Looping? || s[r].phase.Ended?)
    else
      var p := s[r].parent.run;
      p < r && s[r].depth == s[p].depth + 1 && s[r].depth <= maxDepth
  }

  predicate ReadOk(r: Run) {
    match r.phase
    case RowRead(t) => t == Total(r)
    case Added(t) => t == Total(r)
    case MirroredInput(t) => t == Total(r)
    case _ => true
  }

  predicate RunOk(maxDepth: nat, s: Table, r: nat)
    requires r < |s|
  {
    PlacedOk(maxDepth, s, r) && ReadOk(s[r]) && (s[r].phase.Looping? || ChildrenDone(s, r))
  }

  /** The columns hold what was added to them, and each counter what was added to it. */
  predicate Accounts(s: Table, r: nat)
    requires r < |s|
  {
    && (forall k :: Pick(s[r].delegated, k) == SumGiven(s, r, 3, k))
    && s[r].mirror.input == SumGiven(s, r, 4, Input)
    && s[r].mirror.output == SumGiven(s, r, 5, Output)
  }

  ghost predicate Inv(maxDepth: nat, s: Table) {
    && (forall r :: 0 <= r < |s| ==> RunOk(maxDepth, s, r))
    && (forall r :: 0 <= r < |s| ==> Accounts(s, r))
  }

  predicate Startable(maxDepth: nat, s: Table, run: Run) {
    && run.phase.Looping? && run.own == run.delegated == run.mirror == Zero
    && match run.parent
       case Top => run.depth == 0
       case Under(p) => p < |s| && s[p].phase.Looping? && run.depth == s[p].depth + 1 && run.depth <= maxDepth
  }

  lemma StartKeepsOld(maxDepth: nat, s: Table, run: Run, r: nat)
    requires Inv(maxDepth, s) && Startable(maxDepth, s, run) && r < |s|
    ensures RunOk(maxDepth, s + [run], r) && Accounts(s + [run], r)
  {
    var s' := s + [run];
    assert RunOk(maxDepth, s, r) && Accounts(s, r);
    forall c | 0 <= c < |s'| && ChildOf(s', c, r) && !s[r].phase.Looping?
      ensures s'[c].phase.Done?
    {
      assert c < |s| && ChildOf(s, c, r);
    }
    forall stage: nat, k
      ensures SumGiven(s', r, stage, k) == SumGiven(s, r, stage, k) + Given(run, r, stage, k)
    {
      SumMore(s, run, r, stage, k);
    }
  }

  lemma NoneBelowNew(maxDepth: nat, s: Table, run: Run)
    requires Inv(maxDepth, s) && Startable(maxDepth, s, run)
    ensures forall c :: 0 <= c < |s + [run]| ==> !ChildOf(s + [run], c, |s|)
  {
    forall c | 0 <= c < |s + [run]|
      ensures !ChildOf(s + [run], c, |s|)
    {
      assert c < |s| ==> RunOk(maxDepth, s, c);
    }
  }

  lemma NewRunOk(maxDepth: nat, s: Table, run: Run)
    requires Startable(maxDepth, s, run)
    ensures RunOk(maxDepth, s + [run], |s|)
  {
    assert (s + [run])[|s|] == run;
  }

  lemma NewAccounts(s: Table, run: Run)
    requires run.delegated == run.mirror == Zero && forall c :: 0 <= c < |s + [run]| ==> !ChildOf(s + [run], c, |s|)
    ensures Accounts(s + [run], |s|)
  {
    var s' := s + [run];
    assert s'[|s|] == run;
    forall stage: nat, k
      ensures SumGiven(s', |s|, stage, k) == 0
    {
      NoChildrenYet(s', |s|, stage, k);
    }
  }

  lemma NewKeeps(maxDepth: nat, s: Table, run: Run)
    requires Inv(maxDepth, s) && Startable(maxDepth, s, run)
    ensures RunOk(maxDepth, s + [run], |s|) && Accounts(s + [run], |s|)
  {
    NoneBelowNew(maxDepth, s, run);
    NewRunOk(maxDepth, s, run);
    NewAccounts(s, run);
  }

  lemma StartKeeps(maxDepth: nat, s: Table, run: Run)
    requires Inv(maxDepth, s) && Startable(maxDepth, s, run)
    ensures Inv(maxDepth, s + [run])
  {
    var s' := s + [run];
    NewKeeps(maxDepth, s, run);
    forall r | 0 <= r < |s'|
      ensures RunOk(maxDepth, s', r) && Accounts(s', r)
    {
      if r < |s| {
        StartKeepsOld(maxDepth, s, run, r);
      }
    }
  }

  /** A run below stage 3 changes what it has: nothing that was given away changes. */
  lemma QuietKeeps(maxDepth: nat, s: Table, j: nat, run: Run)
    requires Inv(maxDepth, s) && j < |s| && Stage(s[j].phase) < 3
    requires run.parent == s[j].parent && run.depth == s[j].depth && run.delegated == s[j].delegated && run.mirror == s[j].mirror
    requires Stage(run.phase) < 3 || (run.phase.Done? && Total(run) == Zero && run.parent.Under?)
    requires run.phase.RowRead? ==> run.phase.read == Total(run) && run.parent.Under?
    requires !run.phase.Looping? ==> ChildrenDone(s, j)
    ensures Inv(maxDepth, s[j := run])
  {
    var s' := s[j := run];
    forall r | 0 <= r < |s'|
      ensures RunOk(maxDepth, s', r) && Accounts(s', r)
    {
      assert RunOk(maxDepth, s, r) && Accounts(s, r);
      forall c | 0 <= c < |s'| && ChildOf(s', c, r) && !s'[r].phase.Looping?
        ensures s'[c].phase.Done?
      {
        assert ChildOf(s, c, r);
        assert r != j ==> s[c].phase.Done?;
      }
      forall stage: nat, k | stage >= 3
        ensures SumGiven(s', r, stage, k) == SumGiven(s, r, stage, k)
      {
        SumUpdate(s, j, run, r, stage, k);
      }
    }
  }

  lemma ParentLoops(maxDepth: nat, s: Table, c: nat)
    requires Inv(maxDepth, s) && c < |s| && s[c].parent.Under? && !s[c].phase.Done?
    ensures s[c].parent.run < c && s[s[c].parent.run].phase.Looping?
  {
    assert RunOk(maxDepth, s, c);
    var p := s[c].parent.run;
    assert RunOk(maxDepth, s, p);
    assert ChildOf(s, c, p);
  }

  /** Run `c` moves one stage on while its parent, still looping, changes its counters. */
  lemma GiveRows(maxDepth: nat, s: Table, s': Table, c: nat, p: nat)
    requires Inv(maxDepth, s) && c < |s| && s[c].parent == Under(p) && p < c && s[p].phase.Looping?
    requires |s'| == |s| && forall i :: 0 <= i < |s| && i != c && i != p ==> s'[i] == s[i]
    requires s'[p] == s[p].(delegated := s'[p].delegated, mirror := s'[p].mirror)
    requires s'[c] == s[c].(phase := s'[c].phase) && !s[c].phase.Done? && Stage(s[c].phase) >= 2
    requires Stage(s'[c].phase) == Stage(s[c].phase) + 1
    requires !s'[c].phase.Done? ==> s'[c].phase.read == Total(s[c])
    ensures forall r :: 0 <= r < |s'| ==> RunOk(maxDepth, s', r)
  {
    forall r | 0 <= r < |s'|
      ensures RunOk(maxDepth, s', r)
    {
      assert RunOk(maxDepth, s, r);
      forall i | 0 <= i < |s'| && ChildOf(s', i, r) && !s'[r].phase.Looping?
        ensures s'[i].phase.Done?
      {
        assert ChildOf(s, i, r);
      }
    }
  }

  /** The parent keeps its stage, and the child moves on by one. */
  lemma GiveSums(s: Table, p: nat, parent: Run, c: nat, child: Run, r: nat, stage: nat, k: Kind)
    requires p < |s| && c < |s| && c != p && stage >= 3
    requires s[p].phase.Looping? && parent.phase.Looping?
    requires s[c].parent == Under(p) && child == s[c].(phase := child.phase) && Stage(child.phase) == Stage(s[c].phase) + 1
    ensures SumGiven(s[p := parent][c := child], r, stage, k) ==
            SumGiven(s, r, stage, k) + (if r == p && Stage(child.phase) == stage then Pick(Total(s[c]), k) else 0)
  {
    SumUpdate(s, p, parent, r, stage, k);
    SumUpdate(s[p := parent], c, child, r, stage, k);
  }

  lemma GiveKeeps(maxDepth: nat, s: Table, step: Step)
    requires Inv(maxDepth, s) && Enabled(maxDepth, s, step)
    requires step.AddColumn? || step.AddMirrorInput? || step.AddMirrorOutput?
    ensures Inv(maxDepth, Apply(maxDepth, s, step))
  {
    var s', c := Apply(maxDepth, s, step), step.run;
    var p := s[c].parent.run;
    ParentLoops(maxDepth, s, c);
    assert RunOk(maxDepth, s, c);
    GiveRows(maxDepth, s, s', c, p);
    assert s' == s[p := s'[p]][c := s'[c]];
    forall r | 0 <= r < |s'|
      ensures Accounts(s', r)
    {
      assert Accounts(s, r);
      forall k
        ensures Pick(s'[r].delegated, k) == SumGiven(s', r, 3, k)
      {
        GiveSums(s, p, s'[p], c, s'[c], r, 3, k);
      }
      GiveSums(s, p, s'[p], c, s'[c], r, 4, Input);
      GiveSums(s, p, s'[p], c, s'[c], r, 5, Output);
    }
  }

  lemma StepKeepsInv(maxDepth: nat, s: Table, step: Step)
    requires Inv(maxDepth, s) && Enabled(maxDepth, s, step)
    ensures Inv(maxDepth, Apply(maxDepth, s, step))
  {
    match step {
      case Outer => StartKeeps(maxDepth, s, NewRun(Top, 0));
      case Delegate(p) => StartKeeps(maxDepth, s, NewRun(Under(p), s[p].depth + 1));
      case Usage(r, t) => QuietKeeps(maxDepth, s, r, s[r].(own := Plus(s[r].own, t)));
      case Finish(r) => QuietKeeps(maxDepth, s, r, s[r].(phase := Ended));
      case ReadRow(c) =>
        assert RunOk(maxDepth, s, c);
        QuietKeeps(maxDepth, s, c, s[c].(phase := if Total(s[c]) == Zero then Done else RowRead(Total(s[c]))));
      case _ => GiveKeeps(maxDepth, s, step);
    }
  }

  lemma {:induction false} EveryStateAccounts(maxDepth: nat, states: seq<Table>, steps: seq<Step>, i: nat)
    requires IsRun(maxDepth, states, steps) && i < |states| && states[0] == []
    ensures Inv(maxDepth, states[i])
  {
    if i > 0 {
      EveryStateAccounts(maxDepth, states, steps, i - 1);
      StepKeepsInv(maxDepth, states[i - 1], steps[i - 1]);
    }
  }

  // ---------- the whole subtree ----------

  /** The tokens that a run and everything below it used themselves. */
  function Subtree(s: Table, r: nat, k: Kind): nat
    requires r < |s|
    decreases |s| - r, |s| - r
  {
    Pick(s[r].own, k) + Below(s, r, r + 1, k)
  }

  /** The subtrees of the children of `r` from `c` on. */
  function Below(s: Table, r: nat, c: nat, k: Kind): nat
    requires r < c <= |s|
    decreases |s| - r, |s| - c
  {
    if c == |s| then 0 else (if ChildOf(s, c, r) then Subtree(s, c, k) else 0) + Below(s, r, c + 1, k)
  }

  /** The same children with what they gave. */
  function ChildTotals(s: Table, r: nat, c: nat, k: Kind): nat
    requires c <= |s|
    decreases |s| - c
  {
    if c == |s| then 0 else (if ChildOf(s, c, r) then Pick(Total(s[c]), k) else 0) + ChildTotals(s, r, c + 1, k)
  }

  lemma {:induction false} SumSplits(s: Table, r: nat, c: nat, stage: nat, k: Kind)
    requires c <= |s| && ChildrenDone(s, r) && stage <= 5
    ensures SumGiven(s[..c], r, stage, k) + ChildTotals(s, r, c, k) == SumGiven(s, r, stage, k)
    decreases |s| - c
  {
    if c < |s| {
      SumSplits(s, r, c + 1, stage, k);
      assert s[..c + 1] == s[..c] + [s[c]];
      SumMore(s[..c], s[c], r, stage, k);
      assert ChildOf(s, c, r) ==> s[c].phase.Done?;
    } else {
      assert s[..c] == s;
    }
  }

  lemma NothingBefore(maxDepth: nat, s: Table, r: nat, stage: nat, k: Kind)
    requires Inv(maxDepth, s) && r < |s|
    ensures SumGiven(s[..r + 1], r, stage, k) == 0
  {
    var front := s[..r + 1];
    forall c | 0 <= c < |front|
      ensures !ChildOf(front, c, r)
    {
      assert RunOk(maxDepth, s, c) && front[c] == s[c];
    }
    NoChildrenYet(front, r, stage, k);
  }

  lemma SumIsChildTotals(maxDepth: nat, s: Table, r: nat, k: Kind)
    requires Inv(maxDepth, s) && r < |s| && ChildrenDone(s, r)
    ensures Pick(s[r].delegated, k) == Pick(s[r].mirror, k) == ChildTotals(s, r, r + 1, k)
  {
    assert Accounts(s, r);
    forall stage: nat | stage <= 5
      ensures SumGiven(s, r, stage, k) == ChildTotals(s, r, r + 1, k)
    {
      SumSplits(s, r, r + 1, stage, k);
      NothingBefore(maxDepth, s, r, stage, k);
    }
    assert SumGiven(s, r, 3, k) == SumGiven(s, r, 4, k) == SumGiven(s, r, 5, k);
  }

  /** When a run has no delegation under way, its delegated columns and counters hold its children's subtrees. */
  lemma {:induction false} DelegatedIsBelow(maxDepth: nat, s: Table, r: nat, k: Kind)
    requires Inv(maxDepth, s) && r < |s| && ChildrenDone(s, r)
    ensures Pick(s[r].delegated, k) == Pick(s[r].mirror, k) == Below(s, r, r + 1, k)
    ensures Pick(Total(s[r]), k) == Subtree(s, r, k)
    decreases |s| - r, 1, 0
  {
    SumIsChildTotals(maxDepth, s, r, k);
    ChildTotalsAreSubtrees(maxDepth, s, r, r + 1, k);
  }

  lemma {:induction false} ChildTotalsAreSubtrees(maxDepth: nat, s: Table, r: nat, c: nat, k: Kind)
    requires Inv(maxDepth, s) && r < c <= |s| && ChildrenDone(s, r)
    ensures ChildTotals(s, r, c, k) == Below(s, r, c, k)
    decreases |s| - r, 0, |s| - c
  {
    if c < |s| {
      ChildTotalsAreSubtrees(maxDepth, s, r, c + 1, k);
      if ChildOf(s, c, r) {
        assert RunOk(maxDepth, s, c) && s[c].phase.Done?;
        DelegatedIsBelow(maxDepth, s, c, k);
      }
    }
  }

  /** Once the loop of a run has returned, its own total and its delegated total add up to what its whole subtree
      used, counted once; and the counters agree with the columns. */
  lemma EndedHoldsSubtree(maxDepth: nat, s: Table, r: nat, k: Kind)
    requires Inv(maxDepth, s) && r < |s| && !s[r].phase.Looping?
    ensures Pick(s[r].own, k) + Pick(s[r].delegated, k) == Subtree(s, r, k)
    ensures Pick(s[r].mirror, k) == Pick(s[r].delegated, k)
  {
    assert RunOk(maxDepth, s, r);
    DelegatedIsBelow(maxDepth, s, r, k);
  }

  /** How many runs are above a run. */
  function Ancestors(s: Table, r: nat): nat
    requires r < |s|
    decreases r
  {
    if s[r].parent.Under? && s[r].parent.run < r then 1 + Ancestors(s, s[r].parent.run) else 0
  }

  lemma {:induction false} DepthOfRun(maxDepth: nat, s: Table, r: nat)
    requires Inv(maxDepth, s) && r < |s|
    ensures s[r].depth == Ancestors(s, r) <= maxDepth
    decreases r
  {
    assert RunOk(maxDepth, s, r);
    if s[r].parent.Under? {
      DepthOfRun(maxDepth, s, s[r].parent.run);
    }
  }

  /** No run ever has more runs above it than the limit. */
  lemma DepthBounded(maxDepth: nat, states: seq<Table>, steps: seq<Step>, i: nat, r: nat)
    requires IsRun(maxDepth, states, steps) && i < |states| && states[0] == [] && r < |states[i]|
    ensures states[i][r].depth == Ancestors(states[i], r) <= maxDepth
  {
    EveryStateAccounts(maxDepth, states, steps, i);
    DepthOfRun(maxDepth, states[i], r);
  }

  /** A run that is under way can delegate exactly while fewer runs than the limit are above it, and the sub-run is
      one level below it, with nothing used. */
  lemma DelegatesIff(maxDepth: nat, states: seq<Table>, steps: seq<Step>, i: nat, p: nat)
    requires IsRun(maxDepth, states, steps) && i < |states| && states[0] == []
    requires p < |states[i]| && states[i][p].phase == Looping
    ensures Enabled(maxDepth, states[i], Delegate(p)) <==> Ancestors(states[i], p) < maxDepth
    ensures Enabled(maxDepth, states[i], Delegate(p)) ==>
              var (s, s') := (states[i], Apply(maxDepth, states[i], Delegate(p)));
              && |s'| == |s| + 1 && s'[..|s|] == s
              && s'[|s|] == Run(Under(p), Ancestors(s, p) + 1, Zero, Zero, Zero, Looping)
  {
    EveryStateAccounts(maxDepth, states, steps, i);
    DepthOfRun(maxDepth, states[i], p);
  }

  // ---------- nothing is lost or counted twice ----------

  predicate HangsBelow(s: Table, c: nat, j: nat)
    requires c < |s|
  {
    s[c].parent.Top? || s[c].parent.run < j
  }

  /** The subtrees of the runs from `c` on whose parent is before `j`. */
  function Hanging(s: Table, j: nat, c: nat, k: Kind): nat
    requires c <= |s|
    decreases |s| - c
  {
    if c == |s| then 0 else (if HangsBelow(s, c, j) then Subtree(s, c, k) else 0) + Hanging(s, j, c + 1, k)
  }

  function OwnSum(s: Table, k: Kind): nat {
    if |s| == 0 then 0 else OwnSum(s[..|s| - 1], k) + Pick(s[|s| - 1].own, k)
  }

  /** What the outer runs report: their own and their delegated tokens. */
  function OuterTotals(s: Table, k: Kind): nat {
    if |s| == 0 then 0
    else OuterTotals(s[..|s| - 1], k) + if s[|s| - 1].parent.Top? then Pick(Total(s[|s| - 1]), k) else 0
  }

  lemma {:induction false} HangingSplits(s: Table, j: nat, c: nat, k: Kind)
    requires j < c <= |s|
    ensures Hanging(s, j + 1, c, k) == Hanging(s, j, c, k) + Below(s, j, c, k)
    decreases |s| - c
  {
    if c < |s| {
      HangingSplits(s, j, c + 1, k);
      assert HangsBelow(s, c, j + 1) <==> HangsBelow(s, c, j) || ChildOf(s, c, j);
    }
  }

  /** Going down the table, a run's own tokens leave its subtree and its children's subtrees stay to be counted. */
  lemma {:induction false} OwnAndHanging(maxDepth: nat, s: Table, j: nat, k: Kind)
    requires Inv(maxDepth, s) && j <= |s|
    ensures OwnSum(s[..j], k) + Hanging(s, j, j, k) == Hanging(s, 0, 0, k)
    decreases j
  {
    if j > 0 {
      var i := j - 1;
      OwnAndHanging(maxDepth, s, i, k);
      HangingSplits(s, i, j, k);
      assert RunOk(maxDepth, s, i);
      assert HangsBelow(s, i, i);
      assert s[..j][..i] == s[..i];
    }
  }

  lemma {:induction false} OuterTotalsHang(maxDepth: nat, s: Table, c: nat, k: Kind)
    requires Inv(maxDepth, s) && c <= |s|
    requires forall r :: 0 <= r < |s| && s[r].parent.Top? ==> s[r].phase.Ended?
    ensures OuterTotals(s[..c], k) + Hanging(s, 0, c, k) == OuterTotals(s, k)
    decreases |s| - c
  {
    if c < |s| {
      OuterTotalsHang(maxDepth, s, c + 1, k);
      assert s[..c + 1][..c] == s[..c];
      if s[c].parent.Top? {
        assert RunOk(maxDepth, s, c);
        DelegatedIsBelow(maxDepth, s, c, k);
      }
    } else {
      assert s[..c] == s;
    }
  }

  /** Once all outer runs have ended, what they report is what all runs together used: nothing is lost and
      nothing is counted twice, whatever ran in parallel. */
  lemma OutersHoldAll(maxDepth: nat, s: Table, k: Kind)
    requires Inv(maxDepth, s) && forall r :: 0 <= r < |s| && s[r].parent.Top? ==> s[r].phase.Ended?
    ensures OuterTotals(s, k) == OwnSum(s, k)
  {
    OuterTotalsHang(maxDepth, s, 0, k);
    OwnAndHanging(maxDepth, s, |s|, k);
    assert s[..|s|] == s && s[..0] == [];
  }

  // ---------- the budget ----------

  /** `tokenBudgetExceeded`; a budget of 0 or less is no budget. */
  predicate Exceeds(budget: int, own: Tokens, delegated: Tokens) {
    budget > 0 && own.input + own.output + delegated.input + delegated.output > budget
  }

  /** With none of its delegations under way, the check of a run sees its whole subtree. */
  lemma BudgetSeesBelow(maxDepth: nat, s: Table, r: nat, budget: int)
    requires Inv(maxDepth, s) && r < |s| && ChildrenDone(s, r)
    ensures Exceeds(budget, s[r].own, s[r].mirror) <==>
            budget > 0 && Subtree(s, r, Input) + Subtree(s, r, Output) > budget
  {
    DelegatedIsBelow(maxDepth, s, r, Input);
    DelegatedIsBelow(maxDepth, s, r, Output);
  }

  lemma {:induction false} LaterStagesGiveLess(s: Table, r: nat, stage: nat, k: Kind)
    requires stage >= 3
    ensures SumGiven(s, r, stage, k) <= SumGiven(s, r, 3, k)
  {
    if |s| > 0 {
      LaterStagesGiveLess(s[..|s| - 1], r, stage, k);
    }
  }

  /** At any other moment the counters may lag behind the columns, and never lead. */
  lemma CountersLag(maxDepth: nat, states: seq<Table>, steps: seq<Step>, i: nat, r: nat, k: Kind)
    requires IsRun(maxDepth, states, steps) && i < |states| && states[0] == [] && r < |states[i]|
    ensures Pick(states[i][r].mirror, k) <= Pick(states[i][r].delegated, k)
  {
    EveryStateAccounts(maxDepth, states, steps, i);
    assert Accounts(states[i], r);
    LaterStagesGiveLess(states[i], r, 4, k);
    LaterStagesGiveLess(states[i], r, 5, k);
  }

  // ---------- the accounting as the program runs it ----------

  /** The steps of `accumulateDelegatedTokens`, one after the other. */
  function Accumulate(maxDepth: nat, s: Table, c: nat): Table
    requires Enabled(maxDepth, s, ReadRow(c)) && s[c].parent.run < c
  {
    var s1 := Apply(maxDepth, s, ReadRow(c));
    if s1[c].phase.Done? then s1
    else
      var s2 := Apply(maxDepth, s1, AddColumn(c));
      Apply(maxDepth, Apply(maxDepth, s2, AddMirrorInput(c)), AddMirrorOutput(c))
  }

  class RunTable {
    const maxDepth: nat
    var runs: Table

    constructor (maxDepth: nat)
      ensures this.maxDepth == maxDepth && runs == []
    {
      this.maxDepth, runs := maxDepth, [];
    }

    method StartOuter() returns (id: nat)
      modifies this
      ensures id == |old(runs)| && runs == Apply(maxDepth, old(runs), Outer)
    {
      id := |runs|;
      runs := runs + [NewRun(Top, 0)];
    }

    /** `executeDelegateAgent` refuses a run that would be too deep. */
    method StartDelegate(parent: nat) returns (id: Option<nat>)
      requires parent < |runs| && runs[parent].phase.Looping?
      modifies this
      ensures id.Some? <==> Enabled(maxDepth, old(runs), Delegate(parent))
      ensures if id.Some? then id.value == |old(runs)| && runs == Apply(maxDepth, old(runs), Delegate(parent))
              else runs == old(runs)
    {
      if runs[parent].depth + 1 > maxDepth {
        return None;
      }
      id := Some(|runs|);
      runs := runs + [NewRun(Under(parent), runs[parent].depth + 1)];
    }

    method AddTokenUsage(r: nat, t: Tokens)
      requires r < |runs| && runs[r].phase.Looping?
      modifies this
      ensures runs == Apply(maxDepth, old(runs), Usage(r, t))
    {
      if t.input == 0 && t.output == 0 {
        assert runs[r].(own := Plus(runs[r].own, t)) == runs[r];
        return;
      }
      runs := runs[r := runs[r].(own := Tokens(runs[r].own.input + t.input, runs[r].own.output + t.output))];
    }

    method AccumulateDelegatedTokens(c: nat)
      requires Enabled(maxDepth, runs, ReadRow(c)) && runs[c].parent.run < c
      modifies this
      ensures runs == Accumulate(maxDepth, old(runs), c)
    {
      var p := runs[c].parent.run;
      var read := Tokens(runs[c].own.input + runs[c].delegated.input, runs[c].own.output + runs[c].delegated.output);
      if read.input == 0 && read.output == 0 {
        runs := runs[c := runs[c].(phase := Done)];
        return;
      }
      runs := runs[c := runs[c].(phase := RowRead(read))];
      var d, m := runs[p].delegated, runs[p].mirror;
      runs := runs[p := runs[p].(delegated := Tokens(d.input + read.input, d.output + read.output))];
      runs := runs[c := runs[c].(phase := Added(read))];
      runs := runs[p := runs[p].(mirror := m.(input := m.input + read.input))];
      runs := runs[c := runs[c].(phase := MirroredInput(read))];
      m := runs[p].mirror;
      runs := runs[p := runs[p].(mirror := m.(output := m.output + read.output))];
      runs := runs[c := runs[c].(phase := Done)];
    }

    method CheckTokenBudget(r: nat, budget: int) returns (exceeded: bool)
      requires r < |runs|
      ensures exceeded == Exceeds(budget, runs[r].own, runs[r].mirror)
    {
      if budget <= 0 {
        return false;
      }
      var run := runs[r];
      exceeded := run.own.input + run.own.output + run.mirror.input + run.mirror.output > budget;
    }
  }
}
