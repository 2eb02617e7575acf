/** Which stored messages still belong to the model's context after compaction, computed twice: in one go by
    `filterCoveredReactMessages` of `service/react/engine.go`, and message by message by the event builder of
    `service/react/history.go`; and the events that the builder replays.

    A message comes with what the converters make of it: the chat message, the references that a summary
    covers, and the payloads of the events it is replayed as. */
module History {
  import opened Common

  datatype Kind = UserInput | Assistant | Partial | ToolResult | Summary | Unknown

  datatype Ref = Ref(run: string, no: int)

  datatype Message = Message(
    run: string, no: int, kind: Kind, converted: Option<string>, coveredThrough: seq<Ref>, parts: seq<string>)

  datatype RunState = Running | Waiting | Cancelling | Finished | Failed | Cancelled | Expired

  datatype Run = Run(parent: string, state: RunState)

  /** `reactMessageToChatMessage`: a partial answer is never a chat message. */
  function Chat(m: Message): Option<string> {
    if m.kind.Partial? then None else m.converted
  }

  // ---------- coverage ----------

  /** One of the first `n` references reaches message `seq` of `run`. */
  predicate Reaches(refs: seq<Ref>, n: nat, run: string, no: int)
    requires n <= |refs|
  {
    run != "" && exists k :: 0 <= k < n && refs[k].run == run && 1 <= no <= refs[k].no
  }

  predicate Covers(s: Message, m: Message) {
    s.kind.Summary? && Reaches(s.coveredThrough, |s.coveredThrough|, m.run, m.no)
  }

  /** A summary among the first `n` messages reaches message `seq` of `run`. */
  predicate SummaryReaches(ms: seq<Message>, n: nat, run: string, no: int)
    requires n <= |ms|
  {
    exists j :: 0 <= j < n && ms[j].kind.Summary? && Reaches(ms[j].coveredThrough, |ms[j].coveredThrough|, run, no)
  }

  type Marks = map<string, set<int>>

  predicate Marked(covered: Marks, run: string, no: int) {
    run in covered && no in covered[run]
  }

  /** An initial segment 1..w. */
  ghost predicate Segment(s: set<int>) {
    && (forall x :: x in s ==> x >= 1)
    && (forall x, y :: x in s && 1 <= y <= x ==> y in s)
  }

  ghost predicate Segments(covered: Marks) {
    forall run :: run in covered ==> Segment(covered[run])
  }

  /** `ms` restricted to the positions in `keep`. */
  function Select(ms: seq<Message>, keep: set<nat>): seq<Message> {
    if |ms| == 0 then []
    else
      var rest := Select(ms[..|ms| - 1], keep);
      if |ms| - 1 in keep then rest + [ms[|ms| - 1]] else rest
  }

  /** The positions that no summary anywhere covers. */
  function Uncovered(ms: seq<Message>): set<nat> {
    set i: nat | i < |ms| && !SummaryReaches(ms, |ms|, ms[i].run, ms[i].no)
  }

  lemma {:induction false} SelectSame(ms: seq<Message>, a: set<nat>, b: set<nat>)
    requires forall i :: 0 <= i < |ms| ==> (i in a <==> i in b)
    ensures Select(ms, a) == Select(ms, b)
  {
    if |ms| > 0 {
      SelectSame(ms[..|ms| - 1], a, b);
    }
  }

  /** Adds 1..w to the marks of a run. */
  method MarkThrough(covered0: Marks, run: string, w: int) returns (covered: Marks)
    requires w > 0 && Segments(covered0)
    ensures Segments(covered)
    ensures forall r, x :: Marked(covered, r, x) <==> Marked(covered0, r, x) || (r == run && 1 <= x <= w)
  {
    var marks := if run in covered0 then covered0[run] else {};
    var before := marks;
    var x := 1;
    while x <= w
      invariant 1 <= x <= w + 1
      invariant forall y :: y in marks <==> y in before || 1 <= y < x
    {
      marks := marks + {x};
      x := x + 1;
    }
    covered := covered0[run := marks];
    assert Segment(marks) by {
      assert run in covered0 ==> Segment(before);
    }
  }

  /** The marks of one summary.  A reference that is marked already is skipped, which is sound because the marks
      of a run are an initial segment. */
  method MarkRefs(covered0: Marks, refs: seq<Ref>) returns (covered: Marks)
    requires Segments(covered0)
    ensures Segments(covered)
    ensures forall r, x :: Marked(covered, r, x) <==> Marked(covered0, r, x) || Reaches(refs, |refs|, r, x)
  {
    covered := covered0;
    var k := 0;
    while k < |refs|
      invariant 0 <= k <= |refs| && Segments(covered)
      invariant forall r, x :: Marked(covered, r, x) <==> Marked(covered0, r, x) || Reaches(refs, k, r, x)
    {
      var ref := refs[k];
      ghost var before := covered;
      k := k + 1;
      if ref.run != "" && ref.no > 0 {
        if ref.run in covered && ref.no in covered[ref.run] {
          assert Segment(covered[ref.run]);
          continue;
        }
        covered := MarkThrough(covered, ref.run, ref.no);
      }
    }
  }

  /** `filterCoveredReactMessages`. */
  method FilterCovered(ms: seq<Message>) returns (filtered: seq<Message>)
    ensures filtered == Select(ms, Uncovered(ms))
  {
    var covered: Marks := map[];
    var i := 0;
    while i < |ms|
      invariant 0 <= i <= |ms| && Segments(covered)
      invariant forall r, x :: Marked(covered, r, x) <==> SummaryReaches(ms, i, r, x)
    {
      if ms[i].kind.Summary? {
        covered := MarkRefs(covered, ms[i].coveredThrough);
      }
      i := i + 1;
    }
    filtered := [];
    i := 0;
    while i < |ms|
      invariant 0 <= i <= |ms|
      invariant filtered == Select(ms[..i], Uncovered(ms))
    {
      assert ms[..i + 1][..i] == ms[..i];
      if !(ms[i].run in covered && ms[i].no in covered[ms[i].run]) {
        assert !Marked(covered, ms[i].run, ms[i].no);
        filtered := filtered + [ms[i]];
      } else {
        assert Marked(covered, ms[i].run, ms[i].no);
      }
      i := i + 1;
    }
    assert ms[..i] == ms;
  }

  // ---------- the two computations agree ----------

  type Runs = map<string, Run>

  predicate IsChild(runs: Runs, run: string) {
    run in runs && runs[run].parent != ""
  }

  /** What the tracker looks at: messages that are not of a sub-run and name a run. */
  predicate Tracked(runs: Runs, m: Message) {
    !IsChild(runs, m.run) && !Blank(m.run)
  }

  /** What the query of a new run's history finds: messages whose run has a row without a parent. */
  predicate Joined(runs: Runs, m: Message) {
    m.run in runs && runs[m.run].parent == ""
  }

  function Filter(ms: seq<Message>, f: Message -> bool): seq<Message> {
    if |ms| == 0 then []
    else
      var m, rest := ms[|ms| - 1], Filter(ms[..|ms| - 1], f);
      if f(m) then rest + [m] else rest
  }

  function Outer(runs: Runs, ms: seq<Message>): seq<Message> {
    Filter(ms, m => Tracked(runs, m))
  }

  function Queried(runs: Runs, ms: seq<Message>): seq<Message> {
    Filter(ms, m => Joined(runs, m))
  }

  function Drop(context: seq<Message>, refs: seq<Ref>): seq<Message> {
    if |context| == 0 then []
    else
      var m, rest := context[|context| - 1], Drop(context[..|context| - 1], refs);
      if Reaches(refs, |refs|, m.run, m.no) then rest else rest + [m]
  }

  /** `trackContextUsage`. */
  function Track(runs: Runs, context: seq<Message>, m: Message): seq<Message> {
    if !Tracked(runs, m) || Chat(m).None? then context
    else if m.kind.Summary? then Drop(context, m.coveredThrough) + [m]
    else context + [m]
  }

  function Incremental(runs: Runs, ms: seq<Message>): seq<Message> {
    if |ms| == 0 then [] else Track(runs, Incremental(runs, ms[..|ms| - 1]), ms[|ms| - 1])
  }

  /** The model's history of a new run: the queried messages that are uncovered and convert. */
  function Batch(runs: Runs, ms: seq<Message>): seq<Message> {
    var outer := Queried(runs, ms);
    Select(outer, set i: nat | i in Uncovered(outer) && Chat(outer[i]).Some?)
  }

  /** A later message that the tracker sees, and that converts, covers this one. */
  predicate CoveredLater(runs: Runs, ms: seq<Message>, i: nat)
    requires i < |ms|
  {
    exists j :: i < j < |ms| && Tracked(runs, ms[j]) && Chat(ms[j]).Some? && Covers(ms[j], ms[i])
  }

  /** A message that the query finds, anywhere, converting or not, covers `m`. */
  predicate CoveredInQuery(runs: Runs, ms: seq<Message>, m: Message) {
    exists j :: 0 <= j < |ms| && Joined(runs, ms[j]) && Covers(ms[j], m)
  }

  function Survivors(runs: Runs, ms: seq<Message>): set<nat> {
    set i: nat | i < |ms| && Tracked(runs, ms[i]) && Chat(ms[i]).Some? && !CoveredLater(runs, ms, i)
  }

  lemma {:induction false} IncrementalIgnoresChildren(runs: Runs, ms: seq<Message>)
    ensures Incremental(runs, ms) == Incremental(runs, Outer(runs, ms))
  {
    if |ms| > 0 {
      var n := |ms| - 1;
      IncrementalIgnoresChildren(runs, ms[..n]);
      var outer := Outer(runs, ms[..n]);
      if Tracked(runs, ms[n]) {
        assert (outer + [ms[n]])[..|outer|] == outer;
      }
    }
  }

  lemma {:induction false} DropSelected(ms: seq<Message>, keep: set<nat>, left: set<nat>, refs: seq<Ref>)
    requires forall i :: 0 <= i < |ms| ==> (i in left <==> i in keep && !Reaches(refs, |refs|, ms[i].run, ms[i].no))
    ensures Drop(Select(ms, keep), refs) == Select(ms, left)
  {
    if |ms| > 0 {
      var n := |ms| - 1;
      DropSelected(ms[..n], keep, left, refs);
      if n in keep {
        var before := Select(ms[..n], keep);
        assert (before + [ms[n]])[..|before|] == before;
      }
    }
  }

  lemma CoveredLaterMore(runs: Runs, ms: seq<Message>, i: nat)
    requires |ms| > 0 && i < |ms| - 1
    ensures
      var m := ms[|ms| - 1];
      CoveredLater(runs, ms, i) <==>
        CoveredLater(runs, ms[..|ms| - 1], i) || (Tracked(runs, m) && Chat(m).Some? && Covers(m, ms[i]))
  {
    var n := |ms| - 1;
    var front := ms[..n];
    if CoveredLater(runs, ms, i) {
      var j :| i < j < |ms| && Tracked(runs, ms[j]) && Chat(ms[j]).Some? && Covers(ms[j], ms[i]);
      assert j < n ==> Covers(front[j], front[i]);
    }
    if j :| i < j < n && Tracked(runs, front[j]) && Chat(front[j]).Some? && Covers(front[j], front[i]) {
      assert Covers(ms[j], ms[i]);
    }
  }

  lemma SurvivorsMore(runs: Runs, ms: seq<Message>, i: nat)
    requires |ms| > 0 && i < |ms| - 1
    ensures
      var m := ms[|ms| - 1];
      i in Survivors(runs, ms) <==>
        i in Survivors(runs, ms[..|ms| - 1]) && !(Tracked(runs, m) && Chat(m).Some? && Covers(m, ms[i]))
  {
    CoveredLaterMore(runs, ms, i);
  }

  /** What message-by-message tracking keeps. */
  lemma {:induction false} IncrementalKeeps(runs: Runs, ms: seq<Message>)
    ensures Incremental(runs, ms) == Select(ms, Survivors(runs, ms))
  {
    if |ms| > 0 {
      var n := |ms| - 1;
      var m := ms[n];
      var before := Survivors(runs, ms[..n]);
      IncrementalKeeps(runs, ms[..n]);
      forall i: nat | i < n
        ensures i in Survivors(runs, ms) <==> i in before && !(Tracked(runs, m) && Chat(m).Some? && Covers(m, ms[i]))
      {
        SurvivorsMore(runs, ms, i);
      }
      assert n in Survivors(runs, ms) <==> Tracked(runs, m) && Chat(m).Some?;
      if Tracked(runs, m) && Chat(m).Some? && m.kind.Summary? {
        DropSelected(ms[..n], before, Survivors(runs, ms), m.coveredThrough);
      } else {
        SelectSame(ms[..n], Survivors(runs, ms), before);
      }
    }
  }

  /** Message numbers are unique within a run. */
  predicate Distinct(ms: seq<Message>) {
    forall i, j :: 0 <= i < j < |ms| ==> !(ms[i].run == ms[j].run && ms[i].no == ms[j].no)
  }

  lemma {:induction false} SelectIn(ms: seq<Message>, keep: set<nat>)
    ensures forall m :: m in Select(ms, keep) <==> exists i :: 0 <= i < |ms| && i in keep && ms[i] == m
  {
    if |ms| > 0 {
      var n := |ms| - 1;
      SelectIn(ms[..n], keep);
      forall m
        ensures m in Select(ms, keep) <==> exists i :: 0 <= i < |ms| && i in keep && ms[i] == m
      {
        if i :| 0 <= i < |ms| && i in keep && ms[i] == m {
          assert i < n ==> ms[..n][i] == m;
        }
        if i :| 0 <= i < n && i in keep && ms[..n][i] == m {
          assert ms[i] == m;
        }
      }
    }
  }

  lemma SelectDiffers(ms: seq<Message>, a: set<nat>, b: set<nat>, i: nat)
    requires Distinct(ms) && i < |ms| && i in a && i !in b
    ensures Select(ms, a) != Select(ms, b)
  {
    SelectIn(ms, a);
    SelectIn(ms, b);
    assert ms[i] in Select(ms, a);
    if j :| 0 <= j < |ms| && j in b && ms[j] == ms[i] {
      assert false;
    }
  }

  lemma {:induction false} SelectIsFilter(ms: seq<Message>, keep: set<nat>, f: Message -> bool)
    requires forall i :: 0 <= i < |ms| ==> (i in keep <==> f(ms[i]))
    ensures Select(ms, keep) == Filter(ms, f)
  {
    if |ms| > 0 {
      SelectIsFilter(ms[..|ms| - 1], keep, f);
    }
  }

  lemma {:induction false} FilterTwice(ms: seq<Message>, f: Message -> bool, g: Message -> bool)
    ensures Filter(Filter(ms, f), g) == Filter(ms, m => f(m) && g(m))
  {
    if |ms| > 0 {
      var n := |ms| - 1;
      FilterTwice(ms[..n], f, g);
      var rest := Filter(ms[..n], f);
      if f(ms[n]) {
        assert (rest + [ms[n]])[..|rest|] == rest;
      }
    }
  }

  lemma {:induction false} FilterMembers(ms: seq<Message>, f: Message -> bool, m: Message)
    ensures m in Filter(ms, f) <==> m in ms && f(m)
  {
    if |ms| > 0 {
      FilterMembers(ms[..|ms| - 1], f, m);
    }
  }

  lemma QueryCovers(runs: Runs, ms: seq<Message>, m: Message)
    ensures
      var outer := Queried(runs, ms);
      SummaryReaches(outer, |outer|, m.run, m.no) <==> CoveredInQuery(runs, ms, m)
  {
    var outer, f := Queried(runs, ms), (s: Message) => Joined(runs, s);
    if j :| 0 <= j < |outer| && outer[j].kind.Summary? && Reaches(outer[j].coveredThrough, |outer[j].coveredThrough|, m.run, m.no) {
      FilterMembers(ms, f, outer[j]);
      var k :| 0 <= k < |ms| && ms[k] == outer[j];
      assert Covers(ms[k], m);
    }
    if k :| 0 <= k < |ms| && Joined(runs, ms[k]) && Covers(ms[k], m) {
      FilterMembers(ms, f, ms[k]);
      var j :| 0 <= j < |outer| && outer[j] == ms[k];
      assert outer[j].kind.Summary?;
    }
  }

  /** The positions that the batch side keeps. */
  function BatchSurvivors(runs: Runs, ms: seq<Message>): set<nat> {
    set i: nat | i < |ms| && Joined(runs, ms[i]) && Chat(ms[i]).Some? && !CoveredInQuery(runs, ms, ms[i])
  }

  lemma BatchKeeps(runs: Runs, ms: seq<Message>)
    ensures Batch(runs, ms) == Select(ms, BatchSurvivors(runs, ms))
  {
    var outer := Queried(runs, ms);
    var f, g := (m: Message) => Joined(runs, m), (m: Message) => Chat(m).Some? && !CoveredInQuery(runs, ms, m);
    forall i: nat | i < |outer|
      ensures i in Uncovered(outer) && Chat(outer[i]).Some? <==> g(outer[i])
    {
      QueryCovers(runs, ms, outer[i]);
    }
    SelectIsFilter(outer, (set i: nat | i in Uncovered(outer) && Chat(outer[i]).Some?), g);
    FilterTwice(ms, f, g);
    SelectIsFilter(ms, BatchSurvivors(runs, ms), m => f(m) && g(m));
  }

  /** A converting message that both sides look at is covered on both or on neither; one that only one side
      looks at is covered there. */
  predicate CoveredAlike(runs: Runs, ms: seq<Message>) {
    forall i :: 0 <= i < |ms| && Chat(ms[i]).Some? ==>
      var m := ms[i];
      && (Tracked(runs, m) && Joined(runs, m) ==> (CoveredInQuery(runs, ms, m) <==> CoveredLater(runs, ms, i)))
      && (Tracked(runs, m) && !Joined(runs, m) ==> CoveredLater(runs, ms, i))
      && (!Tracked(runs, m) && Joined(runs, m) ==> CoveredInQuery(runs, ms, m))
  }

  /** The two computations give the same context on exactly these timelines. */
  lemma AgreeIff(runs: Runs, ms: seq<Message>)
    requires Distinct(ms)
    ensures Incremental(runs, ms) == Batch(runs, ms) <==> CoveredAlike(runs, ms)
  {
    IncrementalKeeps(runs, ms);
    BatchKeeps(runs, ms);
    var a, b := Survivors(runs, ms), BatchSurvivors(runs, ms);
    if CoveredAlike(runs, ms) {
      SelectSame(ms, a, b);
    } else {
      var i :| 0 <= i < |ms| && Chat(ms[i]).Some? && (i in a) != (i in b);
      if i in a {
        SelectDiffers(ms, a, b, i);
      } else {
        SelectDiffers(ms, b, a, i);
      }
    }
  }

  /** In particular when every message names a run with a row, and every summary of an outer run converts and
      covers only messages before it. */
  lemma AgreeOnWellFormed(runs: Runs, ms: seq<Message>)
    requires Distinct(ms)
    requires forall i :: 0 <= i < |ms| ==> ms[i].run in runs && !Blank(ms[i].run)
    requires forall i, j :: 0 <= i < |ms| && 0 <= j < |ms| && Joined(runs, ms[j]) && Covers(ms[j], ms[i]) ==>
               i < j && Chat(ms[j]).Some?
    ensures Incremental(runs, ms) == Batch(runs, ms)
  {
    AgreeIff(runs, ms);
    forall i | 0 <= i < |ms|
      ensures CoveredInQuery(runs, ms, ms[i]) <==> CoveredLater(runs, ms, i)
    {
      if j :| 0 <= j < |ms| && Joined(runs, ms[j]) && Covers(ms[j], ms[i]) {
        assert Tracked(runs, ms[j]);
      }
      if j :| i < j < |ms| && Tracked(runs, ms[j]) && Chat(ms[j]).Some? && Covers(ms[j], ms[i]) {
        assert Joined(runs, ms[j]);
      }
    }
  }

  lemma {:induction false} SelectedConverts(ms: seq<Message>, keep: set<nat>, m: Message)
    requires m in Select(ms, keep) && forall i: nat :: i < |ms| && i in keep ==> Chat(ms[i]).Some?
    ensures Chat(m).Some?
  {
    if m != ms[|ms| - 1] || |ms| - 1 !in keep {
      SelectedConverts(ms[..|ms| - 1], keep, m);
    }
  }

  /** A partial answer, which a cancelled run leaves behind, is in neither context; nor is anything that does not
      convert. */
  lemma PartialInNeither(runs: Runs, ms: seq<Message>, m: Message)
    requires m.kind == Partial || m.converted == None
    ensures m !in Incremental(runs, ms) && m !in Batch(runs, ms)
  {
    IncrementalKeeps(runs, ms);
    BatchKeeps(runs, ms);
    if m in Incremental(runs, ms) {
      SelectedConverts(ms, Survivors(runs, ms), m);
    }
    if m in Batch(runs, ms) {
      SelectedConverts(ms, BatchSurvivors(runs, ms), m);
    }
  }

  /** Message `s` is a summary with a reference to the run of `m` that reaches its number. */
  predicate RefersTo(s: Message, m: Message) {
    s.kind == Summary && exists k :: 0 <= k < |s.coveredThrough| && s.coveredThrough[k].run == m.run && m.no <= s.coveredThrough[k].no
  }

  lemma CoversIff(s: Message, m: Message)
    ensures Covers(s, m) <==> m.run != "" && m.no >= 1 && RefersTo(s, m)
  {
  }

  lemma AtPosition(ms: seq<Message>, keep: set<nat>, i: nat)
    requires Distinct(ms) && i < |ms|
    ensures ms[i] in Select(ms, keep) <==> i in keep
  {
    SelectIn(ms, keep);
  }

  /** What the tracker keeps: messages of outer runs, and of runs without a row, that convert and that no later one
      of these refers to. */
  lemma TrackedIff(runs: Runs, ms: seq<Message>, i: nat)
    requires Distinct(ms) && i < |ms|
    ensures
      var m := ms[i];
      m in Incremental(runs, ms) <==>
        && (m.run in runs ==> runs[m.run].parent == "") && (exists c :: c in m.run && !IsSpace(c))
        && m.kind != Partial && m.converted.Some?
        && (m.no < 1 || forall j :: i < j < |ms| && RefersTo(ms[j], m) ==>
              || ms[j].converted.None? || (ms[j].run in runs && runs[ms[j].run].parent != "")
              || forall c :: c in ms[j].run ==> IsSpace(c))
  {
    IncrementalKeeps(runs, ms);
    AtPosition(ms, Survivors(runs, ms), i);
    forall j | 0 <= j < |ms|
      ensures Covers(ms[j], ms[i]) <==> ms[i].run != "" && ms[i].no >= 1 && RefersTo(ms[j], ms[i])
      ensures Blank(ms[j].run) <==> forall c :: c in ms[j].run ==> IsSpace(c)
    {
      CoversIff(ms[j], ms[i]);
    }
  }

  /** What the history of a new run keeps: messages whose run has a row without a parent, that convert and that no
      such summary refers to, wherever it stands and whether it converts or not. */
  lemma HistoryIff(runs: Runs, ms: seq<Message>, i: nat)
    requires Distinct(ms) && i < |ms|
    ensures
      var m := ms[i];
      m in Batch(runs, ms) <==>
        && m.run in runs && runs[m.run].parent == "" && m.kind != Partial && m.converted.Some?
        && (m.run == "" || m.no < 1 || forall j :: 0 <= j < |ms| && RefersTo(ms[j], m) ==>
              ms[j].run !in runs || runs[ms[j].run].parent != "")
  {
    BatchKeeps(runs, ms);
    AtPosition(ms, BatchSurvivors(runs, ms), i);
    forall j | 0 <= j < |ms|
      ensures Covers(ms[j], ms[i]) <==> ms[i].run != "" && ms[i].no >= 1 && RefersTo(ms[j], ms[i])
    {
      CoversIff(ms[j], ms[i]);
    }
  }

  /** A message of a run without a row is in the tracked context and not in the history of a new run. */
  lemma OrphanIsTracked(m: Message)
    requires Chat(m).Some? && !Blank(m.run)
    ensures Incremental(map[], [m]) == [m] && Batch(map[], [m]) == []
  {
    var runs: Runs, ms := map[], [m];
    assert ms[..|ms| - 1] == [] && !Joined(runs, m);
    IncrementalKeeps(runs, ms);
    BatchKeeps(runs, ms);
    assert 0 in Survivors(runs, ms) && 0 !in BatchSurvivors(runs, ms);
    assert Select([], Survivors(runs, ms)) == [] && Select([], BatchSurvivors(runs, ms)) == [];
  }

  /** A summary with a blank text still covers in the batch filter, and never in the tracker. */
  lemma BlankSummaryDisagrees()
    ensures
      var runs := map["r" := Run("", Finished)];
      var ms := [Message("r", 1, UserInput, Some("hello"), [], []), Message("r", 2, Summary, None, [Ref("r", 1)], [])];
      Batch(runs, ms) == [] && Incremental(runs, ms) == [ms[0]]
  {
    var runs := map["r" := Run("", Finished)];
    var first, second := Message("r", 1, UserInput, Some("hello"), [], []), Message("r", 2, Summary, None, [Ref("r", 1)], []);
    var ms := [first, second];
    assert !Blank("r") by {
      assert "r"[0] == 'r';
    }
    assert ms[..1] == [first] && [first][..0] == [];
    assert Incremental(runs, [first]) == [first];
    BatchKeeps(runs, ms);
    assert Reaches([Ref("r", 1)], 1, "r", 1) by {
      assert [Ref("r", 1)][0].run == "r";
    }
    assert Covers(ms[1], ms[0]);
    assert 0 !in BatchSurvivors(runs, ms) && 1 !in BatchSurvivors(runs, ms);
    assert Select([first], BatchSurvivors(runs, ms)) == [] by {
      assert Select([], BatchSurvivors(runs, ms)) == [];
    }
  }
}
