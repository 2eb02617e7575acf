/** Assembly of tool calls from streamed fragments: `parseGPTToolStream` of `api/llm/gpt.go`.  A line of the
    stream comes parsed; the JSON clean-up of the arguments is a function parameter. */
module ToolCalls {
  import opened Common

  datatype ToolCall = ToolCall(id: string, name: string, input: string)

  /** `call` is absent when the delta has none; its name may be empty. */
  datatype Fragment = Fragment(index: int, id: string, call: Option<(string, string)>)

  datatype Builder = Builder(id: string, name: string, args: string)

  type Builders = map<int, Builder>

  const NewBuilder := Builder("", "", "")

  function Extended(b: Builder, f: Fragment): Builder {
    var b1 := if f.id != "" then b.(id := f.id) else b;
    if f.call.None? then b1
    else
      var (name, args) := f.call.value;
      var b2 := if name != "" then b1.(name := name) else b1;
      b2.(args := b2.args + args)
  }

  function Add(bs: Builders, f: Fragment): Builders {
    bs[f.index := Extended(if f.index in bs then bs[f.index] else NewBuilder, f)]
  }

  function Build(fs: seq<Fragment>): Builders {
    if |fs| == 0 then map[] else Add(Build(fs[..|fs| - 1]), fs[|fs| - 1])
  }

  /** `hasGPTToolCallBuilders`. */
  predicate HasContent(bs: Builders) {
    exists i :: i in bs && (!Blank(bs[i].id) || !Blank(bs[i].name) || bs[i].args != "")
  }

  function Finished(b: Builder, canonical: string -> string): ToolCall {
    ToolCall(b.id, b.name, canonical(b.args))
  }

  /** The final loop up to `n`, which asks the map for 0, 1, 2, ... */
  function Collect(bs: Builders, n: nat, canonical: string -> string): seq<ToolCall> {
    if n == 0 then []
    else
      var rest := Collect(bs, n - 1, canonical);
      if n - 1 in bs then rest + [Finished(bs[n - 1], canonical)] else rest
  }

  function Assemble(fs: seq<Fragment>, toolFinish: bool, canonical: string -> string): seq<ToolCall> {
    var bs := Build(fs);
    if HasContent(bs) || toolFinish then Collect(bs, |bs|, canonical) else []
  }

  // ---------- what each index says ----------

  /** The fragments of one index, in their order. */
  function Project(fs: seq<Fragment>, i: int): seq<Fragment> {
    if |fs| == 0 then []
    else
      var rest := Project(fs[..|fs| - 1], i);
      if fs[|fs| - 1].index == i then rest + [fs[|fs| - 1]] else rest
  }

  function LastId(fs: seq<Fragment>): string {
    if |fs| == 0 then "" else if fs[|fs| - 1].id != "" then fs[|fs| - 1].id else LastId(fs[..|fs| - 1])
  }

  function LastName(fs: seq<Fragment>): string {
    if |fs| == 0 then ""
    else
      var f := fs[|fs| - 1];
      if f.call.Some? && f.call.value.0 != "" then f.call.value.0 else LastName(fs[..|fs| - 1])
  }

  function AllArgs(fs: seq<Fragment>): string {
    if |fs| == 0 then ""
    else
      var f, rest := fs[|fs| - 1], AllArgs(fs[..|fs| - 1]);
      if f.call.Some? then rest + f.call.value.1 else rest
  }

  function Indices(fs: seq<Fragment>): set<int> {
    set f | f in fs :: f.index
  }

  lemma IndicesMore(fs: seq<Fragment>, f: Fragment)
    ensures Indices(fs + [f]) == Indices(fs) + {f.index}
  {
    forall i
      ensures i in Indices(fs + [f]) <==> i in Indices(fs) || i == f.index
    {
      if i in Indices(fs) {
        var g :| g in fs && g.index == i;
        assert g in fs + [f];
      }
      assert f in fs + [f];
    }
  }

  lemma BuildMore(fs: seq<Fragment>, f: Fragment)
    ensures Build(fs + [f]) == Add(Build(fs), f)
  {
    assert (fs + [f])[..|fs|] == fs;
  }

  lemma ProjectMore(fs: seq<Fragment>, f: Fragment, i: int)
    ensures Project(fs + [f], i) == if f.index == i then Project(fs, i) + [f] else Project(fs, i)
  {
    assert (fs + [f])[..|fs|] == fs;
  }

  function Said(fs: seq<Fragment>): Builder {
    Builder(LastId(fs), LastName(fs), AllArgs(fs))
  }

  lemma SaidMore(fs: seq<Fragment>, f: Fragment)
    ensures Said(fs + [f]) == Extended(Said(fs), f)
  {
    assert (fs + [f])[..|fs|] == fs;
  }

  /** A builder holds the last id and name that were not empty and the arguments in order. */
  lemma {:induction false} BuilderOf(fs: seq<Fragment>, i: int)
    ensures i in Build(fs) <==> i in Indices(fs)
    ensures i in Build(fs) <==> Project(fs, i) != []
    ensures i in Build(fs) ==> Build(fs)[i] == Said(Project(fs, i))
    decreases |fs|
  {
    if |fs| > 0 {
      var before, f := fs[..|fs| - 1], fs[|fs| - 1];
      assert fs == before + [f];
      BuilderOf(before, i);
      IndicesMore(before, f);
      BuildMore(before, f);
      ProjectMore(before, f, i);
      SaidMore(Project(before, i), f);
    }
  }

  /** The calls depend only on what each index says, however the fragments of different indices are interleaved. */
  lemma InterleavingDoesNotMatter(fs: seq<Fragment>, gs: seq<Fragment>, toolFinish: bool, canonical: string -> string)
    requires forall i :: Project(fs, i) == Project(gs, i)
    ensures Assemble(fs, toolFinish, canonical) == Assemble(gs, toolFinish, canonical)
  {
    forall i
      ensures i in Build(fs) <==> i in Build(gs)
      ensures i in Build(fs) ==> Build(fs)[i] == Build(gs)[i]
    {
      BuilderOf(fs, i);
      BuilderOf(gs, i);
    }
    assert Build(fs) == Build(gs);
  }

  lemma {:induction false} BuildAppend(fs: seq<Fragment>, gs: seq<Fragment>, hs: seq<Fragment>)
    requires Build(fs) == Build(gs)
    ensures Build(fs + hs) == Build(gs + hs)
    decreases |hs|
  {
    if hs == [] {
      assert fs + hs == fs && gs + hs == gs;
    } else {
      var n := |hs| - 1;
      BuildAppend(fs, gs, hs[..n]);
      assert (fs + hs)[..|fs + hs| - 1] == fs + hs[..n] && (gs + hs)[..|gs + hs| - 1] == gs + hs[..n];
    }
  }

  /** Nor how the arguments of a call are cut into fragments. */
  lemma SplittingDoesNotMatter(before: seq<Fragment>, f: Fragment, args: string, more: string, after: seq<Fragment>,
                               toolFinish: bool, canonical: string -> string)
    requires f.call.Some? && f.call.value.1 == args + more
    ensures
      var head := f.(call := Some((f.call.value.0, args)));
      var tail := Fragment(f.index, "", Some(("", more)));
      Assemble(before + [f] + after, toolFinish, canonical) == Assemble(before + [head, tail] + after, toolFinish, canonical)
  {
    var head := f.(call := Some((f.call.value.0, args)));
    var tail := Fragment(f.index, "", Some(("", more)));
    assert (before + [f])[..|before|] == before;
    assert (before + [head, tail])[..|before| + 1] == before + [head] && (before + [head])[..|before|] == before;
    var b := if f.index in Build(before) then Build(before)[f.index] else NewBuilder;
    assert b.args + (args + more) == (b.args + args) + more;
    assert Extended(Extended(b, head), tail) == Extended(b, f);
    assert Build(before + [head]) == Add(Build(before), head);
    assert Build(before + [head, tail]) == Add(Build(before + [head]), tail);
    assert Build(before + [f]) == Add(Build(before), f);
    assert Build(before + [head, tail]) == Build(before + [f]);
    BuildAppend(before + [f], before + [head, tail], after);
  }

  // ---------- when the fragments make a tool round ----------

  /** Fragment `k` has an id that is not blank, and no later one of its index gives another. */
  predicate IdStands(fs: seq<Fragment>, k: nat)
    requires k < |fs|
  {
    !Blank(fs[k].id) && forall m :: k < m < |fs| && fs[m].index == fs[k].index ==> fs[m].id == ""
  }

  predicate NameStands(fs: seq<Fragment>, k: nat)
    requires k < |fs|
  {
    && fs[k].call.Some? && !Blank(fs[k].call.value.0)
    && forall m :: k < m < |fs| && fs[m].index == fs[k].index ==> fs[m].call.None? || fs[m].call.value.0 == ""
  }

  predicate HasArgs(f: Fragment) {
    f.call.Some? && f.call.value.1 != ""
  }

  /** Some fragment has arguments, or an id or name that stands and is not blank. */
  predicate LooksLikeTools(fs: seq<Fragment>) {
    exists k :: 0 <= k < |fs| && (HasArgs(fs[k]) || IdStands(fs, k) || NameStands(fs, k))
  }

  lemma StandsMore(fs: seq<Fragment>, f: Fragment, k: nat)
    requires k < |fs|
    ensures IdStands(fs + [f], k) <==> IdStands(fs, k) && (f.index == fs[k].index ==> f.id == "")
    ensures NameStands(fs + [f], k) <==>
            NameStands(fs, k) && (f.index == fs[k].index ==> f.call.None? || f.call.value.0 == "")
  {
    var all := fs + [f];
    assert all[k] == fs[k] && all[|fs|] == f;
    assert forall m :: k < m < |fs| ==> all[m] == fs[m];
  }

  lemma {:induction false} StandingOf(fs: seq<Fragment>, i: int)
    ensures (i in Build(fs) && !Blank(Build(fs)[i].id)) <==> exists k :: 0 <= k < |fs| && fs[k].index == i && IdStands(fs, k)
    ensures (i in Build(fs) && !Blank(Build(fs)[i].name)) <==> exists k :: 0 <= k < |fs| && fs[k].index == i && NameStands(fs, k)
    ensures (i in Build(fs) && Build(fs)[i].args != "") <==> exists k :: 0 <= k < |fs| && fs[k].index == i && HasArgs(fs[k])
    decreases |fs|
  {
    if |fs| > 0 {
      var before, f := fs[..|fs| - 1], fs[|fs| - 1];
      assert fs == before + [f];
      StandingOf(before, i);
      BuildMore(before, f);
      forall k | 0 <= k < |before|
        ensures fs[k] == before[k]
        ensures IdStands(fs, k) <==> IdStands(before, k) && (f.index == before[k].index ==> f.id == "")
        ensures NameStands(fs, k) <==>
                NameStands(before, k) && (f.index == before[k].index ==> f.call.None? || f.call.value.0 == "")
      {
        StandsMore(before, f, k);
      }
    }
  }

  /** `hasGPTToolCallBuilders` in terms of the fragments. */
  lemma HasContentIff(fs: seq<Fragment>)
    ensures HasContent(Build(fs)) <==> LooksLikeTools(fs)
  {
    if HasContent(Build(fs)) {
      var i :| i in Build(fs) && (!Blank(Build(fs)[i].id) || !Blank(Build(fs)[i].name) || Build(fs)[i].args != "");
      StandingOf(fs, i);
    }
    if LooksLikeTools(fs) {
      var k :| 0 <= k < |fs| && (HasArgs(fs[k]) || IdStands(fs, k) || NameStands(fs, k));
      StandingOf(fs, fs[k].index);
    }
  }

  // ---------- no call is lost exactly when the indices have no gap ----------

  function Range(n: nat): (r: set<int>)
    ensures forall i :: i in r <==> 0 <= i < n
  {
    if n == 0 then {} else Range(n - 1) + {n - 1}
  }

  lemma {:induction false} CollectCount(bs: Builders, n: nat, canonical: string -> string)
    ensures |Collect(bs, n, canonical)| == |set i | i in bs && 0 <= i < n|
  {
    var hit := set i | i in bs && 0 <= i < n;
    if n > 0 {
      var less := set i | i in bs && 0 <= i < n - 1;
      CollectCount(bs, n - 1, canonical);
      assert hit == if n - 1 in bs then less + {n - 1} else less;
    } else {
      assert hit == {};
    }
  }

  lemma {:induction false} RangeSize(n: nat)
    ensures |Range(n)| == n
  {
    if n > 0 {
      RangeSize(n - 1);
      var less := Range(n - 1);
      assert n - 1 !in less && |less + {n - 1}| == |less| + 1;
    }
  }

  lemma SubsetSize(a: set<int>, b: set<int>)
    requires a <= b
    ensures |a| <= |b| && (|a| == |b| <==> a == b)
  {
    assert b == a + (b - a);
  }

  lemma BuildKeys(fs: seq<Fragment>)
    ensures Build(fs).Keys == Indices(fs) && |Build(fs)| == |Indices(fs)|
  {
    forall i
      ensures i in Build(fs).Keys <==> i in Indices(fs)
    {
      BuilderOf(fs, i);
    }
    assert Build(fs).Keys == Indices(fs);
  }

  /** There is one call per index if and only if the indices are 0..n-1 and the stream looks like a tool round:
      any gap, or a negative index, drops a call. */
  lemma NothingDroppedIff(fs: seq<Fragment>, toolFinish: bool, canonical: string -> string)
    ensures |Assemble(fs, toolFinish, canonical)| == |Indices(fs)| <==>
            Indices(fs) == {} || ((toolFinish || LooksLikeTools(fs)) && Indices(fs) == Range(|Indices(fs)|))
  {
    HasContentIff(fs);
    var bs := Build(fs);
    BuildKeys(fs);
    var n := |bs|;
    var hit := set i | i in bs && 0 <= i < n;
    CollectCount(bs, n, canonical);
    RangeSize(n);
    SubsetSize(hit, bs.Keys);
    SubsetSize(hit, Range(n));
    assert Indices(fs) == {} <==> n == 0;
  }

  lemma {:induction false} CollectAll(bs: Builders, n: nat, canonical: string -> string)
    requires forall i :: 0 <= i < n ==> i in bs
    ensures |Collect(bs, n, canonical)| == n
    ensures forall i :: 0 <= i < n ==> Collect(bs, n, canonical)[i] == Finished(bs[i], canonical)
  {
    if n > 0 {
      CollectAll(bs, n - 1, canonical);
    }
  }

  /** With the indices 0..n-1 and something in them, call `i` has the last non-empty id and name of index `i` and
      its arguments in order. */
  lemma AssembledInOrder(fs: seq<Fragment>, n: nat, toolFinish: bool, canonical: string -> string)
    requires Indices(fs) == Range(n) && (toolFinish || LooksLikeTools(fs))
    ensures
      var calls := Assemble(fs, toolFinish, canonical);
      && |calls| == n
      && forall i :: 0 <= i < n ==>
           var p := Project(fs, i);
           p != [] && calls[i] == ToolCall(LastId(p), LastName(p), canonical(AllArgs(p)))
  {
    HasContentIff(fs);
    var bs := Build(fs);
    forall i
      ensures i in bs.Keys <==> i in Range(n)
      ensures i in bs.Keys ==> Project(fs, i) != []
      ensures i in bs.Keys ==> bs[i] == Said(Project(fs, i))
    {
      BuilderOf(fs, i);
    }
    assert bs.Keys == Range(n);
    RangeSize(n);
    CollectAll(bs, n, canonical);
  }

  /** A gap: index 1 alone is lost. */
  lemma GapLosesCall(canonical: string -> string)
    ensures Assemble([Fragment(1, "call", Some(("tool", "{}")))], true, canonical) == []
  {
    var fs := [Fragment(1, "call", Some(("tool", "{}")))];
    assert fs[..0] == [];
    assert Build(fs).Keys == {1};
    assert |Build(fs)| == |Build(fs).Keys|;
    assert Collect(Build(fs), 0, canonical) == [];
    assert Collect(Build(fs), 1, canonical) == [];
  }

  // ---------- the stream parser ----------

  datatype Choice = Choice(reasoning: string, content: string, tools: seq<Fragment>, finish: Option<string>)

  /** A scanned line: the context was found cancelled before it, no data, the end mark, or a parsed chunk. */
  datatype Line = ContextDone | Skipped | EndMark | Data(usage: Option<(int, int)>, choices: seq<Choice>)

  datatype ChunkError = Canceled | Broken

  datatype Chunk = Chunk(
    reasoning: string, signature: string, content: string, done: bool, cancelled: bool, error: Option<ChunkError>,
    toolCalls: seq<ToolCall>, stopReason: string, inputTokens: int, outputTokens: int)

  const Quiet := Chunk("", "", "", false, false, None, [], "", 0, 0)

  function Deltas(c: Choice): seq<Chunk> {
    (if c.reasoning != "" then [Quiet.(reasoning := c.reasoning)] else []) +
    (if c.content != "" then [Quiet.(content := c.content)] else [])
  }

  /** The choices of the lines that are read. */
  function Choices(lines: seq<Line>): seq<Choice> {
    if |lines| == 0 || lines[0].ContextDone? || lines[0].EndMark? then []
    else if lines[0].Skipped? then Choices(lines[1..])
    else lines[0].choices + Choices(lines[1..])
  }

  function AllDeltas(cs: seq<Choice>): seq<Chunk> {
    if |cs| == 0 then [] else AllDeltas(cs[..|cs| - 1]) + Deltas(cs[|cs| - 1])
  }

  function Fragments(cs: seq<Choice>): seq<Fragment> {
    if |cs| == 0 then [] else Fragments(cs[..|cs| - 1]) + cs[|cs| - 1].tools
  }

  function FinishReason(cs: seq<Choice>): string {
    if |cs| == 0 then ""
    else if cs[|cs| - 1].finish.Some? then cs[|cs| - 1].finish.value
    else FinishReason(cs[..|cs| - 1])
  }

  /** The parser's variables while it reads. */
  datatype Reading = Reading(out: seq<Chunk>, builders: Builders, finish: string)

  datatype Ending = Aborted | Marked | Exhausted

  function TakeFragments(bs: Builders, fs: seq<Fragment>): Builders
    decreases |fs|
  {
    if |fs| == 0 then bs else TakeFragments(Add(bs, fs[0]), fs[1..])
  }

  function TakeChoice(r: Reading, c: Choice): Reading {
    Reading(r.out + Deltas(c), TakeFragments(r.builders, c.tools), if c.finish.Some? then c.finish.value else r.finish)
  }

  function TakeChoices(r: Reading, cs: seq<Choice>): Reading
    decreases |cs|
  {
    if |cs| == 0 then r else TakeChoices(TakeChoice(r, cs[0]), cs[1..])
  }

  function ReadLines(r: Reading, lines: seq<Line>): (Reading, Ending)
    decreases |lines|
  {
    if |lines| == 0 then (r, Exhausted)
    else
      match lines[0]
      case ContextDone => (r, Aborted)
      case Skipped => ReadLines(r, lines[1..])
      case EndMark => (r, Marked)
      case Data(_, choices) => ReadLines(TakeChoices(r, choices), lines[1..])
  }

  const Nothing := Reading([], map[], "")

  /** What has been read once the choices `cs` were. */
  function Read(cs: seq<Choice>): Reading {
    Reading(AllDeltas(cs), Build(Fragments(cs)), FinishReason(cs))
  }

  lemma {:induction false} TakeFragmentsMeans(seen: seq<Fragment>, fs: seq<Fragment>)
    ensures TakeFragments(Build(seen), fs) == Build(seen + fs)
    decreases |fs|
  {
    if |fs| == 0 {
      assert seen + fs == seen;
    } else {
      BuildMore(seen, fs[0]);
      TakeFragmentsMeans(seen + [fs[0]], fs[1..]);
      assert seen + [fs[0]] + fs[1..] == seen + fs;
    }
  }

  lemma TakeChoiceMeans(cs: seq<Choice>, c: Choice)
    ensures TakeChoice(Read(cs), c) == Read(cs + [c])
  {
    assert (cs + [c])[..|cs|] == cs;
    TakeFragmentsMeans(Fragments(cs), c.tools);
  }

  lemma {:induction false} TakeChoicesAppend(r: Reading, cs: seq<Choice>, more: seq<Choice>)
    ensures TakeChoices(r, cs + more) == TakeChoices(TakeChoices(r, cs), more)
    decreases |cs|
  {
    if |cs| == 0 {
      assert cs + more == more;
    } else {
      assert (cs + more)[1..] == cs[1..] + more && (cs + more)[0] == cs[0];
      TakeChoicesAppend(TakeChoice(r, cs[0]), cs[1..], more);
    }
  }

  lemma {:induction false} TakeChoicesMeans(cs: seq<Choice>)
    ensures TakeChoices(Nothing, cs) == Read(cs)
  {
    if |cs| > 0 {
      var front, c := cs[..|cs| - 1], cs[|cs| - 1];
      TakeChoicesMeans(front);
      TakeChoiceMeans(front, c);
      TakeChoicesAppend(Nothing, front, [c]);
      assert cs == front + [c] && [c][1..] == [];
    }
  }

  lemma {:induction false} ReadLinesMeans(r: Reading, lines: seq<Line>)
    ensures ReadLines(r, lines).0 == TakeChoices(r, Choices(lines))
    decreases |lines|
  {
    if |lines| > 0 {
      match lines[0] {
        case Skipped => ReadLinesMeans(r, lines[1..]);
        case Data(_, choices) =>
          ReadLinesMeans(TakeChoices(r, choices), lines[1..]);
          TakeChoicesAppend(r, choices, Choices(lines[1..]));
        case _ =>
      }
    }
  }

  predicate Stops(line: Line) {
    line.ContextDone? || line.EndMark?
  }

  /** How the reading ends: at the first line that stops it, by what that line is, or with the lines. */
  lemma {:induction false} EndingMeans(r: Reading, lines: seq<Line>)
    ensures (forall i :: 0 <= i < |lines| ==> !Stops(lines[i])) ==> ReadLines(r, lines).1 == Exhausted
    ensures forall i :: 0 <= i < |lines| && Stops(lines[i]) && (forall j :: 0 <= j < i ==> !Stops(lines[j])) ==>
              ReadLines(r, lines).1 == if lines[i] == ContextDone then Aborted else Marked
    decreases |lines|
  {
    if |lines| > 0 && !Stops(lines[0]) {
      EndingMeans(if lines[0].Data? then TakeChoices(r, lines[0].choices) else r, lines[1..]);
      assert forall j :: 0 < j < |lines| ==> lines[j] == lines[1..][j - 1];
    }
  }

  /** The token counts of the lines that are read, `seen` before them. */
  function UsageRead(lines: seq<Line>, seen: (int, int)): (int, int)
    decreases |lines|
  {
    if |lines| == 0 then seen
    else
      match lines[0]
      case ContextDone => seen
      case Skipped => UsageRead(lines[1..], seen)
      case EndMark => seen
      case Data(usage, _) => UsageRead(lines[1..], if usage.Some? then usage.value else seen)
  }

  /** Line `i` is read and carries token counts. */
  predicate CarriesUsage(lines: seq<Line>, i: nat)
    requires i < |lines|
  {
    lines[i].Data? && lines[i].usage.Some? && forall j :: 0 <= j < i ==> lines[j].Data? || lines[j].Skipped?
  }

  lemma CarriesShift(lines: seq<Line>, i: nat)
    requires i + 1 < |lines| && (lines[0].Data? || lines[0].Skipped?)
    ensures CarriesUsage(lines[1..], i) <==> CarriesUsage(lines, i + 1)
  {
    var rest := lines[1..];
    assert forall j :: 0 <= j < |rest| ==> rest[j] == lines[j + 1];
    if CarriesUsage(lines, i + 1) {
      forall j | 0 <= j < i
        ensures rest[j].Data? || rest[j].Skipped?
      {
        assert lines[j + 1].Data? || lines[j + 1].Skipped?;
      }
    }
    if CarriesUsage(rest, i) {
      forall j | 0 < j < i + 1
        ensures lines[j].Data? || lines[j].Skipped?
      {
        assert rest[j - 1].Data? || rest[j - 1].Skipped?;
      }
    }
  }

  lemma {:induction false} NoUsage(lines: seq<Line>, seen: (int, int))
    requires forall i :: 0 <= i < |lines| ==> !CarriesUsage(lines, i)
    ensures UsageRead(lines, seen) == seen
    decreases |lines|
  {
    if |lines| > 0 && (lines[0].Data? || lines[0].Skipped?) {
      assert !CarriesUsage(lines, 0);
      forall i | 0 <= i < |lines[1..]|
        ensures !CarriesUsage(lines[1..], i)
      {
        CarriesShift(lines, i);
      }
      NoUsage(lines[1..], seen);
    }
  }

  /** They are those of the last line read that has any. */
  lemma {:induction false} UsageIsLast(lines: seq<Line>, i: nat, seen: (int, int))
    requires i < |lines| && CarriesUsage(lines, i) && forall j :: i < j < |lines| ==> !CarriesUsage(lines, j)
    ensures UsageRead(lines, seen) == lines[i].usage.value
    decreases |lines|
  {
    var rest := lines[1..];
    forall j | 0 <= j < |rest|
      ensures CarriesUsage(rest, j) <==> CarriesUsage(lines, j + 1)
    {
      CarriesShift(lines, j);
    }
    if i == 0 {
      NoUsage(rest, lines[0].usage.value);
    } else {
      assert CarriesUsage(rest, i - 1) <==> CarriesUsage(lines, i - 1 + 1);
      UsageIsLast(rest, i - 1, if lines[0].Data? && lines[0].usage.Some? then lines[0].usage.value else seen);
    }
  }

  /** The chunk that ends the stream: it is done, the calls and the stop reason come from the builders, and the token
      counts, unless the stream broke, are those that were read. */
  predicate Closes(r: Reading, e: Ending, used: (int, int), readError: bool, isToolFinish: string -> bool,
                   canonical: string -> string, last: Chunk) {
    && last.done && last.content == "" && last.reasoning == "" && last.signature == ""
    && (last.inputTokens, last.outputTokens) == (if last.error.None? then used else (0, 0))
    && (last.cancelled <==> e.Aborted?)
    && last.error == (if readError && e.Exhausted? then Some(Broken) else None)
    && (!last.cancelled && last.error.None? ==>
          var tools := HasContent(r.builders) || isToolFinish(r.finish);
          && last.toolCalls == (if tools then Collect(r.builders, |r.builders|, canonical) else [])
          && last.stopReason == (if tools then "tool_use" else "end_turn"))
  }

  /** `parseGPTToolStream`. */
  method ParseToolStream(lines: seq<Line>, readError: bool, isToolFinish: string -> bool, canonical: string -> string)
    returns (out: seq<Chunk>)
    ensures
      var (r, e) := ReadLines(Nothing, lines);
      |out| > 0 && out[..|out| - 1] == r.out && Closes(r, e, UsageRead(lines, (0, 0)), readError, isToolFinish, canonical, out[|out| - 1])
  {
    out := [];
    var inputTokens, outputTokens, finishReason := 0, 0, "";
    var builders: Builders := map[];
    var i, marked := 0, false;
    while i < |lines| && !marked
      invariant 0 <= i <= |lines|
      invariant !marked ==> ReadLines(Reading(out, builders, finishReason), lines[i..]) == ReadLines(Nothing, lines)
      invariant marked ==> (Reading(out, builders, finishReason), Marked) == ReadLines(Nothing, lines)
      invariant UsageRead(lines, (0, 0)) == if marked then (inputTokens, outputTokens) else UsageRead(lines[i..], (inputTokens, outputTokens))
      decreases |lines| - i, !marked
    {
      assert lines[i..][1..] == lines[i + 1..];
      match lines[i] {
        case ContextDone =>
          out := out + [Quiet.(done := true, cancelled := true, inputTokens := inputTokens, outputTokens := outputTokens)];
          return;
        case Skipped =>
        case EndMark =>
          marked := true;
        case Data(usage, choices) =>
          if usage.Some? {
            inputTokens, outputTokens := usage.value.0, usage.value.1;
          }
          out, builders, finishReason := ReadChoices(choices, out, builders, finishReason);
      }
      i := i + 1;
    }
    if readError && !marked {
      out := out + [Quiet.(error := Some(Broken), done := true)];
      return;
    }
    var toolCalls, stopReason := FinalCalls(builders, isToolFinish(finishReason), canonical);
    out := out + [Quiet.(done := true, inputTokens := inputTokens, outputTokens := outputTokens,
                         stopReason := stopReason, toolCalls := toolCalls)];
  }

  /** The choices of one chunk: their deltas at once, their fragments into the builders. */
  method ReadChoices(choices: seq<Choice>, out0: seq<Chunk>, builders0: Builders, finish0: string)
    returns (out: seq<Chunk>, builders: Builders, finish: string)
    ensures Reading(out, builders, finish) == TakeChoices(Reading(out0, builders0, finish0), choices)
  {
    out, builders, finish := out0, builders0, finish0;
    var c := 0;
    while c < |choices|
      invariant 0 <= c <= |choices|
      invariant TakeChoices(Reading(out, builders, finish), choices[c..]) == TakeChoices(Reading(out0, builders0, finish0), choices)
    {
      var choice := choices[c];
      assert choices[c..][1..] == choices[c + 1..];
      ghost var before := Reading(out, builders, finish);
      if choice.reasoning != "" {
        out := out + [Quiet.(reasoning := choice.reasoning)];
      }
      if choice.content != "" {
        out := out + [Quiet.(content := choice.content)];
      }
      assert out == before.out + Deltas(choice);
      var k := 0;
      while k < |choice.tools|
        invariant 0 <= k <= |choice.tools|
        invariant TakeFragments(builders, choice.tools[k..]) == TakeFragments(before.builders, choice.tools)
      {
        assert choice.tools[k..][1..] == choice.tools[k + 1..];
        builders := Add(builders, choice.tools[k]);
        k := k + 1;
      }
      if choice.finish.Some? {
        finish := choice.finish.value;
      }
      assert Reading(out, builders, finish) == TakeChoice(before, choice);
      c := c + 1;
    }
  }

  /** The calls and the stop reason of a stream that ended well. */
  method FinalCalls(builders: Builders, toolFinish: bool, canonical: string -> string)
    returns (toolCalls: seq<ToolCall>, stopReason: string)
    ensures toolCalls == if HasContent(builders) || toolFinish then Collect(builders, |builders|, canonical) else []
    ensures stopReason == if HasContent(builders) || toolFinish then "tool_use" else "end_turn"
  {
    toolCalls, stopReason := [], "end_turn";
    if HasContent(builders) || toolFinish {
      stopReason := "tool_use";
      var n := 0;
      while n < |builders|
        invariant 0 <= n <= |builders|
        invariant toolCalls == Collect(builders, n, canonical)
      {
        if n in builders {
          toolCalls := toolCalls + [Finished(builders[n], canonical)];
        }
        n := n + 1;
      }
    }
  }

  /** What a stream amounts to: the deltas of the choices read, and, if it was neither cancelled nor broken, the
      calls assembled from all their fragments and a stop reason that says whether they make a tool round. */
  lemma StreamMeans(lines: seq<Line>, readError: bool, isToolFinish: string -> bool, canonical: string -> string, last: Chunk)
    requires
      var (r, e) := ReadLines(Nothing, lines);
      Closes(r, e, UsageRead(lines, (0, 0)), readError, isToolFinish, canonical, last)
    ensures
      var cs := Choices(lines);
      && ReadLines(Nothing, lines).0.out == AllDeltas(cs)
      && (!last.cancelled && last.error.None? ==>
            var toolFinish := isToolFinish(FinishReason(cs));
            && last.toolCalls == Assemble(Fragments(cs), toolFinish, canonical)
            && last.stopReason == (if toolFinish || LooksLikeTools(Fragments(cs)) then "tool_use" else "end_turn"))
  {
    HasContentIff(Fragments(Choices(lines)));
    ReadLinesMeans(Nothing, lines);
    TakeChoicesMeans(Choices(lines));
  }
}
