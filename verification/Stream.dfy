/** Collection of one model round from its stream, `collectLLMStreamWithEmitter` of `service/react/engine.go`:
    deltas are gathered while start, delta and end events are emitted around them.  Token counts are not part of
    this model. */
module Stream {
  import opened Common
  import opened ToolCalls

  datatype Event =
    | ThoughtStart | ThoughtDelta(text: string) | ThoughtEnd(text: string)
    | ContentStart | ContentDelta(text: string) | ContentEnd(text: string)

  /** The stream closes after the last input. */
  datatype Input = Received(chunk: Chunk) | IdleTimeout

  /** `Expired` ran into a deadline of its own; the others were cancelled, for the reason named. */
  datatype Context = Alive | UserCancelled | DeadlineOver | Gone | Expired

  datatype Error = StreamIdle | StreamError | RunCancelled | DeadlineExceeded | ClientDisconnected | UpstreamEof | EmitFailed

  // ---------- well-nested words ----------

  datatype Block = InContent | InThought(text: string)

  /** A reader of the events: the open blocks, innermost last, the content shown and the thoughts closed. */
  datatype Word = Word(open: seq<Block>, said: string, thought: string)

  const Start := Word([], "", "")

  predicate Thinks(w: Word) {
    |w.open| > 0 && w.open[|w.open| - 1].InThought?
  }

  predicate Speaks(w: Word) {
    |w.open| > 0 && w.open[|w.open| - 1].InContent?
  }

  /** Only a thought may be inside a content block, nothing is inside a thought, and an end carries the text that
      came before it. */
  function Next(w: Word, e: Event): Option<Word> {
    var n := |w.open|;
    match e
    case ThoughtStart => if Thinks(w) then None else Some(w.(open := w.open + [InThought("")]))
    case ThoughtDelta(t) =>
      if Thinks(w) then Some(w.(open := w.open[..n - 1] + [InThought(w.open[n - 1].text + t)])) else None
    case ThoughtEnd(t) =>
      if Thinks(w) && w.open[n - 1].text == t then Some(w.(open := w.open[..n - 1], thought := w.thought + t)) else None
    case ContentStart => if n == 0 then Some(w.(open := [InContent])) else None
    case ContentDelta(t) => if Speaks(w) then Some(w.(said := w.said + t)) else None
    case ContentEnd(t) => if Speaks(w) && w.said == t then Some(w.(open := w.open[..n - 1])) else None
  }

  function Follow(events: seq<Event>): Option<Word> {
    if |events| == 0 then Some(Start)
    else
      var w := Follow(events[..|events| - 1]);
      if w.None? then None else Next(w.value, events[|events| - 1])
  }

  lemma FollowMore(events: seq<Event>, e: Event)
    ensures Follow(events + [e]) == if Follow(events).None? then None else Next(Follow(events).value, e)
  {
    assert (events + [e])[..|events|] == events;
  }

  function ContentText(events: seq<Event>): string {
    if |events| == 0 then ""
    else
      var rest, e := ContentText(events[..|events| - 1]), events[|events| - 1];
      if e.ContentDelta? then rest + e.text else rest
  }

  function ThoughtText(events: seq<Event>): string {
    if |events| == 0 then ""
    else
      var rest, e := ThoughtText(events[..|events| - 1]), events[|events| - 1];
      if e.ThoughtEnd? then rest + e.text else rest
  }

  lemma {:induction false} FollowTexts(events: seq<Event>)
    requires Follow(events).Some?
    ensures Follow(events).value.said == ContentText(events) && Follow(events).value.thought == ThoughtText(events)
  {
    if |events| > 0 {
      FollowTexts(events[..|events| - 1]);
    }
  }

  /** A thought was started and not ended since. */
  predicate Thinking(events: seq<Event>) {
    exists s :: 0 <= s < |events| && events[s].ThoughtStart? && forall m :: s < m < |events| ==> !events[m].ThoughtEnd?
  }

  predicate Speaking(events: seq<Event>) {
    exists s :: 0 <= s < |events| && events[s].ContentStart? && forall m :: s < m < |events| ==> !events[m].ContentEnd?
  }

  /** What was thought since the last start of a thought. */
  function ThinksOf(events: seq<Event>): string {
    if |events| == 0 || events[|events| - 1].ThoughtStart? then ""
    else
      var rest, e := ThinksOf(events[..|events| - 1]), events[|events| - 1];
      if e.ThoughtDelta? then rest + e.text else rest
  }

  /** Where each event may stand, given those before it. */
  predicate Fits(before: seq<Event>, e: Event) {
    match e
    case ThoughtStart => !Thinking(before)
    case ThoughtDelta(_) => Thinking(before)
    case ThoughtEnd(t) => Thinking(before) && t == ThinksOf(before)
    case ContentStart => !Thinking(before) && !Speaking(before)
    case ContentDelta(_) => Speaking(before) && !Thinking(before)
    case ContentEnd(t) => Speaking(before) && !Thinking(before) && t == ContentText(before)
  }

  lemma ThinkingMore(events: seq<Event>, e: Event)
    ensures Thinking(events + [e]) <==> e.ThoughtStart? || (Thinking(events) && !e.ThoughtEnd?)
    ensures Speaking(events + [e]) <==> e.ContentStart? || (Speaking(events) && !e.ContentEnd?)
  {
    var all := events + [e];
    assert all[|events|] == e && forall m :: 0 <= m < |events| ==> all[m] == events[m];
    if Thinking(events) && !e.ThoughtEnd? {
      var s :| 0 <= s < |events| && events[s].ThoughtStart? && forall m :: s < m < |events| ==> !events[m].ThoughtEnd?;
      assert all[s].ThoughtStart?;
    }
    if Speaking(events) && !e.ContentEnd? {
      var s :| 0 <= s < |events| && events[s].ContentStart? && forall m :: s < m < |events| ==> !events[m].ContentEnd?;
      assert all[s].ContentStart?;
    }
  }

  lemma {:induction false} FollowKnows(events: seq<Event>)
    requires Follow(events).Some?
    ensures
      var w := Follow(events).value;
      && Shaped(w.open) && w.said == ContentText(events)
      && (Thinks(w) <==> Thinking(events)) && ((|w.open| > 0 && w.open[0].InContent?) <==> Speaking(events))
      && (Thinks(w) ==> w.open[|w.open| - 1].text == ThinksOf(events))
  {
    if |events| > 0 {
      var before, e := events[..|events| - 1], events[|events| - 1];
      assert events == before + [e];
      FollowKnows(before);
      ThinkingMore(before, e);
      ShapeKept(Follow(before).value, e);
    }
  }

  lemma NextFits(before: seq<Event>, e: Event)
    requires Follow(before).Some?
    ensures Next(Follow(before).value, e).Some? <==> Fits(before, e)
  {
    FollowKnows(before);
  }

  /** The reader gets through exactly if every event fits: deltas and ends stand inside the block they belong to, no
      block starts inside a thought nor a content block inside another, and an end repeats what its block showed. */
  lemma {:induction false} ReadableIff(events: seq<Event>)
    ensures Follow(events).Some? <==> forall i :: 0 <= i < |events| ==> Fits(events[..i], events[i])
  {
    if |events| > 0 {
      var before, e := events[..|events| - 1], events[|events| - 1];
      ReadableIff(before);
      forall i | 0 <= i < |before|
        ensures events[..i] == before[..i] && events[i] == before[i]
      {
      }
      assert events[..|before|] == before;
      if Follow(before).Some? {
        NextFits(before, e);
      } else {
        var i :| 0 <= i < |before| && !Fits(before[..i], before[i]);
        assert !Fits(events[..i], events[i]);
      }
    }
  }

  /** At most one content block is open, with at most one thought in it. */
  predicate Shaped(open: seq<Block>) {
    |open| <= 1 || (|open| == 2 && open[0].InContent? && open[1].InThought?)
  }

  lemma ShapeKept(w: Word, e: Event)
    requires Shaped(w.open) && Next(w, e).Some?
    ensures Shaped(Next(w, e).value.open)
  {
  }

  lemma {:induction false} OpenShape(events: seq<Event>)
    requires Follow(events).Some?
    ensures Shaped(Follow(events).value.open)
  {
    if |events| > 0 {
      OpenShape(events[..|events| - 1]);
      ShapeKept(Follow(events[..|events| - 1]).value, events[|events| - 1]);
    }
  }

  /** What is missing at the end. */
  function Closing(w: Word): seq<Event> {
    (if Thinks(w) then [ThoughtEnd(w.open[|w.open| - 1].text)] else []) +
    (if |w.open| > 0 && w.open[0].InContent? then [ContentEnd(w.said)] else [])
  }

  /** Whatever can be read is the beginning of a word in which every block is closed. */
  lemma ReadableIsPrefix(events: seq<Event>)
    requires Follow(events).Some?
    ensures
      var all := events + Closing(Follow(events).value);
      Follow(all).Some? && Follow(all).value.open == []
  {
    var w := Follow(events).value;
    OpenShape(events);
    var all := events + Closing(w);
    if Thinks(w) {
      var e := ThoughtEnd(w.open[|w.open| - 1].text);
      FollowMore(events, e);
      if w.open[0].InContent? {
        FollowMore(events + [e], ContentEnd(w.said));
        assert all == events + [e] + [ContentEnd(w.said)];
      } else {
        assert all == events + [e];
      }
    } else if |w.open| > 0 {
      FollowMore(events, ContentEnd(w.said));
      assert all == events + [ContentEnd(w.said)];
    } else {
      assert all == events;
    }
  }

  /** Every earlier moment could be read too. */
  lemma {:induction false} ReadablePrefixes(events: seq<Event>, n: nat)
    requires Follow(events).Some? && n <= |events|
    ensures Follow(events[..n]).Some?
    decreases |events|
  {
    if n < |events| {
      assert events[..|events| - 1][..n] == events[..n];
      ReadablePrefixes(events[..|events| - 1], n);
    } else {
      assert events[..n] == events;
    }
  }

  lemma EveryMoment(events: seq<Event>)
    requires Follow(events).Some?
    ensures forall n :: 0 <= n <= |events| ==> Follow(events[..n]).Some?
    ensures Follow(events).value.said == ContentText(events) && Follow(events).value.thought == ThoughtText(events)
  {
    forall n | 0 <= n <= |events|
      ensures Follow(events[..n]).Some?
    {
      ReadablePrefixes(events, n);
    }
    FollowTexts(events);
  }

  /** The deltas among the events. */
  function Shown(events: seq<Event>): seq<Event> {
    if |events| == 0 then []
    else
      var rest, e := Shown(events[..|events| - 1]), events[|events| - 1];
      if e.ThoughtDelta? || e.ContentDelta? then rest + [e] else rest
  }

  lemma ShownMore(events: seq<Event>, e: Event)
    ensures Shown(events + [e]) == Shown(events) + if e.ThoughtDelta? || e.ContentDelta? then [e] else []
  {
    assert (events + [e])[..|events|] == events;
  }

  lemma Joined(a: string, b: string, c: string)
    ensures a + (b + c) == (a + b) + c
  {
  }

  // ---------- what a stream should give ----------

  function Cause(ctx: Context): Error {
    match ctx
    case UserCancelled => RunCancelled
    case DeadlineOver => DeadlineExceeded
    case Expired => DeadlineExceeded
    case _ => ClientDisconnected
  }

  /** What is asked at the end of a stream, where a deadline of the context's own does not count. */
  predicate Ended(ctx: Context) {
    !ctx.Alive? && !ctx.Expired?
  }

  /** The error of a round, none if it is complete. */
  function Verdict(inputs: seq<Input>, ctx: Context, done: bool): Option<Error>
    decreases |inputs|
  {
    if |inputs| == 0 then
      if Ended(ctx) then Some(Cause(ctx)) else if !done then Some(UpstreamEof) else None
    else if inputs[0].IdleTimeout? then Some(StreamIdle)
    else
      var c := inputs[0].chunk;
      if c.error.Some? then Some(if c.error.value.Canceled? then Cause(ctx) else StreamError)
      else if c.done && c.cancelled then Some(RunCancelled)
      else Verdict(inputs[1..], ctx, done || c.done)
  }

  /** The input ends the round: nothing came in time, an error came, or the run was cancelled. */
  predicate Decides(i: Input) {
    i.IdleTimeout? || i.chunk.error.Some? || (i.chunk.done && i.chunk.cancelled)
  }

  /** The first such input decides about the round; without one the context does, if it is over, and then whether
      the stream said that it was done. */
  lemma {:induction false} VerdictMeans(inputs: seq<Input>, ctx: Context, done: bool)
    ensures
      forall i :: 0 <= i < |inputs| && Decides(inputs[i]) && (forall j :: 0 <= j < i ==> !Decides(inputs[j])) ==>
        Verdict(inputs, ctx, done) ==
          Some(if inputs[i] == IdleTimeout then StreamIdle
               else if inputs[i].chunk.error == None then RunCancelled
               else if inputs[i].chunk.error != Some(Canceled) then StreamError
               else if ctx == UserCancelled then RunCancelled
               else if ctx == DeadlineOver || ctx == Expired then DeadlineExceeded
               else ClientDisconnected)
    ensures
      (forall j :: 0 <= j < |inputs| ==> !Decides(inputs[j])) ==>
        Verdict(inputs, ctx, done) ==
          if ctx == UserCancelled then Some(RunCancelled)
          else if ctx == DeadlineOver then Some(DeadlineExceeded)
          else if ctx == Gone then Some(ClientDisconnected)
          else if done || exists j :: 0 <= j < |inputs| && inputs[j].Received? && inputs[j].chunk.done then None
          else Some(UpstreamEof)
    decreases |inputs|
  {
    if |inputs| > 0 && !Decides(inputs[0]) {
      VerdictMeans(inputs[1..], ctx, done || inputs[0].chunk.done);
      assert forall j :: 0 < j < |inputs| ==> inputs[j] == inputs[1..][j - 1];
      if j :| 0 <= j < |inputs[1..]| && inputs[1..][j].Received? && inputs[1..][j].chunk.done {
        assert inputs[j + 1].chunk.done;
      }
    }
  }

  /** What a round returns. */
  datatype Round = Round(content: string, reasoning: string, signature: string, toolCalls: seq<ToolCall>)

  const Silent := Round("", "", "", [])

  function Heard(r: Round, c: Chunk): Round {
    Round(r.content + c.content, r.reasoning + c.reasoning, if c.signature != "" then c.signature else r.signature,
          if c.done && |c.toolCalls| > 0 then c.toolCalls else r.toolCalls)
  }

  /** The texts of all chunks in order, the last signature and the last calls. */
  function Gather(r: Round, inputs: seq<Input>): Round
    decreases |inputs|
  {
    if |inputs| == 0 then r
    else Gather(if inputs[0].Received? then Heard(r, inputs[0].chunk) else r, inputs[1..])
  }

  function Contents(inputs: seq<Input>): string {
    if |inputs| == 0 then ""
    else
      var i, rest := inputs[|inputs| - 1], Contents(inputs[..|inputs| - 1]);
      if i.Received? then rest + i.chunk.content else rest
  }

  function Reasonings(inputs: seq<Input>): string {
    if |inputs| == 0 then ""
    else
      var i, rest := inputs[|inputs| - 1], Reasonings(inputs[..|inputs| - 1]);
      if i.Received? then rest + i.chunk.reasoning else rest
  }

  function LastSignature(inputs: seq<Input>): string {
    if |inputs| == 0 then ""
    else
      var i := inputs[|inputs| - 1];
      if i.Received? && i.chunk.signature != "" then i.chunk.signature else LastSignature(inputs[..|inputs| - 1])
  }

  function LastToolCalls(inputs: seq<Input>): seq<ToolCall> {
    if |inputs| == 0 then []
    else
      var i := inputs[|inputs| - 1];
      if i.Received? && i.chunk.done && i.chunk.toolCalls != [] then i.chunk.toolCalls else LastToolCalls(inputs[..|inputs| - 1])
  }

  /** What is gathered: all content, all reasoning, the last signature, and the calls of the last chunk that ends the
      stream with some. */
  lemma {:induction false} GatherMeans(inputs: seq<Input>)
    ensures Gather(Silent, inputs) == Round(Contents(inputs), Reasonings(inputs), LastSignature(inputs), LastToolCalls(inputs))
  {
    if |inputs| > 0 {
      var front, last := inputs[..|inputs| - 1], inputs[|inputs| - 1];
      GatherMeans(front);
      assert inputs == front + [last];
      GatherAppend(Silent, front, [last]);
      GatherLast(Gather(Silent, front), last);
    }
  }

  function Thought(text: string): seq<Event> {
    if text != "" then [ThoughtDelta(text)] else []
  }

  function Spoken(text: string): seq<Event> {
    if text != "" then [ContentDelta(text)] else []
  }

  function ChunkShown(c: Chunk): seq<Event> {
    Thought(c.reasoning) + Spoken(c.content)
  }

  /** The deltas of a stream: for each chunk its reasoning and then its content. */
  function ToShow(inputs: seq<Input>): seq<Event> {
    if |inputs| == 0 then []
    else
      var i, rest := inputs[|inputs| - 1], ToShow(inputs[..|inputs| - 1]);
      if i.Received? then rest + ChunkShown(i.chunk) else rest
  }

  lemma GatherLast(r: Round, i: Input)
    ensures Gather(r, [i]) == if i.Received? then Heard(r, i.chunk) else r
  {
    assert [i][1..] == [];
  }

  /** How many inputs are heard in full before the verdict falls. */
  function Taken(inputs: seq<Input>): (n: nat)
    ensures n <= |inputs|
    decreases |inputs|
  {
    if |inputs| == 0 || inputs[0].IdleTimeout? || inputs[0].chunk.error.Some? then 0
    else if inputs[0].chunk.done && inputs[0].chunk.cancelled then 1
    else 1 + Taken(inputs[1..])
  }

  /** They are those before the first input that decides, which counts itself if it reports a cancelled run. */
  lemma {:induction false} TakenMeans(inputs: seq<Input>)
    ensures
      forall i :: 0 <= i < |inputs| && Decides(inputs[i]) && (forall j :: 0 <= j < i ==> !Decides(inputs[j])) ==>
        Taken(inputs) == if inputs[i].Received? && inputs[i].chunk.error == None then i + 1 else i
    ensures (forall j :: 0 <= j < |inputs| ==> !Decides(inputs[j])) ==> Taken(inputs) == |inputs|
  {
    if |inputs| > 0 && !Decides(inputs[0]) {
      TakenMeans(inputs[1..]);
      assert forall j :: 0 < j < |inputs| ==> inputs[j] == inputs[1..][j - 1];
    }
  }

  /** What is heard of a chunk when an emission fails: its reasoning, signature, content and calls, up to one
      of them. */
  predicate PartlyHeard(r: Round, c: Chunk, r': Round) {
    var thought := r.(reasoning := r.reasoning + c.reasoning);
    var signed := if c.signature != "" then thought.(signature := c.signature) else thought;
    r' == r || r' == thought || r' == signed || r' == signed.(content := r.content + c.content) || r' == Heard(r, c)
  }

  lemma {:induction false} GatherAppend(r: Round, xs: seq<Input>, ys: seq<Input>)
    ensures Gather(r, xs + ys) == Gather(Gather(r, xs), ys)
    decreases |xs|
  {
    if |xs| == 0 {
      assert xs + ys == ys;
    } else {
      assert (xs + ys)[1..] == xs[1..] + ys && (xs + ys)[0] == xs[0];
      GatherAppend(if xs[0].Received? then Heard(r, xs[0].chunk) else r, xs[1..], ys);
    }
  }

  lemma GatherOne(r: Round, c: Chunk)
    ensures Gather(r, [Received(c)]) == Heard(r, c)
  {
    assert [Received(c)][1..] == [];
  }

  lemma HeardNext(inputs: seq<Input>, i: nat)
    requires i < |inputs|
    ensures Gather(Silent, inputs[..i + 1]) ==
            if inputs[i].Received? then Heard(Gather(Silent, inputs[..i]), inputs[i].chunk) else Gather(Silent, inputs[..i])
    ensures ToShow(inputs[..i + 1]) == ToShow(inputs[..i]) + if inputs[i].Received? then ChunkShown(inputs[i].chunk) else []
  {
    assert inputs[..i + 1][..i] == inputs[..i];
    assert inputs[..i + 1] == inputs[..i] + [inputs[i]];
    GatherAppend(Silent, inputs[..i], [inputs[i]]);
    GatherLast(Gather(Silent, inputs[..i]), inputs[i]);
  }

  /** What is heard of a stream when an emission fails: some inputs, and part of the next. */
  predicate Interrupted(inputs: seq<Input>, r: Round) {
    || r == Gather(Silent, inputs)
    || exists i :: 0 <= i < |inputs| && inputs[i].Received? && PartlyHeard(Gather(Silent, inputs[..i]), inputs[i].chunk, r)
  }

  lemma InterruptedAt(inputs: seq<Input>, i: nat, r: Round)
    requires i < |inputs| && inputs[i].Received? && PartlyHeard(Gather(Silent, inputs[..i]), inputs[i].chunk, r)
    ensures Interrupted(inputs, r)
  {
  }

  /** A round whose emission failed returns the reasoning and the content of some inputs, in order, with at most the
      reasoning of one input more. */
  lemma InterruptedMeans(inputs: seq<Input>, r: Round)
    requires Interrupted(inputs, r)
    ensures exists n, m ::
      0 <= n <= m <= |inputs| && m <= n + 1 && r.content == Contents(inputs[..n]) && r.reasoning == Reasonings(inputs[..m])
  {
    if r == Gather(Silent, inputs) {
      GatherMeans(inputs);
      assert inputs[..|inputs|] == inputs;
    } else {
      var i :| 0 <= i < |inputs| && inputs[i].Received? && PartlyHeard(Gather(Silent, inputs[..i]), inputs[i].chunk, r);
      GatherMeans(inputs[..i]);
      GatherMeans(inputs[..i + 1]);
      assert inputs[..i + 1][..i] == inputs[..i];
      var c := inputs[i].chunk;
      if r.content == Contents(inputs[..i]) {
        assert r.reasoning == Reasonings(inputs[..i]) || r.reasoning == Reasonings(inputs[..i + 1]);
      } else {
        assert r.content == Contents(inputs[..i + 1]) && r.reasoning == Reasonings(inputs[..i + 1]);
      }
    }
  }

  /** The error with which such an input ends the round. */
  function Sentence(i: Input, ctx: Context): Error
    requires Decides(i)
  {
    if i.IdleTimeout? then StreamIdle
    else if i.chunk.error.None? then RunCancelled
    else if i.chunk.error.value.Canceled? then Cause(ctx) else StreamError
  }

  /** The input is heard and shown. */
  predicate Audible(i: Input) {
    i.Received? && i.chunk.error.None?
  }

  /** Input `k` is the first that decides, or none does and `k` is their number. */
  predicate FirstToDecide(inputs: seq<Input>, k: nat) {
    k <= |inputs| && (k < |inputs| ==> Decides(inputs[k])) && forall j :: 0 <= j < k ==> !Decides(inputs[j])
  }

  predicate SaysDone(inputs: seq<Input>, n: nat)
    requires n <= |inputs|
  {
    exists j :: 0 <= j < n && inputs[j].Received? && inputs[j].chunk.done
  }

  /** What a collector has: what it would return, the deltas it showed, and whether the stream said it was done. */
  datatype Account = Account(round: Round, shown: seq<Event>, done: bool)

  function Take(emits: bool, a: Account, c: Chunk): Account {
    Account(Heard(a.round, c), if emits then a.shown + Thought(c.reasoning) + Spoken(c.content) else a.shown, a.done || c.done)
  }

  /** After `n` inputs. */
  function Told(emits: bool, a: Account, inputs: seq<Input>, n: nat): Account
    requires n <= |inputs|
  {
    if n == 0 then a
    else
      var before := Told(emits, a, inputs, n - 1);
      if inputs[n - 1].Received? then Take(emits, before, inputs[n - 1].chunk) else before
  }

  lemma {:induction false} ToldMeans(emits: bool, shown: seq<Event>, inputs: seq<Input>, n: nat)
    requires n <= |inputs|
    ensures
      var a := Told(emits, Account(Silent, shown, false), inputs, n);
      && a.round == Gather(Silent, inputs[..n])
      && a.shown == shown + if emits then ToShow(inputs[..n]) else []
  {
    if n > 0 {
      ToldMeans(emits, shown, inputs, n - 1);
      HeardNext(inputs, n - 1);
      if inputs[n - 1].Received? {
        ShownInOrder(shown, ToShow(inputs[..n - 1]), inputs[n - 1].chunk);
      }
    }
  }

  lemma ShownInOrder(a: seq<Event>, b: seq<Event>, c: Chunk)
    ensures a + b + Thought(c.reasoning) + Spoken(c.content) == a + (b + ChunkShown(c))
  {
  }

  lemma {:induction false} ToldDone(emits: bool, a: Account, inputs: seq<Input>, n: nat)
    requires n <= |inputs| && !a.done
    ensures Told(emits, a, inputs, n).done <==> SaysDone(inputs, n)
  {
    if n > 0 {
      ToldDone(emits, a, inputs, n - 1);
      assert SaysDone(inputs, n) <==> SaysDone(inputs, n - 1) || (inputs[n - 1].Received? && inputs[n - 1].chunk.done);
    }
  }

  /** The inputs heard in full if input `k` decides. */
  function FullyHeard(inputs: seq<Input>, k: nat): (n: nat)
    ensures n <= k + 1 && (k <= |inputs| ==> n <= |inputs|)
  {
    if k < |inputs| && Audible(inputs[k]) then k + 1 else k
  }

  /** The verdict on what was told up to the input that decides. */
  lemma Concluded(inputs: seq<Input>, ctx: Context, k: nat, emits: bool, shown: seq<Event>)
    requires FirstToDecide(inputs, k)
    ensures
      var a := Told(emits, Account(Silent, shown, false), inputs, FullyHeard(inputs, k));
      && Taken(inputs) == FullyHeard(inputs, k)
      && a.round == Gather(Silent, inputs[..Taken(inputs)])
      && a.shown == shown + (if emits then ToShow(inputs[..Taken(inputs)]) else [])
      && (k == |inputs| ==> a.round == Gather(Silent, inputs))
      && Verdict(inputs, ctx, false) ==
           if k < |inputs| then Some(Sentence(inputs[k], ctx))
           else if Ended(ctx) then Some(Cause(ctx))
           else if a.done then None else Some(UpstreamEof)
  {
    ConcludedVerdict(inputs, ctx, k);
    ToldMeans(emits, shown, inputs, FullyHeard(inputs, k));
    ToldDone(emits, Account(Silent, shown, false), inputs, FullyHeard(inputs, k));
    assert inputs[..|inputs|] == inputs;
  }

  lemma ConcludedVerdict(inputs: seq<Input>, ctx: Context, k: nat)
    requires FirstToDecide(inputs, k)
    ensures Verdict(inputs, ctx, false) ==
            if k < |inputs| then Some(Sentence(inputs[k], ctx))
            else if Ended(ctx) then Some(Cause(ctx))
            else if SaysDone(inputs, |inputs|) then None else Some(UpstreamEof)
    ensures Taken(inputs) == FullyHeard(inputs, k)
  {
    VerdictMeans(inputs, ctx, false);
    TakenMeans(inputs);
  }

  // ---------- the collector ----------

  class StreamCollector {
    const emitEvents: bool
    /** Whether the n-th emission fails. */
    const fails: nat -> bool
    var attempts: nat
    var events: seq<Event>
    var content: string
    var reasoningContent: string
    var reasoningBlockContent: string
    var reasoningSignature: string
    var toolCalls: seq<ToolCall>
    var thoughtActive: bool
    var contentActive: bool
    var receivedDone: bool

    function OpenBlocks(): seq<Block>
      reads this`contentActive, this`thoughtActive, this`reasoningBlockContent
    {
      var thought := InThought(reasoningBlockContent);
      if contentActive then if thoughtActive then [InContent, thought] else [InContent]
      else if thoughtActive then [thought] else []
    }

    /** The flags and buffers agree with what a reader of the events knows. */
    ghost predicate InStep()
      reads this`events, this`contentActive, this`thoughtActive, this`content, this`reasoningContent, this`reasoningBlockContent
    {
      && (!thoughtActive ==> reasoningBlockContent == "")
      && (if emitEvents then
            && Follow(events).Some? && Follow(events).value.open == OpenBlocks() && Follow(events).value.said == content
            && Follow(events).value.thought + reasoningBlockContent == reasoningContent
          else events == [])
    }

    function Result(): Round
      reads this`content, this`reasoningContent, this`reasoningSignature, this`toolCalls
    {
      Round(content, reasoningContent, reasoningSignature, toolCalls)
    }

    ghost function View(): Account
      reads this
    {
      Account(Result(), Shown(events), receivedDone)
    }

    ghost predicate Readable()
      reads this`events
    {
      if emitEvents then Follow(events).Some? else events == []
    }

    constructor (emitEvents: bool, fails: nat -> bool)
      ensures this.emitEvents == emitEvents && this.fails == fails && InStep() && !receivedDone && Result() == Silent
    {
      this.emitEvents, this.fails := emitEvents, fails;
      attempts, events := 0, [];
      content, reasoningContent, reasoningBlockContent, reasoningSignature := "", "", "", "";
      toolCalls, thoughtActive, contentActive, receivedDone := [], false, false, false;
    }

    method Emit(e: Event, ghost w: Word) returns (ok: bool)
      requires Follow(events).Some? && Next(Follow(events).value, e) == Some(w)
      modifies this`attempts, this`events
      ensures events == old(events) + if ok then [e] else []
      ensures Shown(events) == Shown(old(events)) + if ok && (e.ThoughtDelta? || e.ContentDelta?) then [e] else []
      ensures Follow(events) == if ok then Some(w) else Follow(old(events))
    {
      ok := !fails(attempts);
      attempts := attempts + 1;
      FollowMore(events, e);
      ShownMore(events, e);
      if ok {
        events := events + [e];
      }
    }

    method StartContent() returns (ok: bool)
      requires InStep() && !thoughtActive
      modifies this`attempts, this`events, this`contentActive
      ensures old(events) <= events && Shown(events) == Shown(old(events))
      ensures Readable() && (ok ==> InStep() && contentActive) && (!ok ==> emitEvents)
    {
      if contentActive {
        return true;
      }
      contentActive := true;
      if !emitEvents {
        return true;
      }
      ghost var w := Follow(events).value;
      ok := Emit(ContentStart, w.(open := [InContent]));
    }

    method CloseContent() returns (ok: bool)
      requires InStep() && !thoughtActive
      modifies this`attempts, this`events, this`contentActive
      ensures old(events) <= events && Shown(events) == Shown(old(events))
      ensures Readable() && (ok ==> InStep() && !contentActive) && (!ok ==> emitEvents)
    {
      if !contentActive {
        return true;
      }
      contentActive := false;
      if !emitEvents {
        return true;
      }
      ghost var w := Follow(events).value;
      assert w.open[..0] == [];
      ok := Emit(ContentEnd(content), w.(open := []));
    }

    method StartThought() returns (ok: bool)
      requires InStep()
      modifies this`attempts, this`events, this`thoughtActive
      ensures old(events) <= events && Shown(events) == Shown(old(events))
      ensures Readable() && (ok ==> InStep() && thoughtActive) && (!ok ==> emitEvents)
    {
      if thoughtActive {
        return true;
      }
      thoughtActive := true;
      if !emitEvents {
        return true;
      }
      ghost var w := Follow(events).value;
      assert w.open + [InThought("")] == OpenBlocks();
      ok := Emit(ThoughtStart, w.(open := OpenBlocks()));
    }

    method CloseThought() returns (ok: bool)
      requires InStep()
      modifies this`attempts, this`events, this`thoughtActive, this`reasoningBlockContent
      ensures old(events) <= events && Shown(events) == Shown(old(events))
      ensures Readable() && (ok ==> InStep() && !thoughtActive) && (!ok ==> emitEvents)
    {
      if !thoughtActive {
        return true;
      }
      thoughtActive := false;
      if !emitEvents {
        reasoningBlockContent := "";
        return true;
      }
      ghost var w := Follow(events).value;
      assert w.open[..|w.open| - 1] == OpenBlocks();
      ok := Emit(ThoughtEnd(reasoningBlockContent), w.(open := OpenBlocks(), thought := w.thought + reasoningBlockContent));
      reasoningBlockContent := "";
    }

    method TakeReasoning(delta: string) returns (ok: bool)
      requires InStep()
      modifies this`attempts, this`events, this`thoughtActive, this`reasoningContent, this`reasoningBlockContent
      ensures old(events) <= events
      ensures Readable() && (!ok ==> emitEvents)
      ensures ok ==> InStep() && reasoningContent == old(reasoningContent) + delta
      ensures ok && emitEvents ==> Shown(events) == Shown(old(events)) + Thought(delta)
      ensures !ok ==> reasoningContent == old(reasoningContent) || reasoningContent == old(reasoningContent) + delta
    {
      if delta == "" {
        return true;
      }
      ok := StartThought();
      if !ok {
        return;
      }
      ghost var w := Follow(events).value;
      reasoningContent := reasoningContent + delta;
      reasoningBlockContent := reasoningBlockContent + delta;
      if emitEvents {
        Joined(w.thought, old(reasoningBlockContent), delta);
        assert w.open[..|w.open| - 1] + [InThought(reasoningBlockContent)] == OpenBlocks();
        ok := Emit(ThoughtDelta(delta), w.(open := OpenBlocks()));
      }
    }

    method TakeContent(delta: string) returns (ok: bool)
      requires InStep()
      modifies this`attempts, this`events, this`thoughtActive, this`contentActive, this`content, this`reasoningBlockContent
      ensures old(events) <= events
      ensures Readable() && (!ok ==> emitEvents)
      ensures ok ==> InStep() && content == old(content) + delta
      ensures ok && emitEvents ==> Shown(events) == Shown(old(events)) + Spoken(delta)
      ensures !ok ==> content == old(content) || content == old(content) + delta
    {
      if delta == "" {
        return true;
      }
      ok := CloseThought();
      if !ok {
        return;
      }
      ok := StartContent();
      if !ok {
        return;
      }
      ghost var w := Follow(events).value;
      content := content + delta;
      if emitEvents {
        ok := Emit(ContentDelta(delta), w.(said := content));
      }
    }

    method CloseBlocks() returns (ok: bool)
      requires InStep()
      modifies this`attempts, this`events, this`thoughtActive, this`contentActive, this`reasoningBlockContent
      ensures old(events) <= events && Shown(events) == Shown(old(events))
      ensures Readable() && (!ok ==> emitEvents)
      ensures ok ==> InStep() && !thoughtActive && !contentActive
    {
      ok := CloseThought();
      if ok {
        ok := CloseContent();
      }
    }

    /** The last part of a chunk that ends the stream. */
    method FinishChunk(c: Chunk) returns (err: Option<Error>)
      requires InStep() && c.done
      modifies this`attempts, this`events, this`thoughtActive, this`contentActive, this`reasoningBlockContent
      modifies this`toolCalls, this`receivedDone
      ensures old(events) <= events && Shown(events) == Shown(old(events))
      ensures Readable() && (err == Some(EmitFailed) ==> emitEvents)
      ensures err != Some(EmitFailed) ==> InStep() && err == (if c.cancelled then Some(RunCancelled) else None)
      ensures receivedDone && toolCalls == if |c.toolCalls| > 0 then c.toolCalls else old(toolCalls)
    {
      receivedDone := true;
      if |c.toolCalls| > 0 {
        toolCalls := c.toolCalls;
      }
      var ok := CloseBlocks();
      if !ok {
        return Some(EmitFailed);
      }
      if c.cancelled {
        return Some(RunCancelled);
      }
      err := None;
    }

    /** One chunk without an error. */
    method TakeChunk(c: Chunk) returns (err: Option<Error>)
      requires InStep() && c.error.None?
      modifies this
      ensures old(events) <= events
      ensures Readable() && (err == Some(EmitFailed) ==> emitEvents)
      ensures err != Some(EmitFailed) ==> InStep() && err == (if c.done && c.cancelled then Some(RunCancelled) else None)
      ensures err != Some(EmitFailed) ==> View() == Take(emitEvents, old(View()), c)
      ensures err == Some(EmitFailed) ==> PartlyHeard(old(Result()), c, Result())
    {
      var ok := TakeReasoning(c.reasoning);
      if !ok {
        return Some(EmitFailed);
      }
      if c.signature != "" {
        reasoningSignature := c.signature;
      }
      ok := TakeContent(c.content);
      if !ok {
        return Some(EmitFailed);
      }
      err := None;
      if c.done {
        err := FinishChunk(c);
      }
    }

    /** The events only grow, and whatever was there at any moment can be read; the error is the one the stream
        deserves unless an emission failed; a round without error has closed every block, and shows and returns
        exactly the stream; and one with an error returns what was heard of the stream before it. */
    method Collect(inputs: seq<Input>, ctx: Context) returns (err: Option<Error>)
      requires InStep() && !receivedDone && Result() == Silent
      modifies this
      ensures Readable()
      ensures old(events) <= events && forall n :: 0 <= n <= |events| && emitEvents ==> Follow(events[..n]).Some?
      ensures if err == Some(EmitFailed) then emitEvents else err == Verdict(inputs, ctx, false)
      ensures err.None? ==> Result() == Gather(Silent, inputs)
      ensures err.None? && emitEvents ==>
                Follow(events).value.open == [] && ContentText(events) == content && ThoughtText(events) == reasoningContent
      ensures err != Some(EmitFailed) ==> Result() == Gather(Silent, inputs[..Taken(inputs)])
      ensures err != Some(EmitFailed) && emitEvents ==> Shown(events) == Shown(old(events)) + ToShow(inputs[..Taken(inputs)])
      ensures err == Some(EmitFailed) ==> Interrupted(inputs, Result())
    {
      ghost var k;
      err, k := CollectInputs(inputs, ctx);
      if err == Some(EmitFailed) {
        ToldMeans(emitEvents, Shown(old(events)), inputs, k);
        InterruptedAt(inputs, k, Result());
      } else {
        Concluded(inputs, ctx, k, emitEvents, Shown(old(events)));
        if err.None? {
          err := EndStream(ctx);
        }
      }
      if emitEvents {
        EveryMoment(events);
      }
    }

    /** The loop, up to input `k`. */
    method CollectInputs(inputs: seq<Input>, ctx: Context) returns (err: Option<Error>, ghost k: nat)
      requires InStep()
      modifies this
      ensures old(events) <= events && Readable()
      ensures err == Some(EmitFailed) ==>
                && emitEvents && k < |inputs| && inputs[k].Received?
                && PartlyHeard(Told(emitEvents, old(View()), inputs, k).round, inputs[k].chunk, Result())
      ensures err != Some(EmitFailed) ==>
                && FirstToDecide(inputs, k) && View() == Told(emitEvents, old(View()), inputs, FullyHeard(inputs, k))
                && err == (if k < |inputs| then Some(Sentence(inputs[k], ctx)) else None)
      ensures err.None? ==> InStep()
    {
      var i := 0;
      k := 0;
      while i < |inputs|
        invariant 0 <= i <= |inputs| && k == i && InStep() && old(events) <= events
        invariant forall j :: 0 <= j < i ==> !Decides(inputs[j])
        invariant View() == Told(emitEvents, old(View()), inputs, i)
      {
        err := TakeInput(inputs[i], ctx);
        if err.Some? {
          return;
        }
        i, k := i + 1, k + 1;
      }
      err := None;
    }

    /** One turn of the loop. */
    method TakeInput(i: Input, ctx: Context) returns (err: Option<Error>)
      requires InStep()
      modifies this
      ensures old(events) <= events && Readable() && (err.None? ==> InStep())
      ensures err == Some(EmitFailed) ==> emitEvents && i.Received? && PartlyHeard(old(Result()), i.chunk, Result())
      ensures err != Some(EmitFailed) ==>
                && err == (if Decides(i) then Some(Sentence(i, ctx)) else None)
                && View() == (if Audible(i) then Take(emitEvents, old(View()), i.chunk) else old(View()))
    {
      if i.IdleTimeout? {
        return Some(StreamIdle);
      }
      if i.chunk.error.Some? {
        return Some(if i.chunk.error.value.Canceled? then Cause(ctx) else StreamError);
      }
      err := TakeChunk(i.chunk);
    }

    /** After the stream was closed. */
    method EndStream(ctx: Context) returns (err: Option<Error>)
      requires InStep()
      modifies this`attempts, this`events, this`thoughtActive, this`contentActive, this`reasoningBlockContent
      ensures old(events) <= events && Shown(events) == Shown(old(events)) && Readable()
      ensures if err == Some(EmitFailed) then emitEvents
              else err == if Ended(ctx) then Some(Cause(ctx)) else if !receivedDone then Some(UpstreamEof) else None
      ensures err.None? ==> InStep() && OpenBlocks() == []
    {
      if Ended(ctx) {
        return Some(Cause(ctx));
      }
      var ok := CloseBlocks();
      if !ok {
        return Some(EmitFailed);
      }
      err := if receivedDone then None else Some(UpstreamEof);
    }
  }

  // ---------- the parser and the collector together ----------

  function Inputs(cs: seq<Chunk>): seq<Input> {
    seq(|cs|, i requires 0 <= i < |cs| => Received(cs[i]))
  }

  function ContentOf(cs: seq<Choice>): string {
    if |cs| == 0 then "" else ContentOf(cs[..|cs| - 1]) + cs[|cs| - 1].content
  }

  function ReasoningOf(cs: seq<Choice>): string {
    if |cs| == 0 then "" else ReasoningOf(cs[..|cs| - 1]) + cs[|cs| - 1].reasoning
  }

  lemma GatherDeltas(r: Round, c: Choice)
    ensures Gather(r, Inputs(Deltas(c))) == r.(content := r.content + c.content, reasoning := r.reasoning + c.reasoning)
  {
    var thought, text := Received(Quiet.(reasoning := c.reasoning)), Received(Quiet.(content := c.content));
    var first := if c.reasoning != "" then [thought] else [];
    var second := if c.content != "" then [text] else [];
    assert Inputs(Deltas(c)) == first + second;
    assert forall s: string :: s + "" == s;
    GatherAppend(r, first, second);
    GatherOne(r, thought.chunk);
    GatherOne(Gather(r, first), text.chunk);
  }

  lemma {:induction false} DeltasText(cs: seq<Choice>)
    ensures Gather(Silent, Inputs(AllDeltas(cs))) == Round(ContentOf(cs), ReasoningOf(cs), "", [])
    ensures forall c :: c in AllDeltas(cs) ==> !c.done && c.error.None?
  {
    if |cs| > 0 {
      var before, c := AllDeltas(cs[..|cs| - 1]), cs[|cs| - 1];
      DeltasText(cs[..|cs| - 1]);
      assert Inputs(before + Deltas(c)) == Inputs(before) + Inputs(Deltas(c));
      GatherAppend(Silent, Inputs(before), Inputs(Deltas(c)));
      GatherDeltas(Gather(Silent, Inputs(before)), c);
    }
  }

  lemma {:induction false} VerdictOfDeltas(cs: seq<Chunk>, last: Chunk, ctx: Context)
    requires forall c :: c in cs ==> !c.done && c.error.None?
    ensures Verdict(Inputs(cs + [last]), ctx, false) == Verdict([Received(last)], ctx, false)
    decreases |cs|
  {
    if |cs| == 0 {
      assert Inputs(cs + [last]) == [Received(last)];
    } else {
      VerdictOfDeltas(cs[1..], last, ctx);
      assert Inputs(cs + [last])[1..] == Inputs(cs[1..] + [last]);
      assert Inputs(cs + [last])[0] == Received(cs[0]) && cs[0] in cs;
    }
  }

  lemma LastChunkDecides(last: Chunk)
    requires last.done && last.content == "" && last.reasoning == "" && last.signature == ""
    ensures Verdict([Received(last)], Alive, false) ==
            if last.error.Some? then Some(if last.error.value.Canceled? then ClientDisconnected else StreamError)
            else if last.cancelled then Some(RunCancelled) else None
  {
    assert [Received(last)][1..] == [];
  }

  /** What the parser writes, the collector takes: a stream that is read to its end without an error and was not
      cancelled makes a round without error, with the text of its choices and the calls of its fragments. */
  lemma ParsedStreamCollects(lines: seq<Line>, readError: bool, isToolFinish: string -> bool, canonical: string -> string,
                             deltas: seq<Chunk>, last: Chunk)
    requires deltas == ReadLines(Nothing, lines).0.out
    requires Closes(ReadLines(Nothing, lines).0, ReadLines(Nothing, lines).1, UsageRead(lines, (0, 0)), readError, isToolFinish, canonical, last)
    ensures
      var e := ReadLines(Nothing, lines).1;
      Verdict(Inputs(deltas + [last]), Alive, false) ==
        if readError && e.Exhausted? then Some(StreamError) else if e.Aborted? then Some(RunCancelled) else None
    ensures
      var cs := Choices(lines);
      Verdict(Inputs(deltas + [last]), Alive, false).None? ==>
        Gather(Silent, Inputs(deltas + [last])) ==
          Round(ContentOf(cs), ReasoningOf(cs), "", Assemble(Fragments(cs), isToolFinish(FinishReason(cs)), canonical))
  {
    var cs := Choices(lines);
    StreamMeans(lines, readError, isToolFinish, canonical, last);
    DeltasText(cs);
    VerdictOfDeltas(deltas, last, Alive);
    LastChunkDecides(last);
    LastCalls(deltas, last, ContentOf(cs), ReasoningOf(cs));
  }

  lemma LastCalls(deltas: seq<Chunk>, last: Chunk, content: string, reasoning: string)
    requires Gather(Silent, Inputs(deltas)) == Round(content, reasoning, "", [])
    requires last.done && last.content == "" && last.reasoning == "" && last.signature == ""
    ensures Gather(Silent, Inputs(deltas + [last])) == Round(content, reasoning, "", last.toolCalls)
  {
    assert Inputs(deltas + [last]) == Inputs(deltas) + [Received(last)];
    GatherAppend(Silent, Inputs(deltas), [Received(last)]);
    GatherOne(Gather(Silent, Inputs(deltas)), last);
    assert content + "" == content && reasoning + "" == reasoning;
  }
}
