/** The history replay of `service/react/history.go`: stored messages turned back into numbered events, with
    one terminal event for each run, while the context of the runs is tracked. */
module Replay {
  import opened Common
  import opened History

  /** An event is rendered from a message or ends its run. */
  datatype Body = Part(payload: string) | DoneEvent | CancelledEvent | ErrorEvent

  datatype Event = Event(body: Body, no: int, run: string)

  datatype Builder = Builder(no: int, events: seq<Event>, current: string, has: set<string>, closed: set<string>)

  const Fresh := Builder(0, [], "", {}, {})

  function TerminalOf(s: RunState): Option<Body> {
    match s
    case Finished => Some(DoneEvent)
    case Cancelled => Some(CancelledEvent)
    case Failed => Some(ErrorEvent)
    case Expired => Some(ErrorEvent)
    case _ => None
  }

  predicate Ended(runs: Runs, run: string) {
    run in runs && TerminalOf(runs[run].state).Some?
  }

  function Append(b: Builder, body: Body, run: string): Builder {
    b.(no := b.no + 1, events := b.events + [Event(body, b.no + 1, run)])
  }

  function AppendParts(b: Builder, run: string, parts: seq<string>): Builder
    decreases |parts|
  {
    if parts == [] then b else AppendParts(Append(b, Part(parts[0]), run), run, parts[1..])
  }

  /** `appendRunTerminal`. */
  function Close(runs: Runs, b: Builder, run: string): Builder {
    if run in b.closed || run !in runs then b
    else
      var b' := b.(closed := b.closed + {run});
      if Ended(runs, run) then Append(b', TerminalOf(runs[run].state).value, run) else b'
  }

  /** The timeline goes from `current` to a run that is not its child. */
  predicate Leaves(runs: Runs, current: string, run: string) {
    current != "" && run != "" && run != current && !(run in runs && runs[run].parent == current)
  }

  function Take(runs: Runs, b: Builder, m: Message): Builder {
    var b1 := if m.run != "" then b.(has := b.has + {m.run}) else b;
    var b2 := if Leaves(runs, b1.current, m.run) then Close(runs, b1, b1.current) else b1;
    var b3 := if m.run != "" then b2.(current := m.run) else b2;
    AppendParts(b3, m.run, m.parts)
  }

  function TakeAll(runs: Runs, ms: seq<Message>): Builder {
    if |ms| == 0 then Fresh else Take(runs, TakeAll(runs, ms[..|ms| - 1]), ms[|ms| - 1])
  }

  /** The last loop of `Build`, over the runs in their order. */
  function CloseRest(runs: Runs, b: Builder, order: seq<string>): Builder
    decreases |order|
  {
    if order == [] then b
    else CloseRest(runs, if order[0] in b.has && order[0] !in b.closed then Close(runs, b, order[0]) else b, order[1..])
  }

  function Build(runs: Runs, order: seq<string>, ms: seq<Message>): Builder {
    var b := TakeAll(runs, ms);
    CloseRest(runs, if b.current != "" then Close(runs, b, b.current) else b, order)
  }

  // ---------- what a timeline does to a run ----------

  function Current(ms: seq<Message>): string {
    if |ms| == 0 then "" else if ms[|ms| - 1].run != "" then ms[|ms| - 1].run else Current(ms[..|ms| - 1])
  }

  /** At message `i` the timeline goes from `r` to another run that is not a child of `r`. */
  predicate ExitAt(runs: Runs, ms: seq<Message>, i: nat, r: string)
    requires i < |ms|
  {
    && Current(ms[..i]) == r && r != "" && ms[i].run != "" && ms[i].run != r
    && (ms[i].run in runs ==> runs[ms[i].run].parent != r)
  }

  predicate Exited(runs: Runs, ms: seq<Message>, r: string) {
    exists i :: 0 <= i < |ms| && ExitAt(runs, ms, i, r)
  }

  predicate AppearsAfter(ms: seq<Message>, i: nat, r: string) {
    exists j :: i < j < |ms| && ms[j].run == r && ms[j].parts != []
  }

  /** The run is left for one that is not its child, and is shown again later. */
  predicate Reappears(runs: Runs, ms: seq<Message>, r: string) {
    exists i :: 0 <= i < |ms| && ExitAt(runs, ms, i, r) && AppearsAfter(ms, i, r)
  }

  predicate HasMessages(ms: seq<Message>, r: string) {
    exists i :: 0 <= i < |ms| && ms[i].run == r
  }

  predicate IsTerminal(e: Event, r: string) {
    e.run == r && !e.body.Part?
  }

  function Terminals(events: seq<Event>, r: string): nat {
    if |events| == 0 then 0
    else Terminals(events[..|events| - 1], r) + if IsTerminal(events[|events| - 1], r) then 1 else 0
  }

  /** Some event of the run comes after one that ends it. */
  predicate Late(events: seq<Event>, r: string) {
    exists p, q :: 0 <= p < q < |events| && IsTerminal(events[p], r) && events[q].run == r
  }

  ghost predicate Numbered(b: Builder) {
    b.no == |b.events| && forall i :: 0 <= i < |b.events| ==> b.events[i].no == i + 1
  }

  lemma {:induction false} TerminalsIn(events: seq<Event>, r: string)
    ensures Terminals(events, r) > 0 <==> exists p :: 0 <= p < |events| && IsTerminal(events[p], r)
  {
    if |events| > 0 {
      var n := |events| - 1;
      TerminalsIn(events[..n], r);
      if p :| 0 <= p < |events| && IsTerminal(events[p], r) {
        assert p < n ==> IsTerminal(events[..n][p], r);
      }
      if p :| 0 <= p < n && IsTerminal(events[..n][p], r) {
        assert IsTerminal(events[p], r);
      }
    }
  }

  lemma LateMore(es: seq<Event>, e: Event, r: string)
    ensures Late(es + [e], r) <==> Late(es, r) || (e.run == r && Terminals(es, r) > 0)
  {
    var es', n := es + [e], |es|;
    TerminalsIn(es, r);
    if p, q :| 0 <= p < q < |es'| && IsTerminal(es'[p], r) && es'[q].run == r {
      assert IsTerminal(es[p], r);
      assert q < n ==> es[q].run == r;
    }
    if p, q :| 0 <= p < q < n && IsTerminal(es[p], r) && es[q].run == r {
      assert IsTerminal(es'[p], r) && es'[q].run == r;
    }
    if e.run == r && Terminals(es, r) > 0 {
      var p :| 0 <= p < n && IsTerminal(es[p], r);
      assert IsTerminal(es'[p], r) && es'[n].run == r;
    }
  }

  lemma AppendEffect(b: Builder, body: Body, run: string, r: string)
    requires Numbered(b)
    ensures
      var b' := Append(b, body, run);
      && Numbered(b')
      && Terminals(b'.events, r) == Terminals(b.events, r) + (if run == r && !body.Part? then 1 else 0)
      && (Late(b'.events, r) <==> Late(b.events, r) || (run == r && Terminals(b.events, r) > 0))
  {
    var e := Event(body, b.no + 1, run);
    assert (b.events + [e])[..|b.events|] == b.events;
    LateMore(b.events, e, r);
  }

  lemma {:induction false} AppendPartsEffect(b: Builder, run: string, parts: seq<string>, r: string)
    requires Numbered(b)
    ensures
      var b' := AppendParts(b, run, parts);
      && Numbered(b') && b'.current == b.current && b'.has == b.has && b'.closed == b.closed
      && Terminals(b'.events, r) == Terminals(b.events, r)
      && (Late(b'.events, r) <==> Late(b.events, r) || (run == r && parts != [] && Terminals(b.events, r) > 0))
    decreases |parts|
  {
    if parts != [] {
      AppendEffect(b, Part(parts[0]), run, r);
      AppendPartsEffect(Append(b, Part(parts[0]), run), run, parts[1..], r);
    }
  }

  lemma CloseEffect(runs: Runs, b: Builder, run: string, r: string)
    requires Numbered(b)
    ensures
      var b' := Close(runs, b, run);
      && Numbered(b') && b'.current == b.current && b'.has == b.has
      && (r in b'.closed <==> r in b.closed || (run == r && r in runs))
      && Terminals(b'.events, r) == Terminals(b.events, r) + (if run == r && r !in b.closed && Ended(runs, r) then 1 else 0)
      && (Late(b'.events, r) <==> Late(b.events, r) || (run == r && r !in b.closed && Ended(runs, r) && Terminals(b.events, r) > 0))
  {
    if run !in b.closed && Ended(runs, run) {
      AppendEffect(b.(closed := b.closed + {run}), TerminalOf(runs[run].state).value, run, r);
    }
  }

  // ---------- the builder over a timeline ----------

  ghost predicate Tracks(runs: Runs, ms: seq<Message>, b: Builder, r: string) {
    && Numbered(b) && b.current == Current(ms)
    && (r in b.has <==> HasMessages(ms, r))
    && (r in b.closed <==> r in runs && Exited(runs, ms, r))
    && Terminals(b.events, r) == (if r in b.closed && Ended(runs, r) then 1 else 0)
    && (Late(b.events, r) <==> Ended(runs, r) && Reappears(runs, ms, r))
  }

  lemma HasMore(ms: seq<Message>, r: string)
    requires |ms| > 0
    ensures HasMessages(ms, r) <==> HasMessages(ms[..|ms| - 1], r) || ms[|ms| - 1].run == r
  {
    var before := ms[..|ms| - 1];
    assert forall i :: 0 <= i < |before| ==> before[i].run == ms[i].run;
    if i :| 0 <= i < |before| && before[i].run == r {
      assert ms[i].run == r;
    }
  }

  lemma ExitBefore(runs: Runs, ms: seq<Message>, i: nat, r: string)
    requires i < |ms| - 1
    ensures ExitAt(runs, ms[..|ms| - 1], i, r) <==> ExitAt(runs, ms, i, r)
  {
    assert ms[..|ms| - 1][..i] == ms[..i];
  }

  lemma ExitedMore(runs: Runs, ms: seq<Message>, r: string)
    requires |ms| > 0
    ensures
      var n := |ms| - 1;
      Exited(runs, ms, r) <==> Exited(runs, ms[..n], r) || (Current(ms[..n]) == r && Leaves(runs, r, ms[n].run))
  {
    var n := |ms| - 1;
    assert ExitAt(runs, ms, n, r) <==> Current(ms[..n]) == r && Leaves(runs, r, ms[n].run);
    if i :| 0 <= i < n && ExitAt(runs, ms[..n], i, r) {
      ExitBefore(runs, ms, i, r);
    }
    if i :| 0 <= i < |ms| && ExitAt(runs, ms, i, r) {
      if i < n {
        ExitBefore(runs, ms, i, r);
      }
    }
  }

  lemma ReappearsBefore(runs: Runs, ms: seq<Message>, r: string)
    requires |ms| > 0 && Reappears(runs, ms, r)
    ensures
      var n := |ms| - 1;
      Reappears(runs, ms[..n], r) || (Exited(runs, ms[..n], r) && ms[n].run == r && ms[n].parts != [])
  {
    var n := |ms| - 1;
    var before := ms[..n];
    var i :| 0 <= i < |ms| && ExitAt(runs, ms, i, r) && AppearsAfter(ms, i, r);
    var j :| i < j < |ms| && ms[j].run == r && ms[j].parts != [];
    ExitBefore(runs, ms, i, r);
    if j < n {
      assert before[j].run == r && before[j].parts != [];
      assert AppearsAfter(before, i, r);
    }
  }

  lemma ReappearsMore(runs: Runs, ms: seq<Message>, r: string)
    requires |ms| > 0
    ensures
      var n := |ms| - 1;
      var before := ms[..n];
      Reappears(runs, ms, r) <==> Reappears(runs, before, r) || (Exited(runs, before, r) && ms[n].run == r && ms[n].parts != [])
  {
    var n := |ms| - 1;
    var before := ms[..n];
    if Reappears(runs, ms, r) {
      ReappearsBefore(runs, ms, r);
    }
    if i :| 0 <= i < n && ExitAt(runs, before, i, r) && AppearsAfter(before, i, r) {
      var j :| i < j < n && before[j].run == r && before[j].parts != [];
      assert ms[j].run == r && ms[j].parts != [];
      ExitBefore(runs, ms, i, r);
      assert AppearsAfter(ms, i, r);
    }
    if Exited(runs, before, r) && ms[n].run == r && ms[n].parts != [] {
      var i :| 0 <= i < n && ExitAt(runs, before, i, r);
      ExitBefore(runs, ms, i, r);
      assert AppearsAfter(ms, i, r);
    }
  }

  lemma TakeEffect(runs: Runs, b: Builder, m: Message, r: string)
    requires Numbered(b) && r != ""
    ensures
      var b' := Take(runs, b, m);
      var exits := b.current == r && Leaves(runs, r, m.run);
      var ends := exits && r !in b.closed && Ended(runs, r);
      && Numbered(b') && b'.current == (if m.run != "" then m.run else b.current)
      && (r in b'.has <==> r in b.has || m.run == r)
      && (r in b'.closed <==> r in b.closed || (exits && r in runs))
      && Terminals(b'.events, r) == Terminals(b.events, r) + (if ends then 1 else 0)
      && (Late(b'.events, r) <==> Late(b.events, r) || (Terminals(b.events, r) > 0 && (ends || (m.run == r && m.parts != []))))
  {
    var b1 := if m.run != "" then b.(has := b.has + {m.run}) else b;
    CloseEffect(runs, b1, b1.current, r);
    var b2 := if Leaves(runs, b1.current, m.run) then Close(runs, b1, b1.current) else b1;
    AppendPartsEffect(if m.run != "" then b2.(current := m.run) else b2, m.run, m.parts, r);
  }

  lemma {:induction false} TakeAllTracks(runs: Runs, ms: seq<Message>, r: string)
    requires r != ""
    ensures Tracks(runs, ms, TakeAll(runs, ms), r)
  {
    if |ms| > 0 {
      var n := |ms| - 1;
      TakeAllTracks(runs, ms[..n], r);
      HasMore(ms, r);
      ExitedMore(runs, ms, r);
      ReappearsMore(runs, ms, r);
      TakeEffect(runs, TakeAll(runs, ms[..n]), ms[n], r);
    }
  }

  lemma {:induction false} CloseRestEffect(runs: Runs, b: Builder, order: seq<string>, r: string)
    requires Numbered(b) && Terminals(b.events, r) == (if r in b.closed && Ended(runs, r) then 1 else 0)
    ensures
      var b' := CloseRest(runs, b, order);
      var closes := r in order && r in b.has && r in runs && r !in b.closed;
      && Numbered(b') && (Late(b'.events, r) <==> Late(b.events, r))
      && Terminals(b'.events, r) == (if (r in b.closed || closes) && Ended(runs, r) then 1 else 0)
    decreases |order|
  {
    if order != [] {
      CloseEffect(runs, b, order[0], r);
      var b' := if order[0] in b.has && order[0] !in b.closed then Close(runs, b, order[0]) else b;
      CloseRestEffect(runs, b', order[1..], r);
      assert r in order <==> order[0] == r || r in order[1..];
    }
  }

  lemma {:induction false} CurrentHasMessages(ms: seq<Message>)
    ensures Current(ms) != "" ==> HasMessages(ms, Current(ms))
  {
    if |ms| > 0 {
      var n := |ms| - 1;
      CurrentHasMessages(ms[..n]);
      if ms[n].run == "" && Current(ms[..n]) != "" {
        var i :| 0 <= i < n && ms[..n][i].run == Current(ms[..n]);
        assert ms[i].run == Current(ms);
      }
    }
  }

  /** The run finished, failed, was cancelled or expired. */
  predicate Over(runs: Runs, r: string) {
    r in runs && runs[r].state in {Finished, Failed, Cancelled, Expired}
  }

  /** The events are numbered 1..n; every run with messages and a final state is ended by exactly one event, and
      no other run is; and that event is the last one of the run exactly when the timeline does not show the
      run again after leaving it for a run that is not its child. */
  lemma EveryRunEndsOnce(runs: Runs, order: seq<string>, ms: seq<Message>, r: string)
    requires r != "" && forall x :: x in order <==> x in runs
    ensures
      var b := Build(runs, order, ms);
      && Numbered(b)
      && Terminals(b.events, r) == (if Over(runs, r) && HasMessages(ms, r) then 1 else 0)
      && (Late(b.events, r) <==> Over(runs, r) && Reappears(runs, ms, r))
  {
    var b := TakeAll(runs, ms);
    TakeAllTracks(runs, ms, r);
    CurrentHasMessages(ms);
    CloseEffect(runs, b, b.current, r);
    CloseRestEffect(runs, if b.current != "" then Close(runs, b, b.current) else b, order, r);
    if Exited(runs, ms, r) {
      var i :| 0 <= i < |ms| && ExitAt(runs, ms, i, r);
      CurrentHasMessages(ms[..i]);
      var j :| 0 <= j < i && ms[..i][j].run == r;
      assert ms[j].run == r;
    }
  }

  ghost predicate KindsRight(runs: Runs, events: seq<Event>) {
    forall i :: 0 <= i < |events| && !events[i].body.Part? ==> Ended(runs, events[i].run) && TerminalOf(runs[events[i].run].state) == Some(events[i].body)
  }

  lemma {:induction false} PartsKeepKinds(runs: Runs, b: Builder, run: string, parts: seq<string>)
    requires KindsRight(runs, b.events)
    ensures KindsRight(runs, AppendParts(b, run, parts).events)
    decreases |parts|
  {
    if parts != [] {
      PartsKeepKinds(runs, Append(b, Part(parts[0]), run), run, parts[1..]);
    }
  }

  lemma {:induction false} TakeAllKinds(runs: Runs, ms: seq<Message>)
    ensures KindsRight(runs, TakeAll(runs, ms).events)
  {
    if |ms| > 0 {
      var n := |ms| - 1;
      TakeAllKinds(runs, ms[..n]);
      var b, m := TakeAll(runs, ms[..n]), ms[n];
      var b1 := if m.run != "" then b.(has := b.has + {m.run}) else b;
      var b2 := if Leaves(runs, b1.current, m.run) then Close(runs, b1, b1.current) else b1;
      PartsKeepKinds(runs, if m.run != "" then b2.(current := m.run) else b2, m.run, m.parts);
    }
  }

  lemma {:induction false} CloseRestKinds(runs: Runs, b: Builder, order: seq<string>)
    requires KindsRight(runs, b.events)
    ensures KindsRight(runs, CloseRest(runs, b, order).events)
    decreases |order|
  {
    if order != [] {
      CloseRestKinds(runs, if order[0] in b.has && order[0] !in b.closed then Close(runs, b, order[0]) else b, order[1..]);
    }
  }

  /** What ends a run: done, cancelled, or an error, also for one that expired. */
  function FinalEvent(s: RunState): Body
    requires s in {Finished, Failed, Cancelled, Expired}
  {
    if s == Finished then DoneEvent else if s == Cancelled then CancelledEvent else ErrorEvent
  }

  /** A run that is not shown again after it was left ends with the event of its own state. */
  lemma EndIsLast(runs: Runs, order: seq<string>, ms: seq<Message>, r: string)
    requires r != "" && forall x :: x in order <==> x in runs
    requires Over(runs, r) && HasMessages(ms, r) && !Reappears(runs, ms, r)
    ensures
      var es := Build(runs, order, ms).events;
      exists p :: 0 <= p < |es| && es[p].run == r && es[p].body == FinalEvent(runs[r].state)
                  && forall q :: 0 <= q < |es| && es[q].run == r && q != p ==> q < p && es[q].body.Part?
  {
    var b := TakeAll(runs, ms);
    TakeAllKinds(runs, ms);
    CloseRestKinds(runs, if b.current != "" then Close(runs, b, b.current) else b, order);
    EveryRunEndsOnce(runs, order, ms, r);
    var es := Build(runs, order, ms).events;
    TerminalsIn(es, r);
    var p :| 0 <= p < |es| && IsTerminal(es[p], r);
    forall q | 0 <= q < |es| && es[q].run == r && q != p
      ensures q < p && es[q].body.Part?
    {
      assert IsTerminal(es[q], r) <==> !es[q].body.Part?;
    }
  }

  // ---------- every message is replayed once, in order ----------

  function Parts(events: seq<Event>): seq<(string, string)> {
    if |events| == 0 then []
    else
      var e, rest := events[|events| - 1], Parts(events[..|events| - 1]);
      if e.body.Part? then rest + [(e.run, e.body.payload)] else rest
  }

  function Labelled(run: string, parts: seq<string>): seq<(string, string)> {
    seq(|parts|, i requires 0 <= i < |parts| => (run, parts[i]))
  }

  function Expected(ms: seq<Message>): seq<(string, string)> {
    if |ms| == 0 then [] else Expected(ms[..|ms| - 1]) + Labelled(ms[|ms| - 1].run, ms[|ms| - 1].parts)
  }

  lemma PartsMore(events: seq<Event>, e: Event)
    ensures Parts(events + [e]) == if e.body.Part? then Parts(events) + [(e.run, e.body.payload)] else Parts(events)
  {
    assert (events + [e])[..|events|] == events;
  }

  lemma {:induction false} AppendPartsParts(b: Builder, run: string, parts: seq<string>)
    ensures Parts(AppendParts(b, run, parts).events) == Parts(b.events) + Labelled(run, parts)
    decreases |parts|
  {
    if parts != [] {
      PartsMore(b.events, Event(Part(parts[0]), b.no + 1, run));
      AppendPartsParts(Append(b, Part(parts[0]), run), run, parts[1..]);
      assert Labelled(run, parts) == [(run, parts[0])] + Labelled(run, parts[1..]);
    }
  }

  lemma CloseParts(runs: Runs, b: Builder, run: string)
    ensures Parts(Close(runs, b, run).events) == Parts(b.events)
  {
    if Ended(runs, run) {
      PartsMore(b.events, Event(TerminalOf(runs[run].state).value, b.no + 1, run));
    }
  }

  lemma {:induction false} TakeAllParts(runs: Runs, ms: seq<Message>)
    ensures Parts(TakeAll(runs, ms).events) == Expected(ms)
  {
    if |ms| > 0 {
      var n := |ms| - 1;
      TakeAllParts(runs, ms[..n]);
      var b, m := TakeAll(runs, ms[..n]), ms[n];
      var b1 := if m.run != "" then b.(has := b.has + {m.run}) else b;
      CloseParts(runs, b1, b1.current);
      var b2 := if Leaves(runs, b1.current, m.run) then Close(runs, b1, b1.current) else b1;
      AppendPartsParts(if m.run != "" then b2.(current := m.run) else b2, m.run, m.parts);
    }
  }

  lemma {:induction false} CloseRestParts(runs: Runs, b: Builder, order: seq<string>)
    ensures Parts(CloseRest(runs, b, order).events) == Parts(b.events)
    decreases |order|
  {
    if order != [] {
      CloseParts(runs, b, order[0]);
      CloseRestParts(runs, if order[0] in b.has && order[0] !in b.closed then Close(runs, b, order[0]) else b, order[1..]);
    }
  }

  /** Without the events that end runs, the replay is the timeline, part for part. */
  lemma ReplayIsTimeline(runs: Runs, order: seq<string>, ms: seq<Message>)
    ensures Parts(Build(runs, order, ms).events) == Expected(ms)
  {
    var b := TakeAll(runs, ms);
    TakeAllParts(runs, ms);
    CloseParts(runs, b, b.current);
    CloseRestParts(runs, if b.current != "" then Close(runs, b, b.current) else b, order);
  }

  // ---------- interleaved siblings ----------

  function Say(run: string, no: int): Message {
    Message(run, no, Assistant, Some("text"), [], ["text"])
  }

  /** A parent delegates to two children that answer in turn: the first child is ended when the second speaks, and
      goes on after its own end. */
  lemma SiblingsInterleaved(order: seq<string>)
    requires forall x :: x in order <==> x in {"p", "a", "b"}
    ensures
      var runs := map["p" := Run("", Finished), "a" := Run("p", Finished), "b" := Run("p", Finished)];
      var ms := [Say("p", 1), Say("a", 1), Say("b", 1), Say("a", 2)];
      Terminals(Build(runs, order, ms).events, "a") == 1 && Late(Build(runs, order, ms).events, "a")
  {
    var runs := map["p" := Run("", Finished), "a" := Run("p", Finished), "b" := Run("p", Finished)];
    var ms := [Say("p", 1), Say("a", 1), Say("b", 1), Say("a", 2)];
    EveryRunEndsOnce(runs, order, ms, "a");
    assert ms[1].run == "a";
    assert ms[..2][1].run == "a";
    assert "b" != "a" && "p" != "a" by {
      assert "b"[0] != "a"[0] && "p"[0] != "a"[0];
    }
    assert ExitAt(runs, ms, 2, "a");
    assert ms[3].run == "a" && ms[3].parts != [];
    assert AppearsAfter(ms, 2, "a");
  }

  // ---------- the builder as the program runs it ----------

  class HistoryEventBuilder {
    const runById: Runs
    const runs: seq<string>
    const messages: seq<Message>
    var no: int
    var events: seq<Event>
    var currentRunId: string
    var runHasMessages: set<string>
    var closedRunTerminal: set<string>
    var contextMessages: seq<Message>

    ghost function View(): Builder
      reads this
    {
      Builder(no, events, currentRunId, runHasMessages, closedRunTerminal)
    }

    constructor (runById: Runs, runs: seq<string>, messages: seq<Message>)
      ensures this.runById == runById && this.runs == runs && this.messages == messages
      ensures View() == Fresh && contextMessages == []
    {
      this.runById, this.runs, this.messages := runById, runs, messages;
      no, events, currentRunId := 0, [], "";
      runHasMessages, closedRunTerminal, contextMessages := {}, {}, [];
    }

    method AppendEvent(body: Body, run: string)
      modifies this`no, this`events
      ensures View() == Append(old(View()), body, run)
    {
      no := no + 1;
      events := events + [Event(body, no, run)];
    }

    method AppendRunTerminal(run: string)
      modifies this`no, this`events, this`closedRunTerminal
      ensures View() == Close(runById, old(View()), run)
    {
      if run in closedRunTerminal || run !in runById {
        return;
      }
      closedRunTerminal := closedRunTerminal + {run};
      match runById[run].state {
        case Finished => AppendEvent(DoneEvent, run);
        case Cancelled => AppendEvent(CancelledEvent, run);
        case Failed => AppendEvent(ErrorEvent, run);
        case Expired => AppendEvent(ErrorEvent, run);
        case _ =>
      }
    }

    method AppendMessageEvents(m: Message)
      modifies this`no, this`events
      ensures View() == AppendParts(old(View()), m.run, m.parts)
    {
      var i := 0;
      while i < |m.parts|
        invariant 0 <= i <= |m.parts|
        invariant AppendParts(View(), m.run, m.parts[i..]) == AppendParts(old(View()), m.run, m.parts)
      {
        assert m.parts[i..][1..] == m.parts[i + 1..];
        AppendEvent(Part(m.parts[i]), m.run);
        i := i + 1;
      }
    }

    method DropCovered(refs: seq<Ref>)
      modifies this`contextMessages
      ensures contextMessages == Drop(old(contextMessages), refs)
    {
      var covered: Marks := map[];
      var k := 0;
      while k < |refs|
        invariant 0 <= k <= |refs| && Segments(covered) && contextMessages == old(contextMessages)
        invariant forall r, x :: Marked(covered, r, x) <==> Reaches(refs, k, r, x)
      {
        if refs[k].run != "" && refs[k].no > 0 {
          covered := MarkThrough(covered, refs[k].run, refs[k].no);
        }
        k := k + 1;
      }
      var kept := [];
      var i := 0;
      while i < |contextMessages|
        invariant 0 <= i <= |contextMessages| && contextMessages == old(contextMessages)
        invariant kept == Drop(contextMessages[..i], refs)
      {
        var m := contextMessages[i];
        assert contextMessages[..i + 1][..i] == contextMessages[..i];
        assert Marked(covered, m.run, m.no) <==> Reaches(refs, |refs|, m.run, m.no);
        if !(m.run in covered && m.no in covered[m.run]) {
          kept := kept + [m];
        }
        i := i + 1;
      }
      assert contextMessages[..i] == contextMessages;
      contextMessages := kept;
    }

    method TrackContextUsage(m: Message)
      modifies this`contextMessages
      ensures contextMessages == Track(runById, old(contextMessages), m)
    {
      if m.run in runById && runById[m.run].parent != "" {
        return;
      }
      if Chat(m).None? || Blank(m.run) {
        return;
      }
      match m.kind {
        case Partial => return;
        case Summary =>
          DropCovered(m.coveredThrough);
          contextMessages := contextMessages + [m];
        case _ => contextMessages := contextMessages + [m];
      }
    }

    method BuildEvents()
      requires View() == Fresh && contextMessages == []
      modifies this
      ensures View() == Build(runById, runs, messages)
      ensures contextMessages == Incremental(runById, messages)
    {
      var i := 0;
      while i < |messages|
        invariant 0 <= i <= |messages|
        invariant View() == TakeAll(runById, messages[..i]) && contextMessages == Incremental(runById, messages[..i])
      {
        var m := messages[i];
        assert messages[..i + 1][..i] == messages[..i];
        if m.run != "" {
          runHasMessages := runHasMessages + {m.run};
        }
        if currentRunId != "" && m.run != "" && m.run != currentRunId {
          if !(m.run in runById && runById[m.run].parent == currentRunId) {
            AppendRunTerminal(currentRunId);
          }
        }
        if m.run != "" {
          currentRunId := m.run;
        }
        TrackContextUsage(m);
        AppendMessageEvents(m);
        i := i + 1;
      }
      assert messages[..i] == messages;
      if currentRunId != "" {
        AppendRunTerminal(currentRunId);
      }
      i := 0;
      while i < |runs|
        invariant 0 <= i <= |runs| && contextMessages == Incremental(runById, messages)
        invariant CloseRest(runById, View(), runs[i..]) == Build(runById, runs, messages)
      {
        assert runs[i..][1..] == runs[i + 1..];
        if runs[i] in runHasMessages && runs[i] !in closedRunTerminal {
          AppendRunTerminal(runs[i]);
        }
        i := i + 1;
      }
    }
  }
}
