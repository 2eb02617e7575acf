/** Where the messages of `service/react/client_hub.go` go, over whole runs of the hub: none is made up, one that was
    delivered or buffered stays where a waiter can have it, and a waiter that comes for it gets it. */
module HubFlow {
  import opened Common
  import opened H = ClientHub

  // ---------- routing ----------

  /** What a read does with a message, by its kind and by who waits: a cancel goes to all, a message that somebody
      wants to one who wants it, an answer that nobody waits for to the buffer, and anything else to the only
      waiter if there is just one. */
  lemma Routing(wants: Match, s: State, msg: Msg, ws: seq<WaiterId>, d: Decision)
    requires Enabled(wants, s, ReadStep(msg, ws, d))
    ensures
      var waiters := s.hub.waiters;
      var wanted := exists w :: w in waiters && wants(w, msg);
      && (msg.kind == Cancel && waiters != {} ==>
            d.Deliver? && (forall w :: w in d.to <==> w in waiters) && |d.to| == |waiters|)
      && (msg.kind != Cancel && wanted ==> d.Deliver? && |d.to| == 1 && d.to[0] in waiters && wants(d.to[0], msg))
      && (msg.kind != Cancel && !wanted && (msg.kind == ToolUseAnswer || msg.kind == ClientToolUseEnd) ==> d == Buffer)
      && (msg.kind == Other && !wanted && |waiters| == 1 ==> d.Deliver? && |d.to| == 1 && d.to[0] in waiters)
      && (msg.kind == Other && !wanted && |waiters| != 1 ==> d == Drop)
      && (msg.kind == Cancel && waiters == {} ==> d == Drop)
  {
    EnumeratesCard(ws, s.hub.waiters);
    if w :| w in s.hub.waiters && wants(w, msg) {
      assert w in ws;
      var i :| 0 <= i < |ws| && ws[i] == w;
    }
    assert forall i :: 0 <= i < |ws| ==> ws[i] in s.hub.waiters;
  }

  lemma {:induction false} EnumeratesCard(ws: seq<WaiterId>, s: set<WaiterId>)
    requires Enumerates(ws, s)
    ensures |ws| == |s|
  {
    if ws == [] {
      assert s == {};
    } else {
      var n := |ws| - 1;
      var w := ws[n];
      assert ws == ws[..n] + [w];
      assert Enumerates(ws[..n], s - {w});
      EnumeratesCard(ws[..n], s - {w});
      assert s == (s - {w}) + {w};
    }
  }

  // ---------- a buffered message stays ----------

  /** How many messages were put into the buffer in the steps from `m` up to `n`. */
  function BufferedIn(steps: seq<Step>, m: nat, n: nat): nat
    requires m <= n <= |steps|
    decreases n
  {
    if n == m then 0 else BufferedIn(steps, m, n - 1) + if steps[n - 1].BufferStep? then 1 else 0
  }

  ghost predicate ReturnedBySome(s: State, msg: Msg) {
    exists w :: w in s.returned && s.returned[w] == Message(msg)
  }

  /** The message is among the last `c` of the buffer. */
  ghost predicate AmongLast(s: State, msg: Msg, c: nat) {
    exists i :: 0 <= i < |s.hub.pending| && s.hub.pending[i] == msg && |s.hub.pending| - i <= c
  }

  lemma ClaimKeeps(wants: Match, s: State, w: WaiterId, msg: Msg, c: nat)
    requires Inv(wants, s) && Enabled(wants, s, EnterStep(w)) && AmongLast(s, msg, c)
    ensures
      var s' := Apply(wants, s, EnterStep(w));
      ReturnedBySome(s', msg) || AmongLast(s', msg, c)
  {
    var s' := Apply(wants, s, EnterStep(w));
    var i :| 0 <= i < |s.hub.pending| && s.hub.pending[i] == msg && |s.hub.pending| - i <= c;
    var j := FirstMatch(wants, w, s.hub.pending);
    if s.hub.deadErr.None? && j < |s.hub.pending| {
      if j == i {
        assert s'.returned[w] == Message(msg);
      } else {
        assert s'.hub.pending[if i < j then i else i - 1] == msg;
      }
    } else {
      assert s'.hub.pending[i] == msg;
    }
  }

  lemma BufferKeeps(wants: Match, s: State, msg: Msg, c: nat)
    requires Inv(wants, s) && Enabled(wants, s, BufferStep) && AmongLast(s, msg, c) && c < 16
    ensures AmongLast(Apply(wants, s, BufferStep), msg, c + 1)
  {
    var s' := Apply(wants, s, BufferStep);
    var i :| 0 <= i < |s.hub.pending| && s.hub.pending[i] == msg && |s.hub.pending| - i <= c;
    assert s'.hub.pending[i - (if |s.hub.pending| >= 16 then 1 else 0)] == msg;
  }

  lemma ReturnedStays(wants: Match, s: State, step: Step, msg: Msg)
    requires Enabled(wants, s, step) && ReturnedBySome(s, msg)
    ensures ReturnedBySome(Apply(wants, s, step), msg)
  {
    var w :| w in s.returned && s.returned[w] == Message(msg);
    var s' := Apply(wants, s, step);
    assert w in s'.returned && s'.returned[w] == Message(msg);
  }

  lemma KeptStep(wants: Match, s: State, step: Step, msg: Msg, c: nat)
    requires Inv(wants, s) && Enabled(wants, s, step) && Apply(wants, s, step).hub.deadErr.None?
    requires ReturnedBySome(s, msg) || AmongLast(s, msg, c)
    requires step.BufferStep? ==> c < 16
    ensures
      var s' := Apply(wants, s, step);
      ReturnedBySome(s', msg) || AmongLast(s', msg, if step.BufferStep? then c + 1 else c)
  {
    if ReturnedBySome(s, msg) {
      ReturnedStays(wants, s, step, msg);
    } else if step.EnterStep? {
      ClaimKeeps(wants, s, step.w, msg, c);
    } else if step.BufferStep? {
      BufferKeeps(wants, s, msg, c);
    } else {
      assert Apply(wants, s, step).hub.pending == s.hub.pending;
    }
  }

  /** Where a message is after `c` were put into the buffer since it was read, itself included: in the hand of the
      pump, then among the last `c` of the buffer or returned. */
  ghost predicate Kept(s: State, msg: Msg, c: nat) {
    if c == 0 then s.pump.Buffering? && s.pump.msg == msg else ReturnedBySome(s, msg) || AmongLast(s, msg, c)
  }

  lemma KeptNext(wants: Match, s: State, step: Step, msg: Msg, c: nat)
    requires Inv(wants, s) && Enabled(wants, s, step) && Apply(wants, s, step).hub.deadErr.None?
    requires Kept(s, msg, c) && (step.BufferStep? ==> c < 16)
    ensures Kept(Apply(wants, s, step), msg, if step.BufferStep? then c + 1 else c)
  {
    if c > 0 {
      KeptStep(wants, s, step, msg, c);
    } else if step.BufferStep? {
      var s' := Apply(wants, s, step);
      assert s'.hub.pending[|s'.hub.pending| - 1] == msg;
    }
  }

  lemma AliveBefore(wants: Match, s: State, step: Step)
    requires Inv(wants, s) && Enabled(wants, s, step) && Apply(wants, s, step).hub.deadErr.None?
    ensures s.hub.deadErr.None?
  {
  }

  lemma ReadKeeps(wants: Match, s: State, step: Step)
    requires Enabled(wants, s, step) && step.ReadStep? && step.d.Buffer?
    ensures Kept(Apply(wants, s, step), step.msg, 0)
  {
  }

  /** A step that keeps a message, as long as the hub lives and there is room for it. */
  ghost predicate KeepsIt(s: State, step: Step, s': State, msg: Msg) {
    s'.hub.deadErr.None? ==>
      && s.hub.deadErr.None?
      && forall c: nat :: Kept(s, msg, c) && (step.BufferStep? ==> c < 16) ==> Kept(s', msg, if step.BufferStep? then c + 1 else c)
  }

  lemma StepKeepsIt(wants: Match, states: seq<State>, steps: seq<Step>, k: nat, msg: Msg)
    requires IsRun(wants, states, steps) && states[0] == Init && k < |steps|
    ensures KeepsIt(states[k], steps[k], states[k + 1], msg)
  {
    HubSafety(wants, states, steps);
    var s, step := states[k], steps[k];
    if states[k + 1].hub.deadErr.None? {
      AliveBefore(wants, s, step);
      forall c: nat | Kept(s, msg, c) && (step.BufferStep? ==> c < 16)
        ensures Kept(states[k + 1], msg, if step.BufferStep? then c + 1 else c)
      {
        KeptNext(wants, s, step, msg, c);
      }
    }
  }

  lemma {:induction false} KeptChain(states: seq<State>, steps: seq<Step>, r: nat, n: nat, msg: Msg)
    requires |states| == |steps| + 1 && r < n < |states| && Kept(states[r + 1], msg, 0) && !steps[r].BufferStep?
    requires forall k :: r < k < n ==> KeepsIt(states[k], steps[k], states[k + 1], msg)
    requires states[n].hub.deadErr.None? && BufferedIn(steps, r, n) <= 16
    ensures Kept(states[n], msg, BufferedIn(steps, r, n))
    decreases n
  {
    var k := n - 1;
    if k > r {
      assert KeepsIt(states[k], steps[k], states[k + 1], msg);
      KeptChain(states, steps, r, k, msg);
    }
  }

  /** In every run, a message that was read for the buffer is in the hand of the pump, then in the buffer or returned
      by a waiter, in every later state in which the hub lives and fewer than 16 messages were buffered after it. */
  lemma BufferedStays(wants: Match, states: seq<State>, steps: seq<Step>, r: nat, n: nat)
    requires IsRun(wants, states, steps) && states[0] == Init && r < n < |states|
    requires steps[r].ReadStep? && steps[r].d == Buffer
    requires states[n].hub.deadErr == None && BufferedIn(steps, r, n) <= 16
    ensures Kept(states[n], steps[r].msg, BufferedIn(steps, r, n))
  {
    forall k | r < k < n
      ensures KeepsIt(states[k], steps[k], states[k + 1], steps[r].msg)
    {
      StepKeepsIt(wants, states, steps, k, steps[r].msg);
    }
    ReadKeeps(wants, states[r], steps[r]);
    KeptChain(states, steps, r, n, steps[r].msg);
  }

  /** So a waiter that comes for a buffered message while it is there gets a message it wants, and none that came
      later than that one. */
  lemma ComerGetsBuffered(wants: Match, states: seq<State>, steps: seq<Step>, r: nat, n: nat)
    requires IsRun(wants, states, steps) && states[0] == Init && r < n < |steps|
    requires steps[r].ReadStep? && steps[r].d == Buffer && 1 <= BufferedIn(steps, r, n) <= 16
    requires states[n].hub.deadErr == None && !ReturnedBySome(states[n], steps[r].msg)
    requires steps[n].EnterStep? && wants(steps[n].w, steps[r].msg)
    ensures
      var w, s' := steps[n].w, states[n + 1];
      w in s'.returned && s'.returned[w].Message? && wants(w, s'.returned[w].msg) && s'.returned[w].msg.no <= steps[r].msg.no
  {
    HubSafety(wants, states, steps);
    BufferedStays(wants, states, steps, r, n);
    var pending := states[n].hub.pending;
    var i :| 0 <= i < |pending| && pending[i] == steps[r].msg;
    var j := FirstMatch(wants, steps[n].w, pending);
    assert j <= i;
  }

  // ---------- a delivered message arrives ----------

  /** The message is on its way to `w`, in its channel, or returned. */
  predicate OnItsWay(s: State, w: WaiterId, msg: Msg) {
    || (s.pump.Sending? && s.pump.event == Message(msg) && w in s.pump.to)
    || (w in s.chan && s.chan[w] == Message(msg))
    || (w in s.returned && s.returned[w] == Message(msg))
  }

  lemma DeliveryStep(wants: Match, s: State, step: Step, w: WaiterId, msg: Msg)
    requires Inv(wants, s) && Enabled(wants, s, step) && OnItsWay(s, w, msg)
    ensures OnItsWay(Apply(wants, s, step), w, msg)
  {
    var s' := Apply(wants, s, step);
    if step.SendStep? && w in s.pump.to && w != s.pump.to[0] {
      assert w in s.pump.to[1..];
    }
  }

  /** A message that was delivered to a waiter is never lost: it is being sent, or in the waiter's channel, or what
      the waiter returned. */
  lemma {:induction false} DeliveredArrives(wants: Match, states: seq<State>, steps: seq<Step>, r: nat, n: nat, w: WaiterId)
    requires IsRun(wants, states, steps) && states[0] == Init && r < n < |states|
    requires steps[r].ReadStep? && steps[r].d.Deliver? && w in steps[r].d.to
    ensures OnItsWay(states[n], w, steps[r].msg)
    decreases n
  {
    HubSafety(wants, states, steps);
    if n - 1 > r {
      DeliveredArrives(wants, states, steps, r, n - 1, w);
      DeliveryStep(wants, states[n - 1], steps[n - 1], w, steps[r].msg);
    }
  }

  // ---------- nothing is made up ----------

  /** The messages that were read for the buffer in the first `n` steps, and those that were delivered, with their
      receivers. */
  ghost function BufferReads(steps: seq<Step>, n: nat): set<Msg>
    requires n <= |steps|
  {
    set k | 0 <= k < n && steps[k].ReadStep? && steps[k].d == Buffer :: steps[k].msg
  }

  ghost function Deliveries(steps: seq<Step>, n: nat): set<(WaiterId, Msg)>
    requires n <= |steps|
  {
    set k, w | 0 <= k < n && steps[k].ReadStep? && steps[k].d.Deliver? && w in steps[k].d.to :: (w, steps[k].msg)
  }

  /** Where every message that can be found came from. */
  ghost predicate Founded(wants: Match, s: State, buffered: set<Msg>, delivered: set<(WaiterId, Msg)>) {
    && (s.pump.Buffering? ==> s.pump.msg in buffered)
    && (forall i :: 0 <= i < |s.hub.pending| ==> s.hub.pending[i] in buffered)
    && (s.pump.Sending? && s.pump.event.Message? ==> forall w :: w in s.pump.to ==> (w, s.pump.event.msg) in delivered)
    && (forall w :: w in s.chan && s.chan[w].Message? ==> (w, s.chan[w].msg) in delivered)
    && (forall w :: w in s.returned && s.returned[w].Message? ==>
          || (w, s.returned[w].msg) in delivered
          || (s.returned[w].msg in buffered && wants(w, s.returned[w].msg)))
  }

  lemma FoundedMore(wants: Match, s: State, b: set<Msg>, d: set<(WaiterId, Msg)>, b': set<Msg>, d': set<(WaiterId, Msg)>)
    requires Founded(wants, s, b, d) && b <= b' && d <= d'
    ensures Founded(wants, s, b', d')
  {
  }

  lemma StepFounded(wants: Match, s: State, step: Step, b: set<Msg>, d: set<(WaiterId, Msg)>)
    requires Enabled(wants, s, step) && Founded(wants, s, b, d)
    requires step.ReadStep? && step.d.Buffer? ==> step.msg in b
    requires step.ReadStep? && step.d.Deliver? ==> forall w :: w in step.d.to ==> (w, step.msg) in d
    ensures Founded(wants, Apply(wants, s, step), b, d)
  {
    var s' := Apply(wants, s, step);
    if step.EnterStep? {
      var j := FirstMatch(wants, step.w, s.hub.pending);
      assert forall i :: 0 <= i < |s'.hub.pending| ==> s'.hub.pending[i] in s.hub.pending;
    }
  }

  /** In every run what is pending was read for the buffer, and a waiter returns only a message that was delivered to
      it or one it wants from the buffer. */
  lemma {:induction false} NothingMadeUp(wants: Match, states: seq<State>, steps: seq<Step>, n: nat)
    requires IsRun(wants, states, steps) && states[0] == Init && n < |states|
    ensures Founded(wants, states[n], BufferReads(steps, n), Deliveries(steps, n))
  {
    if n > 0 {
      var k := n - 1;
      NothingMadeUp(wants, states, steps, k);
      ReadsGrow(steps, k);
      FoundedMore(wants, states[k], BufferReads(steps, k), Deliveries(steps, k), BufferReads(steps, n), Deliveries(steps, n));
      StepFounded(wants, states[k], steps[k], BufferReads(steps, n), Deliveries(steps, n));
    }
  }

  lemma ReadsGrow(steps: seq<Step>, k: nat)
    requires k < |steps|
    ensures BufferReads(steps, k) <= BufferReads(steps, k + 1) && Deliveries(steps, k) <= Deliveries(steps, k + 1)
    ensures steps[k].ReadStep? && steps[k].d.Buffer? ==> steps[k].msg in BufferReads(steps, k + 1)
    ensures steps[k].ReadStep? && steps[k].d.Deliver? ==>
              forall w :: w in steps[k].d.to ==> (w, steps[k].msg) in Deliveries(steps, k + 1)
  {
  }
}
