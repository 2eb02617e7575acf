/** The upstream message hub of `service/react/client_hub.go`.

    `HubView` is what the mutex guards; `ClientHub` is the object whose critical sections change it.
    `State` adds what runs outside the mutex: the pump goroutine, the one-slot channels of the waiters
    and the calls of `wait` that have returned.  A step of the machine is one critical section, one
    channel send or one channel receive; steps of different goroutines interleave freely. */
module ClientHub {
  import opened Common

  type WaiterId = nat

  datatype Kind = ToolUseAnswer | ClientToolUseEnd | Cancel | Other

  /** `no` is the position of the message in the client's stream; the hub never looks at it. */
  datatype Msg = Msg(no: nat, kind: Kind, payload: string)

  datatype Event = Message(msg: Msg) | Failure(err: string)

  /** The match function a waiter registers with. */
  type Match = (WaiterId, Msg) -> bool

  const PENDING_CAP := 16

  predicate IsAddressable(msg: Msg) {
    msg.kind.ToolUseAnswer? || msg.kind.ClientToolUseEnd?
  }

  // ---------- the guarded fields ----------

  datatype HubView = HubView(pending: seq<Msg>, waiters: set<WaiterId>, started: bool, deadErr: Option<string>)

  datatype Entered = Dead(err: string) | Claimed(msg: Msg) | Registered(startPump: bool)

  function FirstMatch(wants: Match, w: WaiterId, ms: seq<Msg>): (i: nat)
    ensures i <= |ms|
    ensures i < |ms| ==> wants(w, ms[i])
    ensures forall j :: 0 <= j < i ==> !wants(w, ms[j])
  {
    if |ms| == 0 || wants(w, ms[0]) then 0 else
      var r := FirstMatch(wants, w, ms[1..]);
      assert forall j :: 0 < j < r + 1 ==> ms[j] == ms[1..][j - 1];
      r + 1
  }

  function Enter(wants: Match, h: HubView, w: WaiterId): (HubView, Entered) {
    if h.deadErr.Some? then (h, Dead(h.deadErr.value))
    else
      var i := FirstMatch(wants, w, h.pending);
      if i < |h.pending| then
        (h.(pending := h.pending[..i] + h.pending[i + 1..]), Claimed(h.pending[i]))
      else (h.(waiters := h.waiters + {w}, started := true), Registered(!h.started))
  }

  function Buffered(h: HubView, msg: Msg): HubView {
    h.(pending := (if |h.pending| >= PENDING_CAP then h.pending[1..] else h.pending) + [msg])
  }

  function Killed(h: HubView, err: string): HubView {
    h.(pending := [], deadErr := Some(err))
  }

  ghost predicate Enumerates(ws: seq<WaiterId>, s: set<WaiterId>) {
    && (forall i, j :: 0 <= i < j < |ws| ==> ws[i] != ws[j])
    && (forall w :: w in ws <==> w in s)
  }

  /** Where `dispatch` takes a message, given its snapshot of the waiters. */
  datatype Decision = Drop | Buffer | Deliver(to: seq<WaiterId>)

  ghost predicate Decided(wants: Match, msg: Msg, ws: seq<WaiterId>, d: Decision) {
    if msg.kind.Cancel? && |ws| > 0 then d == Deliver(ws)
    else if exists i :: 0 <= i < |ws| && wants(ws[i], msg) then
      exists i :: 0 <= i < |ws| && wants(ws[i], msg) && d == Deliver([ws[i]])
    else if IsAddressable(msg) then d == Buffer
    else if |ws| == 1 then d == Deliver(ws)
    else d == Drop
  }

  class ClientHub {
    var pending: seq<Msg>
    var waiters: set<WaiterId>
    var started: bool
    var deadErr: Option<string>
    const wants: Match

    ghost function View(): HubView
      reads this
    {
      HubView(pending, waiters, started, deadErr)
    }

    constructor (wants: Match)
      ensures View() == HubView([], {}, false, None) && this.wants == wants
    {
      this.wants := wants;
      pending, waiters, started, deadErr := [], {}, false, None;
    }

    /** The critical section of `wait`: fail at once, claim a buffered message, or register. */
    method EnterWait(w: WaiterId) returns (r: Entered)
      modifies this
      ensures (View(), r) == Enter(wants, old(View()), w)
    {
      if deadErr.Some? {
        return Dead(deadErr.value);
      }
      var i := 0;
      while i < |pending|
        invariant 0 <= i <= |pending|
        invariant View() == old(View())
        invariant forall j :: 0 <= j < i ==> !wants(w, pending[j])
      {
        if wants(w, pending[i]) {
          r := Claimed(pending[i]);
          pending := pending[..i] + pending[i + 1..];
          return;
        }
        i := i + 1;
      }
      waiters := waiters + {w};
      r := Registered(!started);
      started := true;
    }

    /** The first critical section of `dispatch`; a Go map is walked in no particular order. */
    method Snapshot() returns (ws: seq<WaiterId>)
      ensures Enumerates(ws, waiters)
    {
      ws := [];
      var rest := waiters;
      while rest != {}
        invariant rest <= waiters && Enumerates(ws, waiters - rest)
        decreases rest
      {
        var w :| w in rest;
        ws, rest := ws + [w], rest - {w};
      }
    }

    /** The second critical section of `dispatch`. */
    method BufferPending(msg: Msg)
      modifies this
      ensures View() == Buffered(old(View()), msg)
    {
      if |pending| >= PENDING_CAP {
        pending := pending[1..];
      }
      pending := pending + [msg];
    }

    /** The critical section of `broadcastError`. */
    method Kill(err: string) returns (ws: seq<WaiterId>)
      modifies this
      ensures View() == Killed(old(View()), err) && Enumerates(ws, waiters)
    {
      ws := Snapshot();
      pending := [];
      deadErr := Some(err);
    }

    /** What `dispatch` does between its critical sections. */
    method Decide(msg: Msg, ws: seq<WaiterId>) returns (d: Decision)
      ensures Decided(wants, msg, ws, d)
    {
      if |ws| == 0 {
        return if IsAddressable(msg) then Buffer else Drop;
      }
      if msg.kind.Cancel? {
        return Deliver(ws);
      }
      for i := 0 to |ws|
        invariant forall j :: 0 <= j < i ==> !wants(ws[j], msg)
      {
        if wants(ws[i], msg) {
          return Deliver([ws[i]]);
        }
      }
      if IsAddressable(msg) {
        return Buffer;
      }
      if |ws| == 1 {
        return Deliver(ws);
      }
      return Drop;
    }
  }

  // ---------- the protocol ----------

  datatype Pump =
    | NotStarted
    | Reading
    | Sending(event: Event, to: seq<WaiterId>, last: bool)
    | Buffering(msg: Msg, snapshot: set<WaiterId>)
    | Exited

  /** `chan` holds the waiters whose one-slot channel is full, `returned` the calls of `wait` that are over. */
  datatype State = State(hub: HubView, pump: Pump, chan: map<WaiterId, Event>, returned: map<WaiterId, Event>, read: nat)

  datatype Step =
    | EnterStep(w: WaiterId)
    | ReadStep(msg: Msg, ws: seq<WaiterId>, d: Decision)
    | FailStep(err: string, ws: seq<WaiterId>)
    | BufferStep
    | SendStep
    | ReceiveStep(w: WaiterId)

  const Init := State(HubView([], {}, false, None), NotStarted, map[], map[], 0)

  ghost predicate Enabled(wants: Match, s: State, step: Step) {
    match step
    case EnterStep(w) => w !in s.hub.waiters && w !in s.returned
    case ReadStep(msg, ws, d) =>
      s.pump.Reading? && msg.no == s.read && Enumerates(ws, s.hub.waiters) && Decided(wants, msg, ws, d)
    case FailStep(err, ws) => s.pump.Reading? && Enumerates(ws, s.hub.waiters)
    case BufferStep => s.pump.Buffering?
    case SendStep => s.pump.Sending? && s.pump.to != [] && s.pump.to[0] !in s.chan
    case ReceiveStep(w) => w in s.hub.waiters && w in s.chan && w !in s.returned
  }

  /** The pump after some of its sends: back to reading, or gone after the error broadcast. */
  function Continue(event: Event, to: seq<WaiterId>, last: bool): Pump {
    if to != [] then Sending(event, to, last) else if last then Exited else Reading
  }

  function Apply(wants: Match, s: State, step: Step): State
    requires Enabled(wants, s, step)
  {
    match step
    case EnterStep(w) =>
      var (h, r) := Enter(wants, s.hub, w);
      var s1 := s.(hub := h);
      (match r
       case Dead(err) => s1.(returned := s.returned[w := Failure(err)])
       case Claimed(msg) => s1.(returned := s.returned[w := Message(msg)])
       case Registered(start) => if start then s1.(pump := Reading) else s1)
    case ReadStep(msg, ws, d) =>
      var s1 := s.(read := s.read + 1);
      (match d
       case Drop => s1
       case Buffer => s1.(pump := Buffering(msg, s.hub.waiters))
       case Deliver(to) => s1.(pump := Continue(Message(msg), to, false)))
    case FailStep(err, ws) => s.(hub := Killed(s.hub, err), pump := Continue(Failure(err), ws, true))
    case BufferStep => s.(hub := Buffered(s.hub, s.pump.msg), pump := Reading)
    case SendStep =>
      s.(chan := s.chan[s.pump.to[0] := s.pump.event],
         pump := Continue(s.pump.event, s.pump.to[1..], s.pump.last))
    case ReceiveStep(w) => s.(chan := s.chan - {w}, returned := s.returned[w := s.chan[w]])
  }

  ghost predicate IsRun(wants: Match, states: seq<State>, steps: seq<Step>) {
    && |states| == |steps| + 1
    && forall i :: 0 <= i < |steps| ==>
         Enabled(wants, states[i], steps[i]) && states[i + 1] == Apply(wants, states[i], steps[i])
  }

  // ---------- safety ----------

  datatype Place = InPending(i: nat) | InHand(j: nat) | InChan(w: WaiterId) | Returned(v: WaiterId)

  /** Where a message can be found. */
  ghost predicate At(s: State, p: Place, msg: Msg) {
    match p
    case InPending(i) => i < |s.hub.pending| && s.hub.pending[i] == msg
    case InHand(j) =>
      || (s.pump.Buffering? && j == 0 && s.pump.msg == msg)
      || (s.pump.Sending? && j < |s.pump.to| && s.pump.event == Message(msg))
    case InChan(w) => w in s.chan && s.chan[w] == Message(msg)
    case Returned(w) => w in s.returned && s.returned[w] == Message(msg)
  }

  ghost predicate InOnePlace(s: State) {
    forall p, q, m, n :: At(s, p, m) && At(s, q, n) && m.no == n.no && !m.kind.Cancel? ==> p == q && m == n
  }

  ghost predicate PendingOk(s: State) {
    && |s.hub.pending| <= PENDING_CAP
    && (forall i :: 0 <= i < |s.hub.pending| ==> IsAddressable(s.hub.pending[i]))
    && (forall i, j :: 0 <= i < j < |s.hub.pending| ==> s.hub.pending[i].no < s.hub.pending[j].no)
  }

  ghost predicate PumpOk(wants: Match, s: State) {
    && (s.pump.NotStarted? <==> !s.hub.started)
    && (s.pump.NotStarted? ==> s.hub.waiters == {} && s.hub.pending == [] && s.hub.deadErr.None?)
    && (s.hub.deadErr.Some? ==> s.hub.pending == [] && (s.pump.Exited? || (s.pump.Sending? && s.pump.last)))
    && (s.pump.Exited? || (s.pump.Sending? && s.pump.last) ==> s.hub.deadErr.Some?)
    && (s.pump.Sending? ==>
          && s.pump.to != []
          && (forall i, j :: 0 <= i < j < |s.pump.to| ==> s.pump.to[i] != s.pump.to[j])
          && (forall w :: w in s.pump.to ==> w in s.hub.waiters)
          && (s.pump.last <==> s.pump.event.Failure?)
          && (s.pump.event.Message? && !s.pump.event.msg.kind.Cancel? ==> |s.pump.to| == 1)
          && (s.pump.last ==> s.hub.deadErr == Some(s.pump.event.err)))
    && (s.pump.Buffering? ==>
          && IsAddressable(s.pump.msg) && s.pump.msg.no < s.read
          && s.pump.snapshot <= s.hub.waiters
          && (forall i :: 0 <= i < |s.hub.pending| ==> s.hub.pending[i].no < s.pump.msg.no)
          && (forall w :: w in s.pump.snapshot ==> !wants(w, s.pump.msg)))
  }

  ghost predicate Inv(wants: Match, s: State) {
    && PendingOk(s)
    && PumpOk(wants, s)
    && s.chan.Keys <= s.hub.waiters
    && (forall p, m :: At(s, p, m) ==> m.no < s.read)
    && InOnePlace(s)
  }

  /** If every place of `s'` is filled from its own place of `s`, messages stay in one place. */
  lemma OnePlaceKept(s: State, s': State, from: Place -> Place, back: Place -> Place)
    requires InOnePlace(s)
    requires forall p, m :: At(s', p, m) ==> At(s, from(p), m) && back(from(p)) == p
    ensures InOnePlace(s')
  {
    forall p, q, m, n | At(s', p, m) && At(s', q, n) && m.no == n.no && !m.kind.Cancel?
      ensures p == q && m == n
    {
      assert At(s, from(p), m) && At(s, from(q), n);
    }
  }

  function Claim(s: State, w: WaiterId, i: nat): State
    requires i < |s.hub.pending|
  {
    s.(hub := s.hub.(pending := s.hub.pending[..i] + s.hub.pending[i + 1..]),
       returned := s.returned[w := Message(s.hub.pending[i])])
  }

  lemma ClaimKeepsOnePlace(s: State, w: WaiterId, i: nat)
    requires InOnePlace(s) && i < |s.hub.pending| && w !in s.returned
    ensures InOnePlace(Claim(s, w, i))
  {
    OnePlaceKept(s, Claim(s, w, i),
      (p: Place) => if p.InPending? && p.i >= i then InPending(p.i + 1) else if p == Returned(w) then InPending(i) else p,
      (p: Place) => if p.InPending? then (if p.i == i then Returned(w) else if p.i > i then InPending(p.i - 1) else p) else p);
  }

  lemma ClaimKeepsOrder(wants: Match, s: State, w: WaiterId, i: nat)
    requires Inv(wants, s) && i < |s.hub.pending| && w !in s.returned
    ensures PendingOk(Claim(s, w, i))
    ensures forall k :: 0 <= k < |Claim(s, w, i).hub.pending| ==> Claim(s, w, i).hub.pending[k] in s.hub.pending
    ensures forall p, m :: At(Claim(s, w, i), p, m) ==> m.no < s.read
  {
    var s' := Claim(s, w, i);
    assert forall k :: 0 <= k < |s'.hub.pending| ==> s'.hub.pending[k] == s.hub.pending[if k < i then k else k + 1];
    forall p, m | At(s', p, m)
      ensures m.no < s.read
    {
      assert At(s, InPending(i), s.hub.pending[i]);
      assert p.InPending? ==> At(s, InPending(if p.i < i then p.i else p.i + 1), m);
      assert p != Returned(w) && !p.InPending? ==> At(s, p, m);
    }
  }

  lemma EnterKeepsInv(wants: Match, s: State, w: WaiterId)
    requires Inv(wants, s) && Enabled(wants, s, EnterStep(w))
    ensures Inv(wants, Apply(wants, s, EnterStep(w)))
  {
    var i := FirstMatch(wants, w, s.hub.pending);
    if s.hub.deadErr.None? && i < |s.hub.pending| {
      ClaimKeepsOnePlace(s, w, i);
      ClaimKeepsOrder(wants, s, w, i);
      assert Apply(wants, s, EnterStep(w)) == Claim(s, w, i);
    } else {
      OnePlaceKept(s, Apply(wants, s, EnterStep(w)), (p: Place) => p, (p: Place) => p);
    }
  }

  lemma ReadKeepsInv(wants: Match, s: State, msg: Msg, ws: seq<WaiterId>, d: Decision)
    requires Inv(wants, s) && Enabled(wants, s, ReadStep(msg, ws, d))
    ensures Inv(wants, Apply(wants, s, ReadStep(msg, ws, d)))
  {
    var s' := Apply(wants, s, ReadStep(msg, ws, d));
    assert forall i :: 0 <= i < |s.hub.pending| ==> At(s, InPending(i), s.hub.pending[i]);
    forall p, m | At(s', p, m)
      ensures if p.InHand? then m == msg && (!m.kind.Cancel? ==> p.j == 0) else At(s, p, m)
    {
    }
  }

  lemma BufferKeepsOnePlace(s: State)
    requires InOnePlace(s) && s.pump.Buffering?
    ensures InOnePlace(s.(hub := Buffered(s.hub, s.pump.msg), pump := Reading))
  {
    var s' := s.(hub := Buffered(s.hub, s.pump.msg), pump := Reading);
    var n := |s'.hub.pending| - 1;
    var cut := if |s.hub.pending| >= PENDING_CAP then 1 else 0;
    assert forall k :: 0 <= k < n ==> s'.hub.pending[k] == s.hub.pending[k + cut];
    OnePlaceKept(s, s',
      (p: Place) => if p.InPending? then (if p.i == n then InHand(0) else InPending(p.i + cut)) else p,
      (p: Place) => if p == InHand(0) then InPending(n) else if p.InPending? && p.i >= cut then InPending(p.i - cut) else p);
  }

  lemma BufferKeepsInv(wants: Match, s: State)
    requires Inv(wants, s) && Enabled(wants, s, BufferStep)
    ensures Inv(wants, Apply(wants, s, BufferStep))
  {
    var s' := Apply(wants, s, BufferStep);
    BufferKeepsOnePlace(s);
    forall p, m | At(s', p, m)
      ensures m.no < s.read
    {
      if p.InPending? {
        assert m == s.pump.msg || m in s.hub.pending;
        if m in s.hub.pending {
          var k :| 0 <= k < |s.hub.pending| && s.hub.pending[k] == m;
          assert At(s, InPending(k), m);
        }
      } else {
        assert At(s, p, m);
      }
    }
  }

  lemma SendKeepsInv(wants: Match, s: State)
    requires Inv(wants, s) && Enabled(wants, s, SendStep)
    ensures Inv(wants, Apply(wants, s, SendStep))
  {
    var s' := Apply(wants, s, SendStep);
    var w := s.pump.to[0];
    OnePlaceKept(s, s',
      (p: Place) => if p == InChan(w) then InHand(0) else if p.InHand? then InHand(p.j + 1) else p,
      (p: Place) => if p.InHand? then (if p.j == 0 then InChan(w) else InHand(p.j - 1)) else p);
  }

  lemma ReceiveKeepsInv(wants: Match, s: State, w: WaiterId)
    requires Inv(wants, s) && Enabled(wants, s, ReceiveStep(w))
    ensures Inv(wants, Apply(wants, s, ReceiveStep(w)))
  {
    OnePlaceKept(s, Apply(wants, s, ReceiveStep(w)),
      (p: Place) => if p == Returned(w) then InChan(w) else p,
      (p: Place) => if p == InChan(w) then Returned(w) else p);
  }

  lemma FailKeepsInv(wants: Match, s: State, err: string, ws: seq<WaiterId>)
    requires Inv(wants, s) && Enabled(wants, s, FailStep(err, ws))
    ensures Inv(wants, Apply(wants, s, FailStep(err, ws)))
  {
    OnePlaceKept(s, Apply(wants, s, FailStep(err, ws)), (p: Place) => p, (p: Place) => p);
  }

  lemma StepKeepsInv(wants: Match, s: State, step: Step)
    requires Inv(wants, s) && Enabled(wants, s, step)
    ensures Inv(wants, Apply(wants, s, step))
  {
    match step
    case EnterStep(w) => EnterKeepsInv(wants, s, w);
    case ReadStep(msg, ws, d) => ReadKeepsInv(wants, s, msg, ws, d);
    case FailStep(err, ws) => FailKeepsInv(wants, s, err, ws);
    case BufferStep => BufferKeepsInv(wants, s);
    case SendStep => SendKeepsInv(wants, s);
    case ReceiveStep(w) => ReceiveKeepsInv(wants, s, w);
  }

  /** Over every run: the buffer is bounded, holds addressable messages in arrival order, is empty once
      the connection is dead, and no message other than a cancel is in two places. */
  lemma {:induction false} HubSafety(wants: Match, states: seq<State>, steps: seq<Step>)
    requires IsRun(wants, states, steps) && states[0] == Init
    ensures forall i :: 0 <= i < |states| ==> Inv(wants, states[i])
    decreases |steps|
  {
    if |steps| > 0 {
      var n := |steps| - 1;
      HubSafety(wants, states[..n + 1], steps[..n]);
      StepKeepsInv(wants, states[n], steps[n]);
    }
  }

  /** A dead hub stays dead with an empty buffer, and every `wait` entered from then on returns its error. */
  lemma {:induction false} DeadForGood(wants: Match, states: seq<State>, steps: seq<Step>, i: nat, j: nat)
    requires IsRun(wants, states, steps) && states[0] == Init && i <= j < |states|
    requires states[i].hub.deadErr.Some?
    ensures states[j].hub.deadErr == states[i].hub.deadErr && states[j].hub.pending == []
    ensures j < |steps| && steps[j].EnterStep? ==>
              steps[j].w in states[j + 1].returned
              && states[j + 1].returned[steps[j].w] == Failure(states[i].hub.deadErr.value)
    decreases j - i
  {
    HubSafety(wants, states, steps);
    if i < j {
      DeadForGood(wants, states, steps, i, j - 1);
    }
  }

  // ---------- lost wake-ups ----------

  ghost predicate Blocked(s: State, w: WaiterId) {
    w in s.hub.waiters && w !in s.chan && w !in s.returned
  }

  ghost predicate NoLostWakeup(wants: Match, s: State) {
    forall w, i :: Blocked(s, w) && 0 <= i < |s.hub.pending| ==> !wants(w, s.hub.pending[i])
  }

  /** A waiter that wants the message about to be buffered has registered since the pump's snapshot. */
  ghost predicate WindowHit(wants: Match, s: State) {
    s.pump.Buffering? && exists w :: Blocked(s, w) && wants(w, s.pump.msg)
  }

  lemma OtherStepsKeepWakeups(wants: Match, s: State, step: Step)
    requires Inv(wants, s) && Enabled(wants, s, step) && NoLostWakeup(wants, s) && !step.BufferStep?
    ensures NoLostWakeup(wants, Apply(wants, s, step))
  {
    var s' := Apply(wants, s, step);
    forall w, i | Blocked(s', w) && 0 <= i < |s'.hub.pending|
      ensures !wants(w, s'.hub.pending[i])
    {
      if step.EnterStep? {
        var j := FirstMatch(wants, step.w, s.hub.pending);
        if s.hub.deadErr.None? && j < |s.hub.pending| {
          assert s'.hub.pending[i] == s.hub.pending[if i < j then i else i + 1] && Blocked(s, w);
        } else {
          assert w == step.w || Blocked(s, w);
        }
      } else {
        assert s'.hub.pending == s.hub.pending && Blocked(s, w);
      }
    }
  }

  lemma BufferingWakeups(wants: Match, s: State)
    requires Inv(wants, s) && s.pump.Buffering? && NoLostWakeup(wants, s)
    ensures NoLostWakeup(wants, Apply(wants, s, BufferStep)) <==> !WindowHit(wants, s)
  {
    var s' := Apply(wants, s, BufferStep);
    var n := |s'.hub.pending| - 1;
    var cut := if |s.hub.pending| >= PENDING_CAP then 1 else 0;
    assert s'.hub.pending[n] == s.pump.msg;
    if WindowHit(wants, s) {
      var w :| Blocked(s, w) && wants(w, s.pump.msg);
      assert Blocked(s', w) && wants(w, s'.hub.pending[n]);
    } else {
      forall w, i | Blocked(s', w) && 0 <= i < |s'.hub.pending|
        ensures !wants(w, s'.hub.pending[i])
      {
        assert Blocked(s, w) && (i < n ==> s'.hub.pending[i] == s.hub.pending[i + cut]);
      }
    }
  }

  /** The one step that can lose a wake-up is a buffering step, and it does so exactly when a matching
      waiter registered between `dispatch`'s two critical sections. */
  lemma WakeupStep(wants: Match, s: State, step: Step)
    requires Inv(wants, s) && Enabled(wants, s, step) && NoLostWakeup(wants, s)
    ensures NoLostWakeup(wants, Apply(wants, s, step)) <==> !(step.BufferStep? && WindowHit(wants, s))
    ensures step.BufferStep? ==> forall w :: Blocked(s, w) && wants(w, s.pump.msg) ==> w !in s.pump.snapshot
  {
    if step.BufferStep? {
      BufferingWakeups(wants, s);
    } else {
      OtherStepsKeepWakeups(wants, s, step);
    }
  }

  ghost predicate BuffersClean(wants: Match, states: seq<State>, steps: seq<Step>)
    requires |states| == |steps| + 1
  {
    forall i :: 0 <= i < |steps| && steps[i].BufferStep? ==> !WindowHit(wants, states[i])
  }

  lemma CleanExact(wants: Match, states: seq<State>, steps: seq<Step>)
    requires IsRun(wants, states, steps) && states[0] == Init
    ensures (forall i :: 0 <= i < |states| ==> NoLostWakeup(wants, states[i])) <==> BuffersClean(wants, states, steps)
  {
    HubSafety(wants, states, steps);
    if forall i :: 0 <= i < |states| ==> NoLostWakeup(wants, states[i]) {
      forall i | 0 <= i < |steps| && steps[i].BufferStep?
        ensures !WindowHit(wants, states[i])
      {
        WakeupStep(wants, states[i], steps[i]);
        assert NoLostWakeup(wants, states[i + 1]);
      }
    }
    if BuffersClean(wants, states, steps) {
      forall i | 0 <= i < |states|
        ensures NoLostWakeup(wants, states[i])
      {
        CleanRun(wants, states, steps, i);
      }
    }
  }

  lemma {:induction false} CleanRun(wants: Match, states: seq<State>, steps: seq<Step>, i: nat)
    requires IsRun(wants, states, steps) && states[0] == Init && i < |states|
    requires BuffersClean(wants, states, steps)
    ensures NoLostWakeup(wants, states[i])
  {
    if i > 0 {
      HubSafety(wants, states, steps);
      CleanRun(wants, states, steps, i - 1);
      WakeupStep(wants, states[i - 1], steps[i - 1]);
    }
  }

  /** Between the read of a message that goes to the buffer and its buffering, a waiter that wants it enters
      and registers. */
  ghost predicate EntersWindow(wants: Match, states: seq<State>, steps: seq<Step>, r: nat, k: nat, j: nat)
    requires |states| == |steps| + 1
  {
    && r < k < j < |steps|
    && steps[r].ReadStep? && steps[r].d.Buffer? && steps[j].BufferStep?
    && (forall x :: r < x < j ==> !steps[x].BufferStep?)
    && steps[k].EnterStep? && steps[k].w in states[k + 1].hub.waiters && wants(steps[k].w, steps[r].msg)
  }

  lemma {:induction false} ReadOf(wants: Match, states: seq<State>, steps: seq<Step>, j: nat) returns (r: nat)
    requires IsRun(wants, states, steps) && states[0] == Init && j < |states| && states[j].pump.Buffering?
    ensures r < j && steps[r].ReadStep? && steps[r].d.Buffer? && steps[r].msg == states[j].pump.msg
    ensures states[j].pump.snapshot == states[r].hub.waiters
    ensures forall x :: r < x < j ==> !steps[x].BufferStep?
  {
    if states[j - 1].pump.Buffering? {
      r := ReadOf(wants, states, steps, j - 1);
    } else {
      r := j - 1;
    }
  }

  lemma {:induction false} StaysBuffering(wants: Match, states: seq<State>, steps: seq<Step>, r: nat, j: nat)
    requires IsRun(wants, states, steps) && states[0] == Init && r < j < |states|
    requires steps[r].ReadStep? && steps[r].d.Buffer? && forall x :: r < x < j ==> !steps[x].BufferStep?
    ensures states[j].pump.Buffering? && states[j].pump.msg == steps[r].msg
  {
    HubSafety(wants, states, steps);
    if j > r + 1 {
      StaysBuffering(wants, states, steps, r, j - 1);
    }
  }

  lemma OnlyEnterRegisters(wants: Match, s: State, step: Step, w: WaiterId)
    requires Enabled(wants, s, step) && w !in s.hub.waiters && w in Apply(wants, s, step).hub.waiters
    ensures step == EnterStep(w)
  {
  }

  lemma {:induction false} RegisteredBetween(states: seq<State>, r: nat, j: nat, w: WaiterId) returns (k: nat)
    requires r < j < |states| && w !in states[r].hub.waiters && w in states[j].hub.waiters
    ensures r <= k < j && w !in states[k].hub.waiters && w in states[k + 1].hub.waiters
  {
    if w in states[j - 1].hub.waiters {
      k := RegisteredBetween(states, r, j - 1, w);
    } else {
      k := j - 1;
    }
  }

  lemma BlockedUntilSent(wants: Match, s: State, step: Step, w: WaiterId)
    requires Inv(wants, s) && Enabled(wants, s, step) && !step.SendStep?
    requires Blocked(s, w) || (step == EnterStep(w) && w in Apply(wants, s, step).hub.waiters)
    ensures Blocked(Apply(wants, s, step), w)
  {
  }

  lemma {:induction false} StaysBlocked(wants: Match, states: seq<State>, steps: seq<Step>, k: nat, j: nat)
    requires IsRun(wants, states, steps) && states[0] == Init && k < j < |states|
    requires steps[k].EnterStep? && steps[k].w in states[k + 1].hub.waiters
    requires forall x :: k < x < j ==> states[x].pump.Buffering?
    ensures Blocked(states[j], steps[k].w)
  {
    HubSafety(wants, states, steps);
    if j > k + 1 {
      StaysBlocked(wants, states, steps, k, j - 1);
    }
    BlockedUntilSent(wants, states[j - 1], steps[j - 1], steps[k].w);
  }

  lemma HitIsEntered(wants: Match, states: seq<State>, steps: seq<Step>, j: nat)
    requires IsRun(wants, states, steps) && states[0] == Init && j < |steps| && steps[j].BufferStep?
    requires WindowHit(wants, states[j])
    ensures exists r, k :: EntersWindow(wants, states, steps, r, k, j)
  {
    HubSafety(wants, states, steps);
    var w :| Blocked(states[j], w) && wants(w, states[j].pump.msg);
    var r := ReadOf(wants, states, steps, j);
    var k := RegisteredBetween(states, r, j, w);
    OnlyEnterRegisters(wants, states[k], steps[k], w);
    assert EntersWindow(wants, states, steps, r, k, j);
  }

  lemma EnteredIsHit(wants: Match, states: seq<State>, steps: seq<Step>, r: nat, k: nat, j: nat)
    requires IsRun(wants, states, steps) && states[0] == Init && EntersWindow(wants, states, steps, r, k, j)
    ensures WindowHit(wants, states[j])
  {
    forall x | k < x <= j
      ensures states[x].pump.Buffering?
    {
      StaysBuffering(wants, states, steps, r, x);
    }
    StaysBuffering(wants, states, steps, r, j);
    StaysBlocked(wants, states, steps, k, j);
  }

  /** A run loses no wake-up, in any of its states, exactly when no waiter that wants a message enters and
      registers between the read of that message and its buffering. */
  lemma WakeupExact(wants: Match, states: seq<State>, steps: seq<Step>)
    requires IsRun(wants, states, steps) && states[0] == Init
    ensures (forall i :: 0 <= i < |states| ==> NoLostWakeup(wants, states[i])) <==>
            !exists r, k, j :: EntersWindow(wants, states, steps, r, k, j)
  {
    CleanExact(wants, states, steps);
    if r, k, j :| EntersWindow(wants, states, steps, r, k, j) {
      EnteredIsHit(wants, states, steps, r, k, j);
    }
    if !BuffersClean(wants, states, steps) {
      var j :| 0 <= j < |steps| && steps[j].BufferStep? && WindowHit(wants, states[j]);
      HitIsEntered(wants, states, steps, j);
    }
  }

  /** Every message that is to be buffered is buffered before anything else happens. */
  ghost predicate SnapshotAndBufferAtomic(steps: seq<Step>) {
    forall i :: 0 <= i < |steps| - 1 && steps[i].ReadStep? && steps[i].d.Buffer? ==> steps[i + 1].BufferStep?
  }

  lemma {:induction false} BufferFollowsRead(wants: Match, states: seq<State>, steps: seq<Step>, j: nat)
    requires IsRun(wants, states, steps) && states[0] == Init && SnapshotAndBufferAtomic(steps)
    requires j < |states| && states[j].pump.Buffering?
    ensures states[j].pump.snapshot == states[j].hub.waiters
    ensures j > 0 && steps[j - 1].ReadStep? && steps[j - 1].d.Buffer?
  {
    if states[j - 1].pump.Buffering? {
      BufferFollowsRead(wants, states, steps, j - 1);
    }
  }

  /** With the two critical sections joined into one step, no wake-up is ever lost. */
  lemma AtomicHubLosesNothing(wants: Match, states: seq<State>, steps: seq<Step>)
    requires IsRun(wants, states, steps) && states[0] == Init && SnapshotAndBufferAtomic(steps)
    ensures forall i :: 0 <= i < |states| ==> NoLostWakeup(wants, states[i])
  {
    HubSafety(wants, states, steps);
    forall i | 0 <= i < |steps| && steps[i].BufferStep?
      ensures !WindowHit(wants, states[i])
    {
      BufferFollowsRead(wants, states, steps, i);
    }
    CleanExact(wants, states, steps);
  }

  /** The interleaving that loses a wake-up: waiter 0 runs the pump, an answer for waiter 1 is read while
      only 0 is registered, 1 registers, and then the answer is buffered. */
  lemma LostWakeupTrace(wants: Match, answer: Msg) returns (states: seq<State>, steps: seq<Step>)
    requires answer.no == 0 && IsAddressable(answer) && wants(1, answer) && !wants(0, answer)
    ensures IsRun(wants, states, steps) && states[0] == Init && |states| == 5
    ensures Blocked(states[4], 1) && states[4].hub.pending == [answer] && states[4].pump.Reading?
  {
    steps := [EnterStep(0), ReadStep(answer, [0], Buffer), EnterStep(1), BufferStep];
    var s1 := Apply(wants, Init, steps[0]);
    var s2 := Apply(wants, s1, steps[1]);
    var s3 := Apply(wants, s2, steps[2]);
    states := [Init, s1, s2, s3, Apply(wants, s3, steps[3])];
  }

  /** Such a waiter sleeps on for as long as the client sends nothing more. */
  lemma {:induction false} LostWaiterSleeps(wants: Match, states: seq<State>, steps: seq<Step>, w: WaiterId, i: nat)
    requires IsRun(wants, states, steps) && i < |states|
    requires Blocked(states[0], w) && states[0].pump.Reading?
    requires forall j :: 0 <= j < |steps| ==> !steps[j].ReadStep? && !steps[j].FailStep?
    ensures Blocked(states[i], w) && states[i].pump.Reading?
  {
    if i > 0 {
      LostWaiterSleeps(wants, states, steps, w, i - 1);
    }
  }

  // ---------- the pump and the channels ----------

  /** The pump wants to send to a waiter that has already returned and whose channel is full. */
  ghost predicate Stuck(s: State) {
    s.pump.Sending? && s.pump.to != [] && s.pump.to[0] in s.chan && s.pump.to[0] in s.returned
  }

  /** A stuck pump never moves again, so no event reaches anyone from then on. */
  lemma {:induction false} StuckForever(wants: Match, states: seq<State>, steps: seq<Step>, i: nat)
    requires IsRun(wants, states, steps) && i < |states| && Inv(wants, states[0]) && Stuck(states[0])
    ensures Inv(wants, states[i]) && Stuck(states[i]) && states[i].pump == states[0].pump
    ensures forall w :: Blocked(states[0], w) ==> Blocked(states[i], w)
  {
    if i > 0 {
      StuckForever(wants, states, steps, i - 1);
      StepKeepsInv(wants, states[i - 1], steps[i - 1]);
    }
  }

  /** A pump that is not stuck can send after at most one receive. */
  lemma SendsUnlessStuck(wants: Match, s: State)
    requires Inv(wants, s) && s.pump.Sending?
    ensures !Stuck(s) <==>
      || Enabled(wants, s, SendStep)
      || (Enabled(wants, s, ReceiveStep(s.pump.to[0]))
          && Enabled(wants, Apply(wants, s, ReceiveStep(s.pump.to[0])), SendStep))
  {
  }

  /** Two events were sent to this waiter, and it took only the first. */
  ghost predicate Clogged(s: State, w: WaiterId) {
    w in s.chan && w in s.returned
  }

  /** The events sent so far in an error broadcast that started in `s0`. */
  ghost predicate Broadcasting(s0: State, s: State, err: string) {
    && s.hub.deadErr == Some(err)
    && s0.hub.waiters == s.hub.waiters
    && (s.pump.Exited? || (s.pump.Sending? && s.pump.last && s.pump.event == Failure(err)))
    && (forall w :: w in s0.hub.waiters && w !in s0.chan && w !in s0.returned ==>
          || (s.pump.Sending? && w in s.pump.to && w !in s.chan && w !in s.returned)
          || (w in s.chan && s.chan[w] == Failure(err) && w !in s.returned)
          || (w in s.returned && s.returned[w] == Failure(err)))
  }

  /** No waiter still to be served by the broadcast is clogged. */
  ghost predicate Clear(s: State) {
    s.pump.Sending? ==> forall w :: w in s.pump.to ==> !Clogged(s, w)
  }

  /** The step in which the connection dies starts such a broadcast, and it is clear exactly when no
      registered waiter has returned with a full channel. */
  lemma BroadcastStarts(wants: Match, s: State, err: string, ws: seq<WaiterId>)
    requires Inv(wants, s) && Enabled(wants, s, FailStep(err, ws))
    ensures
      var s' := Apply(wants, s, FailStep(err, ws));
      && Inv(wants, s') && Broadcasting(s', s', err)
      && (Clear(s') <==> forall w :: w in s.hub.waiters ==> !Clogged(s, w))
      && (forall w :: Blocked(s, w) ==> Blocked(s', w))
  {
    FailKeepsInv(wants, s, err, ws);
    assert ws == [] ==> forall w :: w in s.hub.waiters ==> w in ws;
  }

  lemma BroadcastStep(wants: Match, s0: State, s: State, err: string, step: Step)
    requires Inv(wants, s) && Enabled(wants, s, step) && Broadcasting(s0, s, err)
    ensures Broadcasting(s0, Apply(wants, s, step), err)
    ensures Clear(s) ==> Clear(Apply(wants, s, step))
  {
    var s' := Apply(wants, s, step);
    assert forall w :: s.pump.Sending? && w in s.pump.to ==> w == s.pump.to[0] || w in s.pump.to[1..];
    if s'.pump.Sending? {
      forall w | w in s'.pump.to
        ensures Clogged(s', w) ==> Clogged(s, w)
      {
        assert w in s.pump.to && (step.SendStep? ==> w != s.pump.to[0]);
      }
    }
    forall w | w in s0.hub.waiters && w !in s0.chan && w !in s0.returned
      ensures
        || (s'.pump.Sending? && w in s'.pump.to && w !in s'.chan && w !in s'.returned)
        || (w in s'.chan && s'.chan[w] == Failure(err) && w !in s'.returned)
        || (w in s'.returned && s'.returned[w] == Failure(err))
    {
    }
  }

  lemma {:induction false} BroadcastRun(wants: Match, states: seq<State>, steps: seq<Step>, err: string, i: nat)
    requires IsRun(wants, states, steps) && i < |states|
    requires Inv(wants, states[0]) && Broadcasting(states[0], states[0], err)
    ensures Inv(wants, states[i]) && Broadcasting(states[0], states[i], err)
    ensures Clear(states[0]) ==> Clear(states[i])
  {
    if i > 0 {
      BroadcastRun(wants, states, steps, err, i - 1);
      StepKeepsInv(wants, states[i - 1], steps[i - 1]);
      BroadcastStep(wants, states[0], states[i - 1], err, steps[i - 1]);
    }
  }

  /** Neither the pump nor any waiter can move. */
  ghost predicate Quiet(wants: Match, s: State) {
    !Enabled(wants, s, SendStep) && forall w :: !Enabled(wants, s, ReceiveStep(w))
  }

  lemma QuietPumpIsStuck(wants: Match, s: State)
    requires Inv(wants, s) && Quiet(wants, s) && s.pump.Sending?
    ensures s.pump.to[0] in s.pump.to && Clogged(s, s.pump.to[0])
  {
    assert !Enabled(wants, s, ReceiveStep(s.pump.to[0]));
  }

  lemma ClearBroadcastEnds(wants: Match, states: seq<State>, steps: seq<Step>, err: string)
    requires IsRun(wants, states, steps) && Inv(wants, states[0])
    requires Broadcasting(states[0], states[0], err) && Clear(states[0])
    requires Quiet(wants, states[|steps|])
    ensures states[|steps|].pump.Exited?
    ensures forall w :: Blocked(states[0], w) ==>
              w in states[|steps|].returned && states[|steps|].returned[w] == Failure(err)
  {
    var n := |steps|;
    BroadcastRun(wants, states, steps, err, n);
    if states[n].pump.Sending? {
      QuietPumpIsStuck(wants, states[n]);
    }
    forall w | Blocked(states[0], w)
      ensures w in states[n].returned && states[n].returned[w] == Failure(err)
    {
      assert !Enabled(wants, states[n], ReceiveStep(w));
    }
  }

  /** And one clogged waiter among those to be served is enough for the broadcast never to finish. */
  lemma {:induction false} ClogBlocksBroadcast(wants: Match, states: seq<State>, steps: seq<Step>, w: WaiterId, i: nat)
    requires IsRun(wants, states, steps) && i < |states| && Inv(wants, states[0])
    requires states[0].pump.Sending? && w in states[0].pump.to && Clogged(states[0], w)
    ensures Inv(wants, states[i]) && states[i].pump.Sending? && w in states[i].pump.to && Clogged(states[i], w)
  {
    if i > 0 {
      ClogBlocksBroadcast(wants, states, steps, w, i - 1);
      StepKeepsInv(wants, states[i - 1], steps[i - 1]);
      var s := states[i - 1];
      assert w == s.pump.to[0] || w in s.pump.to[1..];
    }
  }

  function SendsTo(s: State, step: Step, w: WaiterId): nat {
    if step.SendStep? && s.pump.Sending? && s.pump.to != [] && s.pump.to[0] == w then 1 else 0
  }

  /** How often the pump has sent to `w` in the first `n` steps. */
  ghost function Sent(states: seq<State>, steps: seq<Step>, w: WaiterId, n: nat): nat
    requires |states| == |steps| + 1 && n <= |steps|
  {
    if n == 0 then 0 else Sent(states, steps, w, n - 1) + SendsTo(states[n - 1], steps[n - 1], w)
  }

  /** The events that were sent to a registered waiter: taken or still in its channel. */
  function Held(s: State, w: WaiterId): nat {
    if w !in s.hub.waiters then 0 else (if w in s.chan then 1 else 0) + (if w in s.returned then 1 else 0)
  }

  lemma StepSends(wants: Match, s: State, step: Step, w: WaiterId)
    requires Inv(wants, s) && Enabled(wants, s, step)
    ensures Held(Apply(wants, s, step), w) == Held(s, w) + SendsTo(s, step, w)
  {
    if step.SendStep? {
      assert s.pump.to[0] in s.pump.to;
    }
  }

  /** The first event sent to a waiter is the one it takes, the second stays in its channel, and there is
      no third. */
  lemma {:induction false} SentCounts(wants: Match, states: seq<State>, steps: seq<Step>, w: WaiterId, n: nat)
    requires IsRun(wants, states, steps) && states[0] == Init && n <= |steps|
    ensures Sent(states, steps, w, n) == Held(states[n], w)
  {
    if n > 0 {
      HubSafety(wants, states, steps);
      SentCounts(wants, states, steps, w, n - 1);
      StepSends(wants, states[n - 1], steps[n - 1], w);
    }
  }

  lemma RestIsRun(wants: Match, states: seq<State>, steps: seq<Step>, m: nat)
    requires IsRun(wants, states, steps) && m <= |steps|
    ensures IsRun(wants, states[m..], steps[m..])
  {
    forall i | 0 <= i < |steps[m..]|
      ensures Enabled(wants, states[m..][i], steps[m..][i])
      ensures states[m..][i + 1] == Apply(wants, states[m..][i], steps[m..][i])
    {
      assert states[m..][i] == states[m + i] && states[m..][i + 1] == states[m + i + 1] && steps[m..][i] == steps[m + i];
    }
  }

  /** In a run from the start in which the connection dies in step `m` and in the end neither the pump nor any
      waiter can move: the pump is gone if and only if no registered waiter had been sent two events before,
      and if so every waiter that was blocked has returned the error. */
  lemma EveryWaiterGetsTheError(wants: Match, states: seq<State>, steps: seq<Step>, m: nat)
    requires IsRun(wants, states, steps) && states[0] == Init && m < |steps| && steps[m].FailStep?
    requires Quiet(wants, states[|steps|])
    ensures states[|steps|].pump.Exited? <==>
            forall w :: w in states[m].hub.waiters ==> Sent(states, steps, w, m) <= 1
    ensures states[|steps|].pump.Exited? ==> forall w :: Blocked(states[m], w) ==>
              w in states[|steps|].returned && states[|steps|].returned[w] == Failure(steps[m].err)
  {
    HubSafety(wants, states, steps);
    forall w
      ensures Clogged(states[m], w) <==> w in states[m].hub.waiters && Sent(states, steps, w, m) > 1
    {
      SentCounts(wants, states, steps, w, m);
    }
    BroadcastStarts(wants, states[m], steps[m].err, steps[m].ws);
    RestIsRun(wants, states, steps, m + 1);
    var rest, more := states[m + 1..], steps[m + 1..];
    assert rest[|more|] == states[|steps|];
    if Clear(states[m + 1]) {
      ClearBroadcastEnds(wants, rest, more, steps[m].err);
    } else {
      var w :| w in states[m + 1].pump.to && Clogged(states[m + 1], w);
      ClogBlocksBroadcast(wants, rest, more, w, |more|);
    }
  }

  /** Pump and receive steps run out: each uses up part of this amount, and `wait` adds nothing to it. */
  ghost function Work(s: State): nat {
    2 * (if s.pump.Sending? then |s.pump.to| else 0) + |s.chan.Keys|
  }

  lemma BroadcastWorkShrinks(wants: Match, s: State, step: Step)
    requires Enabled(wants, s, step) && s.hub.deadErr.Some? && !s.pump.Reading? && !s.pump.Buffering?
    ensures step.EnterStep? ==> Work(Apply(wants, s, step)) == Work(s)
    ensures !step.EnterStep? ==> Work(Apply(wants, s, step)) < Work(s)
  {
    if step.SendStep? {
      SendWork(wants, s);
    } else if step.ReceiveStep? {
      ReceiveWork(wants, s, step.w);
    }
  }

  lemma SendWork(wants: Match, s: State)
    requires Enabled(wants, s, SendStep)
    ensures Work(Apply(wants, s, SendStep)) < Work(s)
  {
    FillCount(s.chan, s.pump.to[0], s.pump.event);
  }

  lemma FillCount(chan: map<WaiterId, Event>, w: WaiterId, event: Event)
    requires w !in chan
    ensures |chan[w := event].Keys| == |chan.Keys| + 1
  {
    assert chan[w := event].Keys == chan.Keys + {w};
  }

  lemma ReceiveWork(wants: Match, s: State, w: WaiterId)
    requires Enabled(wants, s, ReceiveStep(w))
    ensures Work(Apply(wants, s, ReceiveStep(w))) < Work(s)
  {
    var c := s.chan - {w};
    assert c.Keys == s.chan.Keys - {w};
    assert |c.Keys| == |s.chan.Keys| - 1;
  }

  /** The steps that end with waiter 0 answered, returned, and clogged by a cancel. */
  function ClogSteps(answer: Msg, cancel: Msg): seq<Step> {
    [EnterStep(0), ReadStep(answer, [0], Deliver([0])), SendStep, ReceiveStep(0), ReadStep(cancel, [0], Deliver([0])), SendStep]
  }

  lemma ClogTrace(wants: Match, answer: Msg, cancel: Msg) returns (states: seq<State>)
    requires answer.no == 0 && IsAddressable(answer) && wants(0, answer)
    requires cancel.no == 1 && cancel.kind.Cancel?
    ensures IsRun(wants, states, ClogSteps(answer, cancel)) && states[0] == Init
    ensures states[6] == State(HubView([], {0}, true, None), Reading, map[0 := Message(cancel)], map[0 := Message(answer)], 2)
  {
    var steps := ClogSteps(answer, cancel);
    var h := HubView([], {0}, true, None);
    var s1 := State(h, Reading, map[], map[], 0);
    var s2 := State(h, Sending(Message(answer), [0], false), map[], map[], 1);
    var s3 := State(h, Reading, map[0 := Message(answer)], map[], 1);
    var s4 := State(h, Reading, map[], map[0 := Message(answer)], 1);
    var s5 := State(h, Sending(Message(cancel), [0], false), map[], map[0 := Message(answer)], 2);
    var s6 := State(h, Reading, map[0 := Message(cancel)], map[0 := Message(answer)], 2);
    states := [Init, s1, s2, s3, s4, s5, s6];
    var ws := [0];
    assert wants(ws[0], answer) && Decided(wants, answer, ws, Deliver([ws[0]]));
    assert Apply(wants, Init, steps[0]) == s1;
    assert Apply(wants, s1, steps[1]) == s2;
    assert Apply(wants, s2, steps[2]) == s3;
    assert Apply(wants, s3, steps[3]) == s4;
    assert Apply(wants, s4, steps[4]) == s5;
    assert Apply(wants, s5, steps[5]) == s6;
  }

  /** A run in which the comment on `clientMsgWaiter` ("a delivery always succeeds") is false: waiter 0
      is answered and returns but stays registered, a cancel fills its channel, waiter 1 registers, the
      connection dies, and the pump blocks on waiter 0 before it reaches waiter 1. */
  lemma ServedWaiterBlocksPump(wants: Match, answer: Msg, cancel: Msg, err: string)
    returns (states: seq<State>, steps: seq<Step>)
    requires answer.no == 0 && IsAddressable(answer) && wants(0, answer)
    requires cancel.no == 1 && cancel.kind.Cancel?
    ensures IsRun(wants, states, steps) && states[0] == Init
    ensures Stuck(states[|steps|]) && Blocked(states[|steps|], 1) && states[|steps|].hub.deadErr == Some(err)
  {
    var before := ClogTrace(wants, answer, cancel);
    var s6 := before[6];
    var s7 := s6.(hub := s6.hub.(waiters := {0, 1}));
    var s8 := s7.(hub := Killed(s7.hub, err), pump := Sending(Failure(err), [0, 1], true));
    assert Apply(wants, s6, EnterStep(1)) == s7;
    assert Apply(wants, s7, FailStep(err, [0, 1])) == s8;
    steps := ClogSteps(answer, cancel) + [EnterStep(1), FailStep(err, [0, 1])];
    states := before + [s7, s8];
  }
}
