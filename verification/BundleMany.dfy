/** Runs of the calls of `service/bundle/bundle.go` that name any number of bundles, each of which keeps to rows
    of its own.  Seen on its own rows, every call of a bundle is the same call on a registry that holds nothing
    else, and it leaves the rows of the others alone. */
module BundleMany {
  import opened Common
  import opened Bundle
  import opened BundleOrder
  import opened BundleRuns

  /** The bundle that a row belongs to. */
  type Home = Key -> string

  function Own(reg: Registry, home: Home, name: string): Registry {
    map k | k in reg && home(k) == name :: reg[k]
  }

  function OwnState(st: State, home: Home, name: string): State {
    st.(reg := Own(st.reg, home, name))
  }

  function View(s: Service, home: Home, name: string): Service {
    s.(st := OwnState(s.st, home, name))
  }

  ghost predicate AtHome(rules: Rules, home: Home, name: string, ds: seq<Draft>, who: Request) {
    forall i :: 0 <= i < |ds| && KeyOfDraft(rules, ds[i], who).Some? ==> home(KeyOfDraft(rules, ds[i], who).value) == name
  }

  /** A call installs only resources that belong to the bundle it names. */
  ghost predicate Homed(rules: Rules, home: Home, name: string, call: Call) {
    call.InstallCall? ==>
      AtHome(rules, home, name, Drafts(call.content), call.who.(callerKey := rules.trim(call.who.callerKey)))
  }

  // ---------- a call seen on the rows of its bundle ----------

  lemma ApplyAgentView(rules: Rules, home: Home, name: string, st: State, file: AgentFile, who: Request)
    requires KeyOfDraft(rules, ForAgent(file), who).Some? ==> home(KeyOfDraft(rules, ForAgent(file), who).value) == name
    ensures ApplyAgent(rules, OwnState(st, home, name), file, who) ==
            (OwnState(ApplyAgent(rules, st, file, who).0, home, name), ApplyAgent(rules, st, file, who).1)
  {
    var (st', e) := ApplyAgent(rules, st, file, who);
    assert ApplyAgent(rules, OwnState(st, home, name), file, who).0.reg == Own(st'.reg, home, name);
  }

  lemma ApplyServerView(home: Home, name: string, st: State, d: ServerDraft, who: Request)
    requires home(ServerAt(d.name)) == name
    ensures ApplyServer(OwnState(st, home, name), d, who) ==
            (OwnState(ApplyServer(st, d, who).0, home, name), ApplyServer(st, d, who).1)
  {
    var (st', e) := ApplyServer(st, d, who);
    assert ApplyServer(OwnState(st, home, name), d, who).0.reg == Own(st'.reg, home, name);
  }

  lemma ApplyView(rules: Rules, home: Home, name: string, st: State, d: Draft, who: Request)
    requires KeyOfDraft(rules, d, who).Some? ==> home(KeyOfDraft(rules, d, who).value) == name
    ensures ApplyDraft(rules, OwnState(st, home, name), d, who) ==
            (OwnState(ApplyDraft(rules, st, d, who).0, home, name), ApplyDraft(rules, st, d, who).1)
  {
    match d {
      case ForAgent(file) => ApplyAgentView(rules, home, name, st, file, who);
      case ForServer(server) => ApplyServerView(home, name, st, server, who);
      case Rejected =>
    }
  }

  lemma {:induction false} InstallView(rules: Rules, home: Home, name: string, p: Progress, ds: seq<Draft>, who: Request)
    requires AtHome(rules, home, name, ds, who)
    ensures
      var q := Install(rules, p, ds, who);
      Install(rules, p.(st := OwnState(p.st, home, name)), ds, who) == q.(st := OwnState(q.st, home, name))
    decreases |ds|
  {
    if p.ok && |ds| > 0 {
      ApplyView(rules, home, name, p.st, ds[0], who);
      InstallView(rules, home, name, Continue(rules, p, ds[0], who), ds[1..], who);
    }
  }

  lemma {:induction false} UndoView(home: Home, name: string, reg: Registry, log: Log, w: World)
    ensures Undo(Own(reg, home, name), log, w) == (Own(Undo(reg, log, w).0, home, name), Undo(reg, log, w).1)
    decreases |log|
  {
    if |log| > 0 {
      var n := |log| - 1;
      var reg' := UndoEntry(reg, log[n], w(n).now);
      assert UndoEntry(Own(reg, home, name), log[n], w(n).now) == Own(reg', home, name);
      UndoView(home, name, reg', log[..n], w);
    }
  }

  lemma UninstallView(home: Home, name: string, s: Service, w: World)
    requires name in s.bundles
    ensures UninstallById(View(s, home, name), name, w) ==
            (View(UninstallById(s, name, w).0, home, name), UninstallById(s, name, w).1)
  {
    UndoView(home, name, s.st.reg, LogOf(s, s.bundles[name].id), w);
  }

  lemma FillView(rules: Rules, home: Home, name: string, s: Service, c: Content, who: Request)
    requires name in s.bundles && AtHome(rules, home, name, Drafts(c), who)
    ensures Fill(rules, View(s, home, name), name, c, who) ==
            (View(Fill(rules, s, name, c, who).0, home, name), Fill(rules, s, name, c, who).1)
  {
    InstallView(rules, home, name, Progress(s.st, [], true), Drafts(c), who);
  }

  lemma ServeView(rules: Rules, home: Home, name: string, s: Service, call: Call)
    requires Homed(rules, home, name, call)
    ensures Serve(rules, View(s, home, name), name, call) ==
            (View(Serve(rules, s, name, call).0, home, name), Serve(rules, s, name, call).1)
  {
    match call {
      case UninstallCall(world) =>
        if Installed(s, name) {
          UninstallView(home, name, s, world);
        }
      case InstallCall(version, content, who0, before, cleanup) =>
        var who := who0.(callerKey := rules.trim(who0.callerKey));
        if Installed(s, name) {
          UninstallView(home, name, s, before);
        }
        var (s1, cleared) := if Installed(s, name) then UninstallById(s, name, before) else (s, true);
        if who.callerKey != "" && cleared {
          var slot := BundleSlot(s1, name, version);
          assert BundleSlot(View(s1, home, name), name, version) == View(slot, home, name);
          FillView(rules, home, name, slot, content, who);
          UninstallView(home, name, Fill(rules, slot, name, content, who).0, cleanup);
        }
    }
  }

  // ---------- what it leaves alone ----------

  /** The list names no row of another bundle, now or later. */
  ghost predicate Local(st: State, log: Log, home: Home, name: string) {
    && (forall i :: 0 <= i < |log| ==> log[i].id < st.next)
    && (forall k, i :: k in st.reg && home(k) != name && 0 <= i < |log| ==> log[i].id != st.reg[k].id)
  }

  /** Only rows of `name` changed, and no row took over an old id. */
  ghost predicate OthersSame(st: State, st': State, home: Home, name: string) {
    && st.next <= st'.next
    && (forall k :: home(k) != name ==> (k in st'.reg <==> k in st.reg) && (k in st.reg ==> st'.reg[k] == st.reg[k]))
    && (forall k :: k in st'.reg ==> st'.reg[k].id >= st.next || (k in st.reg && st'.reg[k].id == st.reg[k].id))
  }

  lemma OthersSameTransitive(st: State, st1: State, st2: State, home: Home, name: string)
    requires OthersSame(st, st1, home, name) && OthersSame(st1, st2, home, name)
    ensures OthersSame(st, st2, home, name)
  {
  }

  lemma AppliesStaysLocal(home: Home, name: string, st: State, st': State, log: Log, e: Entry, k: Key)
    requires WF(st) && Applies(st, st', e, k) && Local(st, log, home, name) && home(k) == name
    ensures Local(st', log + [e], home, name) && OthersSame(st, st', home, name)
  {
    forall k', i | k' in st'.reg && home(k') != name && 0 <= i < |log + [e]|
      ensures (log + [e])[i].id != st'.reg[k'].id
    {
      assert k' in st.reg && st'.reg[k'] == st.reg[k'];
    }
  }

  lemma ContinueStaysLocal(rules: Rules, home: Home, name: string, p: Progress, d: Draft, who: Request)
    requires WF(p.st) && Local(p.st, p.log, home, name)
    requires KeyOfDraft(rules, d, who).Some? ==> home(KeyOfDraft(rules, d, who).value) == name
    ensures
      var q := Continue(rules, p, d, who);
      WF(q.st) && Local(q.st, q.log, home, name) && OthersSame(p.st, q.st, home, name)
  {
    if p.ok && ApplyDraft(rules, p.st, d, who).1.Some? {
      var (st', e) := ApplyDraft(rules, p.st, d, who);
      var k := DraftApplies(rules, p.st, d, who);
      AppliesKeepsWF(p.st, st', e.value, k);
      AppliesStaysLocal(home, name, p.st, st', p.log, e.value, k);
    }
  }

  lemma {:induction false} InstallStaysLocal(rules: Rules, home: Home, name: string, p: Progress, ds: seq<Draft>, who: Request)
    requires WF(p.st) && Local(p.st, p.log, home, name) && AtHome(rules, home, name, ds, who)
    ensures
      var q := Install(rules, p, ds, who);
      WF(q.st) && Local(q.st, q.log, home, name) && OthersSame(p.st, q.st, home, name)
    decreases |ds|
  {
    if p.ok && |ds| > 0 {
      var q := Continue(rules, p, ds[0], who);
      ContinueStaysLocal(rules, home, name, p, ds[0], who);
      InstallStaysLocal(rules, home, name, q, ds[1..], who);
      OthersSameTransitive(p.st, q.st, Install(rules, p, ds, who).st, home, name);
    }
  }

  lemma {:induction false} UndoLeavesUntouched(reg: Registry, log: Log, w: World, k: Key)
    requires k in reg && !Touches(log, reg[k].id)
    ensures k in Undo(reg, log, w).0 && Undo(reg, log, w).0[k] == reg[k]
    decreases |log|
  {
    if |log| > 0 {
      var n := |log| - 1;
      assert forall i :: 0 <= i < n ==> log[..n][i] == log[i];
      UndoLeavesUntouched(UndoEntry(reg, log[n], w(n).now), log[..n], w, k);
    }
  }

  lemma {:induction false} UndoKeepsFramed(reg: Registry, full: Log, log: Log, w: World)
    requires Framed(reg, full) && Ticks(w) && log <= full
    ensures Framed(Undo(reg, log, w).0, full)
    decreases |log|
  {
    if |log| > 0 {
      var n := |log| - 1;
      assert log[n] == full[n];
      UndoEntryFrames(reg, full, log[n], w(n).now);
      UndoKeepsFramed(UndoEntry(reg, log[n], w(n).now), full, log[..n], w);
    }
  }

  lemma UndoStaysLocal(home: Home, name: string, st: State, log: Log, w: World)
    requires WF(st) && Local(st, log, home, name) && Framed(st.reg, log) && Ticks(w)
    ensures
      var st' := st.(reg := Undo(st.reg, log, w).0);
      WF(st') && Local(st', log, home, name) && Framed(st'.reg, log) && OthersSame(st, st', home, name)
  {
    UndoFrames(st, log, w);
    UndoKeepsFramed(st.reg, log, log, w);
    forall k | k in st.reg && home(k) != name
      ensures Undo(st.reg, log, w).0[k] == st.reg[k]
    {
      UndoLeavesUntouched(st.reg, log, w, k);
    }
  }

  ghost predicate DistinctBundles(s: Service) {
    forall m, n :: m in s.bundles && n in s.bundles && s.bundles[m].id == s.bundles[n].id ==> m == n
  }

  ghost predicate Tidy(s: Service, home: Home, name: string) {
    && WFService(s) && DistinctBundles(s)
    && (Installed(s, name) ==>
          var log := LogOf(s, s.bundles[name].id);
          Local(s.st, log, home, name) && Framed(s.st.reg, log))
  }

  /** Nothing of any other bundle changed. */
  ghost predicate Leaves(s: Service, s': Service, home: Home, name: string) {
    && OthersSame(s.st, s'.st, home, name)
    && (forall m :: m != name ==> (m in s'.bundles <==> m in s.bundles))
    && (forall m :: m != name && m in s.bundles ==>
          s'.bundles[m] == s.bundles[m] && LogOf(s', s.bundles[m].id) == LogOf(s, s.bundles[m].id))
  }

  lemma LeavesTransitive(s: Service, s1: Service, s2: Service, home: Home, name: string)
    requires Leaves(s, s1, home, name) && Leaves(s1, s2, home, name)
    ensures Leaves(s, s2, home, name)
  {
    OthersSameTransitive(s.st, s1.st, s2.st, home, name);
  }

  /** The service changed in the registry, in the bundle row and in the list of `name` at most. */
  ghost predicate OnlyItsOwn(s: Service, s': Service, name: string)
    requires name in s.bundles
  {
    && s'.nextBundle == s.nextBundle && s'.bundles.Keys == s.bundles.Keys
    && s'.bundles[name].id == s.bundles[name].id
    && (forall m :: m in s.bundles && m != name ==> s'.bundles[m] == s.bundles[m])
    && s'.resources.Keys <= s.resources.Keys + {s.bundles[name].id}
    && (forall id :: id != s.bundles[name].id ==> LogOf(s', id) == LogOf(s, id))
  }

  lemma OnlyItsOwnLeaves(home: Home, name: string, s: Service, s': Service)
    requires WFService(s) && DistinctBundles(s) && name in s.bundles && OnlyItsOwn(s, s', name)
    requires WF(s'.st) && OthersSame(s.st, s'.st, home, name)
    ensures WFService(s') && DistinctBundles(s') && Leaves(s, s', home, name)
  {
  }

  lemma UninstallTidy(home: Home, name: string, s: Service, w: World)
    requires Tidy(s, home, name) && Installed(s, name) && Ticks(w)
    ensures Tidy(UninstallById(s, name, w).0, home, name) && Leaves(s, UninstallById(s, name, w).0, home, name)
    ensures UninstallById(s, name, w).1 ==> !Installed(UninstallById(s, name, w).0, name)
  {
    var s' := UninstallById(s, name, w).0;
    UndoStaysLocal(home, name, s.st, LogOf(s, s.bundles[name].id), w);
    assert s'.st == s.st.(reg := Undo(s.st.reg, LogOf(s, s.bundles[name].id), w).0);
    OnlyItsOwnLeaves(home, name, s, s');
  }

  lemma SlotTidy(home: Home, name: string, s: Service, version: string)
    requires Tidy(s, home, name)
    ensures WFService(BundleSlot(s, name, version)) && DistinctBundles(BundleSlot(s, name, version))
  {
  }

  lemma SlotLeaves(home: Home, name: string, s: Service, version: string)
    requires Tidy(s, home, name)
    ensures
      var slot := BundleSlot(s, name, version);
      && Leaves(s, slot, home, name) && Installed(slot, name) && LogOf(slot, slot.bundles[name].id) == []
  {
  }

  lemma FillLists(rules: Rules, s: Service, name: string, c: Content, who: Request)
    requires name in s.bundles && LogOf(s, s.bundles[name].id) == []
    ensures
      var p, s' := InstallFrom(rules, s.st, Drafts(c), who), Fill(rules, s, name, c, who).0;
      && s'.st == p.st && s'.bundles == s.bundles && LogOf(s', s.bundles[name].id) == p.log
      && OnlyItsOwn(s, s', name)
  {
    var p := InstallFrom(rules, s.st, Drafts(c), who);
    assert [] + p.log == p.log;
  }

  lemma FillTidy(rules: Rules, home: Home, name: string, s: Service, c: Content, who: Request)
    requires WFService(s) && DistinctBundles(s) && Installed(s, name) && LogOf(s, s.bundles[name].id) == []
    requires AtHome(rules, home, name, Drafts(c), who)
    ensures Tidy(Fill(rules, s, name, c, who).0, home, name) && Leaves(s, Fill(rules, s, name, c, who).0, home, name)
    ensures Installed(Fill(rules, s, name, c, who).0, name)
  {
    InstallStaysLocal(rules, home, name, Progress(s.st, [], true), Drafts(c), who);
    InstallUndoable(rules, s.st, Drafts(c), who);
    FillLists(rules, s, name, c, who);
    OnlyItsOwnLeaves(home, name, s, Fill(rules, s, name, c, who).0);
  }

  lemma ServeTidy(rules: Rules, home: Home, name: string, s: Service, call: Call)
    requires Tidy(s, home, name) && Homed(rules, home, name, call) && Timed(call)
    ensures Tidy(Serve(rules, s, name, call).0, home, name) && Leaves(s, Serve(rules, s, name, call).0, home, name)
  {
    match call {
      case UninstallCall(world) =>
        if Installed(s, name) {
          UninstallTidy(home, name, s, world);
        }
      case InstallCall(version, content, who0, before, cleanup) =>
        var who := who0.(callerKey := rules.trim(who0.callerKey));
        if who.callerKey != "" {
          var (s1, cleared) := if Installed(s, name) then UninstallById(s, name, before) else (s, true);
          if Installed(s, name) {
            UninstallTidy(home, name, s, before);
          }
          if cleared {
            InstallTidy(rules, home, name, s1, version, content, who, cleanup);
            LeavesTransitive(s, s1, Serve(rules, s, name, call).0, home, name);
          }
        }
    }
  }

  lemma InstallTidy(rules: Rules, home: Home, name: string, s: Service, version: string, c: Content, who: Request, cleanup: World)
    requires Tidy(s, home, name) && !Installed(s, name) && AtHome(rules, home, name, Drafts(c), who) && Ticks(cleanup)
    ensures
      var (s2, ok) := Fill(rules, BundleSlot(s, name, version), name, c, who);
      var s3 := if ok then s2 else UninstallById(s2, name, cleanup).0;
      Tidy(s3, home, name) && Leaves(s, s3, home, name)
  {
    SlotTidy(home, name, s, version);
    SlotLeaves(home, name, s, version);
    var slot := BundleSlot(s, name, version);
    FillTidy(rules, home, name, slot, c, who);
    var (s2, ok) := Fill(rules, slot, name, c, who);
    LeavesTransitive(s, slot, s2, home, name);
    if !ok {
      UninstallTidy(home, name, s2, cleanup);
      LeavesTransitive(s, s2, UninstallById(s2, name, cleanup).0, home, name);
    }
  }

  // ---------- every run ----------

  /** Each bundle that is there can be undone on its own rows, and the rows of each that is not are back. */
  ghost predicate AllRestorable(a: State, s: Service, home: Home) {
    forall name :: Tidy(s, home, name) && Restorable(OwnState(a, home, name), View(s, home, name), name)
  }

  lemma OtherStaysLocal(st: State, st': State, log: Log, home: Home, name: string, m: string)
    requires OthersSame(st, st', home, name) && m != name && Local(st, log, home, m) && Framed(st.reg, log)
    ensures Local(st', log, home, m) && Framed(st'.reg, log)
  {
    forall k, i | k in st'.reg && 0 <= i < |log| && log[i].id == st'.reg[k].id && log[i].prev.Some?
      ensures Frame(log[i].prev.value, st'.reg[k])
    {
      assert home(k) == m;
    }
  }

  lemma ViewWF(s: Service, home: Home, m: string)
    requires WFService(s)
    ensures WFService(View(s, home, m))
  {
  }

  lemma OtherKeepsTidy(s: Service, s': Service, home: Home, name: string, m: string)
    requires Leaves(s, s', home, name) && WFService(s') && DistinctBundles(s') && m != name && Tidy(s, home, m)
    ensures Tidy(s', home, m) && (Installed(s', m) <==> Installed(s, m))
    ensures Installed(s', m) ==> LogOf(s', s'.bundles[m].id) == LogOf(s, s.bundles[m].id)
  {
    if Installed(s', m) {
      OtherStaysLocal(s.st, s'.st, LogOf(s, s.bundles[m].id), home, name, m);
    }
  }

  lemma OtherKeeps(a: State, s: Service, s': Service, home: Home, name: string, m: string)
    requires Leaves(s, s', home, name) && WFService(s') && DistinctBundles(s') && m != name
    requires Tidy(s, home, m) && Restorable(a, View(s, home, m), m)
    ensures Tidy(s', home, m) && Restorable(a, View(s', home, m), m)
  {
    OtherKeepsTidy(s, s', home, name, m);
    ViewWF(s', home, m);
    assert View(s', home, m).st.reg == View(s, home, m).st.reg;
  }

  lemma ServeKeepsAll(rules: Rules, home: Home, a: State, s: Service, name: string, call: Call)
    requires AllRestorable(a, s, home) && Homed(rules, home, name, call) && Timed(call)
    ensures AllRestorable(a, Serve(rules, s, name, call).0, home)
  {
    var s' := Serve(rules, s, name, call).0;
    assert Tidy(s, home, name);
    ServeTidy(rules, home, name, s, call);
    forall m
      ensures Tidy(s', home, m) && Restorable(OwnState(a, home, m), View(s', home, m), m)
    {
      assert Tidy(s, home, m) && Restorable(OwnState(a, home, m), View(s, home, m), m);
      if m == name {
        ServeView(rules, home, name, s, call);
        ServeKeeps(rules, OwnState(a, home, name), View(s, home, name), name, call);
      } else {
        OtherKeeps(OwnState(a, home, m), s, s', home, name, m);
      }
    }
  }

  ghost predicate IsManyRun(rules: Rules, home: Home, states: seq<Service>, calls: seq<(string, Call)>) {
    && |states| == |calls| + 1
    && (forall i :: 0 <= i < |calls| ==>
          && Homed(rules, home, calls[i].0, calls[i].1) && Timed(calls[i].1)
          && states[i + 1] == Serve(rules, states[i], calls[i].0, calls[i].1).0)
  }

  ghost predicate NoneInstalled(s: Service) {
    forall name :: !Installed(s, name)
  }

  lemma StartAllRestorable(s: Service, home: Home)
    requires WFService(s) && DistinctBundles(s) && NoneInstalled(s)
    ensures AllRestorable(s.st, s, home)
  {
    forall name
      ensures Tidy(s, home, name) && Restorable(OwnState(s.st, home, name), View(s, home, name), name)
    {
      StartRestorable(View(s, home, name), name);
    }
  }

  lemma {:induction false} RunRestorable(rules: Rules, home: Home, states: seq<Service>, calls: seq<(string, Call)>, i: nat)
    requires IsManyRun(rules, home, states, calls) && i < |states|
    requires WFService(states[0]) && DistinctBundles(states[0]) && NoneInstalled(states[0])
    ensures AllRestorable(states[0].st, states[i], home)
  {
    if i == 0 {
      StartAllRestorable(states[0], home);
    } else {
      RunRestorable(rules, home, states, calls, i - 1);
      ServeKeepsAll(rules, home, states[0].st, states[i - 1], calls[i - 1].0, calls[i - 1].1);
    }
  }

  /** Every run of installs, reinstalls, rejected installs, stopped and repeated uninstalls of any number of
      bundles with rows of their own, however their calls interleave: whenever a bundle is not installed its rows
      are back to the start, and whenever none is, the whole registry is. */
  lemma EveryInterleavingRestores(rules: Rules, home: Home, states: seq<Service>, calls: seq<(string, Call)>, i: nat)
    requires IsManyRun(rules, home, states, calls) && i < |states|
    requires WFService(states[0]) && DistinctBundles(states[0]) && NoneInstalled(states[0])
    ensures forall name :: !Installed(states[i], name) ==>
              Back(Own(states[0].st.reg, home, name), states[0].st.next, Own(states[i].st.reg, home, name))
    ensures NoneInstalled(states[i]) ==> Back(states[0].st.reg, states[0].st.next, states[i].st.reg)
  {
    RunRestorable(rules, home, states, calls, i);
    var a, s := states[0].st, states[i];
    forall name | !Installed(s, name)
      ensures Back(Own(a.reg, home, name), a.next, Own(s.st.reg, home, name))
    {
      assert Restorable(OwnState(a, home, name), View(s, home, name), name);
    }
    if NoneInstalled(s) {
      AllOwnBack(a, s.st.reg, home);
    }
  }

  lemma AllOwnBack(a: State, reg: Registry, home: Home)
    requires forall name :: Back(Own(a.reg, home, name), a.next, Own(reg, home, name))
    ensures Back(a.reg, a.next, reg)
  {
    forall k
      ensures k in a.reg ==> k in reg
      ensures k in reg ==> RowBack(a.reg, a.next, k, reg[k])
    {
      assert Back(Own(a.reg, home, home(k)), a.next, Own(reg, home, home(k)));
      assert k in a.reg ==> k in Own(a.reg, home, home(k));
      assert k in reg ==> k in Own(reg, home, home(k));
    }
  }
}
