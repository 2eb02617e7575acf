/** Runs of installs and uninstalls: an uninstall run again, and every run of the calls that name one bundle,
    with the service of `service/bundle/bundle.go` as the program runs it. */
module BundleRuns {
  import opened Common
  import opened Bundle
  import opened BundleOrder

  // ---------- where the round trip is not exact ----------

  predicate DeadServer(r: Row) {
    r.ServerRow? && Dead(r)
  }

  /** The install names a server whose row is soft-deleted. */
  predicate Revives(reg: Registry, ds: seq<Draft>, k: Key) {
    k in reg && DeadServer(reg[k]) && Names(ds, k)
  }

  /** How far an install may move the row of a key that existed before. */
  ghost predicate Moved(st: State, st': State, k: Key, revived: bool)
    requires k in st.reg
  {
    && k in st'.reg && (st'.reg[k].ServerRow? <==> st.reg[k].ServerRow?)
    && if !DeadServer(st.reg[k]) then st'.reg[k].id == st.reg[k].id && !DeadServer(st'.reg[k])
       else if revived then !Dead(st'.reg[k]) && st'.reg[k].id >= st.next
       else st'.reg[k] == st.reg[k]
  }

  lemma DraftKey(rules: Rules, st: State, d: Draft, who: Request, k: Key)
    requires WF(st) && ApplyDraft(rules, st, d, who).1.Some? && k in st.reg && DeadServer(st.reg[k])
    ensures
      var st' := ApplyDraft(rules, st, d, who).0;
      k in st'.reg && (if d.ForServer? && ServerAt(d.server.name) == k then st'.reg[k].id == st.next && !Dead(st'.reg[k]) && st'.reg[k].ServerRow?
                       else st'.reg[k] == st.reg[k])
  {
  }

  lemma MovedStep(rules: Rules, st: State, st1: State, d: Draft, who: Request, k: Key, revived: bool)
    requires WF(st) && WF(st1) && st.next <= st1.next && k in st.reg && Moved(st, st1, k, revived)
    requires ApplyDraft(rules, st1, d, who).1.Some?
    ensures Moved(st, ApplyDraft(rules, st1, d, who).0, k, revived || (d.ForServer? && ServerAt(d.server.name) == k))
  {
    var (st2, e) := ApplyDraft(rules, st1, d, who);
    var at := DraftApplies(rules, st1, d, who);
    assert Applies(st1, st2, e.value, at);
    if DeadServer(st1.reg[k]) {
      DraftKey(rules, st1, d, who, k);
    }
  }

  predicate Names(ds: seq<Draft>, k: Key) {
    exists i :: 0 <= i < |ds| && ds[i].ForServer? && ServerAt(ds[i].server.name) == k
  }

  lemma NamesMore(ds: seq<Draft>, k: Key)
    requires |ds| > 0
    ensures Names(ds, k) <==> (ds[0].ForServer? && ServerAt(ds[0].server.name) == k) || Names(ds[1..], k)
  {
    assert forall i :: 0 < i < |ds| ==> ds[i] == ds[1..][i - 1];
    if i :| 0 <= i < |ds[1..]| && ds[1..][i].ForServer? && ServerAt(ds[1..][i].server.name) == k {
      assert ds[i + 1] == ds[1..][i];
    }
  }

  lemma {:induction false} InstallMoves(rules: Rules, st: State, p: Progress, ds: seq<Draft>, who: Request, k: Key, revived: bool)
    requires WF(st) && WF(p.st) && st.next <= p.st.next && k in st.reg && Moved(st, p.st, k, revived)
    requires Undoable(st.reg, st.next, p.st.reg, p.log) && Holds(p.st, p.log)
    requires Install(rules, p, ds, who).ok
    ensures Moved(st, Install(rules, p, ds, who).st, k, revived || Names(ds, k))
    decreases |ds|
  {
    if |ds| > 0 && p.ok {
      var q := Continue(rules, p, ds[0], who);
      ContinueUndoable(rules, st.reg, st.next, p, ds[0], who);
      MovedStep(rules, st, p.st, ds[0], who, k, revived);
      NamesMore(ds, k);
      InstallMoves(rules, st, q, ds[1..], who, k, revived || (ds[0].ForServer? && ServerAt(ds[0].server.name) == k));
    }
  }

  lemma RowMoved(rules: Rules, st: State, ds: seq<Draft>, who: Request, k: Key)
    requires WF(st) && InstallFrom(rules, st, ds, who).ok && k in st.reg
    ensures Moved(st, InstallFrom(rules, st, ds, who).st, k, Names(ds, k))
  {
    InstallMoves(rules, st, Progress(st, [], true), ds, who, k, false);
  }

  lemma RowExact(rules: Rules, st: State, ds: seq<Draft>, who: Request, w: World, k: Key)
    requires WF(st) && AllUp(w) && InstallFrom(rules, st, ds, who).ok && k in st.reg
    ensures
      var p := InstallFrom(rules, st, ds, who);
      var reg := Undo(p.st.reg, p.log, w).0;
      k in reg && (reg[k] == st.reg[k] <==> !Revives(st.reg, ds, k))
  {
    RoundTrip(rules, st, ds, who, w);
    var p := InstallFrom(rules, st, ds, who);
    InstallUndoable(rules, st, ds, who);
    UndoFrames(p.st, p.log, w);
    RowMoved(rules, st, ds, who, k);
    var reg := Undo(p.st.reg, p.log, w).0;
    assert RowBack(st.reg, st.next, k, reg[k]);
  }

  /** A rejected install is a complete one of the resources before the rejected one. */
  lemma {:induction false} AppliedPrefix(rules: Rules, p: Progress, ds: seq<Draft>, who: Request) returns (n: nat)
    requires p.ok
    ensures n <= |ds| && |Install(rules, p, ds, who).log| == |p.log| + n
    ensures Install(rules, p, ds[..n], who) == Install(rules, p, ds, who).(ok := true)
    decreases |ds|
  {
    if |ds| == 0 || !Continue(rules, p, ds[0], who).ok {
      n := 0;
    } else {
      var rest := AppliedPrefix(rules, Continue(rules, p, ds[0], who), ds[1..], who);
      n := rest + 1;
      assert ds[..n] == [ds[0]] + ds[1..][..rest];
    }
  }

  /** An install, complete or rejected, and its uninstall give back every row in every column, if and only if
      none of the resources it applied names a server whose row was soft-deleted: such a row comes back with a
      new id. */
  lemma RoundTripExact(rules: Rules, st: State, ds: seq<Draft>, who: Request, w: World)
    requires WF(st) && AllUp(w)
    ensures
      var p := InstallFrom(rules, st, ds, who);
      var reg := Undo(p.st.reg, p.log, w).0;
      && |p.log| <= |ds|
      && ((forall k :: k in st.reg ==> k in reg && reg[k] == st.reg[k]) <==>
          (forall k :: k in st.reg ==> !Revives(st.reg, ds[..|p.log|], k)))
  {
    var p := InstallFrom(rules, st, ds, who);
    var n := AppliedPrefix(rules, Progress(st, [], true), ds, who);
    forall k | k in st.reg
      ensures k in Undo(p.st.reg, p.log, w).0
      ensures Undo(p.st.reg, p.log, w).0[k] == st.reg[k] <==> !Revives(st.reg, ds[..|p.log|], k)
    {
      RowExact(rules, st, ds[..n], who, w, k);
    }
  }

  // ---------- running an uninstall again ----------

  /** Equal, or both soft-deleted and equal but for the time of it. */
  predicate SameRow(r: Row, r': Row) {
    r == r' || (Dead(r) && Dead(r') && r.(deletedAt := r'.deletedAt) == r')
  }

  predicate HasSnapshot(log: Log, id: nat) {
    exists i :: 0 <= i < |log| && log[i].id == id && log[i].prev.Some?
  }

  lemma {:induction false} ChainCongruent(log: Log, r: Row, r': Row, w: World, w': World)
    requires SameRow(r, r') && r.id == r'.id && RowFramed(log, r) && RowFramed(log, r') && Ticks(w) && Ticks(w')
    ensures SameRow(Chain(log, r, w), Chain(log, r', w'))
    decreases |log|
  {
    if |log| > 0 {
      StepFramed(log, r, w);
      StepFramed(log, r', w');
      ChainCongruent(log[..|log| - 1], Step(log, r, w), Step(log, r', w'), w, w');
    }
  }

  /** With a snapshot in the log, what the row held before does not matter. */
  lemma {:induction false} ChainForgets(log: Log, r: Row, r': Row, w: World, w': World)
    requires HasSnapshot(log, r.id) && r.id == r'.id && Frame(r, r')
    requires RowFramed(log, r) && RowFramed(log, r') && Ticks(w) && Ticks(w')
    ensures SameRow(Chain(log, r, w), Chain(log, r', w'))
    decreases |log|
  {
    var n := |log| - 1;
    StepFramed(log, r, w);
    StepFramed(log, r', w');
    if log[n].id == r.id && log[n].prev.Some? {
      UndoRowOf(log[n], r, w(n).now);
      UndoRowOf(log[n], r', w'(n).now);
      ChainCongruent(log[..n], Step(log, r, w), Step(log, r', w'), w, w');
    } else {
      var i :| 0 <= i < |log| && log[i].id == r.id && log[i].prev.Some?;
      assert log[..n][i] == log[i];
      ChainForgets(log[..n], Step(log, r, w), Step(log, r', w'), w, w');
    }
  }

  /** Without one, undoing can only soft-delete it. */
  predicate AtMostBuried(r: Row, r': Row) {
    r' == r || (Dead(r') && !Dead(r) && r'.(deletedAt := 0) == r)
  }

  lemma {:induction false} ChainBuries(log: Log, r: Row, w: World)
    requires !HasSnapshot(log, r.id) && Ticks(w)
    ensures AtMostBuried(r, Chain(log, r, w))
    ensures Touches(log, r.id) ==> Dead(Chain(log, r, w))
    ensures !Touches(log, r.id) ==> Chain(log, r, w) == r
    decreases |log|
  {
    if |log| > 0 {
      var n := |log| - 1;
      assert forall i :: 0 <= i < n ==> log[..n][i] == log[i];
      ChainBuries(log[..n], Step(log, r, w), w);
    }
  }

  /** The effect of an uninstall, complete or not, on one row. */
  lemma {:induction false} UndoOnRow(reg: Registry, log: Log, w: World, k: Key)
    requires k in reg && RowFramed(log, reg[k]) && Ticks(w)
    ensures k in Undo(reg, log, w).0
    ensures
      var r := Undo(reg, log, w).0[k];
      && r.id == reg[k].id && Frame(reg[k], r)
      && (!HasSnapshot(log, r.id) ==> AtMostBuried(reg[k], r))
      && (!Touches(log, r.id) ==> r == reg[k])
    decreases |log|
  {
    if |log| > 0 {
      var n := |log| - 1;
      StepFramed(log, reg[k], w);
      var reg' := UndoEntry(reg, log[n], w(n).now);
      assert reg'[k] == Step(log, reg[k], w);
      assert forall i :: 0 <= i < n ==> log[..n][i] == log[i];
      UndoOnRow(reg', log[..n], w, k);
    }
  }

  lemma {:induction false} RowFramedAll(reg: Registry, log: Log, k: Key)
    requires k in reg && Framed(reg, log)
    ensures RowFramed(log, reg[k])
  {
  }

  /** An uninstall that stopped anywhere and then gets through ends where one that never stopped ends, but for
      the times of its soft-deletes. */
  lemma RerunReachesTheSame(reg: Registry, log: Log, w: World, w1: World, w2: World, k: Key)
    requires Framed(reg, log) && Ticks(w) && AllUp(w1) && AllUp(w2) && k in reg
    ensures
      var (stopped, _) := Undo(reg, log, w);
      var (rerun, direct) := (Undo(stopped, log, w1).0, Undo(reg, log, w2).0);
      k in rerun && k in direct && SameRow(rerun[k], direct[k])
  {
    RowFramedAll(reg, log, k);
    UndoOnRow(reg, log, w, k);
    var stopped := Undo(reg, log, w).0;
    UndoPointwise(stopped, log, w1);
    UndoPointwise(reg, log, w2);
    var r, r' := reg[k], stopped[k];
    assert RowFramed(log, r');
    if HasSnapshot(log, r.id) {
      ChainForgets(log, r', r, w1, w2);
    } else {
      ChainBuries(log, r, w2);
      ChainBuries(log, r', w1);
    }
  }

  // ---------- the bundle table, and whole runs of one bundle ----------

  datatype BundleRow = BundleRow(id: nat, version: string, deletedAt: nat)

  /** `resources` holds the list of each bundle id; soft-deleted bundles keep theirs until the next install. */
  datatype Service = Service(st: State, bundles: map<string, BundleRow>, resources: map<nat, Log>, nextBundle: nat)

  predicate Installed(s: Service, name: string) {
    name in s.bundles && s.bundles[name].deletedAt == 0
  }

  function LogOf(s: Service, id: nat): Log {
    if id in s.resources then s.resources[id] else []
  }

  /** `uninstallByBundleID`. */
  function UninstallById(s: Service, name: string, w: World): (Service, bool)
    requires name in s.bundles
  {
    var row := s.bundles[name];
    var log := LogOf(s, row.id);
    var (reg, done) := Undo(s.st.reg, log, w);
    var s' := s.(st := s.st.(reg := reg));
    if done && row.deletedAt == 0 then (s'.(bundles := s.bundles[name := row.(deletedAt := w(|log|).now)]), true) else (s', done)
  }

  function UninstallBundle(s: Service, name: string, w: World): (Service, bool) {
    if Installed(s, name) then UninstallById(s, name, w) else (s, false)
  }

  /** The bundle row of an install: the soft-deleted one with an emptied list, or a new one. */
  function BundleSlot(s: Service, name: string, version: string): Service {
    if name in s.bundles then
      s.(bundles := s.bundles[name := s.bundles[name].(version := version, deletedAt := 0)],
         resources := s.resources - {s.bundles[name].id})
    else
      s.(bundles := s.bundles[name := BundleRow(s.nextBundle, version, 0)], nextBundle := s.nextBundle + 1)
  }

  /** `applyBundleResources`, which lists each resource as soon as it is applied. */
  function Fill(rules: Rules, s: Service, name: string, c: Content, who: Request): (Service, bool)
    requires name in s.bundles
  {
    var id := s.bundles[name].id;
    var p := InstallFrom(rules, s.st, Drafts(c), who);
    (s.(st := p.st, resources := if p.log == [] then s.resources else s.resources[id := LogOf(s, id) + p.log]), p.ok)
  }

  /** `Install` after the fetch: uninstall an older version, take the bundle row, apply the resources, and
      undo them again if one is rejected. */
  function InstallBundle(rules: Rules, s: Service, name: string, version: string, c: Content, who0: Request,
                         before: World, cleanup: World): (Service, bool) {
    var who := who0.(callerKey := rules.trim(who0.callerKey));
    if who.callerKey == "" then (s, false)
    else
      var (s1, cleared) := if Installed(s, name) then UninstallById(s, name, before) else (s, true);
      if !cleared then (s1, false)
      else
        var (s2, ok) := Fill(rules, BundleSlot(s1, name, version), name, c, who);
        if ok then (s2, true) else (UninstallById(s2, name, cleanup).0, false)
  }

  datatype Call =
    | InstallCall(version: string, content: Content, who: Request, before: World, cleanup: World)
    | UninstallCall(world: World)

  function Serve(rules: Rules, s: Service, name: string, call: Call): (Service, bool) {
    match call
    case InstallCall(version, content, who, before, cleanup) =>
      InstallBundle(rules, s, name, version, content, who, before, cleanup)
    case UninstallCall(world) => UninstallBundle(s, name, world)
  }

  ghost predicate Timed(call: Call) {
    match call
    case InstallCall(_, _, _, before, cleanup) => Ticks(before) && Ticks(cleanup)
    case UninstallCall(world) => Ticks(world)
  }

  /** A list of a bundle id that was never used does not exist. */
  ghost predicate WFService(s: Service) {
    && WF(s.st)
    && (forall name :: name in s.bundles ==> s.bundles[name].id < s.nextBundle)
    && (forall id :: id in s.resources ==> id < s.nextBundle)
  }

  /** While the bundle is gone the registry is back to `a`; while it is there, its list undoes it. */
  ghost predicate Restorable(a: State, s: Service, name: string) {
    && WFService(s) && a.next <= s.st.next
    && if Installed(s, name) then Undoable(a.reg, a.next, s.st.reg, LogOf(s, s.bundles[name].id))
       else Back(a.reg, a.next, s.st.reg)
  }

  lemma RowBackTransitive(a: Registry, next: nat, b: Registry, next': nat, k: Key, r: Row)
    requires Back(a, next, b) && next <= next' && RowBack(b, next', k, r)
    ensures RowBack(a, next, k, r)
  {
    if k in b {
      assert RowBack(a, next, k, b[k]);
    }
  }

  lemma UndoableFromBack(a: Registry, next: nat, b: State, reg: Registry, log: Log)
    requires Back(a, next, b.reg) && next <= b.next && Undoable(b.reg, b.next, reg, log)
    ensures Undoable(a, next, reg, log)
  {
    forall k | k in reg
      ensures RowUndoable(a, next, k, reg[k], FirstTouch(log, reg[k].id))
    {
      var first := FirstTouch(log, reg[k].id);
      assert RowUndoable(b.reg, b.next, k, reg[k], first);
      if first.None? {
        RowBackTransitive(a, next, b.reg, b.next, k, reg[k]);
      } else if first.value.prev.Some? {
        RowBackTransitive(a, next, b.reg, b.next, k, WithId(first.value.prev.value, reg[k].id));
      }
    }
  }

  lemma UninstallKeeps(a: State, s: Service, name: string, w: World)
    requires Restorable(a, s, name) && Installed(s, name) && Ticks(w)
    ensures Restorable(a, UninstallById(s, name, w).0, name)
    ensures Installed(UninstallById(s, name, w).0, name) <==> !UninstallById(s, name, w).1
  {
    var log := LogOf(s, s.bundles[name].id);
    UndoRestores(a.reg, a.next, s.st.reg, log, w);
    UndoKeeps(a.reg, a.next, s.st.reg, log, log, w);
    UndoFrames(s.st, log, w);
  }

  lemma FillKeeps(rules: Rules, a: State, s: Service, name: string, version: string, c: Content, who: Request)
    requires Restorable(a, s, name) && !Installed(s, name)
    ensures Restorable(a, Fill(rules, BundleSlot(s, name, version), name, c, who).0, name)
    ensures Installed(Fill(rules, BundleSlot(s, name, version), name, c, who).0, name)
  {
    var slot := BundleSlot(s, name, version);
    var p := InstallFrom(rules, s.st, Drafts(c), who);
    assert LogOf(slot, slot.bundles[name].id) == [];
    InstallUndoable(rules, s.st, Drafts(c), who);
    UndoableFromBack(a.reg, a.next, s.st, p.st.reg, p.log);
    var s' := Fill(rules, slot, name, c, who).0;
    assert LogOf(s', s'.bundles[name].id) == p.log by {
      assert [] + p.log == p.log;
    }
  }

  lemma ServeKeeps(rules: Rules, a: State, s: Service, name: string, call: Call)
    requires Restorable(a, s, name) && Timed(call)
    ensures Restorable(a, Serve(rules, s, name, call).0, name)
  {
    match call {
      case UninstallCall(world) =>
        if Installed(s, name) {
          UninstallKeeps(a, s, name, world);
        }
      case InstallCall(version, content, who0, before, cleanup) =>
        var who := who0.(callerKey := rules.trim(who0.callerKey));
        if who.callerKey != "" {
          var (s1, cleared) := if Installed(s, name) then UninstallById(s, name, before) else (s, true);
          if Installed(s, name) {
            UninstallKeeps(a, s, name, before);
          }
          if cleared {
            FillKeeps(rules, a, s1, name, version, content, who);
            var (s2, ok) := Fill(rules, BundleSlot(s1, name, version), name, content, who);
            if !ok {
              UninstallKeeps(a, s2, name, cleanup);
            }
          }
        }
    }
  }

  ghost predicate IsRun(rules: Rules, name: string, states: seq<Service>, calls: seq<Call>) {
    && |states| == |calls| + 1
    && (forall i :: 0 <= i < |calls| ==> Timed(calls[i]) && states[i + 1] == Serve(rules, states[i], name, calls[i]).0)
  }

  lemma NextRestorable(rules: Rules, name: string, states: seq<Service>, calls: seq<Call>, a: State, i: nat)
    requires IsRun(rules, name, states, calls) && i < |calls| && Restorable(a, states[i], name)
    ensures Restorable(a, states[i + 1], name)
  {
    ServeKeeps(rules, a, states[i], name, calls[i]);
  }

  lemma StartRestorable(s: Service, name: string)
    requires WFService(s) && !Installed(s, name)
    ensures Restorable(s.st, s, name)
  {
  }

  /** Every run of installs, reinstalls, rejected installs, uninstalls that a server stopped and repeated
      uninstalls of a bundle: whenever the bundle is not installed, the registry is back to the start. */
  lemma {:induction false} EveryRunRestores(rules: Rules, name: string, states: seq<Service>, calls: seq<Call>, i: nat)
    requires IsRun(rules, name, states, calls) && i < |states|
    requires WFService(states[0]) && !Installed(states[0], name)
    ensures Restorable(states[0].st, states[i], name)
    ensures !Installed(states[i], name) ==> Back(states[0].st.reg, states[0].st.next, states[i].st.reg)
  {
    if i == 0 {
      StartRestorable(states[0], name);
    } else {
      EveryRunRestores(rules, name, states, calls, i - 1);
      NextRestorable(rules, name, states, calls, states[0].st, i - 1);
    }
  }

  /** And from every state of such a run, an uninstall with all servers up finishes the job. */
  lemma UninstallAlwaysPossible(rules: Rules, name: string, states: seq<Service>, calls: seq<Call>, i: nat, w: World)
    requires IsRun(rules, name, states, calls) && i < |states|
    requires WFService(states[0]) && !Installed(states[0], name) && Installed(states[i], name) && AllUp(w)
    ensures
      var (s, done) := UninstallBundle(states[i], name, w);
      done && !Installed(s, name) && Back(states[0].st.reg, states[0].st.next, s.st.reg)
  {
    EveryRunRestores(rules, name, states, calls, i);
    UninstallKeeps(states[0].st, states[i], name, w);
    UndoCompletes(states[i].st.reg, LogOf(states[i], states[i].bundles[name].id), w);
  }

  // ---------- the service as the program runs it ----------

  lemma ContinueAgent(rules: Rules, p: Progress, files: seq<AgentFile>, who: Request)
    requires p.ok && |files| > 0
    ensures
      var (st', e) := ApplyAgent(rules, p.st, files[0], who);
      Install(rules, p, AgentDrafts(files), who) ==
        if e.None? then p.(ok := false)
        else Install(rules, Progress(st', p.log + [e.value], true), AgentDrafts(files[1..]), who)
  {
    assert AgentDrafts(files)[1..] == AgentDrafts(files[1..]);
  }

  lemma ContinueServer(rules: Rules, p: Progress, servers: seq<ServerDraft>, who: Request)
    requires p.ok && |servers| > 0
    ensures
      var (st', e) := ApplyServer(p.st, servers[0], who);
      Install(rules, p, ServerDrafts(servers), who) ==
      Install(rules, Progress(st', p.log + [e.value], true), ServerDrafts(servers[1..]), who)
  {
    assert ServerDrafts(servers)[1..] == ServerDrafts(servers[1..]);
  }

  /** The list of bundle `id` after the entries of `log` were added to it. */
  function Listed(resources: map<nat, Log>, id: nat, log: Log): map<nat, Log> {
    if log == [] then resources else resources[id := (if id in resources then resources[id] else []) + log]
  }

  lemma ListedMore(resources: map<nat, Log>, id: nat, log: Log, e: Entry)
    ensures Listed(Listed(resources, id, log), id, [e]) == Listed(resources, id, log + [e])
  {
    var base := if id in resources then resources[id] else [];
    assert (base + log) + [e] == base + (log + [e]);
    assert log == [] ==> log + [e] == [e];
  }

  class BundleService {
    const rules: Rules
    var reg: Registry
    var next: nat
    var bundles: map<string, BundleRow>
    var resources: map<nat, Log>
    var nextBundle: nat

    ghost function View(): Service
      reads this
    {
      Service(State(reg, next), bundles, resources, nextBundle)
    }

    constructor (rules: Rules, reg: Registry, next: nat)
      ensures this.rules == rules && View() == Service(State(reg, next), map[], map[], 0)
    {
      this.rules, this.reg, this.next := rules, reg, next;
      bundles, resources, nextBundle := map[], map[], 0;
    }

    method UpsertAgent(file: AgentFile, who: Request) returns (e: Option<Entry>)
      modifies this`reg, this`next
      ensures (State(reg, next), e) == ApplyAgent(rules, old(State(reg, next)), file, who)
    {
      var built := BuildReq(rules, file, who);
      if built.None? {
        return None;
      }
      var req := built.value;
      var key := AgentAt(req.callerKey, req.agentKey);
      if key in reg && !Dead(reg[key]) {
        var snapshot := reg[key];
        reg := UpdateLive(reg, snapshot.id, (r: Row) => Defined(rules, r, req, who.installedBy));
        return Some(Entry(snapshot.id, Some(snapshot)));
      }
      if !ValidReq(rules, req) {
        return None;
      }
      if key in reg {
        var snapshot := reg[key];
        reg := UpdateAny(reg, snapshot.id, (r: Row) => Defined(rules, r, req, who.installedBy).(deletedAt := 0));
        return Some(Entry(snapshot.id, Some(snapshot)));
      }
      e := Some(Entry(next, None));
      reg := reg[key := NewAgent(rules, next, req, who.installedBy)];
      next := next + 1;
    }

    method RegisterServer(d: ServerDraft, who: Request) returns (e: Entry)
      modifies this`reg, this`next
      ensures (State(reg, next), Some(e)) == ApplyServer(old(State(reg, next)), d, who)
    {
      var key := ServerAt(d.name);
      if key in reg && !Dead(reg[key]) {
        var snapshot := reg[key];
        reg := UpdateLive(reg, snapshot.id, (r: Row) => Repointed(r, d, who));
        return Entry(snapshot.id, Some(snapshot));
      }
      var server := NewServer(next, d, who);
      if key in reg {
        var snapshot := reg[key];
        e := Entry(next, Some(snapshot));
        server := server.(lastCheckAt := if snapshot.ServerRow? then snapshot.lastCheckAt else 0);
      } else {
        e := Entry(next, None);
      }
      reg := reg[key := server];
      next := next + 1;
    }

    method Record(id: nat, e: Entry)
      modifies this`resources
      ensures resources == Listed(old(resources), id, [e])
    {
      resources := resources[id := (if id in resources then resources[id] else []) + [e]];
    }

    method ApplyBundleResources(id: nat, c: Content, who: Request) returns (ok: bool)
      modifies this`reg, this`next, this`resources
      ensures
        var p := InstallFrom(rules, old(State(reg, next)), Drafts(c), who);
        State(reg, next) == p.st && ok == p.ok && resources == Listed(old(resources), id, p.log)
    {
      LoopsInstall(rules, State(reg, next), c, who);
      ghost var p := Progress(State(reg, next), [], true);
      ghost var agents := Install(rules, p, AgentDrafts(c.agents), who);
      var i := 0;
      while i < |c.agents|
        invariant 0 <= i <= |c.agents|
        invariant p.ok && State(reg, next) == p.st && resources == Listed(old(resources), id, p.log)
        invariant Install(rules, p, AgentDrafts(c.agents[i..]), who) == agents
      {
        ContinueAgent(rules, p, c.agents[i..], who);
        assert c.agents[i..][1..] == c.agents[i + 1..];
        var e := UpsertAgent(c.agents[i], who);
        if e.None? {
          RejectionChangesNothing(rules, p.st, ForAgent(c.agents[i]), who);
          return false;
        }
        Record(id, e.value);
        ListedMore(old(resources), id, p.log, e.value);
        p := Progress(State(reg, next), p.log + [e.value], true);
        i := i + 1;
      }
      if c.servers.None? {
        return true;
      }
      if c.servers.value.Err? {
        return false;
      }
      var servers := c.servers.value.value;
      ghost var all := Install(rules, p, ServerDrafts(servers), who);
      var j := 0;
      while j < |servers|
        invariant 0 <= j <= |servers|
        invariant p.ok && State(reg, next) == p.st && resources == Listed(old(resources), id, p.log)
        invariant Install(rules, p, ServerDrafts(servers[j..]), who) == all
      {
        ContinueServer(rules, p, servers[j..], who);
        assert servers[j..][1..] == servers[j + 1..];
        var e := RegisterServer(servers[j], who);
        Record(id, e);
        ListedMore(old(resources), id, p.log, e);
        p := Progress(State(reg, next), p.log + [e], true);
        j := j + 1;
      }
      ok := true;
    }

    /** One rollback; the row is written before the server is connected again. */
    method Rollback(e: Entry, now: nat, up: bool) returns (ok: bool)
      modifies this`reg
      ensures reg == UndoEntry(old(reg), e, now) && (ok <==> (NeedsServer(e) ==> up))
    {
      if e.prev.None? {
        reg := map k | k in reg :: if reg[k].id == e.id && !Dead(reg[k]) then reg[k].(deletedAt := now) else reg[k];
        return true;
      }
      reg := UpdateAny(reg, e.id, (r: Row) => UndoRow(e, r, now));
      ok := !(e.prev.value.ServerRow? && !Dead(e.prev.value)) || up;
    }

    method UninstallByBundleID(name: string, w: World) returns (ok: bool)
      requires Installed(View(), name)
      modifies this`reg, this`bundles
      ensures (View(), ok) == UninstallById(old(View()), name, w)
    {
      var row := bundles[name];
      var log := if row.id in resources then resources[row.id] else [];
      var i := |log|;
      assert log[..i] == log;
      while i > 0
        invariant 0 <= i <= |log|
        invariant Undo(reg, log[..i], w) == Undo(old(reg), log, w) && bundles == old(bundles)
      {
        i := i - 1;
        assert log[..i + 1][..i] == log[..i];
        var done := Rollback(log[i], w(i).now, w(i).up);
        if !done {
          return false;
        }
      }
      bundles := bundles[name := row.(deletedAt := w(|log|).now)];
      ok := true;
    }

    method Uninstall(name: string, w: World) returns (ok: bool)
      modifies this`reg, this`bundles
      ensures (View(), ok) == UninstallBundle(old(View()), name, w)
    {
      if name !in bundles || bundles[name].deletedAt != 0 {
        return false;
      }
      ok := UninstallByBundleID(name, w);
    }

    method InstallOrReplace(name: string, version: string, c: Content, who0: Request, before: World, cleanup: World)
      returns (ok: bool)
      modifies this
      ensures (View(), ok) == InstallBundle(rules, old(View()), name, version, c, who0, before, cleanup)
    {
      var who := who0.(callerKey := rules.trim(who0.callerKey));
      if who.callerKey == "" {
        return false;
      }
      if name in bundles && bundles[name].deletedAt == 0 {
        var cleared := Uninstall(name, before);
        if !cleared {
          return false;
        }
      }
      ghost var s1 := View();
      if name in bundles {
        var row := bundles[name];
        bundles := bundles[name := row.(version := version, deletedAt := 0)];
        resources := resources - {row.id};
      } else {
        bundles := bundles[name := BundleRow(nextBundle, version, 0)];
        nextBundle := nextBundle + 1;
      }
      assert View() == BundleSlot(s1, name, version);
      ok := ApplyBundleResources(bundles[name].id, c, who);
      assert (View(), ok) == Fill(rules, BundleSlot(s1, name, version), name, c, who);
      if !ok {
        var cleaned := UninstallByBundleID(name, cleanup);
      }
    }
  }
}
