/** When the calls of `service/bundle/bundle.go` succeed in a run, and what they leave behind. */
module BundleCalls {
  import opened Common
  import opened Bundle
  import opened BundleRuns

  // ---------- which contents are accepted ----------

  /** File `i` can be read, and finds its row live, or written by an earlier file, or is fit for a new row. */
  ghost predicate Admitted(rules: Rules, reg: Registry, files: seq<AgentFile>, who: Request, i: nat)
    requires i < |files|
  {
    && Readable(rules, files[i], who)
    && var k := FileAt(rules, files[i].meta.value, who);
       Live(reg, k) || FitForRow(rules, files[i].meta.value, who) || Written(rules, files, who, i, k)
  }

  /** One of the first `n` files is about row `k`. */
  ghost predicate Written(rules: Rules, files: seq<AgentFile>, who: Request, n: nat, k: Key)
    requires n <= |files|
  {
    exists j :: 0 <= j < n && files[j].meta.Some? && FileAt(rules, files[j].meta.value, who) == k
  }

  ghost predicate Acceptable(rules: Rules, reg: Registry, c: Content, who: Request) {
    && (forall i :: 0 <= i < |c.agents| ==> Admitted(rules, reg, c.agents, who, i))
    && !(c.servers.Some? && c.servers.value.Err?)
  }

  lemma NextFileAccepted(rules: Rules, p: Progress, file: AgentFile, who: Request)
    requires p.ok && WF(p.st)
    ensures Continue(rules, p, ForAgent(file), who).ok <==>
            && Readable(rules, file, who)
            && (Live(p.st.reg, FileAt(rules, file.meta.value, who)) || FitForRow(rules, file.meta.value, who))
  {
    AgentAcceptedIff(rules, p.st, file, who);
  }

  lemma NextFileLive(rules: Rules, p: Progress, file: AgentFile, who: Request)
    requires p.ok && WF(p.st) && Continue(rules, p, ForAgent(file), who).ok
    ensures file.meta.Some?
    ensures
      var q := Continue(rules, p, ForAgent(file), who);
      && WF(q.st) && |q.log| == |p.log| + 1
      && forall k :: Live(q.st.reg, k) <==> Live(p.st.reg, k) || k == FileAt(rules, file.meta.value, who)
  {
    ContinueKeepsWF(rules, p, ForAgent(file), who);
    var at := DraftApplies(rules, p.st, ForAgent(file), who);
  }

  /** What the first `n` files leave: their entries, and their rows live beside those that were. */
  ghost predicate TookFiles(rules: Rules, st: State, p: Progress, files: seq<AgentFile>, who: Request, n: nat)
    requires n <= |files|
  {
    && WF(p.st) && |p.log| == n
    && forall k :: Live(p.st.reg, k) <==> Live(st.reg, k) || Written(rules, files, who, n, k)
  }

  lemma NextFile(rules: Rules, st: State, p: Progress, files: seq<AgentFile>, who: Request, n: nat)
    requires 0 < n <= |files| && p.ok && TookFiles(rules, st, p, files, who, n - 1)
    ensures
      var q := Continue(rules, p, ForAgent(files[n - 1]), who);
      && (q.ok <==> Admitted(rules, st.reg, files, who, n - 1))
      && (q.ok ==> TookFiles(rules, st, q, files, who, n))
  {
    NextFileAccepted(rules, p, files[n - 1], who);
    if Continue(rules, p, ForAgent(files[n - 1]), who).ok {
      NextFileLive(rules, p, files[n - 1], who);
      WrittenMore(rules, files, who, n);
    }
  }

  /** The first `n` files go through exactly if each is admitted, judged by the registry at the start. */
  lemma {:induction false} FilesAccepted(rules: Rules, st: State, files: seq<AgentFile>, who: Request, n: nat)
    requires WF(st) && n <= |files|
    ensures
      var p := InstallFrom(rules, st, AgentDrafts(files)[..n], who);
      p.ok <==> forall i :: 0 <= i < n ==> Admitted(rules, st.reg, files, who, i)
    ensures
      var p := InstallFrom(rules, st, AgentDrafts(files)[..n], who);
      p.ok ==> TookFiles(rules, st, p, files, who, n)
  {
    if n > 0 {
      FilesAccepted(rules, st, files, who, n - 1);
      var p := InstallFrom(rules, st, AgentDrafts(files)[..n - 1], who);
      OneMore(rules, st, files, who, n);
      if p.ok {
        NextFile(rules, st, p, files, who, n);
      }
    }
  }

  lemma OneMore(rules: Rules, st: State, files: seq<AgentFile>, who: Request, n: nat)
    requires 0 < n <= |files|
    ensures InstallFrom(rules, st, AgentDrafts(files)[..n], who) ==
            Continue(rules, InstallFrom(rules, st, AgentDrafts(files)[..n - 1], who), ForAgent(files[n - 1]), who)
  {
    var ds := AgentDrafts(files);
    assert ds[..n] == ds[..n - 1] + [ds[n - 1]];
    InstallAppend(rules, Progress(st, [], true), ds[..n - 1], [ds[n - 1]], who);
    InstallOne(rules, InstallFrom(rules, st, ds[..n - 1], who), ds[n - 1], who);
  }

  lemma InstallOne(rules: Rules, p: Progress, d: Draft, who: Request)
    ensures Install(rules, p, [d], who) == Continue(rules, p, d, who)
  {
    assert [d][1..] == [];
  }

  lemma WrittenMore(rules: Rules, files: seq<AgentFile>, who: Request, n: nat)
    requires 0 < n <= |files| && files[n - 1].meta.Some?
    ensures forall k :: Written(rules, files, who, n, k) <==>
              Written(rules, files, who, n - 1, k) || k == FileAt(rules, files[n - 1].meta.value, who)
  {
  }

  lemma {:induction false} ServersAccepted(rules: Rules, p: Progress, servers: seq<ServerDraft>, who: Request)
    requires p.ok
    ensures Install(rules, p, ServerDrafts(servers), who).ok
    ensures |Install(rules, p, ServerDrafts(servers), who).log| == |p.log| + |servers|
    decreases |servers|
  {
    if |servers| > 0 {
      ContinueServer(rules, p, servers, who);
      var (st', e) := ApplyServer(p.st, servers[0], who);
      ServersAccepted(rules, Progress(st', p.log + [e.value], true), servers[1..], who);
    }
  }

  /** A content is installed exactly if it is acceptable, with one entry for each resource. */
  lemma InstalledIff(rules: Rules, st: State, c: Content, who: Request)
    requires WF(st)
    ensures InstallFrom(rules, st, Drafts(c), who).ok <==> Acceptable(rules, st.reg, c, who)
    ensures InstallFrom(rules, st, Drafts(c), who).ok ==> |InstallFrom(rules, st, Drafts(c), who).log| == |Drafts(c)|
  {
    var ds := AgentDrafts(c.agents);
    FilesAccepted(rules, st, c.agents, who, |c.agents|);
    assert ds[..|c.agents|] == ds;
    LoopsInstall(rules, st, c, who);
    var p := InstallFrom(rules, st, ds, who);
    if p.ok && c.servers.Some? && c.servers.value.Ok? {
      ServersAccepted(rules, p, c.servers.value.value, who);
    }
  }

  /** Only which rows are live matters. */
  lemma SameLiveSameVerdict(rules: Rules, reg: Registry, reg': Registry, c: Content, who: Request)
    requires forall k :: Live(reg, k) <==> Live(reg', k)
    ensures Acceptable(rules, reg, c, who) <==> Acceptable(rules, reg', c, who)
  {
    forall i | 0 <= i < |c.agents|
      ensures Admitted(rules, reg, c.agents, who, i) <==> Admitted(rules, reg', c.agents, who, i)
    {
    }
  }

  // ---------- the calls of a run ----------

  /** Every live server that the list would connect again answers. */
  ghost predicate Answers(log: Log, w: World) {
    forall j :: 0 <= j < |log| && log[j].prev.Some? && log[j].prev.value.ServerRow? && log[j].prev.value.deletedAt == 0 ==> w(j).up
  }

  lemma BackKeepsLive(a: State, reg: Registry)
    requires Back(a.reg, a.next, reg)
    ensures forall k :: Live(a.reg, k) <==> Live(reg, k)
  {
    forall k
      ensures Live(a.reg, k) <==> Live(reg, k)
    {
      if k in reg {
        assert RowBack(a.reg, a.next, k, reg[k]);
      }
    }
  }

  /** In every run an install succeeds exactly if there is a caller, the servers of the version before answer, and
      its content is acceptable to the registry as it was before the bundle was ever installed. */
  lemma InstallSucceedsIff(rules: Rules, name: string, states: seq<Service>, calls: seq<Call>, i: nat)
    requires IsRun(rules, name, states, calls) && i < |calls| && calls[i].InstallCall?
    requires WFService(states[0]) && !Installed(states[0], name)
    ensures
      var (s, call) := (states[i], calls[i]);
      Serve(rules, s, name, call).1 <==>
        && rules.trim(call.who.callerKey) != ""
        && (Installed(s, name) ==> Answers(LogOf(s, s.bundles[name].id), call.before))
        && Acceptable(rules, states[0].st.reg, call.content, call.who.(callerKey := rules.trim(call.who.callerKey)))
  {
    var s, call := states[i], calls[i];
    EveryRunRestores(rules, name, states, calls, i);
    if Installed(s, name) {
      UninstallKeeps(states[0].st, s, name, call.before);
      UndoCompletes(s.st.reg, LogOf(s, s.bundles[name].id), call.before);
    }
    var (s1, cleared) := if Installed(s, name) then UninstallById(s, name, call.before) else (s, true);
    if cleared {
      var who := call.who.(callerKey := rules.trim(call.who.callerKey));
      BackKeepsLive(states[0].st, s1.st.reg);
      SameLiveSameVerdict(rules, states[0].st.reg, s1.st.reg, call.content, who);
      InstalledIff(rules, s1.st, call.content, who);
    }
  }

  /** What it then leaves: the bundle under its name and version, with a list of one entry for each resource, and the
      row of every resource, unless a later one is about the same row, as its file or draft says. */
  lemma InstallLeaves(rules: Rules, name: string, states: seq<Service>, calls: seq<Call>, i: nat)
    requires IsRun(rules, name, states, calls) && i < |calls| && calls[i].InstallCall?
    requires WFService(states[0]) && !Installed(states[0], name) && Serve(rules, states[i], name, calls[i]).1
    ensures
      var (s, call) := (states[i + 1], calls[i]);
      var who := call.who.(callerKey := rules.trim(call.who.callerKey));
      && Installed(s, name) && s.bundles[name].version == call.version
      && (name in states[i].bundles ==> s.bundles[name].id == states[i].bundles[name].id)
      && |LogOf(s, s.bundles[name].id)| == |Drafts(call.content)|
      && forall d :: 0 <= d < |Drafts(call.content)| && LastAbout(rules, Drafts(call.content), who, d) ==>
           SaysDraft(rules, Drafts(call.content)[d], who, s.st.reg)
  {
    var s, call := states[i], calls[i];
    EveryRunRestores(rules, name, states, calls, i);
    if Installed(s, name) {
      UninstallKeeps(states[0].st, s, name, call.before);
    }
    var (s1, _) := if Installed(s, name) then UninstallById(s, name, call.before) else (s, true);
    var who := call.who.(callerKey := rules.trim(call.who.callerKey));
    InstalledIff(rules, s1.st, call.content, who);
    forall d | 0 <= d < |Drafts(call.content)| && LastAbout(rules, Drafts(call.content), who, d)
      ensures SaysDraft(rules, Drafts(call.content)[d], who, states[i + 1].st.reg)
    {
      DraftReads(rules, s1.st, Drafts(call.content), who, d);
    }
  }

  /** No later resource is about the same row. */
  ghost predicate LastAbout(rules: Rules, ds: seq<Draft>, who: Request, d: nat)
    requires d < |ds|
  {
    forall j :: d < j < |ds| ==> KeyOfDraft(rules, ds[j], who) != KeyOfDraft(rules, ds[d], who)
  }

  /** The row of the resource is live and says what the resource says. */
  ghost predicate SaysDraft(rules: Rules, d: Draft, who: Request, reg: Registry) {
    match d
    case ForAgent(file) =>
      && file.meta.Some? && Live(reg, FileAt(rules, file.meta.value, who))
      && SaysFile(rules, file.meta.value, file.body, who, reg[FileAt(rules, file.meta.value, who)])
    case ForServer(server) =>
      && Live(reg, ServerAt(server.name)) && reg[ServerAt(server.name)].ServerRow?
      && var row := reg[ServerAt(server.name)];
         && row.name == server.name && row.kind == "http" && row.endpoint == server.url && row.headers == server.headers
         && row.timeoutMs == 30000 && row.status == 1 && row.updatedBy == who.installedBy
    case Rejected => false
  }

  lemma DraftReads(rules: Rules, st: State, ds: seq<Draft>, who: Request, d: nat)
    requires WF(st) && InstallFrom(rules, st, ds, who).ok && d < |ds| && LastAbout(rules, ds, who, d)
    ensures SaysDraft(rules, ds[d], who, InstallFrom(rules, st, ds, who).st.reg)
  {
    if ds[d].ForAgent? {
      InstalledAgentReads(rules, st, ds, who, d);
    } else {
      var before := AppliedAt(rules, Progress(st, [], true), ds, who, d);
      var q := Continue(rules, before, ds[d], who);
      ContinueKeepsWF(rules, before, ds[d], who);
      ServerRowReads(before.st, ds[d].server, who);
      OtherKeysStay(rules, q, ds[d + 1..], who, ServerAt(ds[d].server.name));
    }
  }

  /** An install that does not succeed leaves no bundle behind if all servers answer, and changes nothing if it has no
      caller. */
  lemma FailedInstallLeavesNothing(rules: Rules, name: string, states: seq<Service>, calls: seq<Call>, i: nat)
    requires IsRun(rules, name, states, calls) && i < |calls| && calls[i].InstallCall?
    requires WFService(states[0]) && !Installed(states[0], name) && !Serve(rules, states[i], name, calls[i]).1
    ensures rules.trim(calls[i].who.callerKey) == "" ==> states[i + 1] == states[i]
    ensures rules.trim(calls[i].who.callerKey) != "" && AllUp(calls[i].before) && AllUp(calls[i].cleanup) ==>
              !Installed(states[i + 1], name) && Back(states[0].st.reg, states[0].st.next, states[i + 1].st.reg)
  {
    var s, call := states[i], calls[i];
    EveryRunRestores(rules, name, states, calls, i);
    EveryRunRestores(rules, name, states, calls, i + 1);
    var who := call.who.(callerKey := rules.trim(call.who.callerKey));
    if who.callerKey != "" && AllUp(call.before) && AllUp(call.cleanup) {
      if Installed(s, name) {
        UninstallKeeps(states[0].st, s, name, call.before);
        UndoCompletes(s.st.reg, LogOf(s, s.bundles[name].id), call.before);
      }
      var (s1, _) := if Installed(s, name) then UninstallById(s, name, call.before) else (s, true);
      FillKeeps(rules, states[0].st, s1, name, call.version, call.content, who);
      var s2 := Fill(rules, BundleSlot(s1, name, call.version), name, call.content, who).0;
      UninstallKeeps(states[0].st, s2, name, call.cleanup);
      UndoCompletes(s2.st.reg, LogOf(s2, s2.bundles[name].id), call.cleanup);
    }
  }

  /** An uninstall succeeds exactly if the bundle is installed and every live server that its list connects again
      answers, and exactly then the bundle is gone where it was. */
  lemma UninstallSucceedsIff(rules: Rules, name: string, states: seq<Service>, calls: seq<Call>, i: nat)
    requires IsRun(rules, name, states, calls) && i < |calls| && calls[i].UninstallCall?
    requires WFService(states[0]) && !Installed(states[0], name)
    ensures
      var s := states[i];
      && (Serve(rules, s, name, calls[i]).1 <==>
            Installed(s, name) && Answers(LogOf(s, s.bundles[name].id), calls[i].world))
      && (Installed(s, name) ==> (Serve(rules, s, name, calls[i]).1 <==> !Installed(states[i + 1], name)))
      && (!Installed(s, name) ==> states[i + 1] == s)
  {
    var s := states[i];
    EveryRunRestores(rules, name, states, calls, i);
    if Installed(s, name) {
      UninstallKeeps(states[0].st, s, name, calls[i].world);
      UndoCompletes(s.st.reg, LogOf(s, s.bundles[name].id), calls[i].world);
    }
  }
}
