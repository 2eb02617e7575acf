/** Install and uninstall of agent bundles: `service/bundle/bundle.go` with the agent rows of
    `service/agent/agent.go` and `models/llm/agent.go` and the server rows of `models/llm/mcp_server.go`.

    Both tables are one registry, keyed by their unique keys, which soft-deleted rows go on holding; a row
    carries every column but `created_at` and `updated_at`.  Updates find their rows by id, as the queries do. */
module Bundle {
  import opened Common

  const DEFAULT_CALLER := "default"
  const MAX_TOOLS := 64
  const MAX_SKILLS := 32
  const INHERIT := "inherit"
  const MODES := {"", INHERIT, "auto", "confirm", "confirm_risky"}

  datatype Key = AgentAt(caller: string, agent: string) | ServerAt(server: string)

  datatype Row =
    | AgentRow(
        id: nat, agentKey: string, name: string, description: string, callerKey: string, routeValues: string,
        systemPrompt: string, modelKey: string, modelVersion: string, toolsJson: string, skillsJson: string,
        maxSteps: int, maxTokensPerRun: int, permissionMode: string, status: int, createdBy: string,
        updatedBy: string, deletedAt: nat)
    | ServerRow(
        id: nat, name: string, kind: string, endpoint: string, headers: string, env: string, timeoutMs: int,
        description: string, status: int, lastCheckStatus: string, lastCheckMessage: string, lastCheckAt: int,
        callerKey: string, createdBy: string, updatedBy: string, deletedAt: nat)

  type Registry = map<Key, Row>

  /** `next` is the next id that was never used. */
  datatype State = State(reg: Registry, next: nat)

  /** A line of the resource list: the id of the row and what it held before, absent if it was created. */
  datatype Entry = Entry(id: nat, prev: Option<Row>)

  type Log = seq<Entry>

  datatype Meta = Meta(
    agentKey: string, name: string, description: string, callerKey: string, routeValues: Option<seq<string>>,
    modelKey: string, modelVersion: string, tools: seq<string>, skills: seq<string>, maxSteps: int,
    maxTokensPerRun: int, permissionMode: string)

  /** An agent file after its front matter was split off and parsed; absent if that fails. */
  datatype AgentFile = AgentFile(meta: Option<Meta>, body: string)

  datatype ServerDraft = ServerDraft(name: string, url: string, headers: string)

  /** `servers` is the parsed `.mcp.json`: absent, rejected or a list. */
  datatype Content = Content(agents: seq<AgentFile>, servers: Option<Result<seq<ServerDraft>, ()>>)

  datatype AgentReq = AgentReq(
    agentKey: string, name: string, description: string, callerKey: string, routeValues: seq<string>,
    systemPrompt: string, modelKey: string, modelVersion: string, tools: seq<string>, skills: seq<string>,
    maxSteps: int, maxTokensPerRun: int, permissionMode: string)

  datatype Rules = Rules(
    trim: string -> string, sanitize: string -> string, json: seq<string> -> string,
    keyOk: string -> bool, callerActive: string -> bool)

  /** Who installs, and the caller and routes that a file without its own falls back to. */
  datatype Request = Request(callerKey: string, routeValues: seq<string>, installedBy: string)

  /** The clock and the reachability of a server at one step of an uninstall. */
  datatype Moment = Moment(now: nat, up: bool)

  type World = nat -> Moment

  ghost predicate Ticks(w: World) {
    forall i :: w(i).now > 0
  }

  ghost predicate AllUp(w: World) {
    Ticks(w) && forall i :: w(i).up
  }

  predicate Dead(r: Row) {
    r.deletedAt != 0
  }

  function KeyOf(r: Row): Key {
    if r.AgentRow? then AgentAt(r.callerKey, r.agentKey) else ServerAt(r.name)
  }

  // ---------- table operations ----------

  /** An update by id that sees live rows only. */
  function UpdateLive(reg: Registry, id: nat, f: Row -> Row): Registry {
    map k | k in reg :: if reg[k].id == id && !Dead(reg[k]) then f(reg[k]) else reg[k]
  }

  /** An unscoped update by id. */
  function UpdateAny(reg: Registry, id: nat, f: Row -> Row): Registry {
    map k | k in reg :: if reg[k].id == id then f(reg[k]) else reg[k]
  }

  // ---------- agent rows ----------

  function FirstNonEmpty(rules: Rules, a: string, b: string): string {
    if rules.trim(a) != "" then rules.trim(a) else rules.trim(b)
  }

  function BuildReq(rules: Rules, file: AgentFile, who: Request): Option<AgentReq> {
    if file.meta.None? || rules.trim(file.body) == "" then None
    else
      var m := file.meta.value;
      var caller := FirstNonEmpty(rules, m.callerKey, who.callerKey);
      if caller == "" then None
      else Some(AgentReq(
        if m.agentKey == "" && m.name != "" then rules.sanitize(m.name) else m.agentKey,
        m.name, m.description, caller, if m.routeValues.Some? then m.routeValues.value else who.routeValues,
        rules.trim(file.body), m.modelKey, m.modelVersion, m.tools, m.skills, m.maxSteps, m.maxTokensPerRun,
        m.permissionMode))
  }

  predicate ReferencesOk(rules: Rules, values: seq<string>, limit: nat) {
    && |values| <= limit
    && (forall i :: 0 <= i < |values| ==> rules.trim(values[i]) != "")
    && (forall i, j :: 0 <= i < j < |values| ==> rules.trim(values[i]) != rules.trim(values[j]))
  }

  predicate ValidReq(rules: Rules, req: AgentReq) {
    && rules.keyOk(req.agentKey)
    && (req.callerKey == DEFAULT_CALLER || rules.callerActive(req.callerKey))
    && rules.trim(req.permissionMode) in MODES
    && ReferencesOk(rules, req.tools, MAX_TOOLS) && ReferencesOk(rules, req.skills, MAX_SKILLS)
  }

  function Trimmed(rules: Rules, values: seq<string>): seq<string> {
    if values == [] then []
    else if rules.trim(values[0]) != "" then [rules.trim(values[0])] + Trimmed(rules, values[1..])
    else Trimmed(rules, values[1..])
  }

  function Mode(rules: Rules, mode: string): string {
    if rules.trim(mode) == "" then INHERIT else rules.trim(mode)
  }

  /** `agentDefinitionUpdates`: the columns that a definition sets; the key, the id and the creator stay. */
  function Defined(rules: Rules, row: Row, req: AgentReq, user: string): Row {
    if row.ServerRow? then row
    else row.(name := req.name, description := req.description, routeValues := rules.json(req.routeValues),
              systemPrompt := req.systemPrompt, modelKey := rules.trim(req.modelKey),
              modelVersion := rules.trim(req.modelVersion), toolsJson := rules.json(Trimmed(rules, req.tools)),
              skillsJson := rules.json(Trimmed(rules, req.skills)), maxSteps := req.maxSteps,
              maxTokensPerRun := req.maxTokensPerRun, permissionMode := Mode(rules, req.permissionMode),
              status := 1, updatedBy := user)
  }

  function NewAgent(rules: Rules, id: nat, req: AgentReq, user: string): Row {
    Defined(rules, AgentRow(id, req.agentKey, "", "", req.callerKey, "", "", "", "", "", "", 0, 0, "", 0, user, user, 0), req, user)
  }

  /** `UpsertFromMarkdownForBundle`: overwrite a live row, revive a soft-deleted one, or create; only the
      last two validate.  No entry means the file was rejected. */
  function ApplyAgent(rules: Rules, st: State, file: AgentFile, who: Request): (State, Option<Entry>) {
    var built := BuildReq(rules, file, who);
    if built.None? then (st, None)
    else
      var req := built.value;
      var key := AgentAt(req.callerKey, req.agentKey);
      if key in st.reg && !Dead(st.reg[key]) then
        var row := st.reg[key];
        (st.(reg := UpdateLive(st.reg, row.id, (r: Row) => Defined(rules, r, req, who.installedBy))),
         Some(Entry(row.id, Some(row))))
      else if !ValidReq(rules, req) then (st, None)
      else if key in st.reg then
        var row := st.reg[key];
        (st.(reg := UpdateAny(st.reg, row.id, (r: Row) => Defined(rules, r, req, who.installedBy).(deletedAt := 0))),
         Some(Entry(row.id, Some(row))))
      else
        (State(st.reg[key := NewAgent(rules, st.next, req, who.installedBy)], st.next + 1), Some(Entry(st.next, None)))
  }

  // ---------- server rows ----------

  function NewServer(id: nat, d: ServerDraft, who: Request): Row {
    ServerRow(id, d.name, "http", d.url, d.headers, "", 30000, "installed by agent bundle", 1, "unknown", "", 0,
              who.callerKey, who.installedBy, who.installedBy, 0)
  }

  function Repointed(r: Row, d: ServerDraft, who: Request): Row {
    if r.AgentRow? then r
    else r.(kind := "http", endpoint := d.url, headers := d.headers, timeoutMs := 30000,
            description := "installed by agent bundle", status := 1, updatedBy := who.installedBy)
  }

  /** `registerBundleMcpServer`; a failed connection does not stop an install.  A revived row gets a new id
      and keeps only its name and the time of its last check. */
  function ApplyServer(st: State, d: ServerDraft, who: Request): (State, Option<Entry>) {
    var key := ServerAt(d.name);
    if key in st.reg && !Dead(st.reg[key]) then
      var row := st.reg[key];
      (st.(reg := UpdateLive(st.reg, row.id, (r: Row) => Repointed(r, d, who))), Some(Entry(row.id, Some(row))))
    else if key in st.reg then
      var row := st.reg[key];
      var at := if row.ServerRow? then row.lastCheckAt else 0;
      (State(st.reg[key := NewServer(st.next, d, who).(lastCheckAt := at)], st.next + 1), Some(Entry(st.next, Some(row))))
    else
      (State(st.reg[key := NewServer(st.next, d, who)], st.next + 1), Some(Entry(st.next, None)))
  }

  // ---------- install ----------

  datatype Draft = ForAgent(file: AgentFile) | ForServer(server: ServerDraft) | Rejected

  function ApplyDraft(rules: Rules, st: State, d: Draft, who: Request): (State, Option<Entry>) {
    match d
    case ForAgent(file) => ApplyAgent(rules, st, file, who)
    case ForServer(server) => ApplyServer(st, server, who)
    case Rejected => (st, None)
  }

  /** The key that a resource is about, if it can be told. */
  function KeyOfDraft(rules: Rules, d: Draft, who: Request): Option<Key> {
    match d
    case ForAgent(file) =>
      var built := BuildReq(rules, file, who);
      if built.None? then None else Some(AgentAt(built.value.callerKey, built.value.agentKey))
    case ForServer(server) => Some(ServerAt(server.name))
    case Rejected => None
  }

  function AgentDrafts(files: seq<AgentFile>): seq<Draft> {
    seq(|files|, i requires 0 <= i < |files| => ForAgent(files[i]))
  }

  function ServerDrafts(servers: seq<ServerDraft>): seq<Draft> {
    seq(|servers|, i requires 0 <= i < |servers| => ForServer(servers[i]))
  }

  /** The resources in the order of the install: agents, then servers. */
  function Drafts(c: Content): seq<Draft> {
    AgentDrafts(c.agents) +
    if c.servers.None? then [] else if c.servers.value.Err? then [Rejected] else ServerDrafts(c.servers.value.value)
  }

  datatype Progress = Progress(st: State, log: Log, ok: bool)

  function Continue(rules: Rules, p: Progress, d: Draft, who: Request): Progress {
    if !p.ok then p
    else
      var (st', e) := ApplyDraft(rules, p.st, d, who);
      if e.None? then p.(ok := false) else Progress(st', p.log + [e.value], true)
  }

  /** `applyBundleResources` from where it is. */
  function Install(rules: Rules, p: Progress, ds: seq<Draft>, who: Request): Progress
    decreases |ds|
  {
    if !p.ok || |ds| == 0 then p else Install(rules, Continue(rules, p, ds[0], who), ds[1..], who)
  }

  function InstallFrom(rules: Rules, st: State, ds: seq<Draft>, who: Request): Progress {
    Install(rules, Progress(st, [], true), ds, who)
  }

  // ---------- uninstall ----------

  /** What one entry does to the row it names: soft-delete a created row, or write the snapshot back
      column by column. */
  function UndoRow(e: Entry, r: Row, now: nat): Row {
    if e.prev.None? then if Dead(r) then r else r.(deletedAt := now)
    else
      var s := e.prev.value;
      if r.AgentRow? && s.AgentRow? then
        r.(agentKey := s.agentKey, name := s.name, description := s.description, callerKey := s.callerKey,
           routeValues := s.routeValues, systemPrompt := s.systemPrompt, modelKey := s.modelKey,
           modelVersion := s.modelVersion, toolsJson := s.toolsJson, skillsJson := s.skillsJson,
           maxSteps := s.maxSteps, maxTokensPerRun := s.maxTokensPerRun, permissionMode := s.permissionMode,
           status := s.status, createdBy := s.createdBy, updatedBy := s.updatedBy, deletedAt := s.deletedAt)
      else if r.ServerRow? && s.ServerRow? then
        r.(name := s.name, kind := s.kind, endpoint := s.endpoint, headers := s.headers, env := s.env,
           timeoutMs := s.timeoutMs, description := s.description, status := s.status,
           lastCheckStatus := s.lastCheckStatus, lastCheckMessage := s.lastCheckMessage, callerKey := s.callerKey,
           createdBy := s.createdBy, updatedBy := s.updatedBy, deletedAt := s.deletedAt)
      else r
  }

  function UndoEntry(reg: Registry, e: Entry, now: nat): Registry {
    map k | k in reg :: if reg[k].id == e.id then UndoRow(e, reg[k], now) else reg[k]
  }

  /** A live server snapshot is connected again after its row was written back. */
  predicate NeedsServer(e: Entry) {
    e.prev.Some? && e.prev.value.ServerRow? && !Dead(e.prev.value)
  }

  /** The loop of `uninstallByBundleID`, last entry first, and whether it got through. */
  function Undo(reg: Registry, log: Log, w: World): (Registry, bool)
    decreases |log|
  {
    if |log| == 0 then (reg, true)
    else
      var n := |log| - 1;
      var reg' := UndoEntry(reg, log[n], w(n).now);
      if NeedsServer(log[n]) && !w(n).up then (reg', false) else Undo(reg', log[..n], w)
  }

  // ---------- what an install leaves to be undone ----------

  ghost predicate WF(st: State) {
    && (forall k :: k in st.reg ==> KeyOf(st.reg[k]) == k && st.reg[k].id < st.next)
    && (forall k, k' :: k in st.reg && k' in st.reg && st.reg[k].id == st.reg[k'].id ==> k == k')
  }

  function WithId(r: Row, id: nat): Row {
    r.(id := id)
  }

  /** The columns that neither an install nor a rollback writes are equal. */
  predicate Frame(a: Row, b: Row) {
    && (a.AgentRow? <==> b.AgentRow?) && KeyOf(a) == KeyOf(b)
    && (a.ServerRow? && b.ServerRow? ==> a.lastCheckAt == b.lastCheckAt)
  }

  /** The row is back to what the registry `a` holds: every column of a row that `a` has, except that a
      soft-deleted server may have got a new id; and a row that `a` does not have is soft-deleted. */
  predicate RowBack(a: Registry, next: nat, k: Key, r: Row) {
    if k in a then r == WithId(a[k], r.id) && (r.id == a[k].id || (a[k].ServerRow? && Dead(a[k]) && r.id >= next))
    else Dead(r) && r.id >= next
  }

  ghost predicate Back(a: Registry, next: nat, reg: Registry) {
    a.Keys <= reg.Keys && forall k :: k in reg ==> RowBack(a, next, k, reg[k])
  }

  function FirstTouch(log: Log, id: nat): Option<Entry> {
    if |log| == 0 then None
    else
      var n := |log| - 1;
      if FirstTouch(log[..n], id).Some? then FirstTouch(log[..n], id)
      else if log[n].id == id then Some(log[n]) else None
  }

  predicate RowUndoable(a: Registry, next: nat, k: Key, r: Row, first: Option<Entry>) {
    if first.None? then RowBack(a, next, k, r)
    else if first.value.prev.Some? then RowBack(a, next, k, WithId(first.value.prev.value, r.id))
    else k !in a && r.id >= next
  }

  ghost predicate Framed(reg: Registry, log: Log) {
    forall k, i :: k in reg && 0 <= i < |log| && log[i].id == reg[k].id && log[i].prev.Some? ==> Frame(log[i].prev.value, reg[k])
  }

  /** Undoing the whole log takes the registry back to `a`. */
  ghost predicate Undoable(a: Registry, next: nat, reg: Registry, log: Log) {
    && a.Keys <= reg.Keys && Framed(reg, log)
    && forall k :: k in reg ==> RowUndoable(a, next, k, reg[k], FirstTouch(log, reg[k].id))
  }

  /** The rows of a log, as long as its bundle alone works on them. */
  ghost predicate Holds(st: State, log: Log) {
    && (forall i :: 0 <= i < |log| ==> log[i].id < st.next)
    && (forall k :: k in st.reg && FirstTouch(log, st.reg[k].id).Some? ==> !Dead(st.reg[k]))
  }

  /** What one resource of an install does: it writes the row of one key and records what was there. */
  ghost predicate Applies(st: State, st': State, e: Entry, k: Key) {
    && k in st'.reg && st'.reg.Keys == st.reg.Keys + {k}
    && (forall k' :: k' in st.reg && k' != k ==> st'.reg[k'] == st.reg[k'])
    && !Dead(st'.reg[k]) && st'.reg[k].id == e.id && KeyOf(st'.reg[k]) == k
    && e.prev == (if k in st.reg then Some(st.reg[k]) else None)
    && (k in st.reg ==> Frame(st.reg[k], st'.reg[k]))
    && (if k in st.reg && !(st.reg[k].ServerRow? && Dead(st.reg[k])) then e.id == st.reg[k].id && st'.next == st.next
        else e.id == st.next && st'.next == st.next + 1)
  }

  lemma AgentApplies(rules: Rules, st: State, file: AgentFile, who: Request) returns (k: Key)
    requires WF(st) && ApplyAgent(rules, st, file, who).1.Some?
    ensures Applies(st, ApplyAgent(rules, st, file, who).0, ApplyAgent(rules, st, file, who).1.value, k)
    ensures KeyOfDraft(rules, ForAgent(file), who) == Some(k)
  {
    var req := BuildReq(rules, file, who).value;
    k := AgentAt(req.callerKey, req.agentKey);
  }

  lemma ServerApplies(st: State, d: ServerDraft, who: Request) returns (k: Key)
    requires WF(st)
    ensures Applies(st, ApplyServer(st, d, who).0, ApplyServer(st, d, who).1.value, k)
    ensures k == ServerAt(d.name)
  {
    k := ServerAt(d.name);
  }

  lemma DraftApplies(rules: Rules, st: State, d: Draft, who: Request) returns (k: Key)
    requires WF(st) && ApplyDraft(rules, st, d, who).1.Some?
    ensures Applies(st, ApplyDraft(rules, st, d, who).0, ApplyDraft(rules, st, d, who).1.value, k)
    ensures KeyOfDraft(rules, d, who) == Some(k)
  {
    match d {
      case ForAgent(file) => k := AgentApplies(rules, st, file, who);
      case ForServer(server) => k := ServerApplies(st, server, who);
    }
  }

  /** The caller, the key and the row that a file is about. */
  function FileCaller(rules: Rules, m: Meta, who: Request): string {
    if rules.trim(m.callerKey) != "" then rules.trim(m.callerKey) else rules.trim(who.callerKey)
  }

  function FileKey(rules: Rules, m: Meta): string {
    if m.agentKey == "" && m.name != "" then rules.sanitize(m.name) else m.agentKey
  }

  function FileAt(rules: Rules, m: Meta, who: Request): Key {
    AgentAt(FileCaller(rules, m, who), FileKey(rules, m))
  }

  /** The file parses and has a body and a caller. */
  predicate Readable(rules: Rules, file: AgentFile, who: Request) {
    file.meta.Some? && rules.trim(file.body) != "" && FileCaller(rules, file.meta.value, who) != ""
  }

  /** What a file needs if there is no live row for it: a valid key, a known caller and mode, and short lists without
      blanks and duplicates. */
  predicate FitForRow(rules: Rules, m: Meta, who: Request) {
    && rules.keyOk(FileKey(rules, m))
    && (FileCaller(rules, m, who) == "default" || rules.callerActive(FileCaller(rules, m, who)))
    && rules.trim(m.permissionMode) in {"", "inherit", "auto", "confirm", "confirm_risky"}
    && |m.tools| <= 64 && |m.skills| <= 32
    && (forall i :: 0 <= i < |m.tools| ==> rules.trim(m.tools[i]) != "")
    && (forall i :: 0 <= i < |m.skills| ==> rules.trim(m.skills[i]) != "")
    && (forall i, j :: 0 <= i < j < |m.tools| ==> rules.trim(m.tools[i]) != rules.trim(m.tools[j]))
    && (forall i, j :: 0 <= i < j < |m.skills| ==> rules.trim(m.skills[i]) != rules.trim(m.skills[j]))
  }

  predicate Live(reg: Registry, k: Key) {
    k in reg && reg[k].deletedAt == 0
  }

  /** Which agent files are accepted. */
  lemma AgentAcceptedIff(rules: Rules, st: State, file: AgentFile, who: Request)
    ensures ApplyAgent(rules, st, file, who).1.Some? <==>
            && Readable(rules, file, who)
            && (Live(st.reg, FileAt(rules, file.meta.value, who)) || FitForRow(rules, file.meta.value, who))
  {
  }

  /** How many of the first `p` values are not blank. */
  function Solid(rules: Rules, values: seq<string>, p: nat): nat
    requires p <= |values|
  {
    if p == 0 then 0 else Solid(rules, values, p - 1) + if rules.trim(values[p - 1]) != "" then 1 else 0
  }

  /** `list` holds the values that are not blank, trimmed, in their order. */
  ghost predicate Cleaned(rules: Rules, values: seq<string>, list: seq<string>) {
    && |list| == Solid(rules, values, |values|)
    && forall p: nat :: p < |values| && rules.trim(values[p]) != "" ==>
         Solid(rules, values, p) < |list| && list[Solid(rules, values, p)] == rules.trim(values[p])
  }

  /** The column is the list of the cleaned values, as text. */
  ghost predicate Lists(rules: Rules, values: seq<string>, column: string) {
    exists list :: Cleaned(rules, values, list) && column == rules.json(list)
  }

  lemma {:induction false} SolidFromFront(rules: Rules, values: seq<string>, p: nat)
    requires 0 < p <= |values|
    ensures Solid(rules, values, p) == Solid(rules, values[1..], p - 1) + if rules.trim(values[0]) != "" then 1 else 0
  {
    if p > 1 {
      SolidFromFront(rules, values, p - 1);
      assert values[1..][p - 2] == values[p - 1];
    }
  }

  lemma {:induction false} TrimmedLength(rules: Rules, values: seq<string>)
    ensures |Trimmed(rules, values)| == Solid(rules, values, |values|)
  {
    if values != [] {
      TrimmedLength(rules, values[1..]);
      SolidFromFront(rules, values, |values|);
    }
  }

  lemma {:induction false} TrimmedAt(rules: Rules, values: seq<string>, p: nat)
    requires p < |values| && rules.trim(values[p]) != ""
    ensures Solid(rules, values, p) < |Trimmed(rules, values)|
    ensures Trimmed(rules, values)[Solid(rules, values, p)] == rules.trim(values[p])
  {
    if p > 0 {
      TrimmedAt(rules, values[1..], p - 1);
      SolidFromFront(rules, values, p);
    }
  }

  lemma TrimmedCleans(rules: Rules, values: seq<string>)
    ensures Cleaned(rules, values, Trimmed(rules, values))
  {
    TrimmedLength(rules, values);
    forall p: nat | p < |values| && rules.trim(values[p]) != ""
      ensures Solid(rules, values, p) < |Trimmed(rules, values)|
      ensures Trimmed(rules, values)[Solid(rules, values, p)] == rules.trim(values[p])
    {
      TrimmedAt(rules, values, p);
    }
  }

  /** The row says in every column but id and creator what the file says, with the caller and the routes of the
      request where the file has none. */
  ghost predicate SaysFile(rules: Rules, m: Meta, body: string, who: Request, row: Row) {
    && row.AgentRow?
    && row.agentKey == FileKey(rules, m) && row.callerKey == FileCaller(rules, m, who)
    && row.name == m.name && row.description == m.description && row.systemPrompt == rules.trim(body)
    && row.routeValues == rules.json(if m.routeValues.Some? then m.routeValues.value else who.routeValues)
    && row.modelKey == rules.trim(m.modelKey) && row.modelVersion == rules.trim(m.modelVersion)
    && Lists(rules, m.tools, row.toolsJson) && Lists(rules, m.skills, row.skillsJson)
    && row.maxSteps == m.maxSteps && row.maxTokensPerRun == m.maxTokensPerRun
    && row.permissionMode == (if rules.trim(m.permissionMode) == "" then "inherit" else rules.trim(m.permissionMode))
    && row.status == 1 && row.updatedBy == who.installedBy
  }

  lemma DefinedSays(rules: Rules, file: AgentFile, who: Request, r: Row)
    requires BuildReq(rules, file, who).Some? && r.AgentRow?
    requires r.agentKey == FileKey(rules, file.meta.value) && r.callerKey == FileCaller(rules, file.meta.value, who)
    ensures SaysFile(rules, file.meta.value, file.body, who, Defined(rules, r, BuildReq(rules, file, who).value, who.installedBy))
  {
    TrimmedCleans(rules, file.meta.value.tools);
    TrimmedCleans(rules, file.meta.value.skills);
  }

  /** After an accepted agent file, overwriting, reviving or creating, the row of its caller and key says what the
      file says; only a row that was there keeps its id and its creator. */
  lemma AgentRowReads(rules: Rules, st: State, file: AgentFile, who: Request)
    requires WF(st) && ApplyAgent(rules, st, file, who).1.Some?
    ensures file.meta.Some?
    ensures
      var k := AgentAt(FileCaller(rules, file.meta.value, who), FileKey(rules, file.meta.value));
      var (st', e) := ApplyAgent(rules, st, file, who);
      && k in st'.reg && SaysFile(rules, file.meta.value, file.body, who, st'.reg[k]) && st'.reg[k].deletedAt == 0
      && (if k in st.reg then st'.reg[k].id == st.reg[k].id && st'.reg[k].createdBy == st.reg[k].createdBy
          else st'.reg[k].id == st.next && st'.reg[k].createdBy == who.installedBy)
      && e == Some(Entry(st'.reg[k].id, if k in st.reg then Some(st.reg[k]) else None))
  {
    var req := BuildReq(rules, file, who).value;
    var k := AgentAt(req.callerKey, req.agentKey);
    if k in st.reg {
      assert KeyOf(st.reg[k]) == k;
      DefinedSays(rules, file, who, st.reg[k]);
    } else {
      var blank := AgentRow(st.next, req.agentKey, "", "", req.callerKey, "", "", "", "", "", "", 0, 0, "", 0,
                            who.installedBy, who.installedBy, 0);
      DefinedSays(rules, file, who, blank);
    }
  }

  lemma UpdateFixes(reg: Registry, id: nat, f: Row -> Row)
    requires forall k :: k in reg && reg[k].id == id ==> f(reg[k]) == reg[k]
    ensures UpdateLive(reg, id, f) == reg
  {
  }

  lemma AgentReapplied(rules: Rules, st: State, file: AgentFile, who: Request)
    requires WF(st) && ApplyAgent(rules, st, file, who).1.Some?
    ensures
      var req := BuildReq(rules, file, who).value;
      var k := AgentAt(req.callerKey, req.agentKey);
      var (st', e) := ApplyAgent(rules, st, file, who);
      k in st'.reg && ApplyAgent(rules, st', file, who) == (st', Some(Entry(e.value.id, Some(st'.reg[k]))))
  {
    var req := BuildReq(rules, file, who).value;
    var (st', e) := ApplyAgent(rules, st, file, who);
    var k := AgentApplies(rules, st, file, who);
    AppliesKeepsWF(st, st', e.value, k);
    assert k == KeyOf(st'.reg[k]);
    var f := (r: Row) => Defined(rules, r, req, who.installedBy);
    assert f(st'.reg[k]) == st'.reg[k];
    UpdateFixes(st'.reg, st'.reg[k].id, f);
  }

  lemma ServerReapplied(st: State, d: ServerDraft, who: Request)
    requires WF(st)
    ensures
      var (st', e) := ApplyServer(st, d, who);
      ServerAt(d.name) in st'.reg && ApplyServer(st', d, who) == (st', Some(Entry(e.value.id, Some(st'.reg[ServerAt(d.name)]))))
  {
    var (st', e) := ApplyServer(st, d, who);
    var k := ServerApplies(st, d, who);
    AppliesKeepsWF(st, st', e.value, k);
    assert k == KeyOf(st'.reg[k]);
    var f := (r: Row) => Repointed(r, d, who);
    assert f(st'.reg[k]) == st'.reg[k];
    UpdateFixes(st'.reg, st'.reg[k].id, f);
  }

  /** A resource that was accepted is accepted again, even if its rules would now refuse it; applying it again
      changes nothing and records the row that is there. */
  lemma ReapplyChangesNothing(rules: Rules, st: State, d: Draft, who: Request)
    requires WF(st) && ApplyDraft(rules, st, d, who).1.Some?
    ensures
      var (st', e) := ApplyDraft(rules, st, d, who);
      exists k :: k in st'.reg && !Dead(st'.reg[k]) &&
        ApplyDraft(rules, st', d, who) == (st', Some(Entry(e.value.id, Some(st'.reg[k]))))
  {
    var k := DraftApplies(rules, st, d, who);
    match d {
      case ForAgent(file) => AgentReapplied(rules, st, file, who);
      case ForServer(server) => ServerReapplied(st, server, who);
    }
  }

  predicate SameDefinition(r: Row, r': Row) {
    r.(id := r'.id, createdBy := r'.createdBy) == r'
  }

  /** A definition decides its row: whether it overwrote, revived or created it, the row is the same in every
      column but the id and the creator, and reads as the file says. */
  lemma DefinitionDecidesRow(rules: Rules, st: State, st': State, file: AgentFile, who: Request)
    requires WF(st) && WF(st') && ApplyAgent(rules, st, file, who).1.Some? && ApplyAgent(rules, st', file, who).1.Some?
    ensures
      var req := BuildReq(rules, file, who).value;
      var k := AgentAt(req.callerKey, req.agentKey);
      var (reg, reg') := (ApplyAgent(rules, st, file, who).0.reg, ApplyAgent(rules, st', file, who).0.reg);
      && k in reg && k in reg' && reg[k].AgentRow? && reg'[k].AgentRow?
      && SameDefinition(reg[k], reg'[k])
      && reg[k].name == file.meta.value.name && reg[k].description == file.meta.value.description
      && reg[k].systemPrompt == rules.trim(file.body) && reg[k].maxSteps == file.meta.value.maxSteps
      && (k in st.reg ==> reg[k].id == st.reg[k].id && reg[k].createdBy == st.reg[k].createdBy)
  {
  }

  /** The same for a server, which is pointed at the given address whatever its row held; an overwritten row
      keeps its id, owner, environment, creator and last check. */
  lemma DraftDecidesServer(st: State, st': State, d: ServerDraft, who: Request)
    requires WF(st) && WF(st')
    ensures
      var k := ServerAt(d.name);
      var (reg, reg') := (ApplyServer(st, d, who).0.reg, ApplyServer(st', d, who).0.reg);
      && k in reg && k in reg' && reg[k].ServerRow? && reg'[k].ServerRow?
      && SameServer(reg[k], reg'[k])
  {
    ServerRowReads(st, d, who);
    ServerRowReads(st', d, who);
  }

  /** What the row of a server says after an install, column by column. */
  lemma ServerRowReads(st: State, d: ServerDraft, who: Request)
    requires WF(st)
    ensures
      var k := ServerAt(d.name);
      var (st', e) := ApplyServer(st, d, who);
      && k in st'.reg && st'.reg[k].ServerRow? && (k in st.reg ==> st.reg[k].ServerRow?)
      && var row := st'.reg[k];
         && row.name == d.name && row.kind == "http" && row.endpoint == d.url && row.headers == d.headers
         && row.timeoutMs == 30000 && row.description == "installed by agent bundle" && row.status == 1
         && row.updatedBy == who.installedBy && row.deletedAt == 0
         && (if k in st.reg && st.reg[k].deletedAt == 0 then
               && row.id == st.reg[k].id && row.callerKey == st.reg[k].callerKey && row.env == st.reg[k].env
               && row.createdBy == st.reg[k].createdBy && row.lastCheckStatus == st.reg[k].lastCheckStatus
               && row.lastCheckMessage == st.reg[k].lastCheckMessage && row.lastCheckAt == st.reg[k].lastCheckAt
             else
               && row.id == st.next && row.callerKey == who.callerKey && row.env == ""
               && row.createdBy == who.installedBy && row.lastCheckStatus == "unknown" && row.lastCheckMessage == ""
               && row.lastCheckAt == (if k in st.reg then st.reg[k].lastCheckAt else 0))
         && e == Some(Entry(row.id, if k in st.reg then Some(st.reg[k]) else None))
  {
    var k := ServerAt(d.name);
    assert k in st.reg ==> KeyOf(st.reg[k]) == k;
  }

  predicate SameServer(r: Row, r': Row)
    requires r.ServerRow? && r'.ServerRow?
  {
    r.(id := r'.id, env := r'.env, callerKey := r'.callerKey, createdBy := r'.createdBy,
       lastCheckStatus := r'.lastCheckStatus, lastCheckMessage := r'.lastCheckMessage, lastCheckAt := r'.lastCheckAt) == r'
  }

  lemma RejectionChangesNothing(rules: Rules, st: State, d: Draft, who: Request)
    requires ApplyDraft(rules, st, d, who).1.None?
    ensures ApplyDraft(rules, st, d, who).0 == st
  {
  }

  lemma {:induction false} FirstTouchIn(log: Log, id: nat)
    ensures FirstTouch(log, id).Some? ==> FirstTouch(log, id).value in log && FirstTouch(log, id).value.id == id
    ensures FirstTouch(log, id).None? ==> forall i :: 0 <= i < |log| ==> log[i].id != id
  {
    if |log| > 0 {
      var n := |log| - 1;
      FirstTouchIn(log[..n], id);
      assert forall i :: 0 <= i < n ==> log[..n][i] == log[i];
    }
  }

  lemma FirstTouchMore(log: Log, e: Entry, id: nat)
    ensures FirstTouch(log + [e], id) == if FirstTouch(log, id).Some? then FirstTouch(log, id) else if e.id == id then Some(e) else None
  {
    assert (log + [e])[..|log|] == log;
  }

  lemma AppliesRow(a: Registry, next: nat, st: State, st': State, log: Log, e: Entry, k: Key, k': Key)
    requires WF(st) && Applies(st, st', e, k) && next <= st.next
    requires Undoable(a, next, st.reg, log) && Holds(st, log) && k' in st'.reg
    ensures RowUndoable(a, next, k', st'.reg[k'], FirstTouch(log + [e], st'.reg[k'].id))
    ensures FirstTouch(log + [e], st'.reg[k'].id).Some? ==> !Dead(st'.reg[k'])
  {
    FirstTouchMore(log, e, st'.reg[k'].id);
    FirstTouchIn(log, st'.reg[k'].id);
    if k' != k {
      assert RowUndoable(a, next, k', st.reg[k'], FirstTouch(log, st.reg[k'].id));
    } else if k in st.reg {
      assert RowUndoable(a, next, k, st.reg[k], FirstTouch(log, st.reg[k].id));
    }
  }

  lemma AppliesFrames(st: State, st': State, log: Log, e: Entry, k: Key)
    requires WF(st) && Applies(st, st', e, k) && Framed(st.reg, log) && Holds(st, log)
    ensures Framed(st'.reg, log + [e])
  {
    var log' := log + [e];
    forall k', i | k' in st'.reg && 0 <= i < |log'| && log'[i].id == st'.reg[k'].id && log'[i].prev.Some?
      ensures Frame(log'[i].prev.value, st'.reg[k'])
    {
      if i < |log| && k' == k {
        assert k in st.reg && log[i].id == st.reg[k].id;
      }
    }
  }

  lemma AppliesKeepsWF(st: State, st': State, e: Entry, k: Key)
    requires WF(st) && Applies(st, st', e, k)
    ensures WF(st')
  {
  }

  lemma AppliesKeepsUndoable(a: Registry, next: nat, st: State, st': State, log: Log, e: Entry, k: Key)
    requires WF(st) && Applies(st, st', e, k) && next <= st.next
    requires Undoable(a, next, st.reg, log) && Holds(st, log)
    ensures WF(st') && Undoable(a, next, st'.reg, log + [e]) && Holds(st', log + [e])
  {
    AppliesKeepsWF(st, st', e, k);
    AppliesFrames(st, st', log, e, k);
    forall k' | k' in st'.reg
      ensures RowUndoable(a, next, k', st'.reg[k'], FirstTouch(log + [e], st'.reg[k'].id))
      ensures FirstTouch(log + [e], st'.reg[k'].id).Some? ==> !Dead(st'.reg[k'])
    {
      AppliesRow(a, next, st, st', log, e, k, k');
    }
  }

  lemma ContinueUndoable(rules: Rules, a: Registry, next: nat, p: Progress, d: Draft, who: Request)
    requires WF(p.st) && next <= p.st.next && Undoable(a, next, p.st.reg, p.log) && Holds(p.st, p.log)
    ensures
      var q := Continue(rules, p, d, who);
      WF(q.st) && p.st.next <= q.st.next && Undoable(a, next, q.st.reg, q.log) && Holds(q.st, q.log)
  {
    if p.ok && ApplyDraft(rules, p.st, d, who).1.Some? {
      var (st', e) := ApplyDraft(rules, p.st, d, who);
      var k := DraftApplies(rules, p.st, d, who);
      AppliesKeepsUndoable(a, next, p.st, st', p.log, e.value, k);
    }
  }

  lemma {:induction false} InstallKeepsUndoable(rules: Rules, a: Registry, next: nat, p: Progress, ds: seq<Draft>, who: Request)
    requires WF(p.st) && next <= p.st.next && Undoable(a, next, p.st.reg, p.log) && Holds(p.st, p.log)
    ensures
      var q := Install(rules, p, ds, who);
      WF(q.st) && p.st.next <= q.st.next && Undoable(a, next, q.st.reg, q.log) && Holds(q.st, q.log)
    decreases |ds|
  {
    if p.ok && |ds| > 0 {
      ContinueUndoable(rules, a, next, p, ds[0], who);
      InstallKeepsUndoable(rules, a, next, Continue(rules, p, ds[0], who), ds[1..], who);
    }
  }

  /** However far an install gets, the resource list undoes exactly what it did, also when the same row is
      written several times. */
  lemma InstallUndoable(rules: Rules, st: State, ds: seq<Draft>, who: Request)
    requires WF(st)
    ensures
      var p := InstallFrom(rules, st, ds, who);
      WF(p.st) && st.next <= p.st.next && Undoable(st.reg, st.next, p.st.reg, p.log) && Holds(p.st, p.log)
  {
    InstallKeepsUndoable(rules, st.reg, st.next, Progress(st, [], true), ds, who);
  }

  // ---------- what a complete install leaves ----------

  lemma ContinueKeepsWF(rules: Rules, p: Progress, d: Draft, who: Request)
    requires WF(p.st)
    ensures WF(Continue(rules, p, d, who).st)
  {
    var q := Continue(rules, p, d, who);
    if p.ok && q.ok {
      var at := DraftApplies(rules, p.st, d, who);
      AppliesKeepsWF(p.st, q.st, q.log[|p.log|], at);
    } else {
      assert p.ok ==> ApplyDraft(rules, p.st, d, who).1.None?;
    }
  }

  lemma OtherKeyStays(rules: Rules, p: Progress, d: Draft, who: Request, k: Key)
    requires WF(p.st) && k in p.st.reg && KeyOfDraft(rules, d, who) != Some(k)
    ensures k in Continue(rules, p, d, who).st.reg && Continue(rules, p, d, who).st.reg[k] == p.st.reg[k]
  {
    if p.ok && Continue(rules, p, d, who).ok {
      var at := DraftApplies(rules, p.st, d, who);
    }
  }

  lemma {:induction false} OtherKeysStay(rules: Rules, p: Progress, ds: seq<Draft>, who: Request, k: Key)
    requires WF(p.st) && k in p.st.reg && forall j :: 0 <= j < |ds| ==> KeyOfDraft(rules, ds[j], who) != Some(k)
    ensures k in Install(rules, p, ds, who).st.reg && Install(rules, p, ds, who).st.reg[k] == p.st.reg[k]
    decreases |ds|
  {
    if p.ok && |ds| > 0 {
      ContinueKeepsWF(rules, p, ds[0], who);
      OtherKeyStays(rules, p, ds[0], who, k);
      OtherKeysStay(rules, Continue(rules, p, ds[0], who), ds[1..], who, k);
    }
  }

  /** After a complete install the row of every agent file says what that file says, unless a later file is about the
      same agent. */
  lemma InstalledAgentReads(rules: Rules, st: State, ds: seq<Draft>, who: Request, i: nat)
    requires WF(st) && InstallFrom(rules, st, ds, who).ok && i < |ds| && ds[i].ForAgent?
    requires forall j :: i < j < |ds| ==> KeyOfDraft(rules, ds[j], who) != KeyOfDraft(rules, ds[i], who)
    ensures ds[i].file.meta.Some?
    ensures
      var m, reg := ds[i].file.meta.value, InstallFrom(rules, st, ds, who).st.reg;
      var k := AgentAt(FileCaller(rules, m, who), FileKey(rules, m));
      k in reg && SaysFile(rules, m, ds[i].file.body, who, reg[k]) && reg[k].deletedAt == 0
  {
    var before := AppliedAt(rules, Progress(st, [], true), ds, who, i);
    var q := Continue(rules, before, ds[i], who);
    ContinueKeepsWF(rules, before, ds[i], who);
    AgentRowReads(rules, before.st, ds[i].file, who);
    var at := DraftApplies(rules, before.st, ds[i], who);
    OtherKeysStay(rules, q, ds[i + 1..], who, at);
  }

  /** The install before resource `i`, which it goes on from. */
  lemma {:induction false} AppliedAt(rules: Rules, p: Progress, ds: seq<Draft>, who: Request, i: nat) returns (before: Progress)
    requires WF(p.st) && Install(rules, p, ds, who).ok && i < |ds|
    ensures before.ok && WF(before.st) && Continue(rules, before, ds[i], who).ok
    ensures Install(rules, p, ds, who) == Install(rules, Continue(rules, before, ds[i], who), ds[i + 1..], who)
    decreases i
  {
    StopsWhenRejected(rules, p, ds, who);
    var q := Continue(rules, p, ds[0], who);
    StopsWhenRejected(rules, q, ds[1..], who);
    if i == 0 {
      before := p;
    } else {
      ContinueKeepsWF(rules, p, ds[0], who);
      before := AppliedAt(rules, q, ds[1..], who, i - 1);
      assert ds[1..][i - 1] == ds[i] && ds[1..][i..] == ds[i + 1..];
    }
  }

  lemma StopsWhenRejected(rules: Rules, p: Progress, ds: seq<Draft>, who: Request)
    ensures !p.ok ==> Install(rules, p, ds, who) == p
  {
  }

  // ---------- uninstall gives the registry back ----------

  lemma UndoRowOf(e: Entry, r: Row, now: nat)
    requires now > 0 && e.id == r.id && (e.prev.Some? ==> Frame(e.prev.value, r))
    ensures UndoRow(e, r, now) == if e.prev.Some? then WithId(e.prev.value, r.id) else r.(deletedAt := if Dead(r) then r.deletedAt else now)
    ensures UndoRow(e, r, now).id == r.id && Frame(r, UndoRow(e, r, now))
  {
  }

  lemma UndoEntryFrames(reg: Registry, log: Log, e: Entry, now: nat)
    requires Framed(reg, log) && e in log && now > 0
    ensures Framed(UndoEntry(reg, e, now), log)
    ensures forall k :: k in reg ==> UndoEntry(reg, e, now)[k].id == reg[k].id && Frame(reg[k], UndoEntry(reg, e, now)[k])
  {
    var j :| 0 <= j < |log| && log[j] == e;
    forall k | k in reg
      ensures UndoEntry(reg, e, now)[k].id == reg[k].id && Frame(reg[k], UndoEntry(reg, e, now)[k])
    {
      if reg[k].id == e.id {
        assert e.prev.Some? ==> Frame(log[j].prev.value, reg[k]);
        UndoRowOf(e, reg[k], now);
      }
    }
  }

  /** Undoing the last entry leaves what the entries before it undo. */
  lemma UndoEntryPeels(a: Registry, next: nat, reg: Registry, log: Log, now: nat)
    requires |log| > 0 && Undoable(a, next, reg, log) && now > 0
    ensures Undoable(a, next, UndoEntry(reg, log[|log| - 1], now), log[..|log| - 1])
  {
    var n := |log| - 1;
    var e := log[n];
    var reg' := UndoEntry(reg, e, now);
    UndoEntryFrames(reg, log, e, now);
    assert Framed(reg', log[..n]) by {
      assert forall i :: 0 <= i < n ==> log[..n][i] == log[i];
    }
    forall k | k in reg'
      ensures RowUndoable(a, next, k, reg'[k], FirstTouch(log[..n], reg'[k].id))
    {
      assert RowUndoable(a, next, k, reg[k], FirstTouch(log, reg[k].id));
      if reg[k].id == e.id {
        assert e.prev.Some? ==> Frame(log[n].prev.value, reg[k]);
        UndoRowOf(e, reg[k], now);
      }
    }
  }

  /** Undoing any entry of the log leaves the whole log as good an undo as before. */
  lemma UndoEntryKeeps(a: Registry, next: nat, reg: Registry, log: Log, e: Entry, now: nat)
    requires Undoable(a, next, reg, log) && e in log && now > 0
    ensures Undoable(a, next, UndoEntry(reg, e, now), log)
  {
    UndoEntryFrames(reg, log, e, now);
    var reg' := UndoEntry(reg, e, now);
    forall k | k in reg'
      ensures RowUndoable(a, next, k, reg'[k], FirstTouch(log, reg'[k].id))
    {
      assert RowUndoable(a, next, k, reg[k], FirstTouch(log, reg[k].id));
      FirstTouchIn(log, reg[k].id);
    }
  }

  /** An uninstall that gets through restores the registry. */
  lemma {:induction false} UndoRestores(a: Registry, next: nat, reg: Registry, log: Log, w: World)
    requires Undoable(a, next, reg, log) && Ticks(w)
    ensures Undo(reg, log, w).1 ==> Back(a, next, Undo(reg, log, w).0)
    decreases |log|
  {
    if |log| > 0 {
      var n := |log| - 1;
      UndoEntryPeels(a, next, reg, log, w(n).now);
      UndoRestores(a, next, UndoEntry(reg, log[n], w(n).now), log[..n], w);
    }
  }

  /** An uninstall that stopped anywhere can be run again. */
  lemma {:induction false} UndoKeeps(a: Registry, next: nat, reg: Registry, full: Log, log: Log, w: World)
    requires Undoable(a, next, reg, full) && Ticks(w) && log <= full
    ensures Undoable(a, next, Undo(reg, log, w).0, full)
    decreases |log|
  {
    if |log| > 0 {
      var n := |log| - 1;
      UndoEntryKeeps(a, next, reg, full, log[n], w(n).now);
      UndoKeeps(a, next, UndoEntry(reg, log[n], w(n).now), full, log[..n], w);
    }
  }

  lemma {:induction false} UndoFrames(st: State, log: Log, w: World)
    requires WF(st) && Framed(st.reg, log) && Ticks(w)
    ensures WF(State(Undo(st.reg, log, w).0, st.next)) && Undo(st.reg, log, w).0.Keys == st.reg.Keys
    ensures forall k :: k in st.reg ==> Undo(st.reg, log, w).0[k].id == st.reg[k].id
    decreases |log|
  {
    if |log| > 0 {
      var n := |log| - 1;
      UndoEntryFrames(st.reg, log, log[n], w(n).now);
      var reg' := UndoEntry(st.reg, log[n], w(n).now);
      assert Framed(reg', log[..n]) by {
        assert forall i :: 0 <= i < n ==> log[..n][i] == log[i];
      }
      UndoFrames(State(reg', st.next), log[..n], w);
    }
  }

  /** It gets through exactly when every server that it has to connect again answers. */
  lemma {:induction false} UndoCompletes(reg: Registry, log: Log, w: World)
    ensures Undo(reg, log, w).1 <==> forall i :: 0 <= i < |log| && NeedsServer(log[i]) ==> w(i).up
    decreases |log|
  {
    if |log| > 0 {
      var n := |log| - 1;
      var reg' := UndoEntry(reg, log[n], w(n).now);
      UndoCompletes(reg', log[..n], w);
      assert forall i :: 0 <= i < n ==> log[..n][i] == log[i];
    }
  }

  /** A server that does not answer stops the uninstall, with every row that only earlier entries name left as
      the install made it. */
  lemma {:induction false} UnreachableServerBlocks(reg: Registry, log: Log, w: World, i: nat)
    requires i < |log| && NeedsServer(log[i]) && !w(i).up
    ensures !Undo(reg, log, w).1 && Undo(reg, log, w).0.Keys == reg.Keys
    ensures forall k :: k in reg && (forall j :: i <= j < |log| ==> log[j].id != reg[k].id) ==> Undo(reg, log, w).0[k] == reg[k]
    decreases |log|
  {
    var n := |log| - 1;
    var reg' := UndoEntry(reg, log[n], w(n).now);
    if i < n && !(NeedsServer(log[n]) && !w(n).up) {
      UnreachableServerBlocks(reg', log[..n], w, i);
      assert forall j :: 0 <= j < n ==> log[..n][j] == log[j];
    }
  }

  ghost predicate SameAgents(reg: Registry, reg': Registry) {
    forall caller, agent :: var k := AgentAt(caller, agent); (k in reg <==> k in reg') && (k in reg ==> reg[k] == reg'[k])
  }

  /** No entry from position `n` on is about an agent. */
  ghost predicate ServersFrom(reg: Registry, log: Log, n: nat) {
    forall j, caller, agent :: n <= j < |log| && AgentAt(caller, agent) in reg ==> log[j].id != reg[AgentAt(caller, agent)].id
  }

  lemma {:induction false} ServerEntries(rules: Rules, p: Progress, servers: seq<ServerDraft>, who: Request, n: nat)
    requires WF(p.st) && ServersFrom(p.st.reg, p.log, n)
    ensures ServersFrom(Install(rules, p, ServerDrafts(servers), who).st.reg, Install(rules, p, ServerDrafts(servers), who).log, n)
    decreases |servers|
  {
    if p.ok && |servers| > 0 {
      var k := ServerApplies(p.st, servers[0], who);
      var q := Continue(rules, p, ForServer(servers[0]), who);
      AppliesKeepsWF(p.st, q.st, q.log[|p.log|], k);
      ServerStep(rules, p, servers[0], who, n);
      assert ServerDrafts(servers)[1..] == ServerDrafts(servers[1..]);
      ServerEntries(rules, q, servers[1..], who, n);
    }
  }

  lemma ServerStep(rules: Rules, p: Progress, d: ServerDraft, who: Request, n: nat)
    requires WF(p.st) && ServersFrom(p.st.reg, p.log, n) && p.ok
    ensures ServersFrom(Continue(rules, p, ForServer(d), who).st.reg, Continue(rules, p, ForServer(d), who).log, n)
  {
    var q := Continue(rules, p, ForServer(d), who);
    assert SameAgents(p.st.reg, q.st.reg);
    forall j, caller, agent | n <= j < |q.log| && AgentAt(caller, agent) in q.st.reg
      ensures q.log[j].id != q.st.reg[AgentAt(caller, agent)].id
    {
      assert AgentAt(caller, agent) in p.st.reg && q.st.reg[AgentAt(caller, agent)] == p.st.reg[AgentAt(caller, agent)];
    }
  }

  ghost predicate NoServers(log: Log) {
    forall j :: 0 <= j < |log| ==> !NeedsServer(log[j])
  }

  lemma AgentStep(rules: Rules, p: Progress, file: AgentFile, who: Request)
    requires WF(p.st) && NoServers(p.log) && p.ok
    ensures WF(Continue(rules, p, ForAgent(file), who).st) && NoServers(Continue(rules, p, ForAgent(file), who).log)
  {
    var (st', e) := ApplyAgent(rules, p.st, file, who);
    if e.Some? {
      var k := AgentApplies(rules, p.st, file, who);
      AppliesKeepsWF(p.st, st', e.value, k);
      assert !NeedsServer(e.value);
    }
  }

  /** Entries of agents need no server, and the entries of an install begin with those. */
  lemma {:induction false} AgentEntries(rules: Rules, p: Progress, files: seq<AgentFile>, who: Request)
    requires WF(p.st) && NoServers(p.log)
    ensures WF(Install(rules, p, AgentDrafts(files), who).st) && NoServers(Install(rules, p, AgentDrafts(files), who).log)
    decreases |files|
  {
    if p.ok && |files| > 0 {
      AgentStep(rules, p, files[0], who);
      assert AgentDrafts(files)[1..] == AgentDrafts(files[1..]);
      AgentEntries(rules, Continue(rules, p, ForAgent(files[0]), who), files[1..], who);
    }
  }

  lemma {:induction false} InstallAppend(rules: Rules, p: Progress, ds: seq<Draft>, more: seq<Draft>, who: Request)
    ensures Install(rules, p, ds + more, who) == Install(rules, Install(rules, p, ds, who), more, who)
    decreases |ds|
  {
    if |ds| == 0 {
      assert ds + more == more;
    } else if p.ok {
      assert (ds + more)[1..] == ds[1..] + more && (ds + more)[0] == ds[0];
      var q := Continue(rules, p, ds[0], who);
      InstallAppend(rules, q, ds[1..], more, who);
    }
  }

  /** The two loops do what the list of drafts says. */
  lemma LoopsInstall(rules: Rules, st: State, c: Content, who: Request)
    ensures
      var p := InstallFrom(rules, st, AgentDrafts(c.agents), who);
      InstallFrom(rules, st, Drafts(c), who) ==
        if !p.ok || c.servers.None? then p
        else if c.servers.value.Err? then p.(ok := false)
        else Install(rules, p, ServerDrafts(c.servers.value.value), who)
  {
    var start, ds := Progress(st, [], true), AgentDrafts(c.agents);
    if c.servers.None? {
      assert Drafts(c) == ds;
    } else if c.servers.value.Err? {
      InstallAppend(rules, start, ds, [Rejected], who);
    } else {
      InstallAppend(rules, start, ds, ServerDrafts(c.servers.value.value), who);
    }
  }

  lemma AgentsBeforeServers(rules: Rules, st: State, c: Content, who: Request) returns (n: nat)
    requires WF(st)
    ensures
      var p := InstallFrom(rules, st, Drafts(c), who);
      && (forall j :: 0 <= j < n && j < |p.log| ==> !NeedsServer(p.log[j]))
      && ServersFrom(p.st.reg, p.log, n)
  {
    var agents := InstallFrom(rules, st, AgentDrafts(c.agents), who);
    n := |agents.log|;
    AgentEntries(rules, Progress(st, [], true), c.agents, who);
    LoopsInstall(rules, st, c, who);
    if agents.ok && c.servers.Some? && c.servers.value.Ok? {
      ServerEntries(rules, agents, c.servers.value.value, who, n);
      InstallExtends(rules, agents, ServerDrafts(c.servers.value.value), who);
    }
  }

  lemma {:induction false} InstallExtends(rules: Rules, p: Progress, ds: seq<Draft>, who: Request)
    ensures p.log <= Install(rules, p, ds, who).log
    decreases |ds|
  {
    if p.ok && |ds| > 0 {
      InstallExtends(rules, Continue(rules, p, ds[0], who), ds[1..], who);
    }
  }

  /** So a server that does not answer keeps every agent of the bundle installed. */
  lemma UnreachableServerKeepsAgents(rules: Rules, st: State, c: Content, who: Request, w: World, i: nat)
    requires WF(st)
    requires i < |InstallFrom(rules, st, Drafts(c), who).log|
    requires NeedsServer(InstallFrom(rules, st, Drafts(c), who).log[i]) && !w(i).up
    ensures
      var p := InstallFrom(rules, st, Drafts(c), who);
      var (reg, done) := Undo(p.st.reg, p.log, w);
      !done && SameAgents(p.st.reg, reg)
  {
    var p := InstallFrom(rules, st, Drafts(c), who);
    var n := AgentsBeforeServers(rules, st, c, who);
    assert i >= n;
    UnreachableServerBlocks(p.st.reg, p.log, w, i);
  }

  /** Install, complete or rejected at any resource, then uninstall. */
  lemma RoundTrip(rules: Rules, st: State, ds: seq<Draft>, who: Request, w: World)
    requires WF(st) && AllUp(w)
    ensures
      var p := InstallFrom(rules, st, ds, who);
      var (reg, done) := Undo(p.st.reg, p.log, w);
      done && Back(st.reg, st.next, reg) && WF(State(reg, p.st.next))
  {
    InstallUndoable(rules, st, ds, who);
    var p := InstallFrom(rules, st, ds, who);
    UndoRestores(st.reg, st.next, p.st.reg, p.log, w);
    UndoCompletes(p.st.reg, p.log, w);
    UndoFrames(p.st, p.log, w);
  }
}
