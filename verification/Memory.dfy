/** The write core of long-term memory: `service/memory/memory.go` over the store operations of
    `models/llm/memory.go`.  Every write is one transaction that changes one item and appends one
    revision, or changes nothing.  Snapshots are stored as values; ids of revisions are their positions
    in the log.  Text functions are fields of `Config`, so everything below holds for any of them. */
module Memory {
  import opened Common

  const RESIDENT := "resident"
  const DETACHED := "detached"
  const MAX_TITLE := 32
  const MAX_CONTENT := 500
  const MAX_DESCRIPTION := 512
  const MAX_REASON := 512
  const CONVERGED := "create 命中同指纹条目，收敛为更新；"

  datatype Owner = Owner(ownerType: string, ownerKey: string)

  datatype LifeState = Active | Deleted

  datatype Item = Item(
    id: nat, owner: Owner, layer: string, title: string, content: string, description: string, tags: string,
    source: string, itemKey: string, version: int, state: LifeState, lastReason: string, createdBy: string)

  datatype Action = Created | Updated | Removed | RolledBack

  datatype Revision = Revision(
    itemId: nat, action: Action, before: Option<Item>, after: Option<Item>,
    reason: string, source: string, createdBy: string)

  datatype Store = Store(items: map<nat, Item>, log: seq<Revision>, nextId: nat)

  const Empty := Store(map[], [], 0)

  /** `allowed` is the set of scope keys a caller may touch, absent for the management side. */
  datatype Input = Input(
    action: string, itemId: nat, hasItem: bool, version: int, layer: string, title: string, content: string,
    description: string, tags: string, reason: string, owner: Owner, source: string, createdBy: string,
    allowed: Option<set<string>>, respectLocked: bool)

  datatype Config = Config(
    trim: string -> string, normalizeTags: string -> string, fingerprint: string -> string,
    hasLocked: string -> bool, sensitive: seq<string> -> bool, rollbackReason: (nat, string) -> string,
    residentMax: int, detachedMax: int)

  datatype Error =
    | BadReason | BadLayer | Sensitive | BadAction | BadPayload | OutOfScope | Locked | LayerFull
    | NoItem | Conflict | NoRevision | NotRollbackable

  datatype Done = Done(itemId: nat, version: int, converged: bool)

  type Outcome = Result<Done, Error>

  datatype Op = Mutate(input: Input) | Rollback(revision: nat, reason: string, operator: string)

  function ScopeKey(o: Owner): string {
    o.ownerType + "|" + o.ownerKey
  }

  predicate ValidPayload(cfg: Config, title: string, content: string, description: string) {
    && cfg.trim(title) != "" && |title| <= MAX_TITLE
    && cfg.trim(content) != "" && |content| <= MAX_CONTENT
    && cfg.trim(description) != "" && |description| <= MAX_DESCRIPTION
  }

  function Normalized(cfg: Config, op: Input): Input {
    op.(action := cfg.trim(op.action), reason := cfg.trim(op.reason), title := cfg.trim(op.title),
        content := cfg.trim(op.content), description := cfg.trim(op.description),
        tags := cfg.normalizeTags(op.tags), layer := cfg.trim(op.layer),
        source := if op.source == "" then "model" else op.source)
  }

  function ActiveIds(items: map<nat, Item>, owner: Owner): set<nat> {
    set id | id in items && items[id].owner == owner && items[id].state.Active?
  }

  function ResidentIds(items: map<nat, Item>, owner: Owner): set<nat> {
    set id | id in items && items[id].owner == owner && items[id].state.Active? && items[id].layer == RESIDENT
  }

  /** `checkLayerCap` with one extra item. */
  predicate HasRoom(cfg: Config, items: map<nat, Item>, owner: Owner, layer: string) {
    if layer == RESIDENT then |ResidentIds(items, owner)| + 1 <= cfg.residentMax
    else |ActiveIds(items, owner)| + 1 <= cfg.detachedMax
  }

  predicate HasKey(items: map<nat, Item>, owner: Owner, key: string, id: nat) {
    id in items && items[id].owner == owner && items[id].itemKey == key
  }

  /** The unique key of the table, soft-deleted rows included. */
  ghost predicate KeysUnique(items: map<nat, Item>) {
    forall i, j :: i in items && j in items && items[i].owner == items[j].owner && items[i].itemKey == items[j].itemKey ==> i == j
  }

  // ---------- the operations as functions of the store ----------

  function Commit(s: Store, row: Item, action: Action, after: Option<Item>, reason: string, source: string, who: string): Store {
    var before := if row.id in s.items then Some(s.items[row.id]) else None;
    Store(s.items[row.id := row], s.log + [Revision(row.id, action, before, after, reason, source, who)],
          if row.id >= s.nextId then row.id + 1 else s.nextId)
  }

  ghost function Create(cfg: Config, s: Store, op: Input): (Store, Outcome) {
    if !ValidPayload(cfg, op.title, op.content, op.description) then (s, Err(BadPayload))
    else if op.allowed.Some? && ScopeKey(op.owner) !in op.allowed.value then (s, Err(OutOfScope))
    else
      var layer := if op.layer == "" then DETACHED else op.layer;
      var key := cfg.fingerprint(op.content);
      if exists id :: HasKey(s.items, op.owner, key, id) then
        var id :| HasKey(s.items, op.owner, key, id);
        var existing := s.items[id];
        if op.respectLocked && cfg.hasLocked(existing.tags) then (s, Err(Locked))
        else
          var conv := op.(layer := if op.layer != "" then op.layer else existing.layer, reason := CONVERGED + op.reason);
          var (s', r) := Update(cfg, s, existing, conv, 0);
          (s', if r.Ok? then Ok(r.value.(converged := true)) else r)
      else if !HasRoom(cfg, s.items, op.owner, layer) then (s, Err(LayerFull))
      else
        var row := Item(s.nextId, op.owner, layer, op.title, op.content, op.description, op.tags, op.source, key, 1,
                        Active, op.reason, op.createdBy);
        (Commit(s, row, Created, Some(row), op.reason, op.source, op.createdBy), Ok(Done(row.id, 1, false)))
  }

  /** `applyUpdate`; `expected` is the optimistic-lock version, 0 to overwrite. */
  function Update(cfg: Config, s: Store, item: Item, op: Input, expected: int): (Store, Outcome) {
    var layer := if op.layer != "" then op.layer else item.layer;
    if layer == RESIDENT && item.layer != RESIDENT && !HasRoom(cfg, s.items, item.owner, layer) then (s, Err(LayerFull))
    else if expected > 0 && expected != item.version then (s, Err(Conflict))
    else
      var row := item.(layer := layer, title := op.title, content := op.content, description := op.description,
                       tags := if op.tags != "" then op.tags else item.tags, state := Active,
                       lastReason := op.reason, version := item.version + 1);
      (Commit(s, row, Updated, Some(row), op.reason, op.source, op.createdBy), Ok(Done(item.id, row.version, false)))
  }

  /** `loadItemForMutation`: the active row, if the caller may touch it. */
  function Load(cfg: Config, s: Store, op: Input): Result<Item, Error> {
    if !op.hasItem || op.itemId !in s.items || !s.items[op.itemId].state.Active? then Err(NoItem)
    else
      var item := s.items[op.itemId];
      if op.allowed.Some? && ScopeKey(item.owner) !in op.allowed.value then Err(OutOfScope)
      else if op.respectLocked && cfg.hasLocked(item.tags) then Err(Locked)
      else Ok(item)
  }

  function Edit(cfg: Config, s: Store, op: Input): (Store, Outcome) {
    var item := Load(cfg, s, op);
    if item.Err? then (s, Err(item.error))
    else if !ValidPayload(cfg, op.title, op.content, op.description) then (s, Err(BadPayload))
    else Update(cfg, s, item.value, op, op.version)
  }

  function Remove(cfg: Config, s: Store, op: Input): (Store, Outcome) {
    var item := Load(cfg, s, op);
    if item.Err? then (s, Err(item.error))
    else if op.version > 0 && op.version != item.value.version then (s, Err(Conflict))
    else
      var row := item.value.(state := Deleted, lastReason := op.reason, version := item.value.version + 1);
      (Commit(s, row, Removed, None, op.reason, op.source, op.createdBy), Ok(Done(row.id, row.version, false)))
  }

  ghost function ApplyMutation(cfg: Config, s: Store, input: Input): (Store, Outcome) {
    var op := Normalized(cfg, input);
    if op.reason == "" || |op.reason| > MAX_REASON then (s, Err(BadReason))
    else if op.layer != "" && op.layer != RESIDENT && op.layer != DETACHED then (s, Err(BadLayer))
    else if cfg.sensitive([op.title, op.content, op.description, op.reason]) then (s, Err(Sensitive))
    else if op.action == "create" then Create(cfg, s, op)
    else if op.action == "update" then Edit(cfg, s, op)
    else if op.action == "delete" then Remove(cfg, s, op)
    else (s, Err(BadAction))
  }

  function RollBack(cfg: Config, s: Store, k: nat, reason0: string, operator: string): (Store, Outcome) {
    if cfg.trim(reason0) == "" then (s, Err(BadReason))
    else if k >= |s.log| then (s, Err(NoRevision))
    else if s.log[k].before.None? then (s, Err(NotRollbackable))
    else if s.log[k].itemId !in s.items then (s, Err(NoItem))
    else
      var reason := cfg.rollbackReason(k, cfg.trim(reason0));
      var target, item := s.log[k].before.value, s.items[s.log[k].itemId];
      var row := item.(layer := target.layer, title := target.title, content := target.content,
                       description := target.description, tags := target.tags, state := target.state,
                       lastReason := reason, version := item.version + 1);
      var after := target.(id := item.id, version := item.version + 1, lastReason := reason);
      (Commit(s, row, RolledBack, Some(after), reason, "admin", operator), Ok(Done(item.id, row.version, false)))
  }

  ghost function Apply(cfg: Config, s: Store, op: Op): (Store, Outcome) {
    match op
    case Mutate(input) => ApplyMutation(cfg, s, input)
    case Rollback(k, reason, operator) => RollBack(cfg, s, k, reason, operator)
  }

  ghost predicate IsRun(cfg: Config, states: seq<Store>, ops: seq<Op>) {
    && |states| == |ops| + 1
    && forall i :: 0 <= i < |ops| ==> states[i + 1] == Apply(cfg, states[i], ops[i]).0
  }

  // ---------- the service as the program runs it ----------

  class MemoryService {
    const cfg: Config
    var items: map<nat, Item>
    var log: seq<Revision>
    var nextId: nat

    ghost function View(): Store
      reads this
    {
      Store(items, log, nextId)
    }

    constructor (cfg: Config)
      ensures this.cfg == cfg && View() == Empty
    {
      this.cfg := cfg;
      items, log, nextId := map[], [], 0;
    }

    method CheckLayerCap(owner: Owner, layer: string) returns (ok: bool)
      ensures ok == HasRoom(cfg, items, owner, layer)
    {
      if layer == RESIDENT {
        var count := |ResidentIds(items, owner)|;
        return !(count + 1 > cfg.residentMax);
      }
      var count := |ActiveIds(items, owner)|;
      return !(count + 1 > cfg.detachedMax);
    }

    /** The row update and the revision, in one transaction. */
    method Write(row: Item, action: Action, after: Option<Item>, reason: string, source: string, who: string)
      modifies this
      ensures View() == Commit(old(View()), row, action, after, reason, source, who)
    {
      var before := if row.id in items then Some(items[row.id]) else None;
      items := items[row.id := row];
      log := log + [Revision(row.id, action, before, after, reason, source, who)];
      if row.id >= nextId {
        nextId := row.id + 1;
      }
    }

    method MutateCreate(op: Input) returns (r: Outcome)
      requires KeysUnique(items)
      modifies this
      ensures (View(), r) == Create(cfg, old(View()), op)
    {
      if !ValidPayload(cfg, op.title, op.content, op.description) {
        return Err(BadPayload);
      }
      if op.allowed.Some? && ScopeKey(op.owner) !in op.allowed.value {
        return Err(OutOfScope);
      }
      var layer := if op.layer == "" then DETACHED else op.layer;
      var key := cfg.fingerprint(op.content);
      if id :| id in items && HasKey(items, op.owner, key, id) {
        assert HasKey(items, op.owner, key, id);
        var existing := items[id];
        if op.respectLocked && cfg.hasLocked(existing.tags) {
          return Err(Locked);
        }
        r := ApplyUpdate(existing, op.(layer := if op.layer != "" then op.layer else existing.layer,
                                       reason := CONVERGED + op.reason), 0);
        if r.Ok? {
          r := Ok(r.value.(converged := true));
        }
        return;
      }
      var room := CheckLayerCap(op.owner, layer);
      if !room {
        return Err(LayerFull);
      }
      var row := Item(nextId, op.owner, layer, op.title, op.content, op.description, op.tags, op.source, key, 1,
                      Active, op.reason, op.createdBy);
      Write(row, Created, Some(row), op.reason, op.source, op.createdBy);
      r := Ok(Done(row.id, 1, false));
    }

    method ApplyUpdate(item: Item, op: Input, expected: int) returns (r: Outcome)
      modifies this
      ensures (View(), r) == Update(cfg, old(View()), item, op, expected)
    {
      var layer := item.layer;
      if op.layer != "" {
        layer := op.layer;
      }
      var tags := item.tags;
      if op.tags != "" {
        tags := op.tags;
      }
      if layer == RESIDENT && item.layer != RESIDENT {
        var room := CheckLayerCap(item.owner, layer);
        if !room {
          return Err(LayerFull);
        }
      }
      if expected > 0 && item.version != expected {
        return Err(Conflict);
      }
      var row := item.(layer := layer, title := op.title, content := op.content, description := op.description,
                       tags := tags, state := Active, lastReason := op.reason, version := item.version + 1);
      Write(row, Updated, Some(row), op.reason, op.source, op.createdBy);
      r := Ok(Done(item.id, row.version, false));
    }

    method MutateUpdate(op: Input) returns (r: Outcome)
      modifies this
      ensures (View(), r) == Edit(cfg, old(View()), op)
    {
      var item := Load(cfg, Store(items, log, nextId), op);
      if item.Err? {
        return Err(item.error);
      }
      if !ValidPayload(cfg, op.title, op.content, op.description) {
        return Err(BadPayload);
      }
      r := ApplyUpdate(item.value, op, op.version);
    }

    method MutateDelete(op: Input) returns (r: Outcome)
      modifies this
      ensures (View(), r) == Remove(cfg, old(View()), op)
    {
      var item := Load(cfg, Store(items, log, nextId), op);
      if item.Err? {
        return Err(item.error);
      }
      if op.version > 0 && item.value.version != op.version {
        return Err(Conflict);
      }
      var row := item.value.(state := Deleted, lastReason := op.reason, version := item.value.version + 1);
      Write(row, Removed, None, op.reason, op.source, op.createdBy);
      r := Ok(Done(row.id, row.version, false));
    }

    method Mutation(input: Input) returns (r: Outcome)
      requires KeysUnique(items)
      modifies this
      ensures (View(), r) == Apply(cfg, old(View()), Mutate(input))
    {
      var op := Normalized(cfg, input);
      if op.reason == "" || |op.reason| > MAX_REASON {
        return Err(BadReason);
      }
      if op.layer != "" && op.layer != RESIDENT && op.layer != DETACHED {
        return Err(BadLayer);
      }
      if cfg.sensitive([op.title, op.content, op.description, op.reason]) {
        return Err(Sensitive);
      }
      if op.action == "create" {
        r := MutateCreate(op);
      } else if op.action == "update" {
        r := MutateUpdate(op);
      } else if op.action == "delete" {
        r := MutateDelete(op);
      } else {
        r := Err(BadAction);
      }
    }

    method RollbackRevision(k: nat, reason0: string, operator: string) returns (r: Outcome)
      modifies this
      ensures (View(), r) == Apply(cfg, old(View()), Rollback(k, reason0, operator))
    {
      if cfg.trim(reason0) == "" {
        return Err(BadReason);
      }
      if k >= |log| {
        return Err(NoRevision);
      }
      if log[k].before.None? {
        return Err(NotRollbackable);
      }
      if log[k].itemId !in items {
        return Err(NoItem);
      }
      var reason := cfg.rollbackReason(k, cfg.trim(reason0));
      var target, item := log[k].before.value, items[log[k].itemId];
      var row := item.(layer := target.layer, title := target.title, content := target.content,
                       description := target.description, tags := target.tags, state := target.state,
                       lastReason := reason, version := item.version + 1);
      var after := target.(id := item.id, version := item.version + 1, lastReason := reason);
      Write(row, RolledBack, Some(after), reason, "admin", operator);
      r := Ok(Done(item.id, row.version, false));
    }
  }

  // ---------- the log refines the store ----------

  /** The row a revision leaves behind; a delete stores no `after`. */
  function Landed(rev: Revision): Option<Item> {
    if !rev.action.Removed? then rev.after
    else if rev.before.None? then None
    else Some(rev.before.value.(state := Deleted, lastReason := rev.reason, version := rev.before.value.version + 1))
  }

  /** The table that the log describes. */
  function Replay(log: seq<Revision>): map<nat, Item> {
    if |log| == 0 then map[]
    else
      var m, rev := Replay(log[..|log| - 1]), log[|log| - 1];
      if Landed(rev).Some? then m[rev.itemId := Landed(rev).value] else m
  }

  function Revisions(log: seq<Revision>, id: nat): nat {
    if |log| == 0 then 0
    else Revisions(log[..|log| - 1], id) + if log[|log| - 1].itemId == id then 1 else 0
  }

  function Lookup(m: map<nat, Item>, id: nat): Option<Item> {
    if id in m then Some(m[id]) else None
  }

  predicate SameIdentity(a: Item, b: Item) {
    a.id == b.id && a.owner == b.owner && a.itemKey == b.itemKey && a.source == b.source && a.createdBy == b.createdBy
  }

  /** Each revision starts from the row that the revisions before it left. */
  ghost predicate Chained(log: seq<Revision>) {
    forall k :: 0 <= k < |log| ==> log[k].before == Lookup(Replay(log[..k]), log[k].itemId) && Landed(log[k]).Some?
  }

  ghost predicate SnapshotsBelong(s: Store) {
    forall k :: 0 <= k < |s.log| && s.log[k].before.Some? ==>
      s.log[k].itemId in s.items && SameIdentity(s.log[k].before.value, s.items[s.log[k].itemId])
  }

  ghost predicate Inv(s: Store) {
    && s.items == Replay(s.log)
    && Chained(s.log)
    && KeysUnique(s.items)
    && (forall id :: id in s.items ==> s.items[id].id == id && id < s.nextId && s.items[id].version == Revisions(s.log, id))
    && (forall id :: id !in s.items ==> Revisions(s.log, id) == 0)
    && SnapshotsBelong(s)
  }

  /** What every successful operation does to a store. */
  ghost predicate Extends(s: Store, s': Store, row: Item) {
    && |s'.log| == |s.log| + 1 && s'.log[..|s.log|] == s.log
    && s'.items == s.items[row.id := row]
    && s'.nextId >= s.nextId && row.id < s'.nextId
    && s'.log[|s.log|].itemId == row.id
    && s'.log[|s.log|].before == Lookup(s.items, row.id)
    && Landed(s'.log[|s.log|]) == Some(row) && s'.log[|s.log|].reason == row.lastReason
    && (if row.id in s.items then SameIdentity(row, s.items[row.id]) && row.version == s.items[row.id].version + 1
        else row.id >= s.nextId && row.version == 1 && forall id :: !HasKey(s.items, row.owner, row.itemKey, id))
  }

  lemma ExtendsKeepsChain(s: Store, s': Store, row: Item)
    requires Chained(s.log) && s.items == Replay(s.log) && Extends(s, s', row)
    ensures Chained(s'.log) && s'.items == Replay(s'.log)
  {
    var n := |s.log|;
    forall k | 0 <= k < |s'.log|
      ensures s'.log[k].before == Lookup(Replay(s'.log[..k]), s'.log[k].itemId) && Landed(s'.log[k]).Some?
    {
      if k < n {
        assert s'.log[..k] == s.log[..k] && s'.log[k] == s'.log[..n][k];
      }
    }
  }

  lemma ExtendsKeepsKeys(s: Store, s': Store, row: Item)
    requires Inv(s) && Extends(s, s', row)
    ensures KeysUnique(s'.items)
  {
    forall i, j | i in s'.items && j in s'.items && s'.items[i].owner == s'.items[j].owner && s'.items[i].itemKey == s'.items[j].itemKey
      ensures i == j
    {
      if row.id !in s.items {
        assert !HasKey(s.items, row.owner, row.itemKey, i) && !HasKey(s.items, row.owner, row.itemKey, j);
      }
    }
  }

  lemma ExtendsKeepsSnapshots(s: Store, s': Store, row: Item)
    requires SnapshotsBelong(s) && Extends(s, s', row)
    ensures SnapshotsBelong(s')
  {
    forall k | 0 <= k < |s'.log| && s'.log[k].before.Some?
      ensures s'.log[k].itemId in s'.items && SameIdentity(s'.log[k].before.value, s'.items[s'.log[k].itemId])
    {
      assert k < |s.log| ==> s'.log[k] == s'.log[..|s.log|][k];
    }
  }

  lemma ExtendsCounts(s: Store, s': Store, row: Item, id: nat)
    requires Extends(s, s', row)
    ensures Revisions(s'.log, id) == Revisions(s.log, id) + if id == row.id then 1 else 0
  {
  }

  lemma ExtendsKeepsInv(s: Store, s': Store, row: Item)
    requires Inv(s) && Extends(s, s', row)
    ensures Inv(s')
  {
    ExtendsKeepsChain(s, s', row);
    ExtendsKeepsKeys(s, s', row);
    ExtendsKeepsSnapshots(s, s', row);
    forall id
      ensures Revisions(s'.log, id) == Revisions(s.log, id) + if id == row.id then 1 else 0
    {
      ExtendsCounts(s, s', row, id);
    }
  }

  /** The outcome of an operation: nothing, or one more row and revision. */
  ghost predicate Commits(s: Store, s': Store, r: Outcome) {
    if r.Err? then s' == s
    else r.value.itemId in s'.items && s'.items[r.value.itemId].id == r.value.itemId && Extends(s, s', s'.items[r.value.itemId])
  }

  lemma UpdateCommits(cfg: Config, s: Store, item: Item, op: Input, expected: int)
    requires Inv(s) && item.id in s.items && s.items[item.id] == item
    ensures Commits(s, Update(cfg, s, item, op, expected).0, Update(cfg, s, item, op, expected).1)
    ensures Update(cfg, s, item, op, expected).1.Ok? ==> Update(cfg, s, item, op, expected).1.value.itemId == item.id
  {
  }

  lemma InsertCommits(s: Store, row: Item, reason: string, source: string, who: string)
    requires Inv(s) && row.id == s.nextId && row.version == 1 && row.lastReason == reason
    requires forall id :: !HasKey(s.items, row.owner, row.itemKey, id)
    ensures Extends(s, Commit(s, row, Created, Some(row), reason, source, who), row)
  {
  }

  /** A create that finds its key turns into an update of that row. */
  lemma ConvergedCommits(cfg: Config, s: Store, op: Input, id: nat)
    requires Inv(s) && HasKey(s.items, op.owner, cfg.fingerprint(op.content), id)
    ensures Commits(s, Create(cfg, s, op).0, Create(cfg, s, op).1)
    ensures Create(cfg, s, op).1.Ok? ==> Create(cfg, s, op).1.value.itemId == id
  {
    assert forall other :: HasKey(s.items, op.owner, cfg.fingerprint(op.content), other) ==> other == id;
    var existing := s.items[id];
    UpdateCommits(cfg, s, existing,
      op.(layer := if op.layer != "" then op.layer else existing.layer, reason := CONVERGED + op.reason), 0);
  }

  lemma CreateCommits(cfg: Config, s: Store, op: Input)
    requires Inv(s)
    ensures Commits(s, Create(cfg, s, op).0, Create(cfg, s, op).1)
    ensures Create(cfg, s, op).1.Ok? ==>
              HasKey(Create(cfg, s, op).0.items, op.owner, cfg.fingerprint(op.content), Create(cfg, s, op).1.value.itemId)
  {
    var key := cfg.fingerprint(op.content);
    if id :| HasKey(s.items, op.owner, key, id) {
      ConvergedCommits(cfg, s, op, id);
    } else if Create(cfg, s, op).1.Ok? {
      var row := Item(s.nextId, op.owner, if op.layer == "" then DETACHED else op.layer, op.title, op.content,
                      op.description, op.tags, op.source, key, 1, Active, op.reason, op.createdBy);
      InsertCommits(s, row, op.reason, op.source, op.createdBy);
    }
  }

  lemma EditCommits(cfg: Config, s: Store, op: Input)
    requires Inv(s)
    ensures Commits(s, Edit(cfg, s, op).0, Edit(cfg, s, op).1)
  {
    if Load(cfg, s, op).Ok? {
      UpdateCommits(cfg, s, Load(cfg, s, op).value, op, op.version);
    }
  }

  lemma RemoveCommits(cfg: Config, s: Store, op: Input)
    requires Inv(s)
    ensures Commits(s, Remove(cfg, s, op).0, Remove(cfg, s, op).1)
  {
  }

  lemma RollBackCommits(cfg: Config, s: Store, k: nat, reason: string, operator: string)
    requires Inv(s)
    ensures Commits(s, RollBack(cfg, s, k, reason, operator).0, RollBack(cfg, s, k, reason, operator).1)
  {
  }

  lemma MutationCommits(cfg: Config, s: Store, input: Input)
    requires Inv(s)
    ensures Commits(s, ApplyMutation(cfg, s, input).0, ApplyMutation(cfg, s, input).1)
  {
    var op := Normalized(cfg, input);
    if op.action == "create" {
      CreateCommits(cfg, s, op);
    } else if op.action == "update" {
      EditCommits(cfg, s, op);
    } else {
      RemoveCommits(cfg, s, op);
    }
  }

  /** An operation that fails changes nothing; one that succeeds changes one row and appends the
      revision that leads from the old row to the new one. */
  lemma StepCommits(cfg: Config, s: Store, op: Op)
    requires Inv(s)
    ensures Commits(s, Apply(cfg, s, op).0, Apply(cfg, s, op).1)
    ensures Inv(Apply(cfg, s, op).0)
  {
    match op {
      case Mutate(input) => MutationCommits(cfg, s, input);
      case Rollback(k, reason, operator) => RollBackCommits(cfg, s, k, reason, operator);
    }
    var (s', r) := Apply(cfg, s, op);
    if r.Ok? {
      ExtendsKeepsInv(s, s', s'.items[r.value.itemId]);
    }
  }

  /** In every reachable store the versions count the revisions, every revision starts from the row the
      previous one left, and replaying the log gives the table. */
  lemma {:induction false} LogRefinesStore(cfg: Config, states: seq<Store>, ops: seq<Op>, i: nat)
    requires IsRun(cfg, states, ops) && i < |states| && states[0] == Empty
    ensures Inv(states[i])
  {
    if i > 0 {
      LogRefinesStore(cfg, states, ops, i - 1);
      StepCommits(cfg, states[i - 1], ops[i - 1]);
    }
  }

  ghost predicate Keeps(s: Store, s': Store) {
    && |s.log| <= |s'.log| && s'.log[..|s.log|] == s.log
    && forall id :: id in s.items ==> id in s'.items && SameIdentity(s.items[id], s'.items[id])
  }

  lemma KeepsTransitive(s: Store, s1: Store, s2: Store)
    requires Keeps(s, s1) && Keeps(s1, s2)
    ensures Keeps(s, s2)
  {
    assert s2.log[..|s.log|] == s2.log[..|s1.log|][..|s.log|];
  }

  lemma StepKeeps(cfg: Config, s: Store, op: Op)
    requires Inv(s)
    ensures Keeps(s, Apply(cfg, s, op).0)
  {
    StepCommits(cfg, s, op);
  }

  lemma NextKeeps(cfg: Config, states: seq<Store>, ops: seq<Op>, i: nat)
    requires IsRun(cfg, states, ops) && i < |ops| && states[0] == Empty
    ensures Keeps(states[i], states[i + 1])
  {
    LogRefinesStore(cfg, states, ops, i);
    StepKeeps(cfg, states[i], ops[i]);
  }

  lemma {:induction false} ChainKeeps(states: seq<Store>, i: nat, j: nat)
    requires i <= j < |states|
    requires forall k :: 0 <= k < |states| - 1 ==> Keeps(states[k], states[k + 1])
    ensures Keeps(states[i], states[j])
    decreases j
  {
    if i < j {
      ChainKeeps(states, i, j - 1);
      var a, b, c := states[i], states[j - 1], states[j];
      assert Keeps(b, c) by {
        assert states[j - 1 + 1] == c;
      }
      KeepsTransitive(a, b, c);
    }
  }

  lemma RunKeeps(cfg: Config, states: seq<Store>, ops: seq<Op>, i: nat, j: nat)
    requires IsRun(cfg, states, ops) && i <= j < |states| && states[0] == Empty
    ensures Keeps(states[i], states[j])
  {
    forall k | 0 <= k < |states| - 1
      ensures Keeps(states[k], states[k + 1])
    {
      NextKeeps(cfg, states, ops, k);
    }
    ChainKeeps(states, i, j);
  }

  /** The log only grows, so it still holds every earlier table; and an item, once created, keeps its id,
      owner, key, source and creator, soft-deleted or not. */
  lemma HistoryRecoverable(cfg: Config, states: seq<Store>, ops: seq<Op>, i: nat, j: nat)
    requires IsRun(cfg, states, ops) && i <= j < |states| && states[0] == Empty
    ensures Keeps(states[i], states[j])
    ensures states[i].items == Replay(states[j].log[..|states[i].log|])
  {
    LogRefinesStore(cfg, states, ops, i);
    RunKeeps(cfg, states, ops, i, j);
  }

  ghost predicate Creates(cfg: Config, s: Store, op: Op, owner: Owner, key: string, id: nat) {
    && op.Mutate? && cfg.trim(op.input.action) == "create" && op.input.owner == owner
    && cfg.fingerprint(cfg.trim(op.input.content)) == key
    && Apply(cfg, s, op).1.Ok? && Apply(cfg, s, op).1.value.itemId == id
  }

  lemma CreateStep(cfg: Config, s: Store, op: Op, owner: Owner, key: string, id: nat)
    requires Inv(s) && Creates(cfg, s, op, owner, key, id)
    ensures HasKey(Apply(cfg, s, op).0.items, owner, key, id)
  {
    CreateCommits(cfg, s, Normalized(cfg, op.input));
  }

  /** Writing the same fact for the same owner again never makes a second item. */
  lemma CreateConverges(cfg: Config, states: seq<Store>, ops: seq<Op>, i: nat, j: nat, owner: Owner, key: string, id: nat, id': nat)
    requires IsRun(cfg, states, ops) && i < j < |ops| && states[0] == Empty
    requires Creates(cfg, states[i], ops[i], owner, key, id) && Creates(cfg, states[j], ops[j], owner, key, id')
    ensures id' == id && states[j + 1].items.Keys == states[j].items.Keys
  {
    LogRefinesStore(cfg, states, ops, i);
    LogRefinesStore(cfg, states, ops, j);
    LogRefinesStore(cfg, states, ops, j + 1);
    CreateStep(cfg, states[i], ops[i], owner, key, id);
    CreateStep(cfg, states[j], ops[j], owner, key, id');
    HistoryRecoverable(cfg, states, ops, i + 1, j);
    assert HasKey(states[j].items, owner, key, id);
    HistoryRecoverable(cfg, states, ops, j, j + 1);
    assert HasKey(states[j + 1].items, owner, key, id);
    StepCommits(cfg, states[j], ops[j]);
  }

  predicate SameContent(a: Item, b: Item) {
    && a.layer == b.layer && a.title == b.title && a.content == b.content && a.description == b.description
    && a.tags == b.tags && a.state == b.state
  }

  /** What a successful call leaves behind: the texts of the call after trimming, on an active row; or, for a
      delete, the old row with nothing but its state turned. */
  lemma ReadBack(cfg: Config, s: Store, input: Input)
    requires Inv(s) && ApplyMutation(cfg, s, input).1.Ok?
    ensures
      var (s', r) := ApplyMutation(cfg, s, input);
      var id, action := r.value.itemId, cfg.trim(input.action);
      && id in s'.items && s'.items[id].version == r.value.version
      && (action == "create" ==>
            && s'.items[id].owner == input.owner && s'.items[id].itemKey == cfg.fingerprint(cfg.trim(input.content))
            && (r.value.converged <==> id in s.items))
      && (action != "create" ==>
            id == input.itemId && id in s.items && s.items[id].state.Active? && !r.value.converged)
      && (action == "delete" ==> SameContent(s'.items[id].(state := Active), s.items[id]) && s'.items[id].state.Deleted?)
      && (action != "delete" ==>
            && s'.items[id].state.Active? && s'.items[id].title == cfg.trim(input.title)
            && s'.items[id].content == cfg.trim(input.content) && s'.items[id].description == cfg.trim(input.description)
            && (cfg.trim(input.layer) != "" ==> s'.items[id].layer == cfg.trim(input.layer))
            && (cfg.normalizeTags(input.tags) != "" ==> s'.items[id].tags == cfg.normalizeTags(input.tags)))
  {
    var op := Normalized(cfg, input);
    if op.action == "create" {
      CreateReadBack(cfg, s, op);
    }
  }

  lemma CreateReadBack(cfg: Config, s: Store, op: Input)
    requires Inv(s) && Create(cfg, s, op).1.Ok?
    ensures
      var (s', r) := Create(cfg, s, op);
      var id := r.value.itemId;
      && id in s'.items && s'.items[id].version == r.value.version
      && s'.items[id].owner == op.owner && s'.items[id].itemKey == cfg.fingerprint(op.content)
      && (r.value.converged <==> id in s.items)
      && s'.items[id].state.Active? && s'.items[id].title == op.title
      && s'.items[id].content == op.content && s'.items[id].description == op.description
      && (op.layer != "" ==> s'.items[id].layer == op.layer) && (op.tags != "" ==> s'.items[id].tags == op.tags)
  {
    var key := cfg.fingerprint(op.content);
    if exists id :: HasKey(s.items, op.owner, key, id) {
      var id :| HasKey(s.items, op.owner, key, id);
      assert forall other :: HasKey(s.items, op.owner, key, other) ==> other == id;
    }
  }

  /** One row was written and one revision appended, with the given action, reason, source and author; an existing
      row keeps source and creator, and its layer and tags where none are given; a new one goes to the detached
      layer if none is given. */
  ghost predicate Records(s: Store, s': Store, id: nat, action: Action, reason: string, source: string, who: string,
                          layer: string, tags: string) {
    && |s'.log| == |s.log| + 1 && id in s'.items
    && var row, rev := s'.items[id], s'.log[|s.log|];
       && rev.itemId == id && rev.action == action && rev.source == source && rev.createdBy == who
       && rev.reason == reason && row.lastReason == reason
       && (id in s.items ==>
             && row.version == s.items[id].version + 1 && row.source == s.items[id].source && row.createdBy == s.items[id].createdBy
             && row.layer == (if layer == "" then s.items[id].layer else layer)
             && row.tags == (if tags == "" then s.items[id].tags else tags))
       && (id !in s.items ==>
             && row.version == 1 && row.source == source && row.createdBy == who
             && row.layer == (if layer == "" then "detached" else layer) && row.tags == tags)
  }

  /** What a successful call records beside the texts, in terms of what the caller gave. */
  lemma RecordBack(cfg: Config, s: Store, input: Input)
    requires Inv(s) && ApplyMutation(cfg, s, input).1.Ok?
    ensures
      var (s', r) := ApplyMutation(cfg, s, input);
      var id, reason := r.value.itemId, cfg.trim(input.reason);
      var source, who := if input.source == "" then "model" else input.source, input.createdBy;
      var layer, tags := cfg.trim(input.layer), cfg.normalizeTags(input.tags);
      && (cfg.trim(input.action) == "delete" ==> id in s.items && Records(s, s', id, Removed, reason, source, who, "", ""))
      && (cfg.trim(input.action) == "update" ==> id in s.items && Records(s, s', id, Updated, reason, source, who, layer, tags))
      && (cfg.trim(input.action) == "create" && id in s.items ==>
            Records(s, s', id, Updated, CONVERGED + reason, source, who, layer, tags))
      && (cfg.trim(input.action) == "create" && id !in s.items ==>
            Records(s, s', id, Created, reason, source, who, layer, tags))
  {
    var op := Normalized(cfg, input);
    if op.action == "create" {
      CreateRecord(cfg, s, op);
    } else if op.action == "update" {
      EditRecord(cfg, s, op);
    } else {
      RemoveRecord(cfg, s, op);
    }
  }

  lemma EditRecord(cfg: Config, s: Store, op: Input)
    requires Inv(s) && Edit(cfg, s, op).1.Ok?
    ensures
      var (s', r) := Edit(cfg, s, op);
      r.value.itemId in s.items && Records(s, s', r.value.itemId, Updated, op.reason, op.source, op.createdBy, op.layer, op.tags)
  {
  }

  lemma RemoveRecord(cfg: Config, s: Store, op: Input)
    requires Inv(s) && Remove(cfg, s, op).1.Ok?
    ensures
      var (s', r) := Remove(cfg, s, op);
      r.value.itemId in s.items && Records(s, s', r.value.itemId, Removed, op.reason, op.source, op.createdBy, "", "")
  {
  }

  lemma CreateRecord(cfg: Config, s: Store, op: Input)
    requires Inv(s) && Create(cfg, s, op).1.Ok?
    ensures
      var (s', r) := Create(cfg, s, op);
      var id := r.value.itemId;
      if id in s.items then Records(s, s', id, Updated, CONVERGED + op.reason, op.source, op.createdBy, op.layer, op.tags)
      else Records(s, s', id, Created, op.reason, op.source, op.createdBy, op.layer, op.tags)
  {
    var key := cfg.fingerprint(op.content);
    if id :| HasKey(s.items, op.owner, key, id) {
      assert forall other :: HasKey(s.items, op.owner, key, other) ==> other == id;
    }
  }

  // ---------- which calls are refused, and why ----------

  function ErrorOf(r: Outcome): Option<Error> {
    if r.Err? then Some(r.error) else None
  }

  /** What every call is refused for. */
  function CallRefusal(cfg: Config, i: Input): Option<Error> {
    if cfg.trim(i.reason) == "" || |cfg.trim(i.reason)| > 512 then Some(BadReason)
    else if cfg.trim(i.layer) !in {"", "resident", "detached"} then Some(BadLayer)
    else if cfg.sensitive([cfg.trim(i.title), cfg.trim(i.content), cfg.trim(i.description), cfg.trim(i.reason)]) then Some(Sensitive)
    else None
  }

  /** The caller may write this owner's items: it named no scope, or one that holds them. */
  predicate InScope(allowed: Option<set<string>>, owner: Owner) {
    allowed.None? || owner.ownerType + "|" + owner.ownerKey in allowed.value
  }

  /** What an update or a delete is refused for because of its row. */
  function RowRefusal(cfg: Config, items: map<nat, Item>, i: Input): Option<Error> {
    if !i.hasItem || i.itemId !in items || items[i.itemId].state == Deleted then Some(NoItem)
    else if !InScope(i.allowed, items[i.itemId].owner) then Some(OutOfScope)
    else if i.respectLocked && cfg.hasLocked(items[i.itemId].tags) then Some(Locked)
    else None
  }

  predicate TextsOk(cfg: Config, i: Input) {
    && cfg.trim(cfg.trim(i.title)) != "" && |cfg.trim(i.title)| <= 32
    && cfg.trim(cfg.trim(i.content)) != "" && |cfg.trim(i.content)| <= 500
    && cfg.trim(cfg.trim(i.description)) != "" && |cfg.trim(i.description)| <= 512
  }

  function ResidentCount(items: map<nat, Item>, owner: Owner): nat {
    |set id | id in items && items[id].owner == owner && items[id].state == Active && items[id].layer == "resident"|
  }

  function ActiveCount(items: map<nat, Item>, owner: Owner): nat {
    |set id | id in items && items[id].owner == owner && items[id].state == Active|
  }

  /** The call moves the item up to a resident layer that is full. */
  predicate NoRoomUp(cfg: Config, items: map<nat, Item>, item: Item, i: Input) {
    && cfg.trim(i.layer) == "resident" && item.layer != "resident"
    && ResidentCount(items, item.owner) >= cfg.residentMax
  }

  lemma CountsAgree(items: map<nat, Item>, owner: Owner)
    ensures ResidentCount(items, owner) == |ResidentIds(items, owner)| && ActiveCount(items, owner) == |ActiveIds(items, owner)|
  {
    assert (set id | id in items && items[id].owner == owner && items[id].state == Active && items[id].layer == "resident")
        == ResidentIds(items, owner);
    assert (set id | id in items && items[id].owner == owner && items[id].state == Active) == ActiveIds(items, owner);
  }

  /** A delete succeeds if and only if nothing of this holds, and otherwise fails with the first that does. */
  lemma DeleteRefused(cfg: Config, s: Store, i: Input)
    requires cfg.trim(i.action) == "delete"
    ensures ErrorOf(Apply(cfg, s, Mutate(i)).1) ==
            if CallRefusal(cfg, i).Some? then CallRefusal(cfg, i)
            else if RowRefusal(cfg, s.items, i).Some? then RowRefusal(cfg, s.items, i)
            else if i.version > 0 && i.version != s.items[i.itemId].version then Some(Conflict)
            else None
  {
  }

  /** The same for an update. */
  lemma UpdateRefused(cfg: Config, s: Store, i: Input)
    requires cfg.trim(i.action) == "update"
    ensures ErrorOf(Apply(cfg, s, Mutate(i)).1) ==
            if CallRefusal(cfg, i).Some? then CallRefusal(cfg, i)
            else if RowRefusal(cfg, s.items, i).Some? then RowRefusal(cfg, s.items, i)
            else if !TextsOk(cfg, i) then Some(BadPayload)
            else if NoRoomUp(cfg, s.items, s.items[i.itemId], i) then Some(LayerFull)
            else if i.version > 0 && i.version != s.items[i.itemId].version then Some(Conflict)
            else None
  {
    if RowRefusal(cfg, s.items, i).None? {
      CountsAgree(s.items, s.items[i.itemId].owner);
    }
  }

  /** A create that no row of its owner has the fingerprint of. */
  predicate NewFact(cfg: Config, items: map<nat, Item>, i: Input) {
    forall id :: id in items && items[id].owner == i.owner ==> items[id].itemKey != cfg.fingerprint(cfg.trim(i.content))
  }

  /** The same for a create of a new fact. */
  lemma CreateRefused(cfg: Config, s: Store, i: Input)
    requires cfg.trim(i.action) == "create" && NewFact(cfg, s.items, i)
    ensures ErrorOf(Apply(cfg, s, Mutate(i)).1) ==
            if CallRefusal(cfg, i).Some? then CallRefusal(cfg, i)
            else if !TextsOk(cfg, i) then Some(BadPayload)
            else if !InScope(i.allowed, i.owner) then Some(OutOfScope)
            else if cfg.trim(i.layer) == "resident" && ResidentCount(s.items, i.owner) >= cfg.residentMax then Some(LayerFull)
            else if cfg.trim(i.layer) != "resident" && ActiveCount(s.items, i.owner) >= cfg.detachedMax then Some(LayerFull)
            else None
  {
    CountsAgree(s.items, i.owner);
    assert forall id :: !HasKey(s.items, i.owner, cfg.fingerprint(cfg.trim(i.content)), id);
  }

  /** And for one that finds the row of its fact, soft-deleted or not; no version is asked for. */
  lemma ConvergeRefused(cfg: Config, s: Store, i: Input, id: nat)
    requires Inv(s) && cfg.trim(i.action) == "create"
    requires id in s.items && s.items[id].owner == i.owner && s.items[id].itemKey == cfg.fingerprint(cfg.trim(i.content))
    ensures ErrorOf(Apply(cfg, s, Mutate(i)).1) ==
            if CallRefusal(cfg, i).Some? then CallRefusal(cfg, i)
            else if !TextsOk(cfg, i) then Some(BadPayload)
            else if !InScope(i.allowed, i.owner) then Some(OutOfScope)
            else if i.respectLocked && cfg.hasLocked(s.items[id].tags) then Some(Locked)
            else if NoRoomUp(cfg, s.items, s.items[id], i) then Some(LayerFull)
            else None
  {
    CountsAgree(s.items, i.owner);
    ConvergedOutcome(cfg, s, Normalized(cfg, i), id);
  }

  lemma ConvergedOutcome(cfg: Config, s: Store, op: Input, id: nat)
    requires Inv(s) && HasKey(s.items, op.owner, cfg.fingerprint(op.content), id)
    ensures ErrorOf(Create(cfg, s, op).1) ==
            if !ValidPayload(cfg, op.title, op.content, op.description) then Some(BadPayload)
            else if op.allowed.Some? && ScopeKey(op.owner) !in op.allowed.value then Some(OutOfScope)
            else if op.respectLocked && cfg.hasLocked(s.items[id].tags) then Some(Locked)
            else if op.layer == RESIDENT && s.items[id].layer != RESIDENT && !HasRoom(cfg, s.items, op.owner, RESIDENT)
            then Some(LayerFull) else None
  {
    assert forall other :: HasKey(s.items, op.owner, cfg.fingerprint(op.content), other) ==> other == id;
  }

  /** And for a rollback. */
  lemma RollbackRefused(cfg: Config, s: Store, k: nat, reason: string, operator: string)
    requires Inv(s)
    ensures ErrorOf(Apply(cfg, s, Rollback(k, reason, operator)).1) ==
            if cfg.trim(reason) == "" then Some(BadReason)
            else if k >= |s.log| then Some(NoRevision)
            else if s.log[k].before == None then Some(NotRollbackable)
            else None
  {
  }

  lemma OtherRefused(cfg: Config, s: Store, i: Input)
    requires cfg.trim(i.action) !in {"create", "update", "delete"}
    ensures ErrorOf(Apply(cfg, s, Mutate(i)).1) == if CallRefusal(cfg, i).Some? then CallRefusal(cfg, i) else Some(BadAction)
  {
  }

  ghost predicate WritesAt(cfg: Config, s: Store, op: Op, id: nat, version: int) {
    && op.Mutate? && cfg.trim(op.input.action) in {"update", "delete"}
    && op.input.itemId == id && op.input.version == version && Apply(cfg, s, op).1.Ok?
  }

  lemma WriteNeedsVersion(cfg: Config, s: Store, op: Op, id: nat, version: int)
    requires Inv(s) && version > 0 && WritesAt(cfg, s, op, id, version)
    ensures id in s.items && s.items[id].version == version
    ensures id in Apply(cfg, s, op).0.items && Apply(cfg, s, op).0.items[id].version == version + 1
  {
  }

  lemma {:induction false} RevisionsGrow(log: seq<Revision>, n: nat, id: nat)
    requires n <= |log|
    ensures Revisions(log[..n], id) <= Revisions(log, id)
  {
    if n < |log| {
      RevisionsGrow(log[..|log| - 1], n, id);
      assert log[..|log| - 1][..n] == log[..n];
    } else {
      assert log[..n] == log;
    }
  }

  /** No lost update: of all calls that name the same version of an item, at most one succeeds in a run,
      whatever happens to the item in between. */
  lemma AtMostOneWriterPerVersion(cfg: Config, states: seq<Store>, ops: seq<Op>, i: nat, j: nat, id: nat, version: int)
    requires IsRun(cfg, states, ops) && i < j < |ops| && states[0] == Empty && version > 0
    requires WritesAt(cfg, states[i], ops[i], id, version)
    ensures !WritesAt(cfg, states[j], ops[j], id, version)
  {
    LogRefinesStore(cfg, states, ops, i);
    LogRefinesStore(cfg, states, ops, i + 1);
    LogRefinesStore(cfg, states, ops, j);
    WriteNeedsVersion(cfg, states[i], ops[i], id, version);
    RunKeeps(cfg, states, ops, i + 1, j);
    RevisionsGrow(states[j].log, |states[i + 1].log|, id);
    if WritesAt(cfg, states[j], ops[j], id, version) {
      WriteNeedsVersion(cfg, states[j], ops[j], id, version);
    }
  }

  // ---------- rollback ----------

  /** Rolling back any revision but a create, at any later time, gives the item exactly what it held just
      before that revision and touches no other item. */
  lemma RollbackRestores(cfg: Config, s: Store, k: nat, reason: string, operator: string)
    requires Inv(s) && k < |s.log| && s.log[k].before.Some? && cfg.trim(reason) != ""
    ensures
      var (s', r) := RollBack(cfg, s, k, reason, operator);
      var id := s.log[k].itemId;
      && r == Ok(Done(id, s.items[id].version + 1, false))
      && s'.items.Keys == s.items.Keys
      && id in Replay(s.log[..k]) && SameContent(s'.items[id], Replay(s.log[..k])[id])
      && SameIdentity(s'.items[id], s.items[id])
      && (forall other :: other in s.items && other != id ==> s'.items[other] == s.items[other])
  {
  }

  /** In every run, a rollback at any later time gives the item what it held in the very state in which the
      revision was written. */
  lemma RollbackReachesBack(cfg: Config, states: seq<Store>, ops: seq<Op>, i: nat, j: nat, reason: string, operator: string)
    requires IsRun(cfg, states, ops) && i < j < |states| && states[0] == Empty && cfg.trim(reason) != ""
    requires |states[i].log| < |states[j].log| && states[j].log[|states[i].log|].before.Some?
    ensures
      var k := |states[i].log|;
      var id := states[j].log[k].itemId;
      var (s', r) := RollBack(cfg, states[j], k, reason, operator);
      && r.Ok? && r.value.itemId == id && id in states[i].items && id in s'.items
      && SameContent(s'.items[id], states[i].items[id]) && SameIdentity(s'.items[id], states[i].items[id])
      && (forall other :: other in states[j].items && other != id ==> other in s'.items && s'.items[other] == states[j].items[other])
  {
    LogRefinesStore(cfg, states, ops, j);
    HistoryRecoverable(cfg, states, ops, i, j);
    RollbackRestores(cfg, states[j], |states[i].log|, reason, operator);
  }

  /** What a rollback records: who did it, in the name of the management side, with the given reason. */
  lemma RollbackRecords(cfg: Config, s: Store, k: nat, reason: string, operator: string)
    requires Inv(s) && k < |s.log| && s.log[k].before.Some? && cfg.trim(reason) != ""
    ensures
      var (s', r) := RollBack(cfg, s, k, reason, operator);
      var id := s.log[k].itemId;
      && |s'.log| == |s.log| + 1 && id in s'.items && id in s.items
      && var rev := s'.log[|s.log|];
         && rev.itemId == id && rev.action == RolledBack && rev.source == "admin" && rev.createdBy == operator
         && rev.reason == cfg.rollbackReason(k, cfg.trim(reason)) && s'.items[id].lastReason == rev.reason
         && rev.before == Some(s.items[id]) && rev.after == Some(s'.items[id])
  {
  }

  lemma RollbackIsLogged(cfg: Config, s: Store, k: nat, reason: string, operator: string)
    requires Inv(s) && RollBack(cfg, s, k, reason, operator).1.Ok?
    ensures
      var s' := RollBack(cfg, s, k, reason, operator).0;
      && k < |s.log| && |s'.log| == |s.log| + 1
      && s'.log[|s.log|].itemId == s.log[k].itemId && s'.log[|s.log|].before.Some?
  {
  }

  lemma LogEntryStays(cfg: Config, states: seq<Store>, ops: seq<Op>, i: nat, j: nat, k: nat)
    requires IsRun(cfg, states, ops) && i <= j < |states| && states[0] == Empty && k < |states[i].log|
    ensures k < |states[j].log| && states[j].log[k] == states[i].log[k]
  {
    RunKeeps(cfg, states, ops, i, j);
    assert states[j].log[..|states[i].log|][k] == states[j].log[k];
  }

  /** So a rollback can itself be rolled back, after whatever came in between: the item is as it was before it. */
  lemma RollbackUndone(cfg: Config, states: seq<Store>, ops: seq<Op>, i: nat, j: nat, reason: string, operator: string)
    requires IsRun(cfg, states, ops) && i < j < |states| && states[0] == Empty && cfg.trim(reason) != ""
    requires ops[i].Rollback? && Apply(cfg, states[i], ops[i]).1.Ok? && ops[i].revision < |states[i].log|
    ensures
      var id := states[i].log[ops[i].revision].itemId;
      var (s', r) := RollBack(cfg, states[j], |states[i].log|, reason, operator);
      && r.Ok? && r.value.itemId == id && id in states[i].items && id in s'.items
      && SameContent(s'.items[id], states[i].items[id]) && SameIdentity(s'.items[id], states[i].items[id])
  {
    LogRefinesStore(cfg, states, ops, i);
    RollbackIsLogged(cfg, states[i], ops[i].revision, ops[i].reason, ops[i].operator);
    LogEntryStays(cfg, states, ops, i + 1, j, |states[i].log|);
    RollbackReachesBack(cfg, states, ops, i, j, reason, operator);
  }

  // ---------- the cap on resident items ----------

  predicate InResident(i: Item) {
    i.state.Active? && i.layer == RESIDENT
  }

  ghost predicate WithinCap(cfg: Config, s: Store) {
    forall owner :: |ResidentIds(s.items, owner)| <= cfg.residentMax
  }

  /** What every call is checked for before it reaches the store. */
  predicate Admitted(cfg: Config, op: Input) {
    && op.reason != "" && |op.reason| <= MAX_REASON
    && (op.layer == "" || op.layer == RESIDENT || op.layer == DETACHED)
    && !cfg.sensitive([op.title, op.content, op.description, op.reason])
  }

  /** The row is a soft-deleted resident one that the call finds by its key and may write. */
  predicate Revivable(cfg: Config, items: map<nat, Item>, op: Input, id: nat) {
    && HasKey(items, op.owner, cfg.fingerprint(op.content), id)
    && items[id].state.Deleted? && items[id].layer == RESIDENT
    && !(op.respectLocked && cfg.hasLocked(items[id].tags))
  }

  /** A valid create, in scope, of a fact whose row is soft-deleted, unlocked and resident, asking for no
      other layer, while the owner's layer is full. */
  ghost predicate RevivesOverCap(cfg: Config, s: Store, input: Input) {
    var op := Normalized(cfg, input);
    && op.action == "create" && Admitted(cfg, op)
    && CreateRevivesOverCap(cfg, s, op)
  }

  ghost predicate CreateRevivesOverCap(cfg: Config, s: Store, op: Input) {
    && ValidPayload(cfg, op.title, op.content, op.description)
    && (op.allowed.None? || ScopeKey(op.owner) in op.allowed.value)
    && (op.layer == "" || op.layer == RESIDENT)
    && |ResidentIds(s.items, op.owner)| >= cfg.residentMax
    && exists id :: Revivable(cfg, s.items, op, id)
  }

  /** A rollback with a reason that makes a row resident and active that was not, while the layer is full. */
  predicate RollsBackOverCap(cfg: Config, s: Store, k: nat, reason: string) {
    && cfg.trim(reason) != ""
    && k < |s.log| && s.log[k].before.Some? && s.log[k].itemId in s.items
    && InResident(s.log[k].before.value) && !InResident(s.items[s.log[k].itemId])
    && |ResidentIds(s.items, s.items[s.log[k].itemId].owner)| >= cfg.residentMax
  }

  ghost predicate OverCap(cfg: Config, s: Store, op: Op) {
    match op
    case Mutate(input) => RevivesOverCap(cfg, s, input)
    case Rollback(k, reason, _) => RollsBackOverCap(cfg, s, k, reason)
  }

  lemma CountChange(a: set<nat>, b: set<nat>, x: nat)
    requires a - {x} == b - {x}
    ensures |b| == |a| + (if x in b then 1 else 0) - (if x in a then 1 else 0)
  {
    assert x in a ==> a == (a - {x}) + {x};
    assert x in b ==> b == (b - {x}) + {x};
    assert x !in a ==> a == a - {x};
    assert x !in b ==> b == b - {x};
  }

  /** The operation adds the row it writes to the resident layer of a full owner. */
  ghost predicate JoinsFull(cfg: Config, s: Store, row: Item) {
    && InResident(row) && !(row.id in s.items && InResident(s.items[row.id]))
    && |ResidentIds(s.items, row.owner)| >= cfg.residentMax
  }

  lemma OtherOwnersSame(items: map<nat, Item>, row: Item, owner: Owner)
    requires owner != row.owner && (row.id in items ==> items[row.id].owner == row.owner)
    ensures ResidentIds(items[row.id := row], owner) == ResidentIds(items, owner)
  {
  }

  lemma OwnersCount(items: map<nat, Item>, row: Item)
    requires row.id in items ==> items[row.id].owner == row.owner
    ensures |ResidentIds(items[row.id := row], row.owner)| ==
            |ResidentIds(items, row.owner)| + (if InResident(row) then 1 else 0)
              - (if row.id in items && InResident(items[row.id]) then 1 else 0)
  {
    var a, b := ResidentIds(items, row.owner), ResidentIds(items[row.id := row], row.owner);
    assert a - {row.id} == b - {row.id};
    CountChange(a, b, row.id);
  }

  lemma CapOfRow(cfg: Config, s: Store, s': Store, row: Item)
    requires Inv(s) && WithinCap(cfg, s) && Extends(s, s', row)
    ensures WithinCap(cfg, s') <==> !JoinsFull(cfg, s, row)
  {
    OwnersCount(s.items, row);
    assert |ResidentIds(s.items, row.owner)| <= cfg.residentMax;
    forall owner | owner != row.owner
      ensures |ResidentIds(s'.items, owner)| <= cfg.residentMax
    {
      OtherOwnersSame(s.items, row, owner);
    }
  }

  /** The check of a layer is exact: it passes if and only if the layer is within its cap once it has one
      more row, created, moved up or revived. */
  lemma RoomIff(cfg: Config, items: map<nat, Item>, row: Item)
    requires row.state.Active?
    requires row.id in items && items[row.id].owner == row.owner && items[row.id].state.Active? ==>
               row.layer == RESIDENT && items[row.id].layer != RESIDENT
    ensures HasRoom(cfg, items, row.owner, row.layer) <==>
            if row.layer == RESIDENT then |ResidentIds(items[row.id := row], row.owner)| <= cfg.residentMax
            else |ActiveIds(items[row.id := row], row.owner)| <= cfg.detachedMax
  {
    var items' := items[row.id := row];
    var a, b := ResidentIds(items, row.owner), ResidentIds(items', row.owner);
    assert a - {row.id} == b - {row.id};
    CountChange(a, b, row.id);
    var c, d := ActiveIds(items, row.owner), ActiveIds(items', row.owner);
    assert c - {row.id} == d - {row.id};
    CountChange(c, d, row.id);
  }

  /** An operation takes the store over the cap exactly in those two cases. */
  lemma CapStep(cfg: Config, s: Store, op: Op)
    requires Inv(s) && WithinCap(cfg, s)
    ensures WithinCap(cfg, Apply(cfg, s, op).0) <==> !OverCap(cfg, s, op)
  {
    var (s', r) := Apply(cfg, s, op);
    StepCommits(cfg, s, op);
    if r.Ok? {
      CapOfRow(cfg, s, s', s'.items[r.value.itemId]);
    }
    match op {
      case Mutate(input) => CapMutation(cfg, s, input);
      case Rollback(k, reason, operator) => CapRollback(cfg, s, k, reason, operator);
    }
  }

  /** The outcome is a row that joins a full layer. */
  ghost predicate JoinsFullLayer(cfg: Config, s: Store, s': Store, r: Outcome) {
    r.Ok? && r.value.itemId in s'.items && JoinsFull(cfg, s, s'.items[r.value.itemId])
  }

  lemma CapMutation(cfg: Config, s: Store, input: Input)
    requires Inv(s)
    ensures
      var (s', r) := ApplyMutation(cfg, s, input);
      RevivesOverCap(cfg, s, input) <==> JoinsFullLayer(cfg, s, s', r)
  {
    var op := Normalized(cfg, input);
    if op.action == "create" && Admitted(cfg, op) {
      CapCreate(cfg, s, op);
    } else if op.action == "update" {
      CapEdit(cfg, s, op);
    }
  }

  lemma CapEdit(cfg: Config, s: Store, op: Input)
    requires Inv(s)
    ensures !JoinsFullLayer(cfg, s, Edit(cfg, s, op).0, Edit(cfg, s, op).1)
  {
    if Load(cfg, s, op).Ok? {
      UpdateCommits(cfg, s, Load(cfg, s, op).value, op, op.version);
    }
  }

  lemma CapCreate(cfg: Config, s: Store, op: Input)
    requires Inv(s) && (op.layer == "" || op.layer == RESIDENT || op.layer == DETACHED)
    ensures
      var (s', r) := Create(cfg, s, op);
      JoinsFullLayer(cfg, s, s', r) <==> CreateRevivesOverCap(cfg, s, op)
  {
    if id :| HasKey(s.items, op.owner, cfg.fingerprint(op.content), id) {
      CapConverged(cfg, s, op, id);
    }
  }

  lemma CapConverged(cfg: Config, s: Store, op: Input, id: nat)
    requires Inv(s) && (op.layer == "" || op.layer == RESIDENT || op.layer == DETACHED)
    requires HasKey(s.items, op.owner, cfg.fingerprint(op.content), id)
    ensures
      var (s', r) := Create(cfg, s, op);
      JoinsFullLayer(cfg, s, s', r) <==> CreateRevivesOverCap(cfg, s, op)
  {
    assert forall other :: HasKey(s.items, op.owner, cfg.fingerprint(op.content), other) ==> other == id;
    assert (exists other :: Revivable(cfg, s.items, op, other)) <==> Revivable(cfg, s.items, op, id);
  }

  lemma CapRollback(cfg: Config, s: Store, k: nat, reason: string, operator: string)
    requires Inv(s)
    ensures
      var (s', r) := RollBack(cfg, s, k, reason, operator);
      RollsBackOverCap(cfg, s, k, reason) <==> JoinsFullLayer(cfg, s, s', r)
  {
  }

  /** Runs in which no operation is one of those two stay within the cap, and the first that is breaks it. */
  lemma {:induction false} CapOverRuns(cfg: Config, states: seq<Store>, ops: seq<Op>)
    requires IsRun(cfg, states, ops) && states[0] == Empty && cfg.residentMax >= 0
    ensures (forall i :: 0 <= i < |states| ==> WithinCap(cfg, states[i])) <==>
            (forall i :: 0 <= i < |ops| ==> !OverCap(cfg, states[i], ops[i]))
  {
    if forall i :: 0 <= i < |states| ==> WithinCap(cfg, states[i]) {
      forall i | 0 <= i < |ops|
        ensures !OverCap(cfg, states[i], ops[i])
      {
        LogRefinesStore(cfg, states, ops, i);
        CapStep(cfg, states[i], ops[i]);
        assert WithinCap(cfg, states[i + 1]);
      }
    } else {
      var i :| 0 <= i < |states| && !WithinCap(cfg, states[i]);
      CapBreaks(cfg, states, ops, i);
    }
  }

  lemma {:induction false} CapBreaks(cfg: Config, states: seq<Store>, ops: seq<Op>, n: nat)
    requires IsRun(cfg, states, ops) && states[0] == Empty && cfg.residentMax >= 0
    requires n < |states| && !WithinCap(cfg, states[n])
    ensures exists i :: 0 <= i < |ops| && OverCap(cfg, states[i], ops[i])
  {
    if n > 0 {
      LogRefinesStore(cfg, states, ops, n - 1);
      if WithinCap(cfg, states[n - 1]) {
        CapStep(cfg, states[n - 1], ops[n - 1]);
      } else {
        CapBreaks(cfg, states, ops, n - 1);
      }
    }
  }

  // ---------- the two ways over the cap, on a layer of one ----------

  const OneResident := Config(
    (s: string) => s, (s: string) => s, (s: string) => s, (s: string) => false, (ss: seq<string>) => false,
    (k: nat, reason: string) => reason, 1, 1)

  const Ann := Owner("user", "ann")

  function Call(action: string, itemId: nat, content: string): Op {
    Mutate(Input(action, itemId, true, 0, RESIDENT, "t", content, "d", "", "why", Ann, "model", "ann", None, false))
  }

  function Fact(itemId: nat, content: string, version: int, state: LifeState, reason: string): Item {
    Item(itemId, Ann, RESIDENT, "t", content, "d", "", "model", content, version, state, reason, "ann")
  }

  const FillOps := [Call("create", 0, "a"), Call("delete", 0, "a"), Call("create", 0, "b")]

  lemma OneOwnerCap(s: Store)
    requires forall id :: id in s.items ==> s.items[id].owner == Ann
    requires |ResidentIds(s.items, Ann)| <= 1
    ensures WithinCap(OneResident, s)
  {
    forall owner
      ensures |ResidentIds(s.items, owner)| <= 1
    {
      if owner != Ann {
        assert ResidentIds(s.items, owner) == {};
      }
    }
  }

  /** Create `a`, delete it, create `b`: the layer of one is full and `a` is a soft-deleted resident row. */
  lemma FullLayer() returns (states: seq<Store>)
    ensures IsRun(OneResident, states, FillOps) && states[0] == Empty
    ensures forall i :: 0 <= i < |states| ==> WithinCap(OneResident, states[i])
    ensures states[3].items == map[0 := Fact(0, "a", 2, Deleted, "why"), 1 := Fact(1, "b", 1, Active, "why")]
    ensures |states[3].log| == 3 && states[3].log[1].itemId == 0
    ensures states[3].log[1].before == Some(Fact(0, "a", 1, Active, "why"))
  {
    var s1 := Apply(OneResident, Empty, FillOps[0]).0;
    assert s1.items == map[0 := Fact(0, "a", 1, Active, "why")] by {
      assert ResidentIds(Empty.items, Ann) == {};
    }
    var s2 := Apply(OneResident, s1, FillOps[1]).0;
    assert s2.items == map[0 := Fact(0, "a", 2, Deleted, "why")];
    var s3 := Apply(OneResident, s2, FillOps[2]).0;
    assert ResidentIds(s2.items, Ann) == {};
    assert "a" != "b";
    assert s3.items == s2.items[1 := Fact(1, "b", 1, Active, "why")];
    states := [Empty, s1, s2, s3];
    assert ResidentIds(Empty.items, Ann) == {} && ResidentIds(s1.items, Ann) == {0} && ResidentIds(s3.items, Ann) == {1};
    OneOwnerCap(Empty);
    OneOwnerCap(s1);
    OneOwnerCap(s2);
    OneOwnerCap(s3);
  }

  /** Creating `a` again revives the soft-deleted row past the full layer. */
  lemma ReviveExceedsCap() returns (states: seq<Store>)
    ensures IsRun(OneResident, states, FillOps + [Call("create", 0, "a")]) && states[0] == Empty
    ensures forall i :: 0 <= i < 4 ==> WithinCap(OneResident, states[i])
    ensures !WithinCap(OneResident, states[4])
  {
    var before := FullLayer();
    var s := before[3];
    assert HasKey(s.items, Ann, "a", 0);
    assert forall id :: HasKey(s.items, Ann, "a", id) ==> id == 0;
    var s' := Apply(OneResident, s, Call("create", 0, "a")).0;
    assert s'.items[0].state.Active?;
    assert ResidentIds(s'.items, Ann) == {0, 1};
    states := before + [s'];
  }

  /** Rolling the delete of `a` back does the same. */
  lemma RollbackExceedsCap() returns (states: seq<Store>)
    ensures IsRun(OneResident, states, FillOps + [Rollback(1, "why", "op")]) && states[0] == Empty
    ensures forall i :: 0 <= i < 4 ==> WithinCap(OneResident, states[i])
    ensures !WithinCap(OneResident, states[4])
  {
    var before := FullLayer();
    var s' := Apply(OneResident, before[3], Rollback(1, "why", "op")).0;
    assert ResidentIds(s'.items, Ann) == {0, 1};
    states := before + [s'];
  }
}
