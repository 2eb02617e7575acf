/** Several bundles at once: `service/bundle/bundle.go` run for one bundle after another, and their uninstalls in
    any order. */
module BundleOrder {
  import opened Common
  import opened Bundle

  // ---------- several bundles ----------

  /** Install one bundle after another; the lists of what each has to undo. */
  function InstallAll(rules: Rules, st: State, bundles: seq<(seq<Draft>, Request)>): (State, seq<Log>) {
    if |bundles| == 0 then (st, [])
    else
      var (st', logs) := InstallAll(rules, st, bundles[..|bundles| - 1]);
      var p := InstallFrom(rules, st', bundles[|bundles| - 1].0, bundles[|bundles| - 1].1);
      (p.st, logs + [p.log])
  }

  /** Uninstall them, the last of the list first. */
  function UndoAll(reg: Registry, logs: seq<Log>, w: World): Registry
    decreases |logs|
  {
    if |logs| == 0 then reg else UndoAll(Undo(reg, logs[|logs| - 1], w).0, logs[..|logs| - 1], w)
  }

  /** A bundle can still be undone after later ones came and went. */
  lemma UndoableUnderBack(a: Registry, next: nat, b: State, log: Log, reg: Registry)
    requires Undoable(a, next, b.reg, log) && Holds(b, log) && next <= b.next && Back(b.reg, b.next, reg)
    ensures Undoable(a, next, reg, log)
  {
    forall k | k in reg
      ensures RowUndoable(a, next, k, reg[k], FirstTouch(log, reg[k].id))
    {
      FirstTouchIn(log, reg[k].id);
      assert RowBack(b.reg, b.next, k, reg[k]);
      if k in b.reg {
        assert RowUndoable(a, next, k, b.reg[k], FirstTouch(log, b.reg[k].id));
      }
    }
    forall k, i | k in reg && 0 <= i < |log| && log[i].id == reg[k].id && log[i].prev.Some?
      ensures Frame(log[i].prev.value, reg[k])
    {
      assert RowBack(b.reg, b.next, k, reg[k]);
    }
  }

  lemma {:induction false} ReverseOrderFrom(rules: Rules, st: State, bundles: seq<(seq<Draft>, Request)>, w: World, reg: Registry)
    requires WF(st) && AllUp(w)
    requires Back(InstallAll(rules, st, bundles).0.reg, InstallAll(rules, st, bundles).0.next, reg)
    ensures Back(st.reg, st.next, UndoAll(reg, InstallAll(rules, st, bundles).1, w))
    decreases |bundles|
  {
    var n := |bundles|;
    if n > 0 {
      var (st', logs) := InstallAll(rules, st, bundles[..n - 1]);
      InstallAllKeepsWF(rules, st, bundles[..n - 1]);
      InstallUndoable(rules, st', bundles[n - 1].0, bundles[n - 1].1);
      var p := InstallFrom(rules, st', bundles[n - 1].0, bundles[n - 1].1);
      UndoableUnderBack(st'.reg, st'.next, p.st, p.log, reg);
      UndoRestores(st'.reg, st'.next, reg, p.log, w);
      UndoCompletes(reg, p.log, w);
      ReverseOrderFrom(rules, st, bundles[..n - 1], w, Undo(reg, p.log, w).0);
      assert (logs + [p.log])[..n - 1] == logs by {
        InstallAllCount(rules, st, bundles[..n - 1]);
      }
    }
  }

  lemma {:induction false} InstallAllCount(rules: Rules, st: State, bundles: seq<(seq<Draft>, Request)>)
    ensures |InstallAll(rules, st, bundles).1| == |bundles|
  {
    if |bundles| > 0 {
      InstallAllCount(rules, st, bundles[..|bundles| - 1]);
    }
  }

  lemma {:induction false} InstallAllKeepsWF(rules: Rules, st: State, bundles: seq<(seq<Draft>, Request)>)
    requires WF(st)
    ensures WF(InstallAll(rules, st, bundles).0) && st.next <= InstallAll(rules, st, bundles).0.next
  {
    if |bundles| > 0 {
      InstallAllKeepsWF(rules, st, bundles[..|bundles| - 1]);
      var st' := InstallAll(rules, st, bundles[..|bundles| - 1]).0;
      InstallUndoable(rules, st', bundles[|bundles| - 1].0, bundles[|bundles| - 1].1);
    }
  }

  /** Bundles installed one after the other and uninstalled in reverse order, sharing rows or not. */
  lemma ReverseOrderRestores(rules: Rules, st: State, bundles: seq<(seq<Draft>, Request)>, w: World)
    requires WF(st) && AllUp(w)
    ensures
      var (st', logs) := InstallAll(rules, st, bundles);
      Back(st.reg, st.next, UndoAll(st'.reg, logs, w))
  {
    InstallAllKeepsWF(rules, st, bundles);
    ReverseOrderFrom(rules, st, bundles, w, InstallAll(rules, st, bundles).0.reg);
  }

  // ---------- any order, when the rows are disjoint ----------

  predicate Touches(log: Log, id: nat) {
    exists i :: 0 <= i < |log| && log[i].id == id
  }

  ghost predicate Disjoint(logs: seq<Log>) {
    forall i, j, id :: 0 <= i < j < |logs| ==> !(Touches(logs[i], id) && Touches(logs[j], id))
  }

  /** One row through a complete uninstall. */
  function Chain(log: Log, r: Row, w: World): Row {
    if |log| == 0 then r
    else
      var n := |log| - 1;
      Chain(log[..n], if log[n].id == r.id then UndoRow(log[n], r, w(n).now) else r, w)
  }

  lemma {:induction false} UndoPointwise(reg: Registry, log: Log, w: World)
    requires AllUp(w)
    ensures Undo(reg, log, w).0.Keys == reg.Keys
    ensures forall k :: k in reg ==> Undo(reg, log, w).0[k] == Chain(log, reg[k], w)
    decreases |log|
  {
    if |log| > 0 {
      var n := |log| - 1;
      UndoPointwise(UndoEntry(reg, log[n], w(n).now), log[..n], w);
    }
  }

  lemma {:induction false} ChainTouches(log: Log, r: Row, w: World)
    ensures Chain(log, r, w).id == r.id
    ensures !Touches(log, r.id) ==> Chain(log, r, w) == r
    decreases |log|
  {
    if |log| > 0 {
      var n := |log| - 1;
      var r' := if log[n].id == r.id then UndoRow(log[n], r, w(n).now) else r;
      ChainTouches(log[..n], r', w);
      if !Touches(log, r.id) {
        assert log[n].id != r.id;
        assert forall i :: 0 <= i < n ==> log[..n][i] == log[i];
      }
    }
  }

  lemma {:induction false} UndoAllKeys(reg: Registry, logs: seq<Log>, w: World)
    requires AllUp(w)
    ensures UndoAll(reg, logs, w).Keys == reg.Keys
    decreases |logs|
  {
    if |logs| > 0 {
      UndoPointwise(reg, logs[|logs| - 1], w);
      UndoAllKeys(Undo(reg, logs[|logs| - 1], w).0, logs[..|logs| - 1], w);
    }
  }

  /** The one log that touches a row decides it. */
  lemma {:induction false} UndoAllPointwise(reg: Registry, logs: seq<Log>, w: World, k: Key)
    requires AllUp(w) && Disjoint(logs) && k in reg
    ensures k in UndoAll(reg, logs, w)
    ensures forall i :: 0 <= i < |logs| && Touches(logs[i], reg[k].id) ==> UndoAll(reg, logs, w)[k] == Chain(logs[i], reg[k], w)
    ensures (forall i :: 0 <= i < |logs| ==> !Touches(logs[i], reg[k].id)) ==> UndoAll(reg, logs, w)[k] == reg[k]
    decreases |logs|
  {
    if |logs| > 0 {
      var n := |logs| - 1;
      UndoPointwise(reg, logs[n], w);
      ChainTouches(logs[n], reg[k], w);
      var reg' := Undo(reg, logs[n], w).0;
      assert forall i :: 0 <= i < n ==> logs[..n][i] == logs[i];
      UndoAllPointwise(reg', logs[..n], w, k);
      if Touches(logs[n], reg[k].id) {
        assert forall i :: 0 <= i < n ==> !Touches(logs[i], reg[k].id);
      }
    }
  }

  /** Bundles that touch different rows may be uninstalled in any order. */
  lemma AnyOrderRestores(rules: Rules, st: State, bundles: seq<(seq<Draft>, Request)>, order: seq<Log>, w: World)
    requires WF(st) && AllUp(w) && Disjoint(InstallAll(rules, st, bundles).1) && Disjoint(order)
    requires forall log :: log in order <==> log in InstallAll(rules, st, bundles).1
    ensures UndoAll(InstallAll(rules, st, bundles).0.reg, order, w) ==
            UndoAll(InstallAll(rules, st, bundles).0.reg, InstallAll(rules, st, bundles).1, w)
    ensures Back(st.reg, st.next, UndoAll(InstallAll(rules, st, bundles).0.reg, order, w))
  {
    var (st', logs) := InstallAll(rules, st, bundles);
    ReverseOrderRestores(rules, st, bundles, w);
    SameLogsSameRegistry(st'.reg, logs, order, w);
  }

  lemma SameLogsSameRegistry(reg: Registry, logs: seq<Log>, order: seq<Log>, w: World)
    requires AllUp(w) && Disjoint(logs) && Disjoint(order)
    requires forall log :: log in order <==> log in logs
    ensures UndoAll(reg, order, w) == UndoAll(reg, logs, w)
  {
    UndoAllKeys(reg, logs, w);
    UndoAllKeys(reg, order, w);
    forall k | k in reg
      ensures UndoAll(reg, order, w)[k] == UndoAll(reg, logs, w)[k]
    {
      UndoAllPointwise(reg, logs, w, k);
      UndoAllPointwise(reg, order, w, k);
      if i :| 0 <= i < |logs| && Touches(logs[i], reg[k].id) {
        assert logs[i] in order;
        var j :| 0 <= j < |order| && order[j] == logs[i];
        assert Touches(order[j], reg[k].id);
      } else {
        forall j | 0 <= j < |order|
          ensures !Touches(order[j], reg[k].id)
        {
          assert order[j] in logs;
        }
      }
    }
  }

  // ---------- one row of an uninstall ----------

  predicate RowFramed(log: Log, r: Row) {
    forall i :: 0 <= i < |log| && log[i].id == r.id && log[i].prev.Some? ==> Frame(log[i].prev.value, r)
  }

  function Step(log: Log, r: Row, w: World): Row
    requires |log| > 0
  {
    var n := |log| - 1;
    if log[n].id == r.id then UndoRow(log[n], r, w(n).now) else r
  }

  lemma StepFramed(log: Log, r: Row, w: World)
    requires |log| > 0 && RowFramed(log, r) && Ticks(w)
    ensures Step(log, r, w).id == r.id && Frame(r, Step(log, r, w)) && RowFramed(log[..|log| - 1], Step(log, r, w))
    ensures RowFramed(log, Step(log, r, w))
  {
    var n := |log| - 1;
    if log[n].id == r.id {
      UndoRowOf(log[n], r, w(n).now);
    }
    assert forall i :: 0 <= i < n ==> log[..n][i] == log[i];
  }

  // ---------- exactly when an order restores ----------

  /** The resource lists of several bundles as one. */
  function Flatten(logs: seq<Log>): Log {
    if |logs| == 0 then [] else Flatten(logs[..|logs| - 1]) + logs[|logs| - 1]
  }

  lemma {:induction false} FirstTouchConcat(log: Log, more: Log, id: nat)
    ensures FirstTouch(log + more, id) == if FirstTouch(log, id).Some? then FirstTouch(log, id) else FirstTouch(more, id)
    decreases |more|
  {
    if |more| == 0 {
      assert log + more == log;
    } else {
      var n := |more| - 1;
      assert (log + more)[..|log| + n] == log + more[..n];
      FirstTouchConcat(log, more[..n], id);
    }
  }

  /** The row after the entry that is undone last. */
  ghost predicate Outcome(first: Option<Entry>, r: Row, r': Row) {
    && r'.id == r.id
    && (first.None? ==> r' == r)
    && (first.Some? && first.value.prev.Some? ==> r' == WithId(first.value.prev.value, r.id))
    && (first.Some? && first.value.prev.None? ==> Dead(r'))
  }

  lemma {:induction false} ChainOutcome(log: Log, r: Row, w: World)
    requires RowFramed(log, r) && Ticks(w)
    ensures Outcome(FirstTouch(log, r.id), r, Chain(log, r, w)) && Frame(r, Chain(log, r, w))
    decreases |log|
  {
    if |log| > 0 {
      var n := |log| - 1;
      StepFramed(log, r, w);
      if log[n].id == r.id {
        UndoRowOf(log[n], r, w(n).now);
      }
      ChainOutcome(log[..n], Step(log, r, w), w);
    }
  }

  /** Uninstalls in any order leave on each row what the first entry for it in the joined list says. */
  lemma {:induction false} UndoAllOutcome(reg: Registry, order: seq<Log>, w: World, k: Key)
    requires AllUp(w) && k in reg && RowFramed(Flatten(order), reg[k])
    ensures k in UndoAll(reg, order, w) && Outcome(FirstTouch(Flatten(order), reg[k].id), reg[k], UndoAll(reg, order, w)[k])
    decreases |order|
  {
    if |order| > 0 {
      var n := |order| - 1;
      var front, log := Flatten(order[..n]), order[n];
      FirstTouchConcat(front, log, reg[k].id);
      assert forall i :: 0 <= i < |log| ==> Flatten(order)[|front| + i] == log[i];
      UndoPointwise(reg, log, w);
      ChainOutcome(log, reg[k], w);
      assert forall i :: 0 <= i < |front| ==> Flatten(order)[i] == front[i];
      UndoAllOutcome(Undo(reg, log, w).0, order[..n], w, k);
    }
  }

  /** Only the first entry for a row records that it was absent or soft-deleted, and the snapshot of a row
      that kept its id has that id. */
  ghost predicate Opens(log: Log) {
    && (forall i :: 0 <= i < |log| && (log[i].prev.None? || Dead(log[i].prev.value)) ==> FirstTouch(log, log[i].id) == Some(log[i]))
    && (forall i :: 0 <= i < |log| && log[i].prev.Some? && !Dead(log[i].prev.value) ==> log[i].prev.value.id == log[i].id)
  }

  lemma AppliesKeepsOpens(st: State, st': State, log: Log, e: Entry, k: Key)
    requires WF(st) && Applies(st, st', e, k) && Holds(st, log) && Opens(log)
    ensures Opens(log + [e])
  {
    var log' := log + [e];
    FirstTouchIn(log, e.id);
    forall i | 0 <= i < |log'| && (log'[i].prev.None? || Dead(log'[i].prev.value))
      ensures FirstTouch(log', log'[i].id) == Some(log'[i])
    {
      FirstTouchMore(log, e, log'[i].id);
    }
  }

  lemma {:induction false} InstallOpens(rules: Rules, a: Registry, next: nat, p: Progress, ds: seq<Draft>, who: Request)
    requires WF(p.st) && next <= p.st.next && Undoable(a, next, p.st.reg, p.log) && Holds(p.st, p.log) && Opens(p.log)
    ensures Opens(Install(rules, p, ds, who).log)
    decreases |ds|
  {
    if p.ok && |ds| > 0 {
      ContinueUndoable(rules, a, next, p, ds[0], who);
      var q := Continue(rules, p, ds[0], who);
      if q.ok {
        var k := DraftApplies(rules, p.st, ds[0], who);
        AppliesKeepsOpens(p.st, q.st, p.log, q.log[|p.log|], k);
      }
      InstallOpens(rules, a, next, q, ds[1..], who);
    }
  }

  /** An install adds to the list it is given what it would put into an empty one. */
  lemma {:induction false} InstallShift(rules: Rules, before: Log, p: Progress, ds: seq<Draft>, who: Request)
    ensures
      var q := Install(rules, p, ds, who);
      Install(rules, p.(log := before + p.log), ds, who) == q.(log := before + q.log)
    decreases |ds|
  {
    if p.ok && |ds| > 0 {
      var q := Continue(rules, p, ds[0], who);
      assert Continue(rules, p.(log := before + p.log), ds[0], who) == q.(log := before + q.log) by {
        assert q.ok ==> before + (p.log + [q.log[|p.log|]]) == (before + p.log) + [q.log[|p.log|]];
      }
      InstallShift(rules, before, q, ds[1..], who);
    }
  }

  /** Several installs are one as far as undoing goes. */
  lemma {:induction false} InstallAllUndoable(rules: Rules, st: State, bundles: seq<(seq<Draft>, Request)>)
    requires WF(st)
    ensures
      var (st', logs) := InstallAll(rules, st, bundles);
      && WF(st') && st.next <= st'.next && Undoable(st.reg, st.next, st'.reg, Flatten(logs)) && Holds(st', Flatten(logs))
      && Opens(Flatten(logs))
  {
    if |bundles| > 0 {
      var n := |bundles| - 1;
      InstallAllUndoable(rules, st, bundles[..n]);
      var (st1, logs) := InstallAll(rules, st, bundles[..n]);
      var before, ds, who := Flatten(logs), bundles[n].0, bundles[n].1;
      var p := InstallFrom(rules, st1, ds, who);
      InstallShift(rules, before, Progress(st1, [], true), ds, who);
      assert before + [] == before;
      InstallKeepsUndoable(rules, st.reg, st.next, Progress(st1, before, true), ds, who);
      InstallOpens(rules, st.reg, st.next, Progress(st1, before, true), ds, who);
      assert (logs + [p.log])[..|logs|] == logs;
    }
  }

  lemma {:induction false} FlattenMembers(logs: seq<Log>, e: Entry)
    ensures e in Flatten(logs) <==> exists log :: log in logs && e in log
  {
    if |logs| > 0 {
      var n := |logs| - 1;
      FlattenMembers(logs[..n], e);
      assert logs == logs[..n] + [logs[n]];
    }
  }

  lemma SameMembers(logs: seq<Log>, order: seq<Log>)
    requires forall log :: log in order <==> log in logs
    ensures forall e :: e in Flatten(order) <==> e in Flatten(logs)
  {
    forall e
      ensures e in Flatten(order) <==> e in Flatten(logs)
    {
      FlattenMembers(logs, e);
      FlattenMembers(order, e);
    }
  }

  lemma FirstTouchSame(log: Log, log': Log, id: nat)
    requires forall e :: e in log' <==> e in log
    ensures FirstTouch(log', id).Some? <==> FirstTouch(log, id).Some?
    ensures FirstTouch(log', id).Some? ==> FirstTouch(log', id).value in log && FirstTouch(log', id).value.id == id
  {
    FirstTouchIn(log, id);
    FirstTouchIn(log', id);
    if FirstTouch(log', id).Some? {
      var i :| 0 <= i < |log| && log[i] == FirstTouch(log', id).value;
    }
    if FirstTouch(log, id).Some? {
      var i :| 0 <= i < |log'| && log'[i] == FirstTouch(log, id).value;
    }
  }

  /** A row is back if and only if the entry undone last is the one written first. */
  lemma RowBackIff(a: Registry, next: nat, k: Key, r: Row, r': Row, log: Log, last: Option<Entry>)
    requires RowUndoable(a, next, k, r, FirstTouch(log, r.id)) && Opens(log) && Outcome(last, r, r')
    requires last.Some? <==> FirstTouch(log, r.id).Some?
    requires last.Some? ==> last.value in log && last.value.id == r.id
    ensures RowBack(a, next, k, r') <==> last == FirstTouch(log, r.id)
  {
    var first := FirstTouch(log, r.id);
    if last.Some? {
      FirstTouchIn(log, r.id);
      var i :| 0 <= i < |log| && log[i] == last.value;
      var j :| 0 <= j < |log| && log[j] == first.value;
      if first.value.prev.Some? && last.value.prev.Some? {
        var s, t := first.value.prev.value, last.value.prev.value;
        assert WithId(s, s.id) == s && WithId(t, t.id) == t;
        assert last != first ==> !Dead(t) && t.id == r.id;
        assert Dead(s) != Dead(t) ==> WithId(s, r.id) != WithId(t, r.id);
      }
    }
  }

  /** Bundles installed one after the other and uninstalled in any order, as long as each list is undone: the
      registry is back if and only if, for every row, the first entry of the install for it is also the first in
      the joined lists of that order, and so undone last. */
  lemma OrderRestoresIff(rules: Rules, st: State, bundles: seq<(seq<Draft>, Request)>, order: seq<Log>, w: World)
    requires WF(st) && AllUp(w)
    requires forall log :: log in order <==> log in InstallAll(rules, st, bundles).1
    ensures
      var (st', logs) := InstallAll(rules, st, bundles);
      Back(st.reg, st.next, UndoAll(st'.reg, order, w)) <==>
      forall k :: k in st'.reg ==> FirstTouch(Flatten(order), st'.reg[k].id) == FirstTouch(Flatten(logs), st'.reg[k].id)
  {
    var (st', logs) := InstallAll(rules, st, bundles);
    InstallAllUndoable(rules, st, bundles);
    SameMembers(logs, order);
    UndoAllKeys(st'.reg, order, w);
    forall k | k in st'.reg
      ensures RowBack(st.reg, st.next, k, UndoAll(st'.reg, order, w)[k]) <==>
              FirstTouch(Flatten(order), st'.reg[k].id) == FirstTouch(Flatten(logs), st'.reg[k].id)
    {
      OrderOnRow(st.reg, st.next, st', Flatten(logs), order, w, k);
    }
  }

  lemma OrderOnRow(a: Registry, next: nat, st: State, log: Log, order: seq<Log>, w: World, k: Key)
    requires Undoable(a, next, st.reg, log) && Opens(log) && AllUp(w) && k in st.reg
    requires forall e :: e in Flatten(order) <==> e in log
    ensures k in UndoAll(st.reg, order, w)
    ensures RowBack(a, next, k, UndoAll(st.reg, order, w)[k]) <==>
            FirstTouch(Flatten(order), st.reg[k].id) == FirstTouch(log, st.reg[k].id)
  {
    var joined := Flatten(order);
    forall i | 0 <= i < |joined| && joined[i].id == st.reg[k].id && joined[i].prev.Some?
      ensures Frame(joined[i].prev.value, st.reg[k])
    {
      assert joined[i] in log;
      var j :| 0 <= j < |log| && log[j] == joined[i];
    }
    UndoAllOutcome(st.reg, order, w, k);
    FirstTouchSame(log, joined, st.reg[k].id);
    RowBackIff(a, next, k, st.reg[k], UndoAll(st.reg, order, w)[k], log, FirstTouch(joined, st.reg[k].id));
  }

  /** Two bundles, the first uninstalled first: the registry is back if and only if on every row of both the
      first entries of the two lists are equal, that is, the first bundle left the row as it was. */
  lemma FirstUninstalledFirstIff(rules: Rules, st: State, one: (seq<Draft>, Request), two: (seq<Draft>, Request), w: World)
    requires WF(st) && AllUp(w)
    ensures
      var first := InstallFrom(rules, st, one.0, one.1);
      var second := InstallFrom(rules, first.st, two.0, two.1);
      Back(st.reg, st.next, UndoAll(second.st.reg, [second.log, first.log], w)) <==>
      forall k :: k in second.st.reg ==>
        var (f, s) := (FirstTouch(first.log, second.st.reg[k].id), FirstTouch(second.log, second.st.reg[k].id));
        f.Some? && s.Some? ==> f == s
  {
    var first := InstallFrom(rules, st, one.0, one.1);
    var second := InstallFrom(rules, first.st, two.0, two.1);
    InstallTwo(rules, st, one, two);
    FlattenTwo(first.log, second.log);
    FlattenTwo(second.log, first.log);
    OrderRestoresIff(rules, st, [one, two], [second.log, first.log], w);
    forall k | k in second.st.reg
      ensures
        FirstTouch(second.log + first.log, second.st.reg[k].id) == FirstTouch(first.log + second.log, second.st.reg[k].id)
        <==>
        var (f, s) := (FirstTouch(first.log, second.st.reg[k].id), FirstTouch(second.log, second.st.reg[k].id));
        f.Some? && s.Some? ==> f == s
    {
      FirstTouchConcat(first.log, second.log, second.st.reg[k].id);
      FirstTouchConcat(second.log, first.log, second.st.reg[k].id);
    }
  }

  lemma InstallTwo(rules: Rules, st: State, one: (seq<Draft>, Request), two: (seq<Draft>, Request))
    ensures
      var first := InstallFrom(rules, st, one.0, one.1);
      var second := InstallFrom(rules, first.st, two.0, two.1);
      InstallAll(rules, st, [one, two]) == (second.st, [first.log, second.log])
  {
    var first := InstallFrom(rules, st, one.0, one.1);
    InstallMore(rules, st, [], one);
    InstallMore(rules, st, [one], two);
    assert [] + [one] == [one] && [one] + [two] == [one, two];
    assert [] + [first.log] == [first.log];
    assert InstallAll(rules, st, [one]) == (first.st, [first.log]);
    var second := InstallFrom(rules, first.st, two.0, two.1);
    assert [first.log] + [second.log] == [first.log, second.log];
  }

  lemma InstallMore(rules: Rules, st: State, bundles: seq<(seq<Draft>, Request)>, b: (seq<Draft>, Request))
    ensures
      var (st', logs) := InstallAll(rules, st, bundles);
      var p := InstallFrom(rules, st', b.0, b.1);
      InstallAll(rules, st, bundles + [b]) == (p.st, logs + [p.log])
  {
    assert (bundles + [b])[..|bundles|] == bundles;
  }

  lemma FlattenTwo(log: Log, more: Log)
    ensures Flatten([log, more]) == log + more
  {
    assert [log, more][..1] == [log] && [log][..0] == [];
    assert Flatten([log]) == [] + log;
  }

  // ---------- an order that does not restore ----------

  lemma InstallOne(rules: Rules, row: Row, next: nat, d: ServerDraft, who: Request)
    requires row.ServerRow? && !Dead(row) && row.name == d.name
    ensures InstallFrom(rules, State(map[ServerAt(d.name) := row], next), [ForServer(d)], who) ==
            Progress(State(map[ServerAt(d.name) := Repointed(row, d, who)], next), [Entry(row.id, Some(row))], true)
  {
    var st := State(map[ServerAt(d.name) := row], next);
    assert ApplyServer(st, d, who).0.reg == map[ServerAt(d.name) := Repointed(row, d, who)];
    assert [] + [Entry(row.id, Some(row))] == [Entry(row.id, Some(row))];
    var p := Progress(State(map[ServerAt(d.name) := Repointed(row, d, who)], next), [Entry(row.id, Some(row))], true);
    assert Continue(rules, Progress(st, [], true), ForServer(d), who) == p;
    assert [ForServer(d)][1..] == [] && Install(rules, p, [], who) == p;
  }

  lemma UndoOne(reg: Registry, k: Key, snapshot: Row, w: World)
    requires reg.Keys == {k} && AllUp(w) && Frame(snapshot, reg[k]) && snapshot.id == reg[k].id
    ensures Undo(reg, [Entry(snapshot.id, Some(snapshot))], w).0 == map[k := snapshot]
  {
    var log := [Entry(snapshot.id, Some(snapshot))];
    UndoRowOf(log[0], reg[k], w(0).now);
    assert log[..0] == [];
    assert UndoEntry(reg, log[0], w(0).now) == map[k := snapshot];
  }

  lemma UndoTwo(reg: Registry, first: Log, second: Log, w: World)
    ensures UndoAll(reg, [first, second], w) == Undo(Undo(reg, second, w).0, first, w).0
  {
    var reg' := Undo(reg, second, w).0;
    assert [first, second][..1] == [first] && [first][..0] == [];
    assert UndoAll(reg', [first], w) == UndoAll(Undo(reg', first, w).0, [], w);
  }

  /** Two bundles that name the same live server, the first uninstalled first: the registry keeps what the
      first one wrote. */
  lemma OverlapOutOfOrder(rules: Rules, row: Row, who: Request, w: World)
    requires row.ServerRow? && !Dead(row) && row.name == "s" && row.endpoint == "http://old" && AllUp(w)
    ensures
      var st := State(map[ServerAt("s") := row], row.id + 1);
      var first := InstallFrom(rules, st, [ForServer(ServerDraft("s", "http://one", ""))], who);
      var second := InstallFrom(rules, first.st, [ForServer(ServerDraft("s", "http://two", ""))], who);
      && first.ok && second.ok && first.st.reg != st.reg
      && UndoAll(second.st.reg, [first.log, second.log], w) == st.reg
      && UndoAll(second.st.reg, [second.log, first.log], w) == first.st.reg
  {
    var k := ServerAt("s");
    var d1, d2 := ServerDraft("s", "http://one", ""), ServerDraft("s", "http://two", "");
    var row1 := Repointed(row, d1, who);
    var row2 := Repointed(row1, d2, who);
    InstallOne(rules, row, row.id + 1, d1, who);
    InstallOne(rules, row1, row.id + 1, d2, who);
    var (log1, log2) := ([Entry(row.id, Some(row))], [Entry(row.id, Some(row1))]);
    UndoOne(map[k := row2], k, row1, w);
    UndoOne(map[k := row1], k, row, w);
    UndoOne(map[k := row2], k, row, w);
    UndoOne(map[k := row], k, row1, w);
    UndoTwo(map[k := row2], log1, log2, w);
    UndoTwo(map[k := row2], log2, log1, w);
    assert row1.endpoint[7] == 'o' && row1.endpoint[8] == 'n' && row.endpoint[8] == 'l';
    assert map[k := row1][k] != map[k := row][k];
  }
}
