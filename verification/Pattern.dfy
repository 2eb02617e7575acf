/** The structural matcher of `repotools/pattern.go`.

    Go syntax trees are modelled as kinded nodes whose fields are absent, a single child, a list or
    an atom.  `Match*` is the matcher as a pure function (a failed match returns nothing), `Inst*` is
    the declarative reading of a pattern, and `PatternMatcher` is the matcher as the program runs it,
    over a bindings table that is changed in place and left dirty by failed attempts. */
module Pattern {
  import opened Common

  type Binds = map<string, string>

  datatype Node =
    | Ident(name: string)
    | Tree(kind: string, fields: seq<Field>)

  datatype Field =
    | Absent
    | Child(node: Node)
    | List(nodes: seq<Node>)
    | Atom(text: string)

  /** Placeholder identifiers of a compiled pattern with the metavariables they stand for, and the
      renderer of the target file (any function from nodes to text). */
  datatype Matcher = Matcher(one: map<string, string>, multi: map<string, string>, render: Node -> string)

  predicate IsAnonymous(name: string) {
    |name| > 0 && name[0] == '_'
  }

  predicate IsOne(m: Matcher, p: Node) {
    p.Ident? && p.name in m.one
  }

  predicate IsMulti(m: Matcher, p: Node) {
    p.Ident? && p.name in m.multi
  }

  /** The text of a run of nodes: their renderings separated by blanks. */
  function RenderSeq(m: Matcher, ns: seq<Node>): string {
    if |ns| == 0 then ""
    else if |ns| == 1 then m.render(ns[0])
    else RenderSeq(m, ns[..|ns| - 1]) + " " + m.render(ns[|ns| - 1])
  }

  // ---------- the matcher as a function ----------

  function BindOne(m: Matcher, name: string, t: Node, b: Binds): Option<Binds> {
    if name in b then
      if b[name] == m.render(t) then Some(b) else None
    else if IsAnonymous(name) then Some(b)
    else Some(b[name := m.render(t)])
  }

  function BindMulti(m: Matcher, name: string, ts: seq<Node>, b: Binds): Option<Binds> {
    if IsAnonymous(name) then Some(b)
    else if name in b then
      if b[name] == RenderSeq(m, ts) then Some(b) else None
    else Some(b[name := RenderSeq(m, ts)])
  }

  function MatchNode(m: Matcher, p: Node, t: Node, b: Binds): Option<Binds>
    decreases p, 0
  {
    if IsOne(m, p) then BindOne(m, m.one[p.name], t, b)
    else if IsMulti(m, p) then None
    else if p.Ident? then
      if t.Ident? && p.name == t.name then Some(b) else None
    else if t.Tree? && p.kind == t.kind then MatchFields(m, p.fields, t.fields, b)
    else None
  }

  function MatchFields(m: Matcher, fs: seq<Field>, gs: seq<Field>, b: Binds): Option<Binds>
    decreases fs, 0
  {
    if |fs| == 0 || |gs| == 0 then
      if |fs| == |gs| then Some(b) else None
    else
      var r := MatchField(m, fs[0], gs[0], b);
      if r.None? then None else MatchFields(m, fs[1..], gs[1..], r.value)
  }

  function MatchField(m: Matcher, f: Field, g: Field, b: Binds): Option<Binds>
    decreases f, 0
  {
    match (f, g)
    case (Absent, Absent) => Some(b)
    case (Child(p), Child(t)) => MatchNode(m, p, t, b)
    case (List(ps), List(ts)) => MatchSeq(m, ps, ts, b)
    case (Atom(x), Atom(y)) => if x == y then Some(b) else None
    case _ => None
  }

  function MatchSeq(m: Matcher, ps: seq<Node>, ts: seq<Node>, b: Binds): Option<Binds>
    decreases ps, 2, 0
  {
    if |ps| == 0 then
      if |ts| == 0 then Some(b) else None
    else if IsMulti(m, ps[0]) then TrySplits(m, ps, ts, b, 0)
    else if |ts| == 0 then None
    else
      var r := MatchNode(m, ps[0], ts[0], b);
      if r.None? then None else MatchSeq(m, ps[1..], ts[1..], r.value)
  }

  /** One attempt of the `$$$` loop: the metavariable takes the first `k` targets. */
  function TrySplit(m: Matcher, ps: seq<Node>, ts: seq<Node>, b: Binds, k: nat): Option<Binds>
    requires |ps| > 0 && IsMulti(m, ps[0]) && k <= |ts|
    decreases ps, 0, 0
  {
    var r := BindMulti(m, m.multi[ps[0].name], ts[..k], b);
    if r.None? then None else MatchSeq(m, ps[1..], ts[k..], r.value)
  }

  /** The `$$$` loop from attempt `k` on: the first attempt that works. */
  function TrySplits(m: Matcher, ps: seq<Node>, ts: seq<Node>, b: Binds, k: nat): Option<Binds>
    requires |ps| > 0 && IsMulti(m, ps[0]) && k <= |ts|
    decreases ps, 1, |ts| - k
  {
    var r := TrySplit(m, ps, ts, b, k);
    if r.Some? || k == |ts| then r else TrySplits(m, ps, ts, b, k + 1)
  }

  // ---------- what a pattern means ----------

  ghost predicate Extends(b: Binds, s: Binds) {
    forall n :: n in b ==> n in s && s[n] == b[n]
  }

  /** `t` is the instance of `p` under the substitution `s`; `$_` stands for anything. */
  ghost predicate Inst(m: Matcher, p: Node, t: Node, s: Binds)
    decreases p, 0
  {
    if IsOne(m, p) then
      var n := m.one[p.name];
      IsAnonymous(n) || (n in s && s[n] == m.render(t))
    else if IsMulti(m, p) then false
    else if p.Ident? then t == p
    else t.Tree? && p.kind == t.kind && InstFields(m, p.fields, t.fields, s)
  }

  ghost predicate InstFields(m: Matcher, fs: seq<Field>, gs: seq<Field>, s: Binds)
    decreases fs, 0
  {
    |fs| == |gs| && (|fs| > 0 ==> InstField(m, fs[0], gs[0], s) && InstFields(m, fs[1..], gs[1..], s))
  }

  ghost predicate InstField(m: Matcher, f: Field, g: Field, s: Binds)
    decreases f, 0
  {
    match (f, g)
    case (Child(p), Child(t)) => Inst(m, p, t, s)
    case (List(ps), List(ts)) => InstSeq(m, ps, ts, s)
    case _ => f == g && (f.Absent? || f.Atom?)
  }

  ghost predicate InstSeq(m: Matcher, ps: seq<Node>, ts: seq<Node>, s: Binds)
    decreases ps, 1
  {
    if |ps| == 0 then |ts| == 0
    else if IsMulti(m, ps[0]) then exists k: nat :: k <= |ts| && InstSplit(m, ps, ts, s, k)
    else |ts| > 0 && Inst(m, ps[0], ts[0], s) && InstSeq(m, ps[1..], ts[1..], s)
  }

  ghost predicate InstSplit(m: Matcher, ps: seq<Node>, ts: seq<Node>, s: Binds, k: nat)
    requires |ps| > 0 && IsMulti(m, ps[0]) && k <= |ts|
    decreases ps, 0
  {
    var n := m.multi[ps[0].name];
    && (IsAnonymous(n) || (n in s && s[n] == RenderSeq(m, ts[..k])))
    && InstSeq(m, ps[1..], ts[k..], s)
  }

  // ---------- soundness ----------

  lemma {:induction false} InstMonotone(m: Matcher, p: Node, t: Node, s: Binds, s': Binds)
    requires Inst(m, p, t, s) && Extends(s, s')
    ensures Inst(m, p, t, s')
    decreases p, 0
  {
    if !IsOne(m, p) && p.Tree? {
      InstFieldsMonotone(m, p.fields, t.fields, s, s');
    }
  }

  lemma {:induction false} InstFieldsMonotone(m: Matcher, fs: seq<Field>, gs: seq<Field>, s: Binds, s': Binds)
    requires InstFields(m, fs, gs, s) && Extends(s, s')
    ensures InstFields(m, fs, gs, s')
    decreases fs, 0
  {
    if |fs| > 0 {
      InstFieldMonotone(m, fs[0], gs[0], s, s');
      InstFieldsMonotone(m, fs[1..], gs[1..], s, s');
    }
  }

  lemma {:induction false} InstFieldMonotone(m: Matcher, f: Field, g: Field, s: Binds, s': Binds)
    requires InstField(m, f, g, s) && Extends(s, s')
    ensures InstField(m, f, g, s')
    decreases f, 0
  {
    match (f, g)
    case (Child(p), Child(t)) => InstMonotone(m, p, t, s, s');
    case (List(ps), List(ts)) => InstSeqMonotone(m, ps, ts, s, s');
    case _ =>
  }

  lemma {:induction false} InstSeqMonotone(m: Matcher, ps: seq<Node>, ts: seq<Node>, s: Binds, s': Binds)
    requires InstSeq(m, ps, ts, s) && Extends(s, s')
    ensures InstSeq(m, ps, ts, s')
    decreases ps, 1
  {
    if |ps| == 0 {
    } else if IsMulti(m, ps[0]) {
      var k: nat :| k <= |ts| && InstSplit(m, ps, ts, s, k);
      InstSeqMonotone(m, ps[1..], ts[k..], s, s');
      assert InstSplit(m, ps, ts, s', k);
    } else {
      InstMonotone(m, ps[0], ts[0], s, s');
      InstSeqMonotone(m, ps[1..], ts[1..], s, s');
    }
  }

  /** A successful match only adds bindings, and its bindings make the target an instance. */
  lemma {:induction false} SoundNode(m: Matcher, p: Node, t: Node, b: Binds)
    requires MatchNode(m, p, t, b).Some?
    ensures Extends(b, MatchNode(m, p, t, b).value)
    ensures Inst(m, p, t, MatchNode(m, p, t, b).value)
    decreases p, 0
  {
    if !IsOne(m, p) && p.Tree? {
      SoundFields(m, p.fields, t.fields, b);
    }
  }

  lemma {:induction false} SoundFields(m: Matcher, fs: seq<Field>, gs: seq<Field>, b: Binds)
    requires MatchFields(m, fs, gs, b).Some?
    ensures Extends(b, MatchFields(m, fs, gs, b).value)
    ensures InstFields(m, fs, gs, MatchFields(m, fs, gs, b).value)
    decreases fs, 0
  {
    if |fs| > 0 {
      var b1 := MatchField(m, fs[0], gs[0], b).value;
      SoundField(m, fs[0], gs[0], b);
      SoundFields(m, fs[1..], gs[1..], b1);
      InstFieldMonotone(m, fs[0], gs[0], b1, MatchFields(m, fs, gs, b).value);
    }
  }

  lemma {:induction false} SoundField(m: Matcher, f: Field, g: Field, b: Binds)
    requires MatchField(m, f, g, b).Some?
    ensures Extends(b, MatchField(m, f, g, b).value)
    ensures InstField(m, f, g, MatchField(m, f, g, b).value)
    decreases f, 0
  {
    match (f, g)
    case (Child(p), Child(t)) => SoundNode(m, p, t, b);
    case (List(ps), List(ts)) => SoundSeq(m, ps, ts, b);
    case _ =>
  }

  lemma {:induction false} SoundSeq(m: Matcher, ps: seq<Node>, ts: seq<Node>, b: Binds)
    requires MatchSeq(m, ps, ts, b).Some?
    ensures Extends(b, MatchSeq(m, ps, ts, b).value)
    ensures InstSeq(m, ps, ts, MatchSeq(m, ps, ts, b).value)
    decreases ps, 2, 0
  {
    if |ps| == 0 {
    } else if IsMulti(m, ps[0]) {
      SoundSplits(m, ps, ts, b, 0);
    } else {
      var b1 := MatchNode(m, ps[0], ts[0], b).value;
      SoundNode(m, ps[0], ts[0], b);
      SoundSeq(m, ps[1..], ts[1..], b1);
      InstMonotone(m, ps[0], ts[0], b1, MatchSeq(m, ps, ts, b).value);
    }
  }

  lemma {:induction false} SoundSplits(m: Matcher, ps: seq<Node>, ts: seq<Node>, b: Binds, k: nat)
    requires |ps| > 0 && IsMulti(m, ps[0]) && k <= |ts|
    requires TrySplits(m, ps, ts, b, k).Some?
    ensures Extends(b, TrySplits(m, ps, ts, b, k).value)
    ensures InstSeq(m, ps, ts, TrySplits(m, ps, ts, b, k).value)
    decreases ps, 1, |ts| - k
  {
    if TrySplit(m, ps, ts, b, k).Some? {
      var b1 := BindMulti(m, m.multi[ps[0].name], ts[..k], b).value;
      SoundSeq(m, ps[1..], ts[k..], b1);
      assert InstSplit(m, ps, ts, TrySplits(m, ps, ts, b, k).value, k);
    } else {
      SoundSplits(m, ps, ts, b, k + 1);
    }
  }

  // ---------- completeness ----------

  ghost function Named(name: string): set<string> {
    if IsAnonymous(name) then {} else {name}
  }

  /** The capturing metavariables of a pattern. */
  ghost function Names(m: Matcher, p: Node): set<string>
    decreases p, 0
  {
    if IsOne(m, p) then Named(m.one[p.name])
    else if IsMulti(m, p) then Named(m.multi[p.name])
    else if p.Ident? then {}
    else NamesFields(m, p.fields)
  }

  ghost function NamesFields(m: Matcher, fs: seq<Field>): set<string>
    decreases fs, 0
  {
    if |fs| == 0 then {} else NamesField(m, fs[0]) + NamesFields(m, fs[1..])
  }

  ghost function NamesField(m: Matcher, f: Field): set<string>
    decreases f, 0
  {
    match f
    case Child(p) => Names(m, p)
    case List(ps) => NamesSeq(m, ps)
    case _ => {}
  }

  ghost function NamesSeq(m: Matcher, ps: seq<Node>): set<string>
    decreases ps, 0
  {
    if |ps| == 0 then {}
    else (if IsMulti(m, ps[0]) then Named(m.multi[ps[0].name]) else Names(m, ps[0])) + NamesSeq(m, ps[1..])
  }

  ghost predicate HasMulti(m: Matcher, ps: seq<Node>) {
    exists i :: 0 <= i < |ps| && IsMulti(m, ps[i])
  }

  /** The number of elements up to the last `$$$`. */
  ghost function UpToLast(m: Matcher, ps: seq<Node>): (l: nat)
    ensures l <= |ps| && (l > 0 ==> IsMulti(m, ps[l - 1]))
    ensures forall i :: 0 <= i < |ps| && IsMulti(m, ps[i]) ==> i < l
  {
    if |ps| == 0 then 0
    else if IsMulti(m, ps[|ps| - 1]) then |ps|
    else
      var front := ps[..|ps| - 1];
      assert forall i :: 0 <= i < |front| ==> front[i] == ps[i];
      UpToLast(m, front)
  }

  /** The metavariables whose value depends on how a list with two or more `$$$` was split: those from
      the first `$$$` of the list up to its last. */
  ghost function Choice(m: Matcher, p: Node): set<string>
    decreases p, 0
  {
    if p.Ident? then {} else ChoiceFields(m, p.fields)
  }

  ghost function ChoiceFields(m: Matcher, fs: seq<Field>): set<string>
    decreases fs, 0
  {
    if |fs| == 0 then {} else ChoiceField(m, fs[0]) + ChoiceFields(m, fs[1..])
  }

  ghost function ChoiceField(m: Matcher, f: Field): set<string>
    decreases f, 0
  {
    match f
    case Child(p) => Choice(m, p)
    case List(ps) => ChoiceSeq(m, ps)
    case _ => {}
  }

  ghost function ChoiceSeq(m: Matcher, ps: seq<Node>): set<string>
    decreases ps, 0
  {
    if |ps| == 0 then {}
    else if !IsMulti(m, ps[0]) then Choice(m, ps[0]) + ChoiceSeq(m, ps[1..])
    else if HasMulti(m, ps[1..]) then
      var l := UpToLast(m, ps);
      NamesSeq(m, ps[..l]) + ChoiceSeq(m, ps[l..])
    else ChoiceSeq(m, ps[1..])
  }

  /** With the metavariables `v` bound before: no other metavariable that depends on a nested choice is looked
      at again after the matcher has left the list and can no longer change the choice. */
  ghost predicate Isolated(m: Matcher, p: Node, v: set<string>)
    decreases p, 0
  {
    p.Tree? ==> IsolatedFields(m, p.fields, v)
  }

  ghost predicate IsolatedFields(m: Matcher, fs: seq<Field>, v: set<string>)
    decreases fs, 0
  {
    |fs| > 0 ==>
      && IsolatedField(m, fs[0], v)
      && IsolatedFields(m, fs[1..], v + NamesField(m, fs[0]))
      && (ChoiceField(m, fs[0]) - v) !! NamesFields(m, fs[1..])
  }

  ghost predicate IsolatedField(m: Matcher, f: Field, v: set<string>)
    decreases f, 0
  {
    match f
    case Child(p) => Isolated(m, p, v)
    case List(ps) => IsolatedSeq(m, ps, v)
    case _ => true
  }

  ghost predicate IsolatedSeq(m: Matcher, ps: seq<Node>, v: set<string>)
    decreases ps, 0
  {
    |ps| > 0 ==>
      if IsMulti(m, ps[0]) then IsolatedSeq(m, ps[1..], v + Named(m.multi[ps[0].name]))
      else
        && Isolated(m, ps[0], v)
        && IsolatedSeq(m, ps[1..], v + Names(m, ps[0]))
        && (Choice(m, ps[0]) - v) !! NamesSeq(m, ps[1..])
  }

  /** Bindings that never hold an anonymous metavariable, as every search starts and every match keeps. */
  ghost predicate NoAnonymous(b: Binds) {
    forall n :: n in b ==> !IsAnonymous(n)
  }

  ghost predicate Agrees(b: Binds, s: Binds, w: set<string>) {
    forall n :: n in b && n in w ==> n in s && s[n] == b[n]
  }

  /** A match binds nothing but the pattern's own metavariables. */
  lemma {:induction false} KeysNode(m: Matcher, p: Node, t: Node, b: Binds)
    requires MatchNode(m, p, t, b).Some?
    ensures MatchNode(m, p, t, b).value.Keys <= b.Keys + Names(m, p)
    decreases p, 0
  {
    if !IsOne(m, p) && p.Tree? {
      KeysFields(m, p.fields, t.fields, b);
    }
  }

  lemma {:induction false} KeysFields(m: Matcher, fs: seq<Field>, gs: seq<Field>, b: Binds)
    requires MatchFields(m, fs, gs, b).Some?
    ensures MatchFields(m, fs, gs, b).value.Keys <= b.Keys + NamesFields(m, fs)
    decreases fs, 0
  {
    if |fs| > 0 {
      KeysField(m, fs[0], gs[0], b);
      KeysFields(m, fs[1..], gs[1..], MatchField(m, fs[0], gs[0], b).value);
    }
  }

  lemma {:induction false} KeysField(m: Matcher, f: Field, g: Field, b: Binds)
    requires MatchField(m, f, g, b).Some?
    ensures MatchField(m, f, g, b).value.Keys <= b.Keys + NamesField(m, f)
    decreases f, 0
  {
    match (f, g)
    case (Child(p), Child(t)) => KeysNode(m, p, t, b);
    case (List(ps), List(ts)) => KeysSeq(m, ps, ts, b);
    case _ =>
  }

  lemma {:induction false} KeysSeq(m: Matcher, ps: seq<Node>, ts: seq<Node>, b: Binds)
    requires MatchSeq(m, ps, ts, b).Some?
    ensures MatchSeq(m, ps, ts, b).value.Keys <= b.Keys + NamesSeq(m, ps)
    decreases ps, 2, 0
  {
    if |ps| == 0 {
    } else if IsMulti(m, ps[0]) {
      KeysSplits(m, ps, ts, b, 0);
    } else {
      KeysNode(m, ps[0], ts[0], b);
      KeysSeq(m, ps[1..], ts[1..], MatchNode(m, ps[0], ts[0], b).value);
    }
  }

  lemma {:induction false} KeysSplits(m: Matcher, ps: seq<Node>, ts: seq<Node>, b: Binds, k: nat)
    requires |ps| > 0 && IsMulti(m, ps[0]) && k <= |ts|
    requires TrySplits(m, ps, ts, b, k).Some?
    ensures TrySplits(m, ps, ts, b, k).value.Keys <= b.Keys + NamesSeq(m, ps)
    decreases ps, 1, |ts| - k
  {
    if TrySplit(m, ps, ts, b, k).Some? {
      KeysSeq(m, ps[1..], ts[k..], BindMulti(m, m.multi[ps[0].name], ts[..k], b).value);
    } else {
      KeysSplits(m, ps, ts, b, k + 1);
    }
  }

  lemma {:induction false} NamedOnly(m: Matcher, p: Node)
    ensures forall n :: n in Names(m, p) ==> !IsAnonymous(n)
    decreases p, 0
  {
    if !IsOne(m, p) && p.Tree? {
      NamedOnlyFields(m, p.fields);
    }
  }

  lemma {:induction false} NamedOnlyFields(m: Matcher, fs: seq<Field>)
    ensures forall n :: n in NamesFields(m, fs) ==> !IsAnonymous(n)
    decreases fs, 0
  {
    if |fs| > 0 {
      NamedOnlyField(m, fs[0]);
      NamedOnlyFields(m, fs[1..]);
    }
  }

  lemma {:induction false} NamedOnlyField(m: Matcher, f: Field)
    ensures forall n :: n in NamesField(m, f) ==> !IsAnonymous(n)
    decreases f, 0
  {
    match f
    case Child(p) => NamedOnly(m, p);
    case List(ps) => NamedOnlySeq(m, ps);
    case _ =>
  }

  lemma {:induction false} NamedOnlySeq(m: Matcher, ps: seq<Node>)
    ensures forall n :: n in NamesSeq(m, ps) ==> !IsAnonymous(n)
    decreases ps, 0
  {
    if |ps| > 0 {
      NamedOnly(m, ps[0]);
      NamedOnlySeq(m, ps[1..]);
    }
  }

  lemma {:induction false} ChoiceWithinNames(m: Matcher, p: Node)
    requires !IsOne(m, p) && !IsMulti(m, p)
    ensures Choice(m, p) <= Names(m, p)
    decreases p, 0
  {
    if p.Tree? {
      ChoiceWithinNamesFields(m, p.fields);
    }
  }

  lemma {:induction false} ChoiceWithinNamesFields(m: Matcher, fs: seq<Field>)
    ensures ChoiceFields(m, fs) <= NamesFields(m, fs)
    decreases fs, 0
  {
    if |fs| > 0 {
      ChoiceWithinNamesField(m, fs[0]);
      ChoiceWithinNamesFields(m, fs[1..]);
    }
  }

  lemma {:induction false} ChoiceWithinNamesField(m: Matcher, f: Field)
    ensures ChoiceField(m, f) <= NamesField(m, f)
    decreases f, 0
  {
    match f
    case Child(p) => if p.Tree? { ChoiceWithinNames(m, p); }
    case List(ps) => ChoiceWithinNamesSeq(m, ps);
    case _ =>
  }

  lemma {:induction false} NamesSplit(m: Matcher, ps: seq<Node>, j: nat)
    requires j <= |ps|
    ensures NamesSeq(m, ps) == NamesSeq(m, ps[..j]) + NamesSeq(m, ps[j..])
    decreases j
  {
    if j > 0 {
      NamesSplit(m, ps[1..], j - 1);
      assert ps[..j][1..] == ps[1..][..j - 1] && ps[1..][j - 1..] == ps[j..];
    }
  }

  lemma {:induction false} ChoiceWithinNamesSeq(m: Matcher, ps: seq<Node>)
    ensures ChoiceSeq(m, ps) <= NamesSeq(m, ps)
    decreases ps, 0
  {
    if |ps| > 0 {
      if ps[0].Tree? {
        ChoiceWithinNames(m, ps[0]);
      }
      ChoiceWithinNamesSeq(m, ps[1..]);
      if IsMulti(m, ps[0]) {
        ChoiceWithinNamesSeq(m, ps[UpToLast(m, ps)..]);
        NamesSplit(m, ps, UpToLast(m, ps));
      }
    }
  }

  lemma {:induction false} FixedLength(m: Matcher, ps: seq<Node>, ts: seq<Node>, b: Binds)
    requires !HasMulti(m, ps) && MatchSeq(m, ps, ts, b).Some?
    ensures |ts| == |ps|
  {
    if |ps| > 0 {
      assert !IsMulti(m, ps[0]);
      FixedLength(m, ps[1..], ts[1..], MatchNode(m, ps[0], ts[0], b).value);
    }
  }

  lemma {:induction false} FixedInstLength(m: Matcher, ps: seq<Node>, ts: seq<Node>, s: Binds)
    requires !HasMulti(m, ps) && InstSeq(m, ps, ts, s)
    ensures |ts| == |ps|
  {
    if |ps| > 0 {
      assert !IsMulti(m, ps[0]);
      FixedInstLength(m, ps[1..], ts[1..], s);
    }
  }

  /** If some split works, the loop succeeds; if it is the only one that can, the loop returns it. */
  lemma {:induction false} SplitFound(m: Matcher, ps: seq<Node>, ts: seq<Node>, b: Binds, k: nat, k': nat)
    requires |ps| > 0 && IsMulti(m, ps[0]) && k <= k' <= |ts|
    requires TrySplit(m, ps, ts, b, k').Some?
    ensures TrySplits(m, ps, ts, b, k).Some?
    ensures (forall i: nat :: k <= i < k' ==> TrySplit(m, ps, ts, b, i).None?) ==>
              TrySplits(m, ps, ts, b, k) == TrySplit(m, ps, ts, b, k')
    decreases k' - k
  {
    if k < k' && TrySplit(m, ps, ts, b, k).None? {
      SplitFound(m, ps, ts, b, k + 1, k');
    }
  }

  /** An instance gives every metavariable of the pattern a value. */
  lemma {:induction false} InstBinds(m: Matcher, p: Node, t: Node, s: Binds)
    requires Inst(m, p, t, s)
    ensures Names(m, p) <= s.Keys
    decreases p, 0
  {
    if !IsOne(m, p) && p.Tree? {
      InstBindsFields(m, p.fields, t.fields, s);
    }
  }

  lemma {:induction false} InstBindsFields(m: Matcher, fs: seq<Field>, gs: seq<Field>, s: Binds)
    requires InstFields(m, fs, gs, s)
    ensures NamesFields(m, fs) <= s.Keys
    decreases fs, 0
  {
    if |fs| > 0 {
      InstBindsField(m, fs[0], gs[0], s);
      InstBindsFields(m, fs[1..], gs[1..], s);
    }
  }

  lemma {:induction false} InstBindsField(m: Matcher, f: Field, g: Field, s: Binds)
    requires InstField(m, f, g, s)
    ensures NamesField(m, f) <= s.Keys
    decreases f, 0
  {
    match (f, g)
    case (Child(p), Child(t)) => InstBinds(m, p, t, s);
    case (List(ps), List(ts)) => InstBindsSeq(m, ps, ts, s);
    case _ =>
  }

  lemma {:induction false} InstBindsSeq(m: Matcher, ps: seq<Node>, ts: seq<Node>, s: Binds)
    requires InstSeq(m, ps, ts, s)
    ensures NamesSeq(m, ps) <= s.Keys
    decreases ps, 0
  {
    if |ps| > 0 {
      if IsMulti(m, ps[0]) {
        var k: nat :| k <= |ts| && InstSplit(m, ps, ts, s, k);
        InstBindsSeq(m, ps[1..], ts[k..], s);
      } else {
        InstBinds(m, ps[0], ts[0], s);
        InstBindsSeq(m, ps[1..], ts[1..], s);
      }
    }
  }

  /** What follows the last `$$$` of a list stands at the end of the target, whatever the splits. */
  lemma {:induction false} TailInst(m: Matcher, ps: seq<Node>, ts: seq<Node>, s: Binds, j: nat)
    requires InstSeq(m, ps, ts, s) && j <= |ps| && !HasMulti(m, ps[j..])
    ensures |ps| - j <= |ts| && InstSeq(m, ps[j..], ts[|ts| - (|ps| - j)..], s)
    decreases j
  {
    if j == 0 {
      assert ps[0..] == ps;
      FixedInstLength(m, ps, ts, s);
      assert ts[0..] == ts;
    } else {
      var k: nat := 1;
      if IsMulti(m, ps[0]) {
        k :| k <= |ts| && InstSplit(m, ps, ts, s, k);
      }
      assert ps[1..][j - 1..] == ps[j..];
      TailInst(m, ps[1..], ts[k..], s, j - 1);
      assert ts[k..][|ts| - k - (|ps| - j)..] == ts[|ts| - (|ps| - j)..];
    }
  }

  /** Outside the choices, a target fixes the metavariables of its pattern. */
  lemma {:induction false} Determined(m: Matcher, p: Node, t: Node, s: Binds, s': Binds, n: string)
    requires Inst(m, p, t, s) && Inst(m, p, t, s') && n in Names(m, p) && n !in Choice(m, p)
    ensures n in s && n in s' && s[n] == s'[n]
    decreases p, 0
  {
    if !IsOne(m, p) && p.Tree? {
      DeterminedFields(m, p.fields, t.fields, s, s', n);
    }
  }

  lemma {:induction false} DeterminedFields(m: Matcher, fs: seq<Field>, gs: seq<Field>, s: Binds, s': Binds, n: string)
    requires InstFields(m, fs, gs, s) && InstFields(m, fs, gs, s') && n in NamesFields(m, fs) && n !in ChoiceFields(m, fs)
    ensures n in s && n in s' && s[n] == s'[n]
    decreases fs, 0
  {
    if n in NamesField(m, fs[0]) {
      DeterminedField(m, fs[0], gs[0], s, s', n);
    } else {
      DeterminedFields(m, fs[1..], gs[1..], s, s', n);
    }
  }

  lemma {:induction false} DeterminedField(m: Matcher, f: Field, g: Field, s: Binds, s': Binds, n: string)
    requires InstField(m, f, g, s) && InstField(m, f, g, s') && n in NamesField(m, f) && n !in ChoiceField(m, f)
    ensures n in s && n in s' && s[n] == s'[n]
    decreases f, 0
  {
    match (f, g)
    case (Child(p), Child(t)) => Determined(m, p, t, s, s', n);
    case (List(ps), List(ts)) => DeterminedSeq(m, ps, ts, s, s', n);
    case _ =>
  }

  lemma {:induction false} DeterminedSeq(m: Matcher, ps: seq<Node>, ts: seq<Node>, s: Binds, s': Binds, n: string)
    requires InstSeq(m, ps, ts, s) && InstSeq(m, ps, ts, s') && n in NamesSeq(m, ps) && n !in ChoiceSeq(m, ps)
    ensures n in s && n in s' && s[n] == s'[n]
    decreases ps, 1
  {
    if !IsMulti(m, ps[0]) {
      if n in Names(m, ps[0]) {
        Determined(m, ps[0], ts[0], s, s', n);
      } else {
        DeterminedSeq(m, ps[1..], ts[1..], s, s', n);
      }
    } else if HasMulti(m, ps[1..]) {
      DeterminedTail(m, ps, ts, s, s', n);
    } else {
      var k: nat :| k <= |ts| && InstSplit(m, ps, ts, s, k);
      var k': nat :| k' <= |ts| && InstSplit(m, ps, ts, s', k');
      FixedInstLength(m, ps[1..], ts[k..], s);
      FixedInstLength(m, ps[1..], ts[k'..], s');
      if n in NamesSeq(m, ps[1..]) {
        DeterminedSeq(m, ps[1..], ts[k..], s, s', n);
      }
    }
  }

  lemma {:induction false} DeterminedTail(m: Matcher, ps: seq<Node>, ts: seq<Node>, s: Binds, s': Binds, n: string)
    requires |ps| > 0 && IsMulti(m, ps[0]) && HasMulti(m, ps[1..])
    requires InstSeq(m, ps, ts, s) && InstSeq(m, ps, ts, s') && n in NamesSeq(m, ps) && n !in ChoiceSeq(m, ps)
    ensures n in s && n in s' && s[n] == s'[n]
    decreases ps, 0
  {
    var l := UpToLast(m, ps);
    NamesSplit(m, ps, l);
    TailInst(m, ps, ts, s, l);
    TailInst(m, ps, ts, s', l);
    DeterminedSeq(m, ps[l..], ts[|ts| - (|ps| - l)..], s, s', n);
  }

  /** What a match leaves for the rest of the pattern: the bindings of an instance, if nothing that depends on a
      choice is looked at again. */
  ghost predicate Carries(b: Binds, b': Binds, s: Binds, names: set<string>, choice: set<string>, v: set<string>) {
    && Extends(b, b') && names <= b'.Keys <= b.Keys + names && v <= b.Keys
    && (forall n :: n in names && n !in choice ==> n in s && b'[n] == s[n])
  }

  lemma CarriesAgrees(b: Binds, b': Binds, s: Binds, names: set<string>, choice: set<string>, v: set<string>, rest: set<string>)
    requires Carries(b, b', s, names, choice, v) && Agrees(b, s, names + rest) && (choice - v) !! rest
    ensures Agrees(b', s, rest)
  {
  }

  lemma NodeCarries(m: Matcher, p: Node, t: Node, b: Binds, s: Binds, v: set<string>)
    requires MatchNode(m, p, t, b).Some? && Inst(m, p, t, s) && NoAnonymous(b) && v <= b.Keys
    ensures Carries(b, MatchNode(m, p, t, b).value, s, Names(m, p), Choice(m, p), v)
    ensures NoAnonymous(MatchNode(m, p, t, b).value)
  {
    var b' := MatchNode(m, p, t, b).value;
    SoundNode(m, p, t, b);
    KeysNode(m, p, t, b);
    InstBinds(m, p, t, b');
    NamedOnly(m, p);
    forall n | n in Names(m, p) && n !in Choice(m, p)
      ensures n in s && b'[n] == s[n]
    {
      Determined(m, p, t, b', s, n);
    }
  }

  lemma FieldCarries(m: Matcher, f: Field, g: Field, b: Binds, s: Binds, v: set<string>)
    requires MatchField(m, f, g, b).Some? && InstField(m, f, g, s) && NoAnonymous(b) && v <= b.Keys
    ensures Carries(b, MatchField(m, f, g, b).value, s, NamesField(m, f), ChoiceField(m, f), v)
    ensures NoAnonymous(MatchField(m, f, g, b).value)
  {
    var b' := MatchField(m, f, g, b).value;
    SoundField(m, f, g, b);
    KeysField(m, f, g, b);
    InstBindsField(m, f, g, b');
    NamedOnlyField(m, f);
    forall n | n in NamesField(m, f) && n !in ChoiceField(m, f)
      ensures n in s && b'[n] == s[n]
    {
      DeterminedField(m, f, g, b', s, n);
    }
  }

  lemma {:induction false} CompleteNode(m: Matcher, p: Node, t: Node, b: Binds, s: Binds, v: set<string>)
    requires Isolated(m, p, v) && Inst(m, p, t, s) && NoAnonymous(b) && v <= b.Keys
    requires Agrees(b, s, Names(m, p))
    ensures MatchNode(m, p, t, b).Some?
    decreases p, 0
  {
    if !IsOne(m, p) && p.Tree? {
      CompleteFields(m, p.fields, t.fields, b, s, v);
    }
  }

  lemma {:induction false} CompleteFields(m: Matcher, fs: seq<Field>, gs: seq<Field>, b: Binds, s: Binds, v: set<string>)
    requires IsolatedFields(m, fs, v) && InstFields(m, fs, gs, s) && NoAnonymous(b) && v <= b.Keys
    requires Agrees(b, s, NamesFields(m, fs))
    ensures MatchFields(m, fs, gs, b).Some?
    decreases fs, 0
  {
    if |fs| > 0 {
      CompleteField(m, fs[0], gs[0], b, s, v);
      FieldCarries(m, fs[0], gs[0], b, s, v);
      var b' := MatchField(m, fs[0], gs[0], b).value;
      CarriesAgrees(b, b', s, NamesField(m, fs[0]), ChoiceField(m, fs[0]), v, NamesFields(m, fs[1..]));
      CompleteFields(m, fs[1..], gs[1..], b', s, v + NamesField(m, fs[0]));
    }
  }

  lemma {:induction false} CompleteField(m: Matcher, f: Field, g: Field, b: Binds, s: Binds, v: set<string>)
    requires IsolatedField(m, f, v) && InstField(m, f, g, s) && NoAnonymous(b) && v <= b.Keys
    requires Agrees(b, s, NamesField(m, f))
    ensures MatchField(m, f, g, b).Some?
    decreases f, 0
  {
    match (f, g)
    case (Child(p), Child(t)) => CompleteNode(m, p, t, b, s, v);
    case (List(ps), List(ts)) => CompleteSeq(m, ps, ts, b, s, v);
    case _ =>
  }

  lemma {:induction false} CompleteSeq(m: Matcher, ps: seq<Node>, ts: seq<Node>, b: Binds, s: Binds, v: set<string>)
    requires IsolatedSeq(m, ps, v) && InstSeq(m, ps, ts, s) && NoAnonymous(b) && v <= b.Keys
    requires Agrees(b, s, NamesSeq(m, ps))
    ensures MatchSeq(m, ps, ts, b).Some?
    decreases ps, 0
  {
    if |ps| == 0 {
    } else if IsMulti(m, ps[0]) {
      var k: nat :| k <= |ts| && InstSplit(m, ps, ts, s, k);
      var n := m.multi[ps[0].name];
      var b' := BindMulti(m, n, ts[..k], b).value;
      CompleteSeq(m, ps[1..], ts[k..], b', s, v + Named(n));
      SplitFound(m, ps, ts, b, 0, k);
    } else {
      CompleteNode(m, ps[0], ts[0], b, s, v);
      NodeCarries(m, ps[0], ts[0], b, s, v);
      var b' := MatchNode(m, ps[0], ts[0], b).value;
      CarriesAgrees(b, b', s, Names(m, ps[0]), Choice(m, ps[0]), v, NamesSeq(m, ps[1..]));
      CompleteSeq(m, ps[1..], ts[1..], b', s, v + Names(m, ps[0]));
    }
  }

  ghost predicate IsInstance(m: Matcher, p: Node, t: Node) {
    exists s :: Inst(m, p, t, s)
  }

  /** The matcher finds a match exactly when the target is an instance of the pattern, for every
      pattern in which no nested choice is looked at again.  From left to right this needs no condition. */
  lemma MatchIffInstance(m: Matcher, p: Node, t: Node)
    ensures MatchNode(m, p, t, map[]).Some? ==> IsInstance(m, p, t)
    ensures Isolated(m, p, {}) ==> (MatchNode(m, p, t, map[]).Some? <==> IsInstance(m, p, t))
  {
    if MatchNode(m, p, t, map[]).Some? {
      SoundNode(m, p, t, map[]);
    } else if Isolated(m, p, {}) {
      forall s | Inst(m, p, t, s)
        ensures false
      {
        CompleteNode(m, p, t, map[], s, {});
      }
    }
  }

  /** Each capturing metavariable occurs once. */
  ghost predicate Linear(m: Matcher, p: Node)
    decreases p, 0
  {
    p.Tree? ==> LinearFields(m, p.fields)
  }

  ghost predicate LinearFields(m: Matcher, fs: seq<Field>)
    decreases fs, 0
  {
    |fs| > 0 ==>
      && LinearField(m, fs[0])
      && LinearFields(m, fs[1..])
      && NamesField(m, fs[0]) !! NamesFields(m, fs[1..])
  }

  ghost predicate LinearField(m: Matcher, f: Field)
    decreases f, 0
  {
    match f
    case Child(p) => Linear(m, p)
    case List(ps) => LinearSeq(m, ps)
    case _ => true
  }

  ghost predicate LinearSeq(m: Matcher, ps: seq<Node>)
    decreases ps, 0
  {
    |ps| > 0 ==> Linear(m, ps[0]) && LinearSeq(m, ps[1..]) && NamesSeq(m, ps[..1]) !! NamesSeq(m, ps[1..])
  }

  /** No list holds two `$$$`; in particular every pattern without `$$$` is of this kind. */
  ghost predicate OneMultiPerList(m: Matcher, p: Node)
    decreases p, 0
  {
    p.Tree? ==> OneMultiPerListFields(m, p.fields)
  }

  ghost predicate OneMultiPerListFields(m: Matcher, fs: seq<Field>)
    decreases fs, 0
  {
    |fs| > 0 ==> OneMultiPerListField(m, fs[0]) && OneMultiPerListFields(m, fs[1..])
  }

  ghost predicate OneMultiPerListField(m: Matcher, f: Field)
    decreases f, 0
  {
    match f
    case Child(p) => OneMultiPerList(m, p)
    case List(ps) => OneMultiPerListSeq(m, ps)
    case _ => true
  }

  ghost predicate OneMultiPerListSeq(m: Matcher, ps: seq<Node>)
    decreases ps, 0
  {
    |ps| > 0 ==>
      && OneMultiPerList(m, ps[0])
      && OneMultiPerListSeq(m, ps[1..])
      && !(IsMulti(m, ps[0]) && HasMulti(m, ps[1..]))
  }

  /** Both families of patterns are matched completely. */
  lemma IsolatedFamilies(m: Matcher, p: Node)
    ensures Linear(m, p) ==> Isolated(m, p, {})
    ensures OneMultiPerList(m, p) ==> Isolated(m, p, {})
  {
    if Linear(m, p) {
      LinearIsolated(m, p, {});
    }
    if OneMultiPerList(m, p) {
      OneMultiIsolated(m, p, {});
    }
  }

  lemma {:induction false} LinearIsolated(m: Matcher, p: Node, v: set<string>)
    requires Linear(m, p)
    ensures Isolated(m, p, v)
    decreases p, 0
  {
    if p.Tree? {
      LinearIsolatedFields(m, p.fields, v);
    }
  }

  lemma {:induction false} LinearIsolatedFields(m: Matcher, fs: seq<Field>, v: set<string>)
    requires LinearFields(m, fs)
    ensures IsolatedFields(m, fs, v)
    decreases fs, 0
  {
    if |fs| > 0 {
      LinearIsolatedField(m, fs[0], v);
      LinearIsolatedFields(m, fs[1..], v + NamesField(m, fs[0]));
      ChoiceWithinNamesField(m, fs[0]);
    }
  }

  lemma {:induction false} LinearIsolatedField(m: Matcher, f: Field, v: set<string>)
    requires LinearField(m, f)
    ensures IsolatedField(m, f, v)
    decreases f, 0
  {
    match f
    case Child(p) => LinearIsolated(m, p, v);
    case List(ps) => LinearIsolatedSeq(m, ps, v);
    case _ =>
  }

  lemma {:induction false} LinearIsolatedSeq(m: Matcher, ps: seq<Node>, v: set<string>)
    requires LinearSeq(m, ps)
    ensures IsolatedSeq(m, ps, v)
    decreases ps, 0
  {
    if |ps| > 0 {
      LinearIsolated(m, ps[0], v);
      LinearIsolatedSeq(m, ps[1..], v + (if IsMulti(m, ps[0]) then Named(m.multi[ps[0].name]) else Names(m, ps[0])));
      assert NamesSeq(m, ps[..1]) >= if IsMulti(m, ps[0]) then {} else Names(m, ps[0]);
      if ps[0].Tree? {
        ChoiceWithinNames(m, ps[0]);
      }
    }
  }

  lemma {:induction false} OneMultiIsolated(m: Matcher, p: Node, v: set<string>)
    requires OneMultiPerList(m, p)
    ensures Isolated(m, p, v) && Choice(m, p) == {}
    decreases p, 0
  {
    if p.Tree? {
      OneMultiIsolatedFields(m, p.fields, v);
    }
  }

  lemma {:induction false} OneMultiIsolatedFields(m: Matcher, fs: seq<Field>, v: set<string>)
    requires OneMultiPerListFields(m, fs)
    ensures IsolatedFields(m, fs, v) && ChoiceFields(m, fs) == {}
    decreases fs, 0
  {
    if |fs| > 0 {
      OneMultiIsolatedField(m, fs[0], v);
      OneMultiIsolatedFields(m, fs[1..], v + NamesField(m, fs[0]));
    }
  }

  lemma {:induction false} OneMultiIsolatedField(m: Matcher, f: Field, v: set<string>)
    requires OneMultiPerListField(m, f)
    ensures IsolatedField(m, f, v) && ChoiceField(m, f) == {}
    decreases f, 0
  {
    match f
    case Child(p) => OneMultiIsolated(m, p, v);
    case List(ps) => OneMultiIsolatedSeq(m, ps, v);
    case _ =>
  }

  lemma {:induction false} OneMultiIsolatedSeq(m: Matcher, ps: seq<Node>, v: set<string>)
    requires OneMultiPerListSeq(m, ps)
    ensures IsolatedSeq(m, ps, v) && ChoiceSeq(m, ps) == {}
    decreases ps, 0
  {
    if |ps| > 0 {
      OneMultiIsolated(m, ps[0], v);
      OneMultiIsolatedSeq(m, ps[1..], v + (if IsMulti(m, ps[0]) then Named(m.multi[ps[0].name]) else Names(m, ps[0])));
    }
  }

  // ---------- calls, and list metavariables the parser wraps ----------

  function Call(f: string, args: seq<Node>): Node {
    Tree("CallExpr", [Child(Ident(f)), List(args)])
  }

  lemma CallInstance(m: Matcher, f: string, ps: seq<Node>, ts: seq<Node>, s: Binds)
    requires f !in m.one && f !in m.multi && InstSeq(m, ps, ts, s)
    ensures Inst(m, Call(f, ps), Call(f, ts), s)
  {
    var p, t := Call(f, ps), Call(f, ts);
    assert p.fields[1..] == [List(ps)] && t.fields[1..] == [List(ts)];
    assert [List(ps)][1..] == [] && [List(ts)][1..] == [];
    assert InstFields(m, [], [], s);
    assert InstFields(m, [List(ps)], [List(ts)], s);
    assert Inst(m, Ident(f), Ident(f), s);
  }

  lemma CallMatch(m: Matcher, f: string, ps: seq<Node>, ts: seq<Node>, b: Binds)
    requires f !in m.one && f !in m.multi
    ensures MatchNode(m, Call(f, ps), Call(f, ts), b) == MatchSeq(m, ps, ts, b)
  {
    var p, t := Call(f, ps), Call(f, ts);
    assert p.fields[1..] == [List(ps)] && t.fields[1..] == [List(ts)];
    assert [List(ps)][1..] == [] && [List(ts)][1..] == [];
    var r := MatchSeq(m, ps, ts, b);
    assert MatchField(m, List(ps), List(ts), b) == r;
    assert r.Some? ==> MatchFields(m, [], [], r.value) == r;
    assert MatchFields(m, [List(ps)], [List(ts)], b) == r;
    assert MatchField(m, p.fields[0], t.fields[0], b) == Some(b);
    assert MatchFields(m, p.fields, t.fields, b) == r;
  }

  /** A `$$$` in a statement or parameter list is wrapped by the parser in an `ExprStmt` or `Field` node,
      so it is never the head of a list, and a pattern list holding such a wrapper matches nothing. */
  ghost predicate MultiField(m: Matcher, f: Field) {
    f.Child? && IsMulti(m, f.node) && !IsOne(m, f.node)
  }

  ghost predicate WrapsMulti(m: Matcher, p: Node) {
    && p.Tree?
    && exists i :: 0 <= i < |p.fields| && MultiField(m, p.fields[i])
  }

  lemma {:induction false} WrappedMultiFields(m: Matcher, fs: seq<Field>, gs: seq<Field>, b: Binds, i: nat)
    requires i < |fs| && MultiField(m, fs[i])
    ensures MatchFields(m, fs, gs, b).None?
    decreases i
  {
    if i == 0 {
      assert |gs| > 0 ==> MatchField(m, fs[0], gs[0], b).None?;
    } else if |gs| > 0 && MatchField(m, fs[0], gs[0], b).Some? {
      WrappedMultiFields(m, fs[1..], gs[1..], MatchField(m, fs[0], gs[0], b).value, i - 1);
    }
  }

  lemma {:induction false} WrappedMultiNeverMatches(m: Matcher, ps: seq<Node>, ts: seq<Node>, b: Binds, i: nat)
    requires i < |ps| && WrapsMulti(m, ps[i])
    ensures MatchSeq(m, ps, ts, b).None?
    decreases i, 0
  {
    if IsMulti(m, ps[0]) {
      WrappedMultiSplits(m, ps, ts, b, i, 0);
    } else if i == 0 {
      if |ts| > 0 && ts[0].Tree? {
        var j :| 0 <= j < |ps[0].fields| && MultiField(m, ps[0].fields[j]);
        WrappedMultiFields(m, ps[0].fields, ts[0].fields, b, j);
      }
    } else if |ts| > 0 && MatchNode(m, ps[0], ts[0], b).Some? {
      WrappedMultiNeverMatches(m, ps[1..], ts[1..], MatchNode(m, ps[0], ts[0], b).value, i - 1);
    }
  }

  lemma {:induction false} WrappedMultiSplits(m: Matcher, ps: seq<Node>, ts: seq<Node>, b: Binds, i: nat, k: nat)
    requires 0 < i < |ps| && WrapsMulti(m, ps[i]) && IsMulti(m, ps[0]) && k <= |ts|
    ensures TrySplits(m, ps, ts, b, k).None?
    decreases i - 1, 1, |ts| - k
  {
    var r := BindMulti(m, m.multi[ps[0].name], ts[..k], b);
    if r.Some? {
      WrappedMultiNeverMatches(m, ps[1..], ts[k..], r.value, i - 1);
    }
    if k < |ts| {
      WrappedMultiSplits(m, ps, ts, b, i, k + 1);
    }
  }

  // ---------- the matcher as the program runs it ----------

  /** The bindings table that the matcher fills in place. */
  class Bindings {
    var m: map<string, string>

    constructor (start: map<string, string>)
      ensures m == start
    {
      m := start;
    }
  }

  class PatternMatcher {
    const c: Matcher

    constructor (c: Matcher)
      ensures this.c == c
    {
      this.c := c;
    }

    /** `matchNode`.  After a failure the table holds whatever the attempt left in it; no caller's
        result depends on that. */
    method MatchNodeInPlace(p: Node, t: Node, binds: Bindings) returns (ok: bool)
      modifies binds
      ensures ok == MatchNode(c, p, t, old(binds.m)).Some?
      ensures ok ==> binds.m == MatchNode(c, p, t, old(binds.m)).value
      decreases p, 0, 0
    {
      if p.Ident? && p.name in c.one {
        var name := c.one[p.name];
        var text := c.render(t);
        if name in binds.m {
          return binds.m[name] == text;
        }
        if IsAnonymous(name) {
          return true;
        }
        binds.m := binds.m[name := text];
        return true;
      }
      if p.Ident? && p.name in c.multi {
        return false;
      }
      if p.Ident? {
        return t.Ident? && p.name == t.name;
      }
      if !t.Tree? || p.kind != t.kind {
        return false;
      }
      ok := MatchFieldsInPlace(p.fields, t.fields, binds);
    }

    /** `matchValue` on a struct: all fields in order, stopping at the first that differs. */
    method MatchFieldsInPlace(fs: seq<Field>, gs: seq<Field>, binds: Bindings) returns (ok: bool)
      modifies binds
      ensures ok == MatchFields(c, fs, gs, old(binds.m)).Some?
      ensures ok ==> binds.m == MatchFields(c, fs, gs, old(binds.m)).value
      decreases fs, 1, 0
    {
      if |fs| != |gs| {
        FieldCounts(c, fs, gs, binds.m);
        return false;
      }
      var i := 0;
      while i < |fs|
        invariant 0 <= i <= |fs|
        invariant MatchFields(c, fs, gs, old(binds.m)) == MatchFields(c, fs[i..], gs[i..], binds.m)
      {
        ok := MatchFieldInPlace(fs[i], gs[i], binds);
        if !ok {
          return;
        }
        i := i + 1;
      }
      return true;
    }

    method MatchFieldInPlace(f: Field, g: Field, binds: Bindings) returns (ok: bool)
      modifies binds
      ensures ok == MatchField(c, f, g, old(binds.m)).Some?
      ensures ok ==> binds.m == MatchField(c, f, g, old(binds.m)).value
      decreases f, 0, 0
    {
      match (f, g)
      case (Absent, Absent) => ok := true;
      case (Child(p), Child(t)) => ok := MatchNodeInPlace(p, t, binds);
      case (List(ps), List(ts)) => ok := MatchSeqInPlace(ps, ts, binds);
      case (Atom(x), Atom(y)) => ok := x == y;
      case _ => ok := false;
    }

    /** `matchSeq`: each attempt of the `$$$` loop works on a copy of the table. */
    method MatchSeqInPlace(ps: seq<Node>, ts: seq<Node>, binds: Bindings) returns (ok: bool)
      modifies binds
      ensures ok == MatchSeq(c, ps, ts, old(binds.m)).Some?
      ensures ok ==> binds.m == MatchSeq(c, ps, ts, old(binds.m)).value
      decreases ps, 0, 0
    {
      if |ps| == 0 {
        return |ts| == 0;
      }
      if ps[0].Ident? && ps[0].name in c.multi {
        var name := c.multi[ps[0].name];
        var k := 0;
        while k <= |ts|
          invariant 0 <= k <= |ts| + 1
          invariant binds.m == old(binds.m)
          invariant k <= |ts| ==> MatchSeq(c, ps, ts, binds.m) == TrySplits(c, ps, ts, binds.m, k)
          invariant k == |ts| + 1 ==> MatchSeq(c, ps, ts, binds.m).None?
        {
          var b2 := new Bindings(binds.m);
          var skip := false;
          if !IsAnonymous(name) {
            var text := RenderSeq(c, ts[..k]);
            if name in b2.m {
              skip := b2.m[name] != text;
            } else {
              b2.m := b2.m[name := text];
            }
          }
          if !skip {
            ghost var b1 := b2.m;
            var found := MatchSeqInPlace(ps[1..], ts[k..], b2);
            if found {
              SoundSeq(c, ps[1..], ts[k..], b1);
              assert TrySplit(c, ps, ts, binds.m, k) == Some(b2.m);
              binds.m := binds.m + b2.m;
              return true;
            }
          }
          k := k + 1;
        }
        return false;
      }
      if |ts| == 0 {
        return false;
      }
      ok := MatchNodeInPlace(ps[0], ts[0], binds);
      if ok {
        ok := MatchSeqInPlace(ps[1..], ts[1..], binds);
      }
    }

    /** The statement-sequence search in one block: for every start the shortest window that matches,
        up to the result limit. */
    method SearchBlock(ps: seq<Node>, block: seq<Node>, limit: nat) returns (hits: seq<Hit>)
      ensures |hits| <= limit
      ensures forall h :: h in hits ==> ShortestAt(c, ps, block, h)
      ensures forall x, y :: 0 <= x < y < |hits| ==> hits[x].start < hits[y].start
      ensures |hits| < limit ==> forall i :: 0 <= i < |block| && MatchesAt(c, ps, block, i) ==> Reported(hits, i)
    {
      hits := [];
      for i := 0 to |block|
        invariant |hits| <= limit
        invariant forall h :: h in hits ==> h.start < i && ShortestAt(c, ps, block, h)
        invariant forall x, y :: 0 <= x < y < |hits| ==> hits[x].start < hits[y].start
        invariant |hits| < limit ==> forall j :: 0 <= j < i && MatchesAt(c, ps, block, j) ==> Reported(hits, j)
      {
        var end := i + 1;
        ghost var before := hits;
        while end <= |block|
          invariant i < end <= |block| + 1 && hits == before
          invariant forall e :: i < e < end ==> MatchSeq(c, ps, block[i..e], map[]).None?
        {
          var binds := new Bindings(map[]);
          var ok := MatchSeqInPlace(ps, block[i..end], binds);
          if ok {
            if |hits| < limit {
              hits := hits + [Hit(i, end, binds.m)];
              assert hits[|hits| - 1] == Hit(i, end, binds.m);
            }
            break;
          }
          end := end + 1;
        }
        forall j | Reported(before, j)
          ensures Reported(hits, j)
        {
          var x :| 0 <= x < |before| && before[x].start == j;
          assert hits[x].start == j;
        }
      }
    }
  }

  datatype Hit = Hit(start: nat, end: nat, binds: Binds)

  /** The window of a hit matches with the hit's bindings, and no shorter window at that start does. */
  ghost predicate ShortestAt(m: Matcher, ps: seq<Node>, block: seq<Node>, h: Hit) {
    && h.start < h.end <= |block|
    && MatchSeq(m, ps, block[h.start..h.end], map[]) == Some(h.binds)
    && forall e :: h.start < e < h.end ==> MatchSeq(m, ps, block[h.start..e], map[]).None?
  }

  ghost predicate MatchesAt(m: Matcher, ps: seq<Node>, block: seq<Node>, i: int) {
    exists e :: 0 <= i < e <= |block| && MatchSeq(m, ps, block[i..e], map[]).Some?
  }

  ghost predicate Reported(hits: seq<Hit>, i: int) {
    exists x :: 0 <= x < |hits| && hits[x].start == i
  }

  lemma {:induction false} FieldCounts(m: Matcher, fs: seq<Field>, gs: seq<Field>, b: Binds)
    requires |fs| != |gs|
    ensures MatchFields(m, fs, gs, b).None?
    decreases fs
  {
    if |fs| > 0 && |gs| > 0 && MatchField(m, fs[0], gs[0], b).Some? {
      FieldCounts(m, fs[1..], gs[1..], MatchField(m, fs[0], gs[0], b).value);
    }
  }
}
