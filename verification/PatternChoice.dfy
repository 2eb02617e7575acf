/** Where the matcher of `repotools/pattern.go` falls short, exactly: a node of a pattern is matched before the
    rest of its list and never again, so a metavariable that the target does not fix is fixed by the first split
    that works. */
module PatternChoice {
  import opened Common
  import opened Pattern

  // ---------- an instance of every pattern ----------

  /** No `$$$` stands where a single node is expected. */
  ghost predicate Placed(m: Matcher, p: Node)
    decreases p, 0
  {
    IsOne(m, p) || (!IsMulti(m, p) && (p.Tree? ==> PlacedFields(m, p.fields)))
  }

  ghost predicate PlacedFields(m: Matcher, fs: seq<Field>)
    decreases fs, 0
  {
    |fs| > 0 ==> PlacedField(m, fs[0]) && PlacedFields(m, fs[1..])
  }

  ghost predicate PlacedField(m: Matcher, f: Field)
    decreases f, 0
  {
    match f
    case Child(p) => Placed(m, p)
    case List(ps) => PlacedSeq(m, ps)
    case _ => true
  }

  ghost predicate PlacedSeq(m: Matcher, ps: seq<Node>)
    decreases ps, 0
  {
    |ps| > 0 ==> (IsMulti(m, ps[0]) || Placed(m, ps[0])) && PlacedSeq(m, ps[1..])
  }

  /** The pattern with every metavariable replaced by one node. */
  function Fill(m: Matcher, p: Node, c: Node): Node
    decreases p, 0
  {
    if IsOne(m, p) then c else if p.Ident? then p else Tree(p.kind, FillFields(m, p.fields, c))
  }

  function FillFields(m: Matcher, fs: seq<Field>, c: Node): seq<Field>
    decreases fs, 0
  {
    if |fs| == 0 then [] else [FillField(m, fs[0], c)] + FillFields(m, fs[1..], c)
  }

  function FillField(m: Matcher, f: Field, c: Node): Field
    decreases f, 0
  {
    match f
    case Child(p) => Child(Fill(m, p, c))
    case List(ps) => List(FillSeq(m, ps, c))
    case _ => f
  }

  function FillSeq(m: Matcher, ps: seq<Node>, c: Node): seq<Node>
    decreases ps, 0
  {
    if |ps| == 0 then []
    else [if IsMulti(m, ps[0]) then c else Fill(m, ps[0], c)] + FillSeq(m, ps[1..], c)
  }

  ghost predicate AllTo(s: Binds, names: set<string>, text: string) {
    forall n :: n in names ==> n in s && s[n] == text
  }

  lemma {:induction false} FillInst(m: Matcher, p: Node, c: Node, s: Binds)
    requires Placed(m, p) && AllTo(s, Names(m, p), m.render(c))
    ensures Inst(m, p, Fill(m, p, c), s)
    decreases p, 0
  {
    if !IsOne(m, p) && p.Tree? {
      FillInstFields(m, p.fields, c, s);
    }
  }

  lemma {:induction false} FillInstFields(m: Matcher, fs: seq<Field>, c: Node, s: Binds)
    requires PlacedFields(m, fs) && AllTo(s, NamesFields(m, fs), m.render(c))
    ensures InstFields(m, fs, FillFields(m, fs, c), s)
    decreases fs, 0
  {
    if |fs| > 0 {
      FillInstField(m, fs[0], c, s);
      FillInstFields(m, fs[1..], c, s);
    }
  }

  lemma {:induction false} FillInstField(m: Matcher, f: Field, c: Node, s: Binds)
    requires PlacedField(m, f) && AllTo(s, NamesField(m, f), m.render(c))
    ensures InstField(m, f, FillField(m, f, c), s)
    decreases f, 0
  {
    match f
    case Child(p) => FillInst(m, p, c, s);
    case List(ps) => FillInstSeq(m, ps, c, s);
    case _ =>
  }

  lemma {:induction false} FillInstSeq(m: Matcher, ps: seq<Node>, c: Node, s: Binds)
    requires PlacedSeq(m, ps) && AllTo(s, NamesSeq(m, ps), m.render(c))
    ensures InstSeq(m, ps, FillSeq(m, ps, c), s)
    decreases ps, 0
  {
    if |ps| > 0 {
      FillInstSeq(m, ps[1..], c, s);
      if IsMulti(m, ps[0]) {
        var ts := FillSeq(m, ps, c);
        assert ts[..1] == [c] && ts[1..] == FillSeq(m, ps[1..], c);
        assert InstSplit(m, ps, ts, s, 1);
      } else {
        FillInst(m, ps[0], c, s);
      }
    }
  }

  /** Instances of two lists make an instance of the list that joins them. */
  lemma {:induction false} InstConcat(m: Matcher, ps: seq<Node>, ts: seq<Node>, qs: seq<Node>, us: seq<Node>, s: Binds)
    requires InstSeq(m, ps, ts, s) && InstSeq(m, qs, us, s)
    ensures InstSeq(m, ps + qs, ts + us, s)
    decreases |ps|
  {
    if |ps| == 0 {
      assert ps + qs == qs && ts + us == us;
    } else {
      assert (ps + qs)[1..] == ps[1..] + qs && (ps + qs)[0] == ps[0];
      if IsMulti(m, ps[0]) {
        var k: nat :| k <= |ts| && InstSplit(m, ps, ts, s, k);
        InstConcat(m, ps[1..], ts[k..], qs, us, s);
        assert (ts + us)[..k] == ts[..k] && (ts + us)[k..] == ts[k..] + us;
        assert InstSplit(m, ps + qs, ts + us, s, k);
      } else {
        InstConcat(m, ps[1..], ts[1..], qs, us, s);
        assert (ts + us)[1..] == ts[1..] + us;
      }
    }
  }

  // ---------- every choice is a real one ----------

  /** Two substitutions for the metavariables `names` that differ in `n`, each giving it the text of some nodes. */
  ghost predicate Differ(m: Matcher, n: string, names: set<string>, s: Binds, s': Binds, u: seq<Node>, u': seq<Node>) {
    && s.Keys == names == s'.Keys && n in names
    && s[n] == RenderSeq(m, u) && s'[n] == RenderSeq(m, u') && s[n] != s'[n]
  }

  ghost predicate Distinguishes(m: Matcher, a: Node, b: Node) {
    m.render(a) != "" && m.render(a) != m.render(b)
  }

  ghost function Also(s: Binds, names: set<string>, text: string): (r: Binds)
    ensures r.Keys == s.Keys + names && Extends(s, r)
    ensures names !! s.Keys ==> AllTo(r, names, text)
  {
    map n | n in s.Keys + names :: if n in s then s[n] else text
  }

  lemma NonEmptyText(m: Matcher, ns: seq<Node>, a: Node)
    requires m.render(a) != "" && |ns| > 0 && (ns[0] == a || ns[|ns| - 1] == a)
    ensures RenderSeq(m, ns) != ""
  {
    if |ns| > 1 {
      assert |RenderSeq(m, ns)| >= |" "|;
    }
  }

  lemma {:induction false} LinearSplit(m: Matcher, ps: seq<Node>, j: nat)
    requires LinearSeq(m, ps) && j <= |ps|
    ensures LinearSeq(m, ps[..j]) && LinearSeq(m, ps[j..]) && NamesSeq(m, ps[..j]) !! NamesSeq(m, ps[j..])
    decreases j
  {
    if j == 0 {
      assert ps[0..] == ps;
    } else {
      LinearSplit(m, ps[1..], j - 1);
      assert ps[..j][1..] == ps[1..][..j - 1] && ps[1..][j - 1..] == ps[j..];
      assert ps[..j][..1] == ps[..1];
      NamesSplit(m, ps[1..], j - 1);
      NamesSplit(m, ps[..j], 1);
    }
  }

  lemma {:induction false} PlacedSplit(m: Matcher, ps: seq<Node>, j: nat)
    requires PlacedSeq(m, ps) && j <= |ps|
    ensures PlacedSeq(m, ps[..j]) && PlacedSeq(m, ps[j..])
    decreases j
  {
    if j == 0 {
      assert ps[0..] == ps;
    } else {
      PlacedSplit(m, ps[1..], j - 1);
      assert ps[..j][1..] == ps[1..][..j - 1] && ps[1..][j - 1..] == ps[j..];
    }
  }

  lemma JoinLeft(m: Matcher, ps: seq<Node>, ts: seq<Node>, qs: seq<Node>, s: Binds, a: Node)
    requires InstSeq(m, ps, ts, s) && s.Keys == NamesSeq(m, ps) && NamesSeq(m, ps) !! NamesSeq(m, qs) && PlacedSeq(m, qs)
    ensures InstSeq(m, ps + qs, ts + FillSeq(m, qs, a), Also(s, NamesSeq(m, qs), m.render(a)))
  {
    var r := Also(s, NamesSeq(m, qs), m.render(a));
    InstSeqMonotone(m, ps, ts, s, r);
    FillInstSeq(m, qs, a, r);
    InstConcat(m, ps, ts, qs, FillSeq(m, qs, a), r);
  }

  lemma JoinRight(m: Matcher, ps: seq<Node>, qs: seq<Node>, us: seq<Node>, s: Binds, a: Node)
    requires InstSeq(m, qs, us, s) && s.Keys == NamesSeq(m, qs) && NamesSeq(m, ps) !! NamesSeq(m, qs) && PlacedSeq(m, ps)
    ensures InstSeq(m, ps + qs, FillSeq(m, ps, a) + us, Also(s, NamesSeq(m, ps), m.render(a)))
  {
    var r := Also(s, NamesSeq(m, ps), m.render(a));
    InstSeqMonotone(m, qs, us, s, r);
    FillInstSeq(m, ps, a, r);
    InstConcat(m, ps, FillSeq(m, ps, a), qs, us, r);
  }

  /** A list `$$$X mid $$$Y` under one way of giving nodes to the outer two. */
  lemma Spread(m: Matcher, x: Node, mid: seq<Node>, y: Node, first: seq<Node>, last: seq<Node>, c: Node, s: Binds)
    requires IsMulti(m, x) && IsMulti(m, y) && PlacedSeq(m, mid) && AllTo(s, NamesSeq(m, mid), m.render(c))
    requires AllTo(s, Named(m.multi[x.name]), RenderSeq(m, first)) && AllTo(s, Named(m.multi[y.name]), RenderSeq(m, last))
    ensures InstSeq(m, [x] + mid + [y], first + FillSeq(m, mid, c) + last, s)
  {
    assert [x][1..] == [] && [y][1..] == [];
    assert first[..|first|] == first && first[|first|..] == [] && last[..|last|] == last && last[|last|..] == [];
    assert InstSplit(m, [x], first, s, |first|);
    assert InstSplit(m, [y], last, s, |last|);
    FillInstSeq(m, mid, c, s);
    InstConcat(m, [x], first, mid, FillSeq(m, mid, c), s);
    InstConcat(m, [x] + mid, first + FillSeq(m, mid, c), [y], last, s);
  }

  ghost function Spreading(m: Matcher, x: Node, mid: seq<Node>, y: Node, first: seq<Node>, last: seq<Node>, c: Node): (s: Binds)
    requires IsMulti(m, x) && IsMulti(m, y)
    ensures s.Keys == Named(m.multi[x.name]) + NamesSeq(m, mid) + Named(m.multi[y.name])
  {
    map n | n in Named(m.multi[x.name]) + NamesSeq(m, mid) + Named(m.multi[y.name]) ::
      if n in Named(m.multi[x.name]) then RenderSeq(m, first)
      else if n in Named(m.multi[y.name]) then RenderSeq(m, last) else m.render(c)
  }

  lemma Spread1(m: Matcher, x: Node, mid: seq<Node>, y: Node, first: seq<Node>, last: seq<Node>, c: Node)
    requires IsMulti(m, x) && IsMulti(m, y) && PlacedSeq(m, mid)
    requires Named(m.multi[x.name]) !! NamesSeq(m, mid) !! Named(m.multi[y.name])
    ensures InstSeq(m, [x] + mid + [y], first + FillSeq(m, mid, c) + last, Spreading(m, x, mid, y, first, last, c))
  {
    Spread(m, x, mid, y, first, last, c, Spreading(m, x, mid, y, first, last, c));
  }

  lemma Regroup(near: seq<Node>, a: Node, far: seq<Node>)
    ensures [] + near + ([a] + far) == near + [a] + far
    ensures near + [a] + far + [] == near + [a] + far
  {
  }

  /** The target `mid a mid'`: the first list metavariable takes nothing or all but the end, and the last one the
      rest or nothing. */
  lemma OuterChoice(m: Matcher, x: Node, mid: seq<Node>, y: Node, a: Node, b: Node, n: string)
    returns (ts: seq<Node>, s: Binds, s': Binds, u: seq<Node>, u': seq<Node>)
    requires IsMulti(m, x) && IsMulti(m, y) && PlacedSeq(m, mid) && Distinguishes(m, a, b)
    requires Named(m.multi[x.name]) !! NamesSeq(m, mid) !! Named(m.multi[y.name])
    requires n in Named(m.multi[x.name]) + NamesSeq(m, mid) + Named(m.multi[y.name])
    ensures InstSeq(m, [x] + mid + [y], ts, s) && InstSeq(m, [x] + mid + [y], ts, s')
    ensures Differ(m, n, Named(m.multi[x.name]) + NamesSeq(m, mid) + Named(m.multi[y.name]), s, s', u, u')
  {
    var near, far := FillSeq(m, mid, a), FillSeq(m, mid, b);
    var left, right := near + [a], [a] + far;
    ts := near + [a] + far;
    s, s' := Spreading(m, x, mid, y, [], right, a), Spreading(m, x, mid, y, left, [], b);
    Spread1(m, x, mid, y, [], right, a);
    Spread1(m, x, mid, y, left, [], b);
    Regroup(near, a, far);
    u, u' := OuterTexts(m, x, mid, y, a, b, n, left, right);
  }

  lemma OuterTexts(m: Matcher, x: Node, mid: seq<Node>, y: Node, a: Node, b: Node, n: string, left: seq<Node>, right: seq<Node>)
    returns (u: seq<Node>, u': seq<Node>)
    requires IsMulti(m, x) && IsMulti(m, y) && Distinguishes(m, a, b)
    requires |left| > 0 && |right| > 0 && left[|left| - 1] == a == right[0]
    requires n in Named(m.multi[x.name]) + NamesSeq(m, mid) + Named(m.multi[y.name])
    requires Named(m.multi[x.name]) !! NamesSeq(m, mid) !! Named(m.multi[y.name])
    ensures Differ(m, n, Named(m.multi[x.name]) + NamesSeq(m, mid) + Named(m.multi[y.name]),
              Spreading(m, x, mid, y, [], right, a), Spreading(m, x, mid, y, left, [], b), u, u')
  {
    NonEmptyText(m, left, a);
    NonEmptyText(m, right, a);
    if n in Named(m.multi[x.name]) {
      u, u' := [], left;
    } else if n in Named(m.multi[y.name]) {
      u, u' := right, [];
    } else {
      u, u' := [a], [b];
    }
  }

  lemma {:induction false} ChoiceNode(m: Matcher, p: Node, a: Node, b: Node, n: string)
    returns (t: Node, s: Binds, s': Binds, u: seq<Node>, u': seq<Node>)
    requires Linear(m, p) && Placed(m, p) && Distinguishes(m, a, b) && n in Choice(m, p) && !IsOne(m, p)
    ensures Inst(m, p, t, s) && Inst(m, p, t, s') && Differ(m, n, Names(m, p), s, s', u, u')
    decreases p, 0
  {
    var gs;
    gs, s, s', u, u' := ChoiceInFields(m, p.fields, a, b, n);
    t := Tree(p.kind, gs);
  }

  lemma {:induction false} ChoiceInFields(m: Matcher, fs: seq<Field>, a: Node, b: Node, n: string)
    returns (gs: seq<Field>, s: Binds, s': Binds, u: seq<Node>, u': seq<Node>)
    requires LinearFields(m, fs) && PlacedFields(m, fs) && Distinguishes(m, a, b) && n in ChoiceFields(m, fs)
    ensures InstFields(m, fs, gs, s) && InstFields(m, fs, gs, s') && Differ(m, n, NamesFields(m, fs), s, s', u, u')
    decreases fs, 0
  {
    if n in ChoiceField(m, fs[0]) {
      var g, r, r';
      g, r, r', u, u' := ChoiceInField(m, fs[0], a, b, n);
      s, s' := Also(r, NamesFields(m, fs[1..]), m.render(a)), Also(r', NamesFields(m, fs[1..]), m.render(a));
      gs := [g] + FillFields(m, fs[1..], a);
      InstFieldMonotone(m, fs[0], g, r, s);
      InstFieldMonotone(m, fs[0], g, r', s');
      FillInstFields(m, fs[1..], a, s);
      FillInstFields(m, fs[1..], a, s');
    } else {
      var hs, r, r';
      hs, r, r', u, u' := ChoiceInFields(m, fs[1..], a, b, n);
      s, s' := Also(r, NamesField(m, fs[0]), m.render(a)), Also(r', NamesField(m, fs[0]), m.render(a));
      gs := [FillField(m, fs[0], a)] + hs;
      InstFieldsMonotone(m, fs[1..], hs, r, s);
      InstFieldsMonotone(m, fs[1..], hs, r', s');
      FillInstField(m, fs[0], a, s);
      FillInstField(m, fs[0], a, s');
    }
  }

  lemma {:induction false} ChoiceInField(m: Matcher, f: Field, a: Node, b: Node, n: string)
    returns (g: Field, s: Binds, s': Binds, u: seq<Node>, u': seq<Node>)
    requires LinearField(m, f) && PlacedField(m, f) && Distinguishes(m, a, b) && n in ChoiceField(m, f)
    ensures InstField(m, f, g, s) && InstField(m, f, g, s') && Differ(m, n, NamesField(m, f), s, s', u, u')
    decreases f, 0
  {
    match f {
      case Child(p) =>
        var t;
        t, s, s', u, u' := ChoiceNode(m, p, a, b, n);
        g := Child(t);
      case List(ps) =>
        var ts;
        ts, s, s', u, u' := ChoiceInSeq(m, ps, a, b, n);
        g := List(ts);
    }
  }

  lemma {:induction false} ChoiceInSeq(m: Matcher, ps: seq<Node>, a: Node, b: Node, n: string)
    returns (ts: seq<Node>, s: Binds, s': Binds, u: seq<Node>, u': seq<Node>)
    requires LinearSeq(m, ps) && PlacedSeq(m, ps) && Distinguishes(m, a, b) && n in ChoiceSeq(m, ps)
    ensures InstSeq(m, ps, ts, s) && InstSeq(m, ps, ts, s') && Differ(m, n, NamesSeq(m, ps), s, s', u, u')
    decreases ps, 1
  {
    var j, r, r' := 1, map[], map[];
    if IsMulti(m, ps[0]) && HasMulti(m, ps[1..]) {
      j := UpToLast(m, ps);
    }
    LinearSplit(m, ps, j);
    PlacedSplit(m, ps, j);
    NamesSplit(m, ps, j);
    assert ps == ps[..j] + ps[j..];
    if n in ChoiceSeq(m, ps[j..]) {
      ts, r, r', u, u' := ChoiceInSeq(m, ps[j..], a, b, n);
      ts, s, s' := FillBefore(m, ps[..j], ps[j..], ts, r, r', a, n, u, u');
    } else {
      ts, r, r', u, u' := ChoiceInFront(m, ps, j, a, b, n);
      ts, s, s' := FillAfter(m, ps[..j], ts, ps[j..], r, r', a, n, u, u');
    }
  }

  lemma FillBefore(m: Matcher, ps: seq<Node>, qs: seq<Node>, us: seq<Node>, r: Binds, r': Binds, a: Node, n: string,
                   u: seq<Node>, u': seq<Node>)
    returns (ts: seq<Node>, s: Binds, s': Binds)
    requires InstSeq(m, qs, us, r) && InstSeq(m, qs, us, r') && Differ(m, n, NamesSeq(m, qs), r, r', u, u')
    requires NamesSeq(m, ps) !! NamesSeq(m, qs) && PlacedSeq(m, ps)
    ensures InstSeq(m, ps + qs, ts, s) && InstSeq(m, ps + qs, ts, s')
    ensures Differ(m, n, NamesSeq(m, ps) + NamesSeq(m, qs), s, s', u, u')
  {
    JoinRight(m, ps, qs, us, r, a);
    JoinRight(m, ps, qs, us, r', a);
    s, s' := Also(r, NamesSeq(m, ps), m.render(a)), Also(r', NamesSeq(m, ps), m.render(a));
    ts := FillSeq(m, ps, a) + us;
  }

  lemma FillAfter(m: Matcher, ps: seq<Node>, us: seq<Node>, qs: seq<Node>, r: Binds, r': Binds, a: Node, n: string,
                  u: seq<Node>, u': seq<Node>)
    returns (ts: seq<Node>, s: Binds, s': Binds)
    requires InstSeq(m, ps, us, r) && InstSeq(m, ps, us, r') && Differ(m, n, NamesSeq(m, ps), r, r', u, u')
    requires NamesSeq(m, ps) !! NamesSeq(m, qs) && PlacedSeq(m, qs)
    ensures InstSeq(m, ps + qs, ts, s) && InstSeq(m, ps + qs, ts, s')
    ensures Differ(m, n, NamesSeq(m, ps) + NamesSeq(m, qs), s, s', u, u')
  {
    JoinLeft(m, ps, us, qs, r, a);
    JoinLeft(m, ps, us, qs, r', a);
    s, s' := Also(r, NamesSeq(m, qs), m.render(a)), Also(r', NamesSeq(m, qs), m.render(a));
    ts := us + FillSeq(m, qs, a);
  }

  lemma {:induction false} ChoiceInFront(m: Matcher, ps: seq<Node>, j: nat, a: Node, b: Node, n: string)
    returns (ts: seq<Node>, s: Binds, s': Binds, u: seq<Node>, u': seq<Node>)
    requires LinearSeq(m, ps) && PlacedSeq(m, ps) && Distinguishes(m, a, b) && 0 < j <= |ps|
    requires n in ChoiceSeq(m, ps) && n !in ChoiceSeq(m, ps[j..])
    requires j == if IsMulti(m, ps[0]) && HasMulti(m, ps[1..]) then UpToLast(m, ps) else 1
    ensures InstSeq(m, ps[..j], ts, s) && InstSeq(m, ps[..j], ts, s') && Differ(m, n, NamesSeq(m, ps[..j]), s, s', u, u')
    decreases ps, 0
  {
    if IsMulti(m, ps[0]) {
      var i :| 0 <= i < |ps[1..]| && IsMulti(m, ps[1..][i]);
      assert IsMulti(m, ps[i + 1]);
      ts, s, s', u, u' := OuterInFront(m, ps, j, a, b, n);
    } else {
      var t;
      t, s, s', u, u' := ChoiceNode(m, ps[0], a, b, n);
      ts := [t];
      assert ps[..1] == [ps[0]] && ps[..1][1..] == [];
    }
  }

  lemma OuterInFront(m: Matcher, ps: seq<Node>, j: nat, a: Node, b: Node, n: string)
    returns (ts: seq<Node>, s: Binds, s': Binds, u: seq<Node>, u': seq<Node>)
    requires LinearSeq(m, ps) && PlacedSeq(m, ps) && Distinguishes(m, a, b) && 1 < j <= |ps|
    requires IsMulti(m, ps[0]) && IsMulti(m, ps[j - 1]) && n in NamesSeq(m, ps[..j])
    ensures InstSeq(m, ps[..j], ts, s) && InstSeq(m, ps[..j], ts, s') && Differ(m, n, NamesSeq(m, ps[..j]), s, s', u, u')
  {
    var front := ps[..j];
    var mid := front[1..j - 1];
    assert front == [ps[0]] + mid + [ps[j - 1]];
    FrontParts(m, ps, j);
    ts, s, s', u, u' := OuterChoice(m, ps[0], mid, ps[j - 1], a, b, n);
  }

  lemma FrontParts(m: Matcher, ps: seq<Node>, j: nat)
    requires LinearSeq(m, ps) && PlacedSeq(m, ps) && 1 < j <= |ps| && IsMulti(m, ps[0]) && IsMulti(m, ps[j - 1])
    ensures
      var mid := ps[..j][1..j - 1];
      && PlacedSeq(m, mid)
      && Named(m.multi[ps[0].name]) !! NamesSeq(m, mid) !! Named(m.multi[ps[j - 1].name])
      && NamesSeq(m, ps[..j]) == Named(m.multi[ps[0].name]) + NamesSeq(m, mid) + Named(m.multi[ps[j - 1].name])
  {
    var front := ps[..j];
    LinearSplit(m, ps, j);
    PlacedSplit(m, ps, j);
    var rest := front[1..];
    assert front[..1] == [ps[0]] && [ps[0]][1..] == [];
    LinearSplit(m, front, 1);
    PlacedSplit(m, front, 1);
    NamesSplit(m, front, 1);
    LinearSplit(m, rest, j - 2);
    PlacedSplit(m, rest, j - 2);
    NamesSplit(m, rest, j - 2);
    assert rest[..j - 2] == front[1..j - 1] && rest[j - 2..] == [ps[j - 1]] && [ps[j - 1]][1..] == [];
  }

  // ---------- exactly which uses are missed ----------

  /** The pattern finds all its instances. */
  ghost predicate FindsAll(m: Matcher, p: Node) {
    forall t :: IsInstance(m, p, t) ==> MatchNode(m, p, t, map[]).Some?
  }

  /** `f(q, $$$n)`: the node, and after it a use of one of its metavariables. */
  function UsedAfter(f: string, q: Node, x: string): Node {
    Call(f, [q, Ident(x)])
  }

  lemma OneFieldIsolated(m: Matcher, f: Field, v: set<string>)
    requires IsolatedField(m, f, v)
    ensures IsolatedFields(m, [f], v)
  {
    var fs := [f];
    var rest := fs[1..];
    assert |rest| == 0;
    assert IsolatedFields(m, rest, v + NamesField(m, f)) && NamesFields(m, rest) == {};
  }

  lemma UseIsIsolated(m: Matcher, f: string, q: Node, x: string)
    requires f !in m.one && f !in m.multi && !IsMulti(m, q) && x in m.multi
    requires Isolated(m, q, {}) && m.multi[x] !in Choice(m, q)
    ensures Isolated(m, UsedAfter(f, q, x), {})
  {
    var args := [q, Ident(x)];
    assert args[1..] == [Ident(x)] && [Ident(x)][1..] == [];
    assert NamesSeq(m, [Ident(x)]) == Named(m.multi[x]);
    assert IsolatedSeq(m, args, {});
    var fs := UsedAfter(f, q, x).fields;
    assert fs[1..] == [List(args)] && [List(args)][1..] == [];
    var head, none: set<string> := fs[0], {};
    assert head == Child(Ident(f)) && Names(m, Ident(f)) == {} && NamesField(m, head) == {};
    var v := none + NamesField(m, head);
    assert v == {};
    OneFieldIsolated(m, List(args), v);
    assert IsolatedFields(m, fs[1..], v) && Choice(m, Ident(f)) == {} && ChoiceField(m, head) == {};
    assert IsolatedField(m, head, none);
    assert IsolatedFields(m, fs, none);
  }

  /** A use of `n` after the node matches only what the node bound. */
  lemma UseNeedsBinding(m: Matcher, x: string, us: seq<Node>, b: Binds)
    requires x in m.multi && !IsAnonymous(m.multi[x]) && m.multi[x] in b && b[m.multi[x]] != RenderSeq(m, us)
    ensures MatchSeq(m, [Ident(x)], us, b).None?
  {
    var ps := [Ident(x)];
    assert ps[1..] == [];
    forall k: nat | k <= |us|
      ensures TrySplit(m, ps, us, b, k).None?
    {
      assert k == |us| ==> us[..k] == us;
    }
    NoSplit(m, ps, us, b, 0);
  }

  lemma {:induction false} NoSplit(m: Matcher, ps: seq<Node>, ts: seq<Node>, b: Binds, k: nat)
    requires |ps| > 0 && IsMulti(m, ps[0]) && k <= |ts| && forall i: nat :: i <= |ts| ==> TrySplit(m, ps, ts, b, i).None?
    ensures TrySplits(m, ps, ts, b, k).None?
    decreases |ts| - k
  {
    if k < |ts| {
      NoSplit(m, ps, ts, b, k + 1);
    }
  }

  lemma UseInstance(m: Matcher, f: string, q: Node, t: Node, x: string, us: seq<Node>, s: Binds)
    requires f !in m.one && f !in m.multi && !IsMulti(m, q) && x in m.multi
    requires Inst(m, q, t, s) && m.multi[x] in s && s[m.multi[x]] == RenderSeq(m, us)
    ensures IsInstance(m, UsedAfter(f, q, x), Call(f, [t] + us))
  {
    var args, ts := [q, Ident(x)], [t] + us;
    assert args[1..] == [Ident(x)] && [Ident(x)][1..] == [] && ts[1..] == us;
    assert us[..|us|] == us && us[|us|..] == [];
    assert InstSplit(m, [Ident(x)], us, s, |us|);
    CallInstance(m, f, args, ts, s);
  }

  /** Of two values that a target leaves open, the matcher takes at most one; a use of the other is missed. */
  lemma OpenNameIsMissed(m: Matcher, f: string, q: Node, t: Node, x: string, s: Binds, s': Binds, u: seq<Node>, u': seq<Node>)
    requires f !in m.one && f !in m.multi && !IsMulti(m, q) && x in m.multi
    requires Inst(m, q, t, s) && Inst(m, q, t, s') && Differ(m, m.multi[x], Names(m, q), s, s', u, u')
    ensures !FindsAll(m, UsedAfter(f, q, x))
  {
    var n := m.multi[x];
    NamedOnly(m, q);
    var r := MatchNode(m, q, t, map[]);
    if r.Some? {
      SoundNode(m, q, t, map[]);
      InstBinds(m, q, t, r.value);
    }
    var us := if r.Some? && r.value[n] == s[n] then u' else u;
    UseInstance(m, f, q, t, x, us, if us == u then s else s');
    if r.Some? {
      UseNeedsBinding(m, x, us, r.value);
    }
    var args, ts := [q, Ident(x)], [t] + us;
    assert args[1..] == [Ident(x)] && ts[1..] == us;
    assert MatchSeq(m, args, ts, map[]).None?;
    CallMatch(m, f, args, ts, map[]);
  }

  /** For every node in which each metavariable occurs once, and each of its metavariables: with a use of that
      metavariable behind it the matcher finds all instances if and only if the node does not choose it, that is,
      if it does not stand between the first and the last `$$$` of a list. */
  lemma MissedIffChosen(m: Matcher, f: string, q: Node, x: string, a: Node, b: Node)
    requires f !in m.one && f !in m.multi && x in m.multi && m.multi[x] in Names(m, q)
    requires Linear(m, q) && Placed(m, q) && !IsMulti(m, q) && Distinguishes(m, a, b)
    ensures FindsAll(m, UsedAfter(f, q, x)) <==> m.multi[x] !in Choice(m, q)
  {
    if m.multi[x] in Choice(m, q) {
      if IsOne(m, q) {
        assert false;
      } else {
        var t, s, s', u, u' := ChoiceNode(m, q, a, b, m.multi[x]);
        OpenNameIsMissed(m, f, q, t, x, s, s', u, u');
      }
    } else {
      LinearIsolated(m, q, {});
      UseIsIsolated(m, f, q, x);
      forall t | IsInstance(m, UsedAfter(f, q, x), t)
        ensures MatchNode(m, UsedAfter(f, q, x), t, map[]).Some?
      {
        MatchIffInstance(m, UsedAfter(f, q, x), t);
      }
    }
  }

  // ---------- the smallest case ----------

  function WitnessMatcher(render: Node -> string): Matcher {
    Matcher(map[], map["m0" := "X", "m1" := "Y", "m2" := "X"], render)
  }

  const WitnessPattern := Call("f", [Call("g", [Ident("m0"), Ident("m1")]), Ident("m2")])
  const WitnessTarget := Call("f", [Call("g", [Ident("a")]), Ident("a")])

  /** `f(g($$$X, $$$Y), $$$X)` against `f(g(a), a)`: the target is the instance with X = a and Y empty,
      but the first split inside `g` takes X = empty and is not revised when `f`'s own list fails. */
  lemma NestedChoiceIsNotRetried(render: Node -> string)
    requires render(Ident("a")) != ""
    ensures IsInstance(WitnessMatcher(render), WitnessPattern, WitnessTarget)
    ensures MatchNode(WitnessMatcher(render), WitnessPattern, WitnessTarget, map[]).None?
    ensures !Isolated(WitnessMatcher(render), WitnessPattern, {})
  {
    var m := WitnessMatcher(render);
    WitnessIsInstance(m);
    WitnessIsMissed(m);
    MatchIffInstance(m, WitnessPattern, WitnessTarget);
  }

  lemma WitnessIsInstance(m: Matcher)
    requires m == WitnessMatcher(m.render)
    ensures IsInstance(m, WitnessPattern, WitnessTarget)
  {
    var x, y, a := Ident("m0"), Ident("m1"), [Ident("a")];
    var s: Binds := map["X" := RenderSeq(m, a), "Y" := RenderSeq(m, [])];
    Spread(m, x, [], y, a, [], x, s);
    assert [x] + [] + [y] == [x, y] && a + FillSeq(m, [], x) + [] == a;
    CallInstance(m, "g", [x, y], a, s);
    UseInstance(m, "f", Call("g", [x, y]), Call("g", a), "m2", a, s);
    assert [Call("g", a)] + a == [Call("g", a), Ident("a")];
  }

  lemma WitnessIsMissed(m: Matcher)
    requires m == WitnessMatcher(m.render) && m.render(Ident("a")) != ""
    ensures MatchNode(m, WitnessPattern, WitnessTarget, map[]).None?
  {
    var a := [Ident("a")];
    var ps, qs := [Ident("m0"), Ident("m1")], WitnessPattern.fields[1].nodes;
    var ts := WitnessTarget.fields[1].nodes;
    var b: Binds := map["X" := ""];
    assert a[..0] == [] && a[0..] == a && a[..1] == a && a[1..] == [];
    assert ps[1..] == [Ident("m1")] && [Ident("m1")][1..] == [] && [Ident("m2")][1..] == [];
    assert TrySplit(m, [Ident("m1")], a, b, 0).None?;
    assert TrySplit(m, [Ident("m1")], a, b, 1) == Some(b["Y" := RenderSeq(m, a)]);
    assert TrySplit(m, ps, a, map[], 0) == Some(b["Y" := RenderSeq(m, a)]);
    var b' := b["Y" := RenderSeq(m, a)];
    assert MatchSeq(m, ps, a, map[]) == Some(b');
    CallMatch(m, "g", ps, a, map[]);
    assert TrySplit(m, [Ident("m2")], a, b', 0).None?;
    assert TrySplit(m, [Ident("m2")], a, b', 1).None?;
    assert MatchSeq(m, [Ident("m2")], a, b').None?;
    assert qs[1..] == [Ident("m2")] && ts[1..] == a;
    CallMatch(m, "f", qs, ts, map[]);
  }
}
