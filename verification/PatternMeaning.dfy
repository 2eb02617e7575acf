/** What the metavariables of `repotools/pattern.go` mean to the one who writes a pattern: `$_` stands for anything and
    captures nothing, a name stands for one text wherever it occurs, and everything else stands for itself. */
module PatternMeaning {
  import opened Common
  import opened Pattern

  // ---------- patterns without metavariables ----------

  /** A pattern without metavariables matches itself and nothing else, and binds nothing. */
  lemma {:induction false} LiteralNode(m: Matcher, p: Node, t: Node, b: Binds)
    requires m.one == map[] && m.multi == map[]
    ensures MatchNode(m, p, t, b) == if t == p then Some(b) else None
    decreases p, 0
  {
    if p.Tree? && t.Tree? && p.kind == t.kind {
      LiteralFields(m, p.fields, t.fields, b);
    }
  }

  lemma {:induction false} LiteralFields(m: Matcher, fs: seq<Field>, gs: seq<Field>, b: Binds)
    requires m.one == map[] && m.multi == map[]
    ensures MatchFields(m, fs, gs, b) == if gs == fs then Some(b) else None
    decreases fs, 0
  {
    if |fs| > 0 && |gs| > 0 {
      LiteralField(m, fs[0], gs[0], b);
      LiteralFields(m, fs[1..], gs[1..], b);
      assert fs == [fs[0]] + fs[1..] && gs == [gs[0]] + gs[1..];
    }
  }

  lemma {:induction false} LiteralField(m: Matcher, f: Field, g: Field, b: Binds)
    requires m.one == map[] && m.multi == map[]
    ensures MatchField(m, f, g, b) == if g == f then Some(b) else None
    decreases f, 0
  {
    match (f, g)
    case (Child(p), Child(t)) => LiteralNode(m, p, t, b);
    case (List(ps), List(ts)) => LiteralSeq(m, ps, ts, b);
    case _ =>
  }

  lemma {:induction false} LiteralSeq(m: Matcher, ps: seq<Node>, ts: seq<Node>, b: Binds)
    requires m.one == map[] && m.multi == map[]
    ensures MatchSeq(m, ps, ts, b) == if ts == ps then Some(b) else None
    decreases ps, 1
  {
    if |ps| > 0 && |ts| > 0 {
      LiteralNode(m, ps[0], ts[0], b);
      LiteralSeq(m, ps[1..], ts[1..], b);
      assert ps == [ps[0]] + ps[1..] && ts == [ts[0]] + ts[1..];
    }
  }

  // ---------- `$_` ----------

  /** All metavariables begin with an underscore. */
  ghost predicate OnlyUnderscores(m: Matcher) {
    && (forall x :: x in m.one ==> |m.one[x]| > 0 && m.one[x][0] == '_')
    && (forall x :: x in m.multi ==> |m.multi[x]| > 0 && m.multi[x][0] == '_')
  }

  ghost predicate NoUnderscores(b: Binds) {
    forall n :: n in b ==> |n| == 0 || n[0] != '_'
  }

  ghost predicate OtherRenderer(m: Matcher, m': Matcher) {
    m'.one == m.one && m'.multi == m.multi
  }

  /** With nothing but `$_` and `$$$_`, a match binds nothing, and no renderer has a say in it. */
  lemma {:induction false} AnonymousNode(m: Matcher, m': Matcher, p: Node, t: Node, b: Binds)
    requires OnlyUnderscores(m) && NoUnderscores(b) && OtherRenderer(m, m')
    ensures MatchNode(m, p, t, b) == None || MatchNode(m, p, t, b) == Some(b)
    ensures MatchNode(m', p, t, b) == MatchNode(m, p, t, b)
    decreases p, 0
  {
    if !IsOne(m, p) && p.Tree? && t.Tree? {
      AnonymousFields(m, m', p.fields, t.fields, b);
    }
  }

  lemma {:induction false} AnonymousFields(m: Matcher, m': Matcher, fs: seq<Field>, gs: seq<Field>, b: Binds)
    requires OnlyUnderscores(m) && NoUnderscores(b) && OtherRenderer(m, m')
    ensures MatchFields(m, fs, gs, b) == None || MatchFields(m, fs, gs, b) == Some(b)
    ensures MatchFields(m', fs, gs, b) == MatchFields(m, fs, gs, b)
    decreases fs, 0
  {
    if |fs| > 0 && |gs| > 0 {
      AnonymousField(m, m', fs[0], gs[0], b);
      AnonymousFields(m, m', fs[1..], gs[1..], b);
    }
  }

  lemma {:induction false} AnonymousField(m: Matcher, m': Matcher, f: Field, g: Field, b: Binds)
    requires OnlyUnderscores(m) && NoUnderscores(b) && OtherRenderer(m, m')
    ensures MatchField(m, f, g, b) == None || MatchField(m, f, g, b) == Some(b)
    ensures MatchField(m', f, g, b) == MatchField(m, f, g, b)
    decreases f, 0
  {
    match (f, g)
    case (Child(p), Child(t)) => AnonymousNode(m, m', p, t, b);
    case (List(ps), List(ts)) => AnonymousSeq(m, m', ps, ts, b);
    case _ =>
  }

  lemma {:induction false} AnonymousSeq(m: Matcher, m': Matcher, ps: seq<Node>, ts: seq<Node>, b: Binds)
    requires OnlyUnderscores(m) && NoUnderscores(b) && OtherRenderer(m, m')
    ensures MatchSeq(m, ps, ts, b) == None || MatchSeq(m, ps, ts, b) == Some(b)
    ensures MatchSeq(m', ps, ts, b) == MatchSeq(m, ps, ts, b)
    decreases ps, 2, 0
  {
    if |ps| == 0 {
    } else if IsMulti(m, ps[0]) {
      AnonymousSplits(m, m', ps, ts, b, 0);
    } else if |ts| > 0 {
      AnonymousNode(m, m', ps[0], ts[0], b);
      AnonymousSeq(m, m', ps[1..], ts[1..], b);
    }
  }

  lemma {:induction false} AnonymousSplits(m: Matcher, m': Matcher, ps: seq<Node>, ts: seq<Node>, b: Binds, k: nat)
    requires OnlyUnderscores(m) && NoUnderscores(b) && OtherRenderer(m, m')
    requires |ps| > 0 && IsMulti(m, ps[0]) && k <= |ts|
    ensures TrySplits(m, ps, ts, b, k) == None || TrySplits(m, ps, ts, b, k) == Some(b)
    ensures TrySplits(m', ps, ts, b, k) == TrySplits(m, ps, ts, b, k)
    decreases ps, 1, |ts| - k
  {
    AnonymousSeq(m, m', ps[1..], ts[k..], b);
    if k < |ts| {
      AnonymousSplits(m, m', ps, ts, b, k + 1);
    }
  }

  /** `$_` matches every node and `$$$_` every list, also an empty one, as often as they occur. */
  lemma AnonymousMatchesAll(m: Matcher, x: string, y: string, t: Node, ts: seq<Node>, b: Binds)
    requires NoUnderscores(b) && x in m.one && |m.one[x]| > 0 && m.one[x][0] == '_'
    requires y in m.multi && y !in m.one && |m.multi[y]| > 0 && m.multi[y][0] == '_'
    ensures MatchNode(m, Ident(x), t, b) == Some(b)
    ensures MatchSeq(m, [Ident(y)], ts, b) == Some(b)
  {
    ListOfOne(m, y, ts, b, 0);
  }

  /** A list pattern that is one `$$$` takes all there is: shorter splits leave something over. */
  lemma {:induction false} ListOfOne(m: Matcher, y: string, ts: seq<Node>, b: Binds, k: nat)
    requires y in m.multi && k <= |ts|
    ensures TrySplits(m, [Ident(y)], ts, b, k) == BindMulti(m, m.multi[y], ts, b)
    decreases |ts| - k
  {
    assert [Ident(y)][1..] == [];
    if k < |ts| {
      assert TrySplit(m, [Ident(y)], ts, b, k).None?;
      ListOfOne(m, y, ts, b, k + 1);
    } else {
      assert ts[..k] == ts && ts[k..] == [];
      assert forall r: Binds :: MatchSeq(m, [], [], r) == Some(r);
    }
  }

  // ---------- names ----------

  /** A named metavariable takes any node where it comes first, is bound to its text, and from then on matches a
      node if and only if that renders to the same text. */
  lemma NamedNode(m: Matcher, x: string, t: Node, b: Binds)
    requires x in m.one && (|m.one[x]| == 0 || m.one[x][0] != '_')
    ensures m.one[x] !in b ==> MatchNode(m, Ident(x), t, b) == Some(b[m.one[x] := m.render(t)])
    ensures m.one[x] in b ==> MatchNode(m, Ident(x), t, b) == if b[m.one[x]] == m.render(t) then Some(b) else None
  {
  }

  /** The same for a list, with the texts of its nodes separated by blanks. */
  lemma NamedList(m: Matcher, y: string, ts: seq<Node>, b: Binds)
    requires y in m.multi && y !in m.one && (|m.multi[y]| == 0 || m.multi[y][0] != '_')
    ensures m.multi[y] !in b ==> MatchSeq(m, [Ident(y)], ts, b) == Some(b[m.multi[y] := Joined(m, ts)])
    ensures m.multi[y] in b ==> MatchSeq(m, [Ident(y)], ts, b) == if b[m.multi[y]] == Joined(m, ts) then Some(b) else None
  {
    ListOfOne(m, y, ts, b, 0);
    JoinedIsRendered(m, ts);
  }

  /** A `$$$` that is seen first takes as few nodes as possible: the result is that of the shortest split that lets
      the rest match. */
  lemma FewestNodes(m: Matcher, y: string, qs: seq<Node>, ts: seq<Node>, b: Binds)
    requires y in m.multi && y !in m.one && (|m.multi[y]| == 0 || m.multi[y][0] != '_') && m.multi[y] !in b
    ensures
      var r := MatchSeq(m, [Ident(y)] + qs, ts, b);
      && (r.None? ==> forall k :: 0 <= k <= |ts| ==> AfterTaking(m, y, qs, ts, b, k).None?)
      && (r.Some? ==> exists k :: 0 <= k <= |ts| && AfterTaking(m, y, qs, ts, b, k) == r &&
                        forall j :: 0 <= j < k ==> AfterTaking(m, y, qs, ts, b, j).None?)
  {
    var ps := [Ident(y)] + qs;
    assert ps[1..] == qs;
    FewestFrom(m, y, qs, ts, b, 0);
    assert MatchSeq(m, ps, ts, b) == TrySplits(m, ps, ts, b, 0);
  }

  /** The rest of the list, with the metavariable bound to the text of the first `k` nodes. */
  function AfterTaking(m: Matcher, y: string, qs: seq<Node>, ts: seq<Node>, b: Binds, k: nat): Option<Binds>
    requires y in m.multi && k <= |ts|
  {
    MatchSeq(m, qs, ts[k..], b[m.multi[y] := Joined(m, ts[..k])])
  }

  lemma {:induction false} FewestFrom(m: Matcher, y: string, qs: seq<Node>, ts: seq<Node>, b: Binds, k: nat)
    requires y in m.multi && y !in m.one && (|m.multi[y]| == 0 || m.multi[y][0] != '_') && m.multi[y] !in b && k <= |ts|
    ensures
      var r := TrySplits(m, [Ident(y)] + qs, ts, b, k);
      && (r.None? ==> forall i :: k <= i <= |ts| ==> AfterTaking(m, y, qs, ts, b, i).None?)
      && (r.Some? ==> exists i :: k <= i <= |ts| && AfterTaking(m, y, qs, ts, b, i) == r &&
                        forall j :: k <= j < i ==> AfterTaking(m, y, qs, ts, b, j).None?)
    decreases |ts| - k
  {
    var ps := [Ident(y)] + qs;
    assert ps[1..] == qs;
    JoinedIsRendered(m, ts[..k]);
    assert TrySplit(m, ps, ts, b, k) == AfterTaking(m, y, qs, ts, b, k);
    if k < |ts| {
      FewestFrom(m, y, qs, ts, b, k + 1);
    }
  }

  function Joined(m: Matcher, ts: seq<Node>): string {
    if |ts| == 0 then "" else if |ts| == 1 then m.render(ts[0]) else m.render(ts[0]) + " " + Joined(m, ts[1..])
  }

  lemma {:induction false} RenderFromFront(m: Matcher, ts: seq<Node>)
    requires |ts| > 1
    ensures RenderSeq(m, ts) == m.render(ts[0]) + " " + RenderSeq(m, ts[1..])
    decreases |ts|
  {
    var n := |ts| - 1;
    assert ts[1..][..n - 1] == ts[..n][1..];
    if n > 1 {
      RenderFromFront(m, ts[..n]);
    }
  }

  lemma {:induction false} JoinedIsRendered(m: Matcher, ts: seq<Node>)
    ensures Joined(m, ts) == RenderSeq(m, ts)
  {
    if |ts| > 1 {
      JoinedIsRendered(m, ts[1..]);
      RenderFromFront(m, ts);
    }
  }

  /** The same name twice: both nodes have one text; `$_` twice: any two nodes. */
  lemma TwiceTheSame(m: Matcher, x: string, y: string, t: Node, u: Node, b: Binds)
    requires x in m.one && x !in m.multi && y in m.one && y !in m.multi && m.one[x] == m.one[y] && m.one[x] !in b
    ensures MatchSeq(m, [Ident(x), Ident(y)], [t, u], b) ==
            if |m.one[x]| > 0 && m.one[x][0] == '_' then Some(b)
            else if m.render(t) == m.render(u) then Some(b[m.one[x] := m.render(t)])
            else None
  {
    var ps, ts := [Ident(x), Ident(y)], [t, u];
    assert ps[1..] == [Ident(y)] && ts[1..] == [u];
    var r := MatchNode(m, Ident(x), t, b);
    assert r.Some?;
    OneNode(m, y, u, r.value);
    assert MatchSeq(m, ps, ts, b) == MatchSeq(m, [Ident(y)], [u], r.value);
  }

  lemma OneNode(m: Matcher, x: string, t: Node, b: Binds)
    requires x !in m.multi
    ensures MatchSeq(m, [Ident(x)], [t], b) == MatchNode(m, Ident(x), t, b)
  {
    assert [Ident(x)][1..] == [] && [t][1..] == [];
    assert forall r: Binds :: MatchSeq(m, [], [], r) == Some(r);
  }
}
