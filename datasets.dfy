/** The generic dataset layer: the scans, the matcher dispatch, the term-set
    extractors and the bulk mutations a dataset inherits from its trait, over
    the sequence of quads the dataset yields. */
module Datasets {
  import opened Wrappers
  import opened Terms
  import opened Streams

  /** No quad occurs twice: what a set dataset guarantees of its scans. */
  predicate NoDup(qs: seq<Quad>) {
    forall i, j :: 0 <= i < j < |qs| ==> qs[i] != qs[j]
  }

  /** Putting a new quad in front keeps the quads distinct. */
  lemma NoDupCons(x: Quad, qs: seq<Quad>)
    ensures NoDup(qs) && x !in qs ==> NoDup([x] + qs)
  {
    if NoDup(qs) && x !in qs {
      forall i, j | 0 <= i < j < |[x] + qs| ensures ([x] + qs)[i] != ([x] + qs)[j] {
        if i == 0 {
          assert ([x] + qs)[j] == qs[j - 1];
        }
      }
    }
  }

  /** The quads `keep` accepts, in order (a `filter_ok` over a scan). */
  function Filter(qs: seq<Quad>, keep: Quad -> bool): (r: seq<Quad>)
    ensures |r| <= |qs|
    ensures forall q :: q in r <==> q in qs && keep(q)
    ensures NoDup(qs) ==> NoDup(r)
    decreases |qs|
  {
    if qs == [] then []
    else
      var rest := Filter(qs[1..], keep);
      assert forall q :: q in qs <==> q == qs[0] || q in qs[1..];
      if keep(qs[0]) then [qs[0]] + rest else rest
  }

  /** Filters that agree on every quad keep the same quads. */
  lemma {:induction false} FilterSame(qs: seq<Quad>, f: Quad -> bool, g: Quad -> bool)
    requires forall q :: f(q) == g(q)
    ensures Filter(qs, f) == Filter(qs, g)
    decreases |qs|
  {
    if qs != [] {
      FilterSame(qs[1..], f, g);
    }
  }

  /** Filtering twice is filtering once by both conditions. */
  lemma {:induction false} FilterThen(qs: seq<Quad>, f: Quad -> bool, g: Quad -> bool, h: Quad -> bool)
    requires forall q :: h(q) == (f(q) && g(q))
    ensures Filter(Filter(qs, f), g) == Filter(qs, h)
    decreases |qs|
  {
    if qs != [] {
      FilterThen(qs[1..], f, g, h);
      var rest := Filter(qs[1..], f);
      if f(qs[0]) {
        assert Filter(qs, f) == [qs[0]] + rest;
        assert ([qs[0]] + rest)[1..] == rest;
      }
    }
  }

  /** A filter that accepts everything keeps everything. */
  lemma {:induction false} FilterAll(qs: seq<Quad>, f: Quad -> bool)
    requires forall q :: f(q)
    ensures Filter(qs, f) == qs
    decreases |qs|
  {
    if qs != [] {
      FilterAll(qs[1..], f);
      assert [qs[0]] + qs[1..] == qs;
    }
  }

  /** The per-position tests of the scans; graph names compare as options,
      so the default graph never equals a named graph. */
  function HasS(s: Term): Quad -> bool { (q: Quad) => q.s == s }
  function HasP(p: Term): Quad -> bool { (q: Quad) => q.p == p }
  function HasO(o: Term): Quad -> bool { (q: Quad) => q.o == o }
  function HasG(g: GraphName): Quad -> bool { (q: Quad) => q.g == g }

  /** Which positions a scan binds, and to what. */
  datatype Pattern = Pattern(s: Option<Term>, p: Option<Term>, o: Option<Term>, g: Option<GraphName>)

  /** The quad agrees with every bound position of the pattern. */
  predicate Fits(pat: Pattern, q: Quad) {
    && (pat.s.Some? ==> q.s == pat.s.value)
    && (pat.p.Some? ==> q.p == pat.p.value)
    && (pat.o.Some? ==> q.o == pat.o.value)
    && (pat.g.Some? ==> q.g == pat.g.value)
  }

  function Fitting(pat: Pattern): Quad -> bool { (q: Quad) => Fits(pat, q) }

  /** The reference scan: the quads agreeing with every bound position. */
  function Select(qs: seq<Quad>, pat: Pattern): seq<Quad> {
    Filter(qs, Fitting(pat))
  }

  function QuadsWithS(qs: seq<Quad>, s: Term): (r: seq<Quad>)
    ensures r == Select(qs, Pattern(Some(s), None, None, None))
  {
    FilterSame(qs, HasS(s), Fitting(Pattern(Some(s), None, None, None)));
    Filter(qs, HasS(s))
  }

  function QuadsWithP(qs: seq<Quad>, p: Term): (r: seq<Quad>)
    ensures r == Select(qs, Pattern(None, Some(p), None, None))
  {
    FilterSame(qs, HasP(p), Fitting(Pattern(None, Some(p), None, None)));
    Filter(qs, HasP(p))
  }

  function QuadsWithO(qs: seq<Quad>, o: Term): (r: seq<Quad>)
    ensures r == Select(qs, Pattern(None, None, Some(o), None))
  {
    FilterSame(qs, HasO(o), Fitting(Pattern(None, None, Some(o), None)));
    Filter(qs, HasO(o))
  }

  function QuadsWithG(qs: seq<Quad>, g: GraphName): (r: seq<Quad>)
    ensures r == Select(qs, Pattern(None, None, None, Some(g)))
  {
    FilterSame(qs, HasG(g), Fitting(Pattern(None, None, None, Some(g))));
    Filter(qs, HasG(g))
  }

  function QuadsWithSp(qs: seq<Quad>, s: Term, p: Term): (r: seq<Quad>)
    ensures r == Select(qs, Pattern(Some(s), Some(p), None, None))
  {
    FilterThen(qs, Fitting(Pattern(Some(s), None, None, None)), HasP(p),
               Fitting(Pattern(Some(s), Some(p), None, None)));
    Filter(QuadsWithS(qs, s), HasP(p))
  }

  function QuadsWithSo(qs: seq<Quad>, s: Term, o: Term): (r: seq<Quad>)
    ensures r == Select(qs, Pattern(Some(s), None, Some(o), None))
  {
    FilterThen(qs, Fitting(Pattern(Some(s), None, None, None)), HasO(o),
               Fitting(Pattern(Some(s), None, Some(o), None)));
    Filter(QuadsWithS(qs, s), HasO(o))
  }

  function QuadsWithSg(qs: seq<Quad>, s: Term, g: GraphName): (r: seq<Quad>)
    ensures r == Select(qs, Pattern(Some(s), None, None, Some(g)))
  {
    FilterThen(qs, Fitting(Pattern(None, None, None, Some(g))), HasS(s),
               Fitting(Pattern(Some(s), None, None, Some(g))));
    Filter(QuadsWithG(qs, g), HasS(s))
  }

  function QuadsWithPo(qs: seq<Quad>, p: Term, o: Term): (r: seq<Quad>)
    ensures r == Select(qs, Pattern(None, Some(p), Some(o), None))
  {
    FilterThen(qs, Fitting(Pattern(None, Some(p), None, None)), HasO(o),
               Fitting(Pattern(None, Some(p), Some(o), None)));
    Filter(QuadsWithP(qs, p), HasO(o))
  }

  function QuadsWithPg(qs: seq<Quad>, p: Term, g: GraphName): (r: seq<Quad>)
    ensures r == Select(qs, Pattern(None, Some(p), None, Some(g)))
  {
    FilterThen(qs, Fitting(Pattern(None, None, None, Some(g))), HasP(p),
               Fitting(Pattern(None, Some(p), None, Some(g))));
    Filter(QuadsWithG(qs, g), HasP(p))
  }

  function QuadsWithOg(qs: seq<Quad>, o: Term, g: GraphName): (r: seq<Quad>)
    ensures r == Select(qs, Pattern(None, None, Some(o), Some(g)))
  {
    FilterThen(qs, Fitting(Pattern(None, None, None, Some(g))), HasO(o),
               Fitting(Pattern(None, None, Some(o), Some(g))));
    Filter(QuadsWithG(qs, g), HasO(o))
  }

  function QuadsWithSpo(qs: seq<Quad>, s: Term, p: Term, o: Term): (r: seq<Quad>)
    ensures r == Select(qs, Pattern(Some(s), Some(p), Some(o), None))
  {
    FilterThen(qs, Fitting(Pattern(Some(s), Some(p), None, None)), HasO(o),
               Fitting(Pattern(Some(s), Some(p), Some(o), None)));
    Filter(QuadsWithSp(qs, s, p), HasO(o))
  }

  function QuadsWithSpg(qs: seq<Quad>, s: Term, p: Term, g: GraphName): (r: seq<Quad>)
    ensures r == Select(qs, Pattern(Some(s), Some(p), None, Some(g)))
  {
    FilterThen(qs, Fitting(Pattern(Some(s), None, None, Some(g))), HasP(p),
               Fitting(Pattern(Some(s), Some(p), None, Some(g))));
    Filter(QuadsWithSg(qs, s, g), HasP(p))
  }

  function QuadsWithSog(qs: seq<Quad>, s: Term, o: Term, g: GraphName): (r: seq<Quad>)
    ensures r == Select(qs, Pattern(Some(s), None, Some(o), Some(g)))
  {
    FilterThen(qs, Fitting(Pattern(Some(s), None, None, Some(g))), HasO(o),
               Fitting(Pattern(Some(s), None, Some(o), Some(g))));
    Filter(QuadsWithSg(qs, s, g), HasO(o))
  }

  function QuadsWithPog(qs: seq<Quad>, p: Term, o: Term, g: GraphName): (r: seq<Quad>)
    ensures r == Select(qs, Pattern(None, Some(p), Some(o), Some(g)))
  {
    FilterThen(qs, Fitting(Pattern(None, Some(p), None, Some(g))), HasO(o),
               Fitting(Pattern(None, Some(p), Some(o), Some(g))));
    Filter(QuadsWithPg(qs, p, g), HasO(o))
  }

  function QuadsWithSpog(qs: seq<Quad>, s: Term, p: Term, o: Term, g: GraphName): (r: seq<Quad>)
    ensures r == Select(qs, Pattern(Some(s), Some(p), Some(o), Some(g)))
  {
    FilterThen(qs, Fitting(Pattern(Some(s), Some(p), None, Some(g))), HasO(o),
               Fitting(Pattern(Some(s), Some(p), Some(o), Some(g))));
    Filter(QuadsWithSpg(qs, s, p, g), HasO(o))
  }

  /** Whether the dataset holds the quad: whether its most specific scan
      yields anything. */
  function Contains(qs: seq<Quad>, s: Term, p: Term, o: Term, g: GraphName): (b: bool)
    ensures b <==> |QuadsWithSpog(qs, s, p, o, g)| > 0
    ensures b <==> Quad(s, p, o, g) in qs
  {
    var r := QuadsWithSpog(qs, s, p, o, g);
    assert Quad(s, p, o, g) in qs ==> Quad(s, p, o, g) in r;
    assert |r| > 0 ==> r[0] in r;
    |r| > 0
  }

  /** A term matcher: possibly a single constant it stands for, and the
      terms it accepts. */
  datatype TermMatcher = TermMatcher(constant: Option<Term>, accepts: Term -> bool)

  /** A graph-name matcher: possibly a single graph name it stands for, and
      the graph names it accepts. */
  datatype GraphNameMatcher = GraphNameMatcher(constant: Option<GraphName>, accepts: GraphName -> bool)

  /** The matcher contract: a matcher with a constant accepts exactly it. */
  ghost predicate Sound(m: TermMatcher) {
    m.constant.Some? ==> forall t :: m.accepts(t) <==> t == m.constant.value
  }

  ghost predicate SoundG(m: GraphNameMatcher) {
    m.constant.Some? ==> forall g :: m.accepts(g) <==> g == m.constant.value
  }

  /** The matcher that accepts every term. */
  function Any(): TermMatcher { TermMatcher(None, t => true) }

  /** The matcher standing for one term. */
  function Only(t: Term): TermMatcher { TermMatcher(Some(t), u => u == t) }

  /** The matcher accepting the terms of a list; a one-term list stands
      for its term. */
  function OneOf(ts: seq<Term>): TermMatcher {
    TermMatcher(if |ts| == 1 then Some(ts[0]) else None, u => u in ts)
  }

  /** The graph-name matcher that accepts every graph. */
  function AnyGraph(): GraphNameMatcher { GraphNameMatcher(None, g => true) }

  /** The graph-name matcher standing for one graph name. */
  function OnlyGraph(g: GraphName): GraphNameMatcher { GraphNameMatcher(Some(g), h => h == g) }

  /** The graph-name matcher given by a predicate alone. */
  function GraphsWhere(f: GraphName -> bool): GraphNameMatcher { GraphNameMatcher(None, f) }

  lemma MatchersSound(t: Term, ts: seq<Term>, g: GraphName, f: GraphName -> bool)
    ensures Sound(Any()) && Sound(Only(t)) && Sound(OneOf(ts))
    ensures SoundG(AnyGraph()) && SoundG(OnlyGraph(g)) && SoundG(GraphsWhere(f))
  {
    if |ts| == 1 {
      assert forall u :: u in ts <==> u == ts[0];
    }
  }

  /** All four matchers accept the quad. */
  predicate Matches(ms: TermMatcher, mp: TermMatcher, mo: TermMatcher, mg: GraphNameMatcher, q: Quad) {
    ms.accepts(q.s) && mp.accepts(q.p) && mo.accepts(q.o) && mg.accepts(q.g)
  }

  function Matching(ms: TermMatcher, mp: TermMatcher, mo: TermMatcher, mg: GraphNameMatcher): Quad -> bool {
    (q: Quad) => Matches(ms, mp, mo, mg, q)
  }

  /** The test left after a scan: the matchers whose flag is set. */
  function Residual(ms: TermMatcher, mp: TermMatcher, mo: TermMatcher, mg: GraphNameMatcher,
                    bs: bool, bp: bool, bo: bool, bg: bool): Quad -> bool {
    (q: Quad) => (bs ==> ms.accepts(q.s)) && (bp ==> mp.accepts(q.p)) && (bo ==> mo.accepts(q.o)) && (bg ==> mg.accepts(q.g))
  }

  /** The 16-way dispatch: the most specific scan the constants of the
      matchers allow, filtered by the matchers without a constant. */
  function QuadsMatching(qs: seq<Quad>, ms: TermMatcher, mp: TermMatcher, mo: TermMatcher, mg: GraphNameMatcher): seq<Quad> {
    match (ms.constant, mp.constant, mo.constant, mg.constant)
    case (None, None, None, None) => Filter(qs, Residual(ms, mp, mo, mg, true, true, true, true))
    case (Some(s), None, None, None) => Filter(QuadsWithS(qs, s), Residual(ms, mp, mo, mg, false, true, true, true))
    case (None, Some(p), None, None) => Filter(QuadsWithP(qs, p), Residual(ms, mp, mo, mg, true, false, true, true))
    case (None, None, Some(o), None) => Filter(QuadsWithO(qs, o), Residual(ms, mp, mo, mg, true, true, false, true))
    case (None, None, None, Some(g)) => Filter(QuadsWithG(qs, g), Residual(ms, mp, mo, mg, true, true, true, false))
    case (Some(s), Some(p), None, None) => Filter(QuadsWithSp(qs, s, p), Residual(ms, mp, mo, mg, false, false, true, true))
    case (Some(s), None, Some(o), None) => Filter(QuadsWithSo(qs, s, o), Residual(ms, mp, mo, mg, false, true, false, true))
    case (Some(s), None, None, Some(g)) => Filter(QuadsWithSg(qs, s, g), Residual(ms, mp, mo, mg, false, true, true, false))
    case (None, Some(p), Some(o), None) => Filter(QuadsWithPo(qs, p, o), Residual(ms, mp, mo, mg, true, false, false, true))
    case (None, Some(p), None, Some(g)) => Filter(QuadsWithPg(qs, p, g), Residual(ms, mp, mo, mg, true, false, true, false))
    case (None, None, Some(o), Some(g)) => Filter(QuadsWithOg(qs, o, g), Residual(ms, mp, mo, mg, true, true, false, false))
    case (Some(s), Some(p), Some(o), None) => Filter(QuadsWithSpo(qs, s, p, o), Residual(ms, mp, mo, mg, false, false, false, true))
    case (Some(s), Some(p), None, Some(g)) => Filter(QuadsWithSpg(qs, s, p, g), Residual(ms, mp, mo, mg, false, false, true, false))
    case (Some(s), None, Some(o), Some(g)) => Filter(QuadsWithSog(qs, s, o, g), Residual(ms, mp, mo, mg, false, true, false, false))
    case (None, Some(p), Some(o), Some(g)) => Filter(QuadsWithPog(qs, p, o, g), Residual(ms, mp, mo, mg, true, false, false, false))
    case (Some(s), Some(p), Some(o), Some(g)) => QuadsWithSpog(qs, s, p, o, g)
  }

  /** The pattern the constants of the matchers bind. */
  function Constants(ms: TermMatcher, mp: TermMatcher, mo: TermMatcher, mg: GraphNameMatcher): Pattern {
    Pattern(ms.constant, mp.constant, mo.constant, mg.constant)
  }

  /** In every one of the 16 cases, the dispatch is the reference scan on
      the constants, filtered by the matchers without one. */
  lemma QuadsMatchingShape(qs: seq<Quad>, ms: TermMatcher, mp: TermMatcher, mo: TermMatcher, mg: GraphNameMatcher)
    ensures QuadsMatching(qs, ms, mp, mo, mg) ==
      Filter(Select(qs, Constants(ms, mp, mo, mg)),
             Residual(ms, mp, mo, mg, ms.constant.None?, mp.constant.None?, mo.constant.None?, mg.constant.None?))
  {
    match (ms.constant, mp.constant, mo.constant, mg.constant)
    case (None, None, None, None) =>
      FilterAll(qs, Fitting(Constants(ms, mp, mo, mg)));
    case (None, None, None, Some(g)) =>
      assert QuadsWithG(qs, g) == Select(qs, Constants(ms, mp, mo, mg));
    case (None, None, Some(o), None) =>
      assert QuadsWithO(qs, o) == Select(qs, Constants(ms, mp, mo, mg));
    case (None, None, Some(o), Some(g)) =>
      assert QuadsWithOg(qs, o, g) == Select(qs, Constants(ms, mp, mo, mg));
    case (None, Some(p), None, None) =>
      assert QuadsWithP(qs, p) == Select(qs, Constants(ms, mp, mo, mg));
    case (None, Some(p), None, Some(g)) =>
      assert QuadsWithPg(qs, p, g) == Select(qs, Constants(ms, mp, mo, mg));
    case (None, Some(p), Some(o), None) =>
      assert QuadsWithPo(qs, p, o) == Select(qs, Constants(ms, mp, mo, mg));
    case (None, Some(p), Some(o), Some(g)) =>
      assert QuadsWithPog(qs, p, o, g) == Select(qs, Constants(ms, mp, mo, mg));
    case (Some(s), None, None, None) =>
      assert QuadsWithS(qs, s) == Select(qs, Constants(ms, mp, mo, mg));
    case (Some(s), None, None, Some(g)) =>
      assert QuadsWithSg(qs, s, g) == Select(qs, Constants(ms, mp, mo, mg));
    case (Some(s), None, Some(o), None) =>
      assert QuadsWithSo(qs, s, o) == Select(qs, Constants(ms, mp, mo, mg));
    case (Some(s), None, Some(o), Some(g)) =>
      assert QuadsWithSog(qs, s, o, g) == Select(qs, Constants(ms, mp, mo, mg));
    case (Some(s), Some(p), None, None) =>
      assert QuadsWithSp(qs, s, p) == Select(qs, Constants(ms, mp, mo, mg));
    case (Some(s), Some(p), None, Some(g)) =>
      assert QuadsWithSpg(qs, s, p, g) == Select(qs, Constants(ms, mp, mo, mg));
    case (Some(s), Some(p), Some(o), None) =>
      assert QuadsWithSpo(qs, s, p, o) == Select(qs, Constants(ms, mp, mo, mg));
    case (Some(s), Some(p), Some(o), Some(g)) =>
      FilterAll(QuadsWithSpog(qs, s, p, o, g), Residual(ms, mp, mo, mg, false, false, false, false));
  }

  /** Whatever the matchers, the dispatch yields quads of the dataset, and
      none twice when the dataset has none twice. */
  lemma QuadsMatchingWithin(qs: seq<Quad>, ms: TermMatcher, mp: TermMatcher, mo: TermMatcher, mg: GraphNameMatcher)
    ensures forall x :: x in QuadsMatching(qs, ms, mp, mo, mg) ==> x in qs
    ensures NoDup(qs) ==> NoDup(QuadsMatching(qs, ms, mp, mo, mg))
  {
    QuadsMatchingShape(qs, ms, mp, mo, mg);
  }

  /** For matchers keeping their contract, the dispatch yields exactly the
      quads of the full scan that all four matchers accept, whichever of the
      16 cases applies. */
  lemma QuadsMatchingFilters(qs: seq<Quad>, ms: TermMatcher, mp: TermMatcher, mo: TermMatcher, mg: GraphNameMatcher)
    requires Sound(ms) && Sound(mp) && Sound(mo) && SoundG(mg)
    ensures QuadsMatching(qs, ms, mp, mo, mg) == Filter(qs, Matching(ms, mp, mo, mg))
  {
    QuadsMatchingShape(qs, ms, mp, mo, mg);
    var pat := Constants(ms, mp, mo, mg);
    var rest := Residual(ms, mp, mo, mg, ms.constant.None?, mp.constant.None?, mo.constant.None?, mg.constant.None?);
    forall q ensures Matching(ms, mp, mo, mg)(q) == (Fitting(pat)(q) && rest(q)) {
    }
    FilterThen(qs, Fitting(pat), rest, Matching(ms, mp, mo, mg));
  }

  /** The terms used as subject. */
  method Subjects(qs: seq<Quad>) returns (res: set<Term>)
    ensures forall t :: t in res <==> exists q :: q in qs && q.s == t
  {
    res := {};
    for i := 0 to |qs|
      invariant forall t :: t in res <==> exists j :: 0 <= j < i && qs[j].s == t
    {
      res := res + {qs[i].s};
    }
    forall t | exists q :: q in qs && q.s == t
      ensures t in res
    {
      var q :| q in qs && q.s == t;
      var j :| 0 <= j < |qs| && qs[j] == q;
    }
  }

  /** The terms used as predicate. */
  method Predicates(qs: seq<Quad>) returns (res: set<Term>)
    ensures forall t :: t in res <==> exists q :: q in qs && q.p == t
  {
    res := {};
    for i := 0 to |qs|
      invariant forall t :: t in res <==> exists j :: 0 <= j < i && qs[j].p == t
    {
      res := res + {qs[i].p};
    }
    forall t | exists q :: q in qs && q.p == t
      ensures t in res
    {
      var q :| q in qs && q.p == t;
      var j :| 0 <= j < |qs| && qs[j] == q;
    }
  }

  /** The terms used as object. */
  method Objects(qs: seq<Quad>) returns (res: set<Term>)
    ensures forall t :: t in res <==> exists q :: q in qs && q.o == t
  {
    res := {};
    for i := 0 to |qs|
      invariant forall t :: t in res <==> exists j :: 0 <= j < i && qs[j].o == t
    {
      res := res + {qs[i].o};
    }
    forall t | exists q :: q in qs && q.o == t
      ensures t in res
    {
      var q :| q in qs && q.o == t;
      var j :| 0 <= j < |qs| && qs[j] == q;
    }
  }

  /** The names of the named graphs; the default graph is not a name. */
  method GraphNames(qs: seq<Quad>) returns (res: set<Term>)
    ensures forall t :: t in res <==> exists q :: q in qs && q.g == Some(t)
  {
    res := {};
    for i := 0 to |qs|
      invariant forall t :: t in res <==> exists j :: 0 <= j < i && qs[j].g == Some(t)
    {
      if qs[i].g.Some? {
        res := res + {qs[i].g.value};
      }
    }
    forall t | exists q :: q in qs && q.g == Some(t)
      ensures t in res
    {
      var q :| q in qs && q.g == Some(t);
      var j :| 0 <= j < |qs| && qs[j] == q;
    }
  }

  /** The terms of variant `k` in one quad. */
  function KindIn(q: Quad, k: TermKind): (r: set<Term>)
    ensures forall t :: t in r <==> KindOf(t) == k && t in TermsOf(q)
  {
    (if KindOf(q.s) == k then {q.s} else {})
    + (if KindOf(q.p) == k then {q.p} else {})
    + (if KindOf(q.o) == k then {q.o} else {})
    + (if q.g.Some? && KindOf(q.g.value) == k then {q.g.value} else {})
  }

  /** The terms of one variant found anywhere in the quads: as subject,
      predicate, object or graph name. */
  method KindTerms(qs: seq<Quad>, k: TermKind) returns (res: set<Term>)
    ensures forall t :: t in res <==> KindOf(t) == k && exists q :: q in qs && t in TermsOf(q)
  {
    res := {};
    for i := 0 to |qs|
      invariant forall t :: t in res <==> KindOf(t) == k && exists j :: 0 <= j < i && t in TermsOf(qs[j])
    {
      ghost var before := res;
      res := res + KindIn(qs[i], k);
      forall t | t in res
        ensures KindOf(t) == k && exists j :: 0 <= j < i + 1 && t in TermsOf(qs[j])
      {
        if t !in before {
          assert t in TermsOf(qs[i]);
        }
      }
      forall t | KindOf(t) == k && exists j :: 0 <= j < i + 1 && t in TermsOf(qs[j])
        ensures t in res
      {
        var j :| 0 <= j < i + 1 && t in TermsOf(qs[j]);
        if j < i {
          assert t in before;
        }
      }
    }
    forall t | KindOf(t) == k && exists q :: q in qs && t in TermsOf(q)
      ensures t in res
    {
      var q :| q in qs && t in TermsOf(q);
      var j :| 0 <= j < |qs| && qs[j] == q;
    }
  }

  method Iris(qs: seq<Quad>) returns (res: set<Term>)
    ensures forall t :: t in res <==> t.Iri? && exists q :: q in qs && t in TermsOf(q)
  {
    res := KindTerms(qs, IriKind);
  }

  method BNodes(qs: seq<Quad>) returns (res: set<Term>)
    ensures forall t :: t in res <==> t.BNode? && exists q :: q in qs && t in TermsOf(q)
  {
    res := KindTerms(qs, BNodeKind);
  }

  method Literals(qs: seq<Quad>) returns (res: set<Term>)
    ensures forall t :: t in res <==> t.Literal? && exists q :: q in qs && t in TermsOf(q)
  {
    res := KindTerms(qs, LiteralKind);
  }

  method Variables(qs: seq<Quad>) returns (res: set<Term>)
    ensures forall t :: t in res <==> t.Variable? && exists q :: q in qs && t in TermsOf(q)
  {
    res := KindTerms(qs, VariableKind);
  }
}
