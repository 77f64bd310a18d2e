/** The dataset test suite, run against the in-memory set dataset: the
    fixtures, and each scenario's mutations and queries with the outcomes
    the suite asserts. Fixture IRIs are prefixed names. */
module DatasetTests {
  import opened Wrappers
  import opened Terms
  import opened Streams
  import opened Datasets
  import opened MutableDatasets

  const C1 := Iri("ex:C1")
  const C2 := Iri("ex:C2")
  const P1 := Iri("ex:P1")
  const P2 := Iri("ex:P2")
  const I1A := Iri("ex:I1A")
  const I1B := Iri("ex:I1B")
  const I2A := Iri("ex:I2A")
  const I2B := Iri("ex:I2B")
  const G1 := Iri("ex:G1")
  const G2 := Iri("ex:G2")
  const DG: GraphName := None
  const GN1: GraphName := Some(G1)
  const GN2: GraphName := Some(G2)

  /** The rows of `some_quads`, in order. */
  const Q1 := Quad(C1, RdfType, RdfsClass, DG)
  const Q2 := Quad(C1, RdfType, RdfsClass, GN1)
  const Q3 := Quad(C2, RdfType, RdfsClass, DG)
  const Q4 := Quad(C2, RdfsSubClassOf, C1, GN1)
  const Q5 := Quad(P1, RdfType, RdfProperty, DG)
  const Q6 := Quad(P1, RdfsDomain, C1, GN1)
  const Q7 := Quad(P1, RdfsRange, C2, GN1)
  const Q8 := Quad(P2, RdfType, RdfProperty, DG)
  const Q9 := Quad(P2, RdfsDomain, C2, GN1)
  const Q10 := Quad(P2, RdfsRange, C2, GN1)
  const Q11 := Quad(I1A, RdfType, C1, GN2)
  const Q12 := Quad(I1B, RdfType, C1, GN2)
  const Q13 := Quad(I2A, RdfType, C2, GN2)
  const Q14 := Quad(I2B, RdfType, C2, GN2)
  const Q15 := Quad(I1A, P1, I2A, GN2)
  const Q16 := Quad(I1B, P1, I2B, GN2)
  const Q17 := Quad(I2A, P2, I2B, GN2)

  /** The schema part: rows in the default graph and in `G1`. */
  const SchemaQuads: seq<Quad> := [Q1, Q2, Q3, Q4, Q5, Q6, Q7, Q8, Q9, Q10]

  /** The instance part: rows in `G2`. */
  const InstanceQuads: seq<Quad> := [Q11, Q12, Q13, Q14, Q15, Q16, Q17]

  /** The 17-quad fixture. */
  const SomeQuads: seq<Quad> := SchemaQuads + InstanceQuads

  /** The 2-quad fixture of the bulk mutations. */
  const MakeQuadSource: seq<Quad> := [Quad(C1, RdfType, RdfsClass, GN1), Quad(C1, RdfsSubClassOf, C2, GN1)]

  // Counting the quads a test accepts.

  /** How many quads `f` accepts, counted from the back. */
  function Count(qs: seq<Quad>, f: Quad -> bool): nat
  {
    if qs == [] then 0 else Count(qs[..|qs| - 1], f) + Ind(f, qs[|qs| - 1])
  }

  function Ind(f: Quad -> bool, q: Quad): nat { if f(q) then 1 else 0 }

  lemma CountSnoc(qs: seq<Quad>, x: Quad, f: Quad -> bool)
    ensures Count(qs + [x], f) == Count(qs, f) + Ind(f, x)
  {
    assert (qs + [x])[..|qs|] == qs;
  }

  lemma {:induction false} CountAppend(a: seq<Quad>, b: seq<Quad>, f: Quad -> bool)
    ensures Count(a + b, f) == Count(a, f) + Count(b, f)
    decreases |b|
  {
    if b == [] {
      assert a + b == a;
    } else {
      var c, x := b[..|b| - 1], b[|b| - 1];
      assert b == c + [x];
      assert a + b == (a + c) + [x];
      CountAppend(a, c, f);
      CountSnoc(a + c, x, f);
      CountSnoc(c, x, f);
    }
  }

  /** The filter keeps as many quads as the count says. */
  lemma {:induction false} FilterCount(qs: seq<Quad>, f: Quad -> bool)
    ensures |Filter(qs, f)| == Count(qs, f)
    decreases |qs|
  {
    if qs != [] {
      FilterCount(qs[1..], f);
      CountCons(qs, f);
      assert |Filter(qs, f)| == Ind(f, qs[0]) + |Filter(qs[1..], f)|;
    }
  }

  /** Counting from the front: the first quad, then the rest. */
  lemma CountCons(qs: seq<Quad>, f: Quad -> bool)
    requires qs != []
    ensures Count(qs, f) == Ind(f, qs[0]) + Count(qs[1..], f)
  {
    assert qs == [qs[0]] + qs[1..];
    CountAppend([qs[0]], qs[1..], f);
    CountSnoc([], qs[0], f);
    assert [] + [qs[0]] == [qs[0]];
  }

  lemma CountSchema(f: Quad -> bool)
    ensures Count(SchemaQuads, f) == Ind(f, Q1) + Ind(f, Q2) + Ind(f, Q3) + Ind(f, Q4) + Ind(f, Q5)
                                   + Ind(f, Q6) + Ind(f, Q7) + Ind(f, Q8) + Ind(f, Q9) + Ind(f, Q10)
  {
    CountAppend([Q1, Q2, Q3, Q4, Q5], [Q6, Q7, Q8, Q9, Q10], f);
    assert SchemaQuads == [Q1, Q2, Q3, Q4, Q5] + [Q6, Q7, Q8, Q9, Q10];
    CountFive(Q1, Q2, Q3, Q4, Q5, f);
    CountFive(Q6, Q7, Q8, Q9, Q10, f);
  }

  lemma CountInstances(f: Quad -> bool)
    ensures Count(InstanceQuads, f) == Ind(f, Q11) + Ind(f, Q12) + Ind(f, Q13) + Ind(f, Q14)
                                     + Ind(f, Q15) + Ind(f, Q16) + Ind(f, Q17)
  {
    CountAppend([Q11, Q12, Q13, Q14, Q15], [Q16, Q17], f);
    assert InstanceQuads == [Q11, Q12, Q13, Q14, Q15] + [Q16, Q17];
    CountFive(Q11, Q12, Q13, Q14, Q15, f);
    CountSnoc([], Q16, f);
    CountSnoc([Q16], Q17, f);
    assert [] + [Q16] == [Q16];
    assert [Q16] + [Q17] == [Q16, Q17];
  }

  lemma CountFive(a: Quad, b: Quad, c: Quad, d: Quad, e: Quad, f: Quad -> bool)
    ensures Count([a, b, c, d, e], f) == Ind(f, a) + Ind(f, b) + Ind(f, c) + Ind(f, d) + Ind(f, e)
  {
    CountSnoc([], a, f);
    assert [] + [a] == [a];
    CountSnoc([a], b, f);
    assert [a] + [b] == [a, b];
    CountSnoc([a, b], c, f);
    assert [a, b] + [c] == [a, b, c];
    CountSnoc([a, b, c], d, f);
    assert [a, b, c] + [d] == [a, b, c, d];
    CountSnoc([a, b, c, d], e, f);
    assert [a, b, c, d] + [e] == [a, b, c, d, e];
  }

  lemma CountFixture(f: Quad -> bool)
    ensures Count(SomeQuads, f) == Ind(f, Q1) + Ind(f, Q2) + Ind(f, Q3) + Ind(f, Q4) + Ind(f, Q5)
                                 + Ind(f, Q6) + Ind(f, Q7) + Ind(f, Q8) + Ind(f, Q9) + Ind(f, Q10)
                                 + Ind(f, Q11) + Ind(f, Q12) + Ind(f, Q13) + Ind(f, Q14)
                                 + Ind(f, Q15) + Ind(f, Q16) + Ind(f, Q17)
  {
    CountAppend(SchemaQuads, InstanceQuads, f);
    CountSchema(f);
    CountInstances(f);
  }

  // The fixture has no quad twice.

  /** No quad twice, checked from the back. */
  predicate Distinct(qs: seq<Quad>)
  {
    qs == [] || (qs[|qs| - 1] !in qs[..|qs| - 1] && Distinct(qs[..|qs| - 1]))
  }

  lemma DistinctSnoc(qs: seq<Quad>, x: Quad)
    ensures Distinct(qs + [x]) == (x !in qs && Distinct(qs))
  {
    assert (qs + [x])[..|qs|] == qs;
  }

  lemma {:induction false} DistinctNoDup(qs: seq<Quad>)
    requires Distinct(qs)
    ensures NoDup(qs)
    decreases |qs|
  {
    if qs != [] {
      var p := qs[..|qs| - 1];
      DistinctNoDup(p);
      forall i, j | 0 <= i < j < |qs| ensures qs[i] != qs[j] {
        if j < |qs| - 1 {
          assert qs[i] == p[i] && qs[j] == p[j];
        } else {
          assert qs[i] in p;
        }
      }
    }
  }

  lemma NoDupAppend(a: seq<Quad>, b: seq<Quad>)
    requires NoDup(a) && NoDup(b) && forall x :: x in a ==> x !in b
    ensures NoDup(a + b)
  {
    forall i, j | 0 <= i < j < |a + b| ensures (a + b)[i] != (a + b)[j] {
      if i < |a| && j >= |a| {
        assert (a + b)[i] in a && (a + b)[j] in b;
      }
    }
  }

  /** Five pairwise different quads make a list without repeats. */
  lemma NoDupFive(a: Quad, b: Quad, c: Quad, d: Quad, e: Quad)
    requires a != b && a != c && a != d && a != e && b != c && b != d && b != e && c != d && c != e && d != e
    ensures NoDup([a, b, c, d, e])
  {
    DistinctSnoc([], a);
    assert [] + [a] == [a];
    DistinctSnoc([a], b);
    assert [a] + [b] == [a, b];
    DistinctSnoc([a, b], c);
    assert [a, b] + [c] == [a, b, c];
    DistinctSnoc([a, b, c], d);
    assert [a, b, c] + [d] == [a, b, c, d];
    DistinctSnoc([a, b, c, d], e);
    assert [a, b, c, d] + [e] == [a, b, c, d, e];
    DistinctNoDup([a, b, c, d, e]);
  }

  lemma SchemaNoDup()
    ensures NoDup(SchemaQuads)
  {
    NoDupFive(Q1, Q2, Q3, Q4, Q5);
    NoDupFive(Q6, Q7, Q8, Q9, Q10);
    assert forall x :: x in [Q1, Q2, Q3, Q4, Q5] ==> x !in [Q6, Q7, Q8, Q9, Q10];
    NoDupAppend([Q1, Q2, Q3, Q4, Q5], [Q6, Q7, Q8, Q9, Q10]);
    assert SchemaQuads == [Q1, Q2, Q3, Q4, Q5] + [Q6, Q7, Q8, Q9, Q10];
  }

  lemma InstancesNoDup()
    ensures NoDup(InstanceQuads)
  {
    NoDupFive(Q11, Q12, Q13, Q14, Q15);
    assert forall x :: x in [Q11, Q12, Q13, Q14, Q15] ==> x !in [Q16, Q17];
    NoDupAppend([Q11, Q12, Q13, Q14, Q15], [Q16, Q17]);
    assert InstanceQuads == [Q11, Q12, Q13, Q14, Q15] + [Q16, Q17];
  }

  /** The schema rows are outside `G2`, the instance rows inside it. */
  lemma PartsApart()
    ensures forall x :: x in SchemaQuads ==> x !in InstanceQuads
  {
    InstancesInG2();
    SchemaOutsideG2();
  }

  lemma InstancesInG2()
    ensures forall x :: x in InstanceQuads ==> x.g == GN2
  {
  }

  lemma SchemaOutsideG2()
    ensures forall x :: x in SchemaQuads ==> x.g != GN2
  {
  }

  lemma FixtureNoDup()
    ensures NoDup(SomeQuads)
  {
    SchemaNoDup();
    InstancesNoDup();
    PartsApart();
    NoDupAppend(SchemaQuads, InstanceQuads);
  }

  // A set dataset collected from the fixture.

  /** What `collect_quads` of a set dataset yields from `some_quads`:
      the same quads, none twice, in some order. */
  ghost predicate FromFixture(d: seq<Quad>) {
    NoDup(d) && forall x :: x in d <==> x in SomeQuads
  }

  /** Without repeats, a list inside another is no longer. */
  lemma {:induction false} SubsetLength(a: seq<Quad>, b: seq<Quad>)
    requires NoDup(a) && NoDup(b) && forall x :: x in a ==> x in b
    ensures |a| <= |b|
    decreases |a|
  {
    if a != [] {
      var x, rest := a[0], a[1..];
      assert x !in rest by {
        forall j | 0 <= j < |rest| ensures rest[j] != x {
          assert rest[j] == a[j + 1];
        }
      }
      assert NoDup(rest) by {
        forall i, j | 0 <= i < j < |rest| ensures rest[i] != rest[j] {
          assert rest[i] == a[i + 1] && rest[j] == a[j + 1];
        }
      }
      var others := Without(b, x);
      assert x in b;
      forall y | y in rest ensures y in others {
        assert y in a;
      }
      SubsetLength(rest, others);
    }
  }

  /** Without repeats, the size of a list is fixed by its elements. */
  lemma SameElemsSameLength(a: seq<Quad>, b: seq<Quad>)
    requires NoDup(a) && NoDup(b) && forall x :: x in a <==> x in b
    ensures |a| == |b|
  {
    SubsetLength(a, b);
    SubsetLength(b, a);
  }

  /** Any filter keeps as many quads of `d` as of the fixture. */
  lemma FixtureFilter(d: seq<Quad>, f: Quad -> bool)
    requires FromFixture(d)
    ensures |Filter(d, f)| == Count(SomeQuads, f)
  {
    FixtureNoDup();
    SameElemsSameLength(Filter(d, f), Filter(SomeQuads, f));
    FilterCount(SomeQuads, f);
  }

  /** `quads_matching` on `d` yields what the fixture says it yields. */
  lemma MatchYields(d: seq<Quad>, ms: TermMatcher, mp: TermMatcher, mo: TermMatcher, mg: GraphNameMatcher,
                    n: nat, present: seq<Quad>, absent: seq<Quad>)
    requires FromFixture(d)
    requires Sound(ms) && Sound(mp) && Sound(mo) && SoundG(mg)
    requires Count(SomeQuads, Matching(ms, mp, mo, mg)) == n
    requires forall q :: q in present ==> q in SomeQuads && Matches(ms, mp, mo, mg, q)
    requires forall q :: q in absent ==> q !in SomeQuads || !Matches(ms, mp, mo, mg, q)
    ensures Yields(QuadsMatching(d, ms, mp, mo, mg), n, present, absent)
  {
    QuadsMatchingFilters(d, ms, mp, mo, mg);
    FixtureFilter(d, Matching(ms, mp, mo, mg));
  }

  /** A scan on `d` yields what the fixture says it yields. */
  lemma ScanYields(d: seq<Quad>, pat: Pattern, ms: TermMatcher, mp: TermMatcher, mo: TermMatcher, mg: GraphNameMatcher,
                   n: nat, present: seq<Quad>, absent: seq<Quad>)
    requires FromFixture(d)
    requires Sound(ms) && Sound(mp) && Sound(mo) && SoundG(mg)
    requires forall q :: Fits(pat, q) == Matches(ms, mp, mo, mg, q)
    requires Count(SomeQuads, Fitting(pat)) == n
    requires forall q :: q in present ==> q in SomeQuads && Fits(pat, q)
    requires forall q :: q in absent ==> q !in SomeQuads || !Fits(pat, q)
    ensures QuadsMatching(d, ms, mp, mo, mg) == Select(d, pat)
    ensures Yields(Select(d, pat), n, present, absent)
  {
    Scan(d, pat, ms, mp, mo, mg);
  }

  lemma Scan(d: seq<Quad>, pat: Pattern, ms: TermMatcher, mp: TermMatcher, mo: TermMatcher, mg: GraphNameMatcher)
    requires FromFixture(d)
    requires Sound(ms) && Sound(mp) && Sound(mo) && SoundG(mg)
    requires forall q :: Fits(pat, q) == Matches(ms, mp, mo, mg, q)
    ensures QuadsMatching(d, ms, mp, mo, mg) == Select(d, pat)
    ensures |Select(d, pat)| == Count(SomeQuads, Fitting(pat))
    ensures forall q :: q in Select(d, pat) <==> q in SomeQuads && Fits(pat, q)
  {
    QuadsMatchingFilters(d, ms, mp, mo, mg);
    FilterSame(d, Matching(ms, mp, mo, mg), Fitting(pat));
    FixtureFilter(d, Fitting(pat));
  }

  /** What a test asserts of a listed scan: its size, and `contains` of
      the quads expected in it and of the quads expected outside it. */
  predicate Yields(v: seq<Quad>, n: nat, present: seq<Quad>, absent: seq<Quad>) {
    && |v| == n
    && (forall q :: q in present ==> Contains(v, q.s, q.p, q.o, q.g))
    && (forall q :: q in absent ==> !Contains(v, q.s, q.p, q.o, q.g))
  }

  // The `quads_with_*` tests: each scan, and `quads_matching` with the
  // matchers standing for the same terms, on the collected fixture.

  lemma CountWithS()
    ensures Count(SomeQuads, Fitting(Pattern(Some(C2), None, None, None))) == 2
  {
    CountFixture(Fitting(Pattern(Some(C2), None, None, None)));
  }

  lemma TestQuadsWithS(d: seq<Quad>)
    requires FromFixture(d)
    ensures QuadsMatching(d, Only(C2), Any(), Any(), AnyGraph()) == QuadsWithS(d, C2)
    ensures Yields(QuadsWithS(d, C2), 2,
                   [Quad(C2, RdfType, RdfsClass, DG)],
                   [Quad(C2, RdfType, RdfsClass, GN1), Quad(C2, RdfType, RdfProperty, DG)])
  {
    var pat := Pattern(Some(C2), None, None, None);
    CountWithS();
    MatchersSound(C2, [], DG, (h: GraphName) => true);
    ScanYields(d, pat, Only(C2), Any(), Any(), AnyGraph(), 2,
               [Quad(C2, RdfType, RdfsClass, DG)],
               [Quad(C2, RdfType, RdfsClass, GN1), Quad(C2, RdfType, RdfProperty, DG)]);
  }

  lemma CountWithP()
    ensures Count(SomeQuads, Fitting(Pattern(None, Some(RdfsSubClassOf), None, None))) == 1
  {
    CountFixture(Fitting(Pattern(None, Some(RdfsSubClassOf), None, None)));
  }

  lemma TestQuadsWithP(d: seq<Quad>)
    requires FromFixture(d)
    ensures QuadsMatching(d, Any(), Only(RdfsSubClassOf), Any(), AnyGraph()) == QuadsWithP(d, RdfsSubClassOf)
    ensures Yields(QuadsWithP(d, RdfsSubClassOf), 1,
                   [Quad(C2, RdfsSubClassOf, C1, GN1)],
                   [Quad(C2, RdfsSubClassOf, C1, DG), Quad(C2, RdfsSubClassOf, RdfsClass, DG)])
  {
    var pat := Pattern(None, Some(RdfsSubClassOf), None, None);
    CountWithP();
    MatchersSound(RdfsSubClassOf, [], DG, (h: GraphName) => true);
    ScanYields(d, pat, Any(), Only(RdfsSubClassOf), Any(), AnyGraph(), 1,
               [Quad(C2, RdfsSubClassOf, C1, GN1)],
               [Quad(C2, RdfsSubClassOf, C1, DG), Quad(C2, RdfsSubClassOf, RdfsClass, DG)]);
  }

  lemma CountWithO()
    ensures Count(SomeQuads, Fitting(Pattern(None, None, Some(I2B), None))) == 2
  {
    CountFixture(Fitting(Pattern(None, None, Some(I2B), None)));
  }

  lemma TestQuadsWithO(d: seq<Quad>)
    requires FromFixture(d)
    ensures QuadsMatching(d, Any(), Any(), Only(I2B), AnyGraph()) == QuadsWithO(d, I2B)
    ensures Yields(QuadsWithO(d, I2B), 2,
                   [Quad(I1B, P1, I2B, GN2)],
                   [Quad(I1B, P1, I2B, GN1), Quad(I2A, P1, I2B, GN2)])
  {
    var pat := Pattern(None, None, Some(I2B), None);
    CountWithO();
    MatchersSound(I2B, [], DG, (h: GraphName) => true);
    ScanYields(d, pat, Any(), Any(), Only(I2B), AnyGraph(), 2,
               [Quad(I1B, P1, I2B, GN2)],
               [Quad(I1B, P1, I2B, GN1), Quad(I2A, P1, I2B, GN2)]);
  }

  lemma CountWithG()
    ensures Count(SomeQuads, Fitting(Pattern(None, None, None, Some(GN1)))) == 6
  {
    CountFixture(Fitting(Pattern(None, None, None, Some(GN1))));
  }

  lemma TestQuadsWithG(d: seq<Quad>)
    requires FromFixture(d)
    ensures QuadsMatching(d, Any(), Any(), Any(), OnlyGraph(GN1)) == QuadsWithG(d, GN1)
    ensures Yields(QuadsWithG(d, GN1), 6,
                   [Quad(C1, RdfType, RdfsClass, GN1)],
                   [Quad(C1, RdfType, RdfsClass, DG), Quad(C2, RdfType, RdfsClass, DG)])
  {
    var pat := Pattern(None, None, None, Some(GN1));
    CountWithG();
    MatchersSound(C1, [], GN1, (h: GraphName) => true);
    ScanYields(d, pat, Any(), Any(), Any(), OnlyGraph(GN1), 6,
               [Quad(C1, RdfType, RdfsClass, GN1)],
               [Quad(C1, RdfType, RdfsClass, DG), Quad(C2, RdfType, RdfsClass, DG)]);
  }

  lemma CountWithSp()
    ensures Count(SomeQuads, Fitting(Pattern(Some(C2), Some(RdfType), None, None))) == 1
  {
    CountFixture(Fitting(Pattern(Some(C2), Some(RdfType), None, None)));
  }

  lemma TestQuadsWithSp(d: seq<Quad>)
    requires FromFixture(d)
    ensures QuadsMatching(d, Only(C2), Only(RdfType), Any(), AnyGraph()) == QuadsWithSp(d, C2, RdfType)
    ensures Yields(QuadsWithSp(d, C2, RdfType), 1,
                   [Quad(C2, RdfType, RdfsClass, DG)],
                   [Quad(C2, RdfType, RdfsClass, GN1), Quad(C1, RdfType, RdfsClass, DG)])
  {
    var pat := Pattern(Some(C2), Some(RdfType), None, None);
    CountWithSp();
    MatchersSound(C2, [], DG, (h: GraphName) => true);
    MatchersSound(RdfType, [], DG, (h: GraphName) => true);
    ScanYields(d, pat, Only(C2), Only(RdfType), Any(), AnyGraph(), 1,
               [Quad(C2, RdfType, RdfsClass, DG)],
               [Quad(C2, RdfType, RdfsClass, GN1), Quad(C1, RdfType, RdfsClass, DG)]);
  }

  lemma CountWithSo()
    ensures Count(SomeQuads, Fitting(Pattern(Some(C2), None, Some(C1), None))) == 1
  {
    CountFixture(Fitting(Pattern(Some(C2), None, Some(C1), None)));
  }

  lemma TestQuadsWithSo(d: seq<Quad>)
    requires FromFixture(d)
    ensures QuadsMatching(d, Only(C2), Any(), Only(C1), AnyGraph()) == QuadsWithSo(d, C2, C1)
    ensures Yields(QuadsWithSo(d, C2, C1), 1,
                   [Quad(C2, RdfsSubClassOf, C1, GN1)],
                   [Quad(C2, RdfsSubClassOf, C1, DG), Quad(C1, RdfType, RdfsClass, DG)])
  {
    var pat := Pattern(Some(C2), None, Some(C1), None);
    CountWithSo();
    MatchersSound(C2, [], DG, (h: GraphName) => true);
    MatchersSound(C1, [], DG, (h: GraphName) => true);
    ScanYields(d, pat, Only(C2), Any(), Only(C1), AnyGraph(), 1,
               [Quad(C2, RdfsSubClassOf, C1, GN1)],
               [Quad(C2, RdfsSubClassOf, C1, DG), Quad(C1, RdfType, RdfsClass, DG)]);
  }

  lemma CountWithPo()
    ensures Count(SomeQuads, Fitting(Pattern(None, Some(RdfType), Some(RdfsClass), None))) == 3
  {
    CountFixture(Fitting(Pattern(None, Some(RdfType), Some(RdfsClass), None)));
  }

  lemma TestQuadsWithPo(d: seq<Quad>)
    requires FromFixture(d)
    ensures QuadsMatching(d, Any(), Only(RdfType), Only(RdfsClass), AnyGraph()) == QuadsWithPo(d, RdfType, RdfsClass)
    ensures Yields(QuadsWithPo(d, RdfType, RdfsClass), 3,
                   [Quad(C1, RdfType, RdfsClass, DG)],
                   [Quad(C1, RdfType, RdfsClass, GN2), Quad(P1, RdfType, RdfProperty, DG)])
  {
    var pat := Pattern(None, Some(RdfType), Some(RdfsClass), None);
    CountWithPo();
    MatchersSound(RdfType, [], DG, (h: GraphName) => true);
    MatchersSound(RdfsClass, [], DG, (h: GraphName) => true);
    ScanYields(d, pat, Any(), Only(RdfType), Only(RdfsClass), AnyGraph(), 3,
               [Quad(C1, RdfType, RdfsClass, DG)],
               [Quad(C1, RdfType, RdfsClass, GN2), Quad(P1, RdfType, RdfProperty, DG)]);
  }

  lemma CountWithSg()
    ensures Count(SomeQuads, Fitting(Pattern(Some(C2), None, None, Some(GN1)))) == 1
  {
    CountFixture(Fitting(Pattern(Some(C2), None, None, Some(GN1))));
  }

  lemma TestQuadsWithSg(d: seq<Quad>)
    requires FromFixture(d)
    ensures QuadsMatching(d, Only(C2), Any(), Any(), OnlyGraph(GN1)) == QuadsWithSg(d, C2, GN1)
    ensures Yields(QuadsWithSg(d, C2, GN1), 1,
                   [Quad(C2, RdfsSubClassOf, C1, GN1)],
                   [Quad(C2, RdfsSubClassOf, C1, DG), Quad(C2, RdfType, RdfsClass, DG)])
  {
    var pat := Pattern(Some(C2), None, None, Some(GN1));
    CountWithSg();
    MatchersSound(C2, [], DG, (h: GraphName) => true);
    MatchersSound(C1, [], GN1, (h: GraphName) => true);
    ScanYields(d, pat, Only(C2), Any(), Any(), OnlyGraph(GN1), 1,
               [Quad(C2, RdfsSubClassOf, C1, GN1)],
               [Quad(C2, RdfsSubClassOf, C1, DG), Quad(C2, RdfType, RdfsClass, DG)]);
  }

  lemma CountWithPg()
    ensures Count(SomeQuads, Fitting(Pattern(None, Some(RdfType), None, Some(GN1)))) == 1
  {
    CountFixture(Fitting(Pattern(None, Some(RdfType), None, Some(GN1))));
  }

  lemma TestQuadsWithPg(d: seq<Quad>)
    requires FromFixture(d)
    ensures QuadsMatching(d, Any(), Only(RdfType), Any(), OnlyGraph(GN1)) == QuadsWithPg(d, RdfType, GN1)
    ensures Yields(QuadsWithPg(d, RdfType, GN1), 1,
                   [Quad(C1, RdfType, RdfsClass, GN1)],
                   [Quad(C1, RdfType, RdfsClass, DG), Quad(C2, RdfsSubClassOf, C1, GN1)])
  {
    var pat := Pattern(None, Some(RdfType), None, Some(GN1));
    CountWithPg();
    MatchersSound(RdfType, [], DG, (h: GraphName) => true);
    MatchersSound(C1, [], GN1, (h: GraphName) => true);
    ScanYields(d, pat, Any(), Only(RdfType), Any(), OnlyGraph(GN1), 1,
               [Quad(C1, RdfType, RdfsClass, GN1)],
               [Quad(C1, RdfType, RdfsClass, DG), Quad(C2, RdfsSubClassOf, C1, GN1)]);
  }

  lemma CountWithOg()
    ensures Count(SomeQuads, Fitting(Pattern(None, None, Some(C1), Some(GN1)))) == 2
  {
    CountFixture(Fitting(Pattern(None, None, Some(C1), Some(GN1))));
  }

  lemma TestQuadsWithOg(d: seq<Quad>)
    requires FromFixture(d)
    ensures QuadsMatching(d, Any(), Any(), Only(C1), OnlyGraph(GN1)) == QuadsWithOg(d, C1, GN1)
    ensures Yields(QuadsWithOg(d, C1, GN1), 2,
                   [Quad(C2, RdfsSubClassOf, C1, GN1)],
                   [Quad(C2, RdfsSubClassOf, C1, DG), Quad(I1A, RdfType, C1, GN2)])
  {
    var pat := Pattern(None, None, Some(C1), Some(GN1));
    CountWithOg();
    MatchersSound(C1, [], DG, (h: GraphName) => true);
    MatchersSound(C1, [], GN1, (h: GraphName) => true);
    ScanYields(d, pat, Any(), Any(), Only(C1), OnlyGraph(GN1), 2,
               [Quad(C2, RdfsSubClassOf, C1, GN1)],
               [Quad(C2, RdfsSubClassOf, C1, DG), Quad(I1A, RdfType, C1, GN2)]);
  }

  lemma CountWithSpo()
    ensures Count(SomeQuads, Fitting(Pattern(Some(C1), Some(RdfType), Some(RdfsClass), None))) == 2
  {
    CountFixture(Fitting(Pattern(Some(C1), Some(RdfType), Some(RdfsClass), None)));
  }

  lemma TestQuadsWithSpo(d: seq<Quad>)
    requires FromFixture(d)
    ensures QuadsMatching(d, Only(C1), Only(RdfType), Only(RdfsClass), AnyGraph()) == QuadsWithSpo(d, C1, RdfType, RdfsClass)
    ensures Yields(QuadsWithSpo(d, C1, RdfType, RdfsClass), 2,
                   [Quad(C1, RdfType, RdfsClass, DG), Quad(C1, RdfType, RdfsClass, GN1)],
                   [Quad(C2, RdfType, RdfsClass, DG)])
  {
    var pat := Pattern(Some(C1), Some(RdfType), Some(RdfsClass), None);
    CountWithSpo();
    MatchersSound(C1, [], DG, (h: GraphName) => true);
    MatchersSound(RdfType, [], DG, (h: GraphName) => true);
    MatchersSound(RdfsClass, [], DG, (h: GraphName) => true);
    ScanYields(d, pat, Only(C1), Only(RdfType), Only(RdfsClass), AnyGraph(), 2,
               [Quad(C1, RdfType, RdfsClass, DG), Quad(C1, RdfType, RdfsClass, GN1)],
               [Quad(C2, RdfType, RdfsClass, DG)]);
  }

  lemma CountWithSpg()
    ensures Count(SomeQuads, Fitting(Pattern(Some(C1), Some(RdfType), None, Some(DG)))) == 1
  {
    CountFixture(Fitting(Pattern(Some(C1), Some(RdfType), None, Some(DG))));
  }

  lemma TestQuadsWithSpg(d: seq<Quad>)
    requires FromFixture(d)
    ensures QuadsMatching(d, Only(C1), Only(RdfType), Any(), OnlyGraph(DG)) == QuadsWithSpg(d, C1, RdfType, DG)
    ensures Yields(QuadsWithSpg(d, C1, RdfType, DG), 1,
                   [Quad(C1, RdfType, RdfsClass, DG)],
                   [Quad(C2, RdfType, RdfsClass, DG), Quad(C1, RdfType, RdfsClass, GN1)])
  {
    var pat := Pattern(Some(C1), Some(RdfType), None, Some(DG));
    CountWithSpg();
    MatchersSound(C1, [], DG, (h: GraphName) => true);
    MatchersSound(RdfType, [], DG, (h: GraphName) => true);
    ScanYields(d, pat, Only(C1), Only(RdfType), Any(), OnlyGraph(DG), 1,
               [Quad(C1, RdfType, RdfsClass, DG)],
               [Quad(C2, RdfType, RdfsClass, DG), Quad(C1, RdfType, RdfsClass, GN1)]);
  }

  lemma CountWithSog()
    ensures Count(SomeQuads, Fitting(Pattern(Some(C1), None, Some(RdfsClass), Some(DG)))) == 1
  {
    CountFixture(Fitting(Pattern(Some(C1), None, Some(RdfsClass), Some(DG))));
  }

  lemma TestQuadsWithSog(d: seq<Quad>)
    requires FromFixture(d)
    ensures QuadsMatching(d, Only(C1), Any(), Only(RdfsClass), OnlyGraph(DG)) == QuadsWithSog(d, C1, RdfsClass, DG)
    ensures Yields(QuadsWithSog(d, C1, RdfsClass, DG), 1,
                   [Quad(C1, RdfType, RdfsClass, DG)],
                   [Quad(C1, RdfType, RdfsClass, GN1), Quad(C2, RdfType, RdfsClass, DG)])
  {
    var pat := Pattern(Some(C1), None, Some(RdfsClass), Some(DG));
    CountWithSog();
    MatchersSound(C1, [], DG, (h: GraphName) => true);
    MatchersSound(RdfsClass, [], DG, (h: GraphName) => true);
    ScanYields(d, pat, Only(C1), Any(), Only(RdfsClass), OnlyGraph(DG), 1,
               [Quad(C1, RdfType, RdfsClass, DG)],
               [Quad(C1, RdfType, RdfsClass, GN1), Quad(C2, RdfType, RdfsClass, DG)]);
  }

  lemma CountWithPog()
    ensures Count(SomeQuads, Fitting(Pattern(None, Some(RdfType), Some(RdfsClass), Some(DG)))) == 2
  {
    CountFixture(Fitting(Pattern(None, Some(RdfType), Some(RdfsClass), Some(DG))));
  }

  lemma TestQuadsWithPog(d: seq<Quad>)
    requires FromFixture(d)
    ensures QuadsMatching(d, Any(), Only(RdfType), Only(RdfsClass), OnlyGraph(DG)) == QuadsWithPog(d, RdfType, RdfsClass, DG)
    ensures Yields(QuadsWithPog(d, RdfType, RdfsClass, DG), 2,
                   [Quad(C2, RdfType, RdfsClass, DG), Quad(C1, RdfType, RdfsClass, DG)],
                   [Quad(C1, RdfType, RdfsClass, GN1)])
  {
    var pat := Pattern(None, Some(RdfType), Some(RdfsClass), Some(DG));
    CountWithPog();
    MatchersSound(RdfType, [], DG, (h: GraphName) => true);
    MatchersSound(RdfsClass, [], DG, (h: GraphName) => true);
    ScanYields(d, pat, Any(), Only(RdfType), Only(RdfsClass), OnlyGraph(DG), 2,
               [Quad(C2, RdfType, RdfsClass, DG), Quad(C1, RdfType, RdfsClass, DG)],
               [Quad(C1, RdfType, RdfsClass, GN1)]);
  }

  lemma CountWithSpog()
    ensures Count(SomeQuads, Fitting(Pattern(Some(C1), Some(RdfType), Some(RdfsClass), Some(DG)))) == 1
  {
    CountFixture(Fitting(Pattern(Some(C1), Some(RdfType), Some(RdfsClass), Some(DG))));
  }

  lemma TestQuadsWithSpog(d: seq<Quad>)
    requires FromFixture(d)
    ensures QuadsMatching(d, Only(C1), Only(RdfType), Only(RdfsClass), OnlyGraph(DG)) == QuadsWithSpog(d, C1, RdfType, RdfsClass, DG)
    ensures Yields(QuadsWithSpog(d, C1, RdfType, RdfsClass, DG), 1,
                   [Quad(C1, RdfType, RdfsClass, DG)],
                   [Quad(C1, RdfType, RdfsClass, GN1), Quad(C2, RdfType, RdfsClass, DG)])
  {
    var pat := Pattern(Some(C1), Some(RdfType), Some(RdfsClass), Some(DG));
    CountWithSpog();
    MatchersSound(C1, [], DG, (h: GraphName) => true);
    MatchersSound(RdfType, [], DG, (h: GraphName) => true);
    MatchersSound(RdfsClass, [], DG, (h: GraphName) => true);
    MatchersSound(C1, [], DG, (h: GraphName) => true);
    ScanYields(d, pat, Only(C1), Only(RdfType), Only(RdfsClass), OnlyGraph(DG), 1,
               [Quad(C1, RdfType, RdfsClass, DG)],
               [Quad(C1, RdfType, RdfsClass, GN1), Quad(C2, RdfType, RdfsClass, DG)]);
  }

  /** `quads()` and `quads_matching` with four `ANY` both list the whole
      collected fixture. */
  lemma CountAll()
    ensures Count(SomeQuads, Fitting(Pattern(None, None, None, None))) == 17
  {
    CountFixture(Fitting(Pattern(None, None, None, None)));
  }

  lemma TestQuads(d: seq<Quad>)
    requires FromFixture(d)
    ensures QuadsMatching(d, Any(), Any(), Any(), AnyGraph()) == d
    ensures Yields(d, 17,
                   [Quad(C1, RdfType, RdfsClass, DG), Quad(C1, RdfType, RdfsClass, GN1)],
                   [Quad(P1, RdfType, RdfsClass, DG)])
  {
    var pat := Pattern(None, None, None, None);
    CountAll();
    MatchersSound(C1, [], DG, (h: GraphName) => true);
    ScanYields(d, pat, Any(), Any(), Any(), AnyGraph(), 17,
               [Quad(C1, RdfType, RdfsClass, DG), Quad(C1, RdfType, RdfsClass, GN1)],
               [Quad(P1, RdfType, RdfsClass, DG)]);
    FilterAll(d, Fitting(pat));
  }

  lemma TestContains(d: seq<Quad>)
    requires FromFixture(d)
    ensures Contains(d, C2, RdfsSubClassOf, C1, GN1)
    ensures !Contains(d, C1, RdfsSubClassOf, C2, GN1)
  {
    assert Quad(C2, RdfsSubClassOf, C1, GN1) in SomeQuads;
    assert Quad(C1, RdfsSubClassOf, C2, GN1) !in SomeQuads;
  }

  /** The graph matcher of `test_quads_matching`: named graphs only. */
  function NamedGraphs(): GraphNameMatcher {
    GraphsWhere((g: GraphName) => g.Some?)
  }

  lemma CountMatching()
    ensures Count(SomeQuads, Matching(Any(), OneOf([RdfType, RdfsDomain]), OneOf([C1, C2]), NamedGraphs())) == 6
  {
    CountFixture(Matching(Any(), OneOf([RdfType, RdfsDomain]), OneOf([C1, C2]), NamedGraphs()));
  }

  lemma TestQuadsMatching(d: seq<Quad>)
    requires FromFixture(d)
    ensures Yields(QuadsMatching(d, Any(), OneOf([RdfType, RdfsDomain]), OneOf([C1, C2]), NamedGraphs()), 6,
                   [Quad(P1, RdfsDomain, C1, GN1), Quad(P2, RdfsDomain, C2, GN1),
                    Quad(I1A, RdfType, C1, GN2), Quad(I2A, RdfType, C2, GN2)],
                   [Quad(C2, RdfsSubClassOf, C1, GN1), Quad(C1, RdfType, RdfsClass, GN1)])
  {
    CountMatching();
    MatchersSound(C1, [RdfType, RdfsDomain], DG, (g: GraphName) => g.Some?);
    MatchersSound(C1, [C1, C2], DG, (g: GraphName) => g.Some?);
    MatchYields(d, Any(), OneOf([RdfType, RdfsDomain]), OneOf([C1, C2]), NamedGraphs(), 6,
                [Quad(P1, RdfsDomain, C1, GN1), Quad(P2, RdfsDomain, C2, GN1),
                 Quad(I1A, RdfType, C1, GN2), Quad(I2A, RdfType, C2, GN2)],
                [Quad(C2, RdfsSubClassOf, C1, GN1), Quad(C1, RdfType, RdfsClass, GN1)]);
  }

  // The term-set tests.

  lemma SixIn(ts: set<Term>, a: Term, b: Term, c: Term, d: Term, e: Term, f: Term)
    requires a in ts && b in ts && c in ts && d in ts && e in ts && f in ts
    ensures {a, b, c, d, e, f} <= ts
  {
  }

  lemma EightIn(ts: set<Term>, a: Term, b: Term, c: Term, d: Term, e: Term, f: Term, g: Term, h: Term)
    requires a in ts && b in ts && c in ts && d in ts && e in ts && f in ts && g in ts && h in ts
    ensures {a, b, c, d, e, f, g, h} <= ts
  {
  }

  /** The subjects the fixture uses. */
  const FixtureSubjects: set<Term> := {C1, C2, P1, P2, I1A, I1B, I2A, I2B}

  lemma SubjectsOfFixture()
    ensures forall q :: q in SomeQuads ==> q.s in FixtureSubjects
    ensures |FixtureSubjects| == 8
  {
    forall q | q in SchemaQuads ensures q.s in FixtureSubjects { }
    forall q | q in InstanceQuads ensures q.s in FixtureSubjects { }
    assert C2 !in {C1};
    assert |{C1, C2}| == 2;
    assert P1 !in {C1, C2};
    assert |{C1, C2, P1}| == 3;
    assert P2 !in {C1, C2, P1};
    assert |{C1, C2, P1, P2}| == 4;
    assert I1A !in {C1, C2, P1, P2};
    assert |{C1, C2, P1, P2, I1A}| == 5;
    assert I1B !in {C1, C2, P1, P2, I1A};
    assert |{C1, C2, P1, P2, I1A, I1B}| == 6;
    assert I2A !in {C1, C2, P1, P2, I1A, I1B};
    assert |{C1, C2, P1, P2, I1A, I1B, I2A}| == 7;
    assert I2B !in {C1, C2, P1, P2, I1A, I1B, I2A};
  }

  method TestSubjects(d: seq<Quad>) returns (ts: set<Term>)
    requires FromFixture(d)
    ensures ts == FixtureSubjects
    ensures |ts| == 8
  {
    ts := Subjects(d);
    SubjectsOfFixture();
    forall t | t in ts ensures t in FixtureSubjects {
      var q :| q in d && q.s == t;
      assert q in SomeQuads;
    }
    assert C1 in ts by { assert Q1 in d; }
    assert C2 in ts by { assert Q3 in d; }
    assert P1 in ts by { assert Q5 in d; }
    assert P2 in ts by { assert Q8 in d; }
    assert I1A in ts by { assert Q11 in d; }
    assert I1B in ts by { assert Q12 in d; }
    assert I2A in ts by { assert Q13 in d; }
    assert I2B in ts by { assert Q14 in d; }
    EightIn(ts, C1, C2, P1, P2, I1A, I1B, I2A, I2B);
  }

  /** The predicates the fixture uses. */
  const FixturePredicates: set<Term> := {RdfType, RdfsSubClassOf, RdfsDomain, RdfsRange, P1, P2}

  lemma PredicatesOfFixture()
    ensures forall q :: q in SomeQuads ==> q.p in FixturePredicates
    ensures |FixturePredicates| == 6
  {
    forall q | q in SchemaQuads ensures q.p in FixturePredicates { }
    forall q | q in InstanceQuads ensures q.p in FixturePredicates { }
    assert RdfsSubClassOf !in {RdfType};
    assert |{RdfType, RdfsSubClassOf}| == 2;
    assert RdfsDomain !in {RdfType, RdfsSubClassOf};
    assert |{RdfType, RdfsSubClassOf, RdfsDomain}| == 3;
    assert RdfsRange !in {RdfType, RdfsSubClassOf, RdfsDomain};
    assert |{RdfType, RdfsSubClassOf, RdfsDomain, RdfsRange}| == 4;
    assert P1 !in {RdfType, RdfsSubClassOf, RdfsDomain, RdfsRange};
    assert |{RdfType, RdfsSubClassOf, RdfsDomain, RdfsRange, P1}| == 5;
    assert P2 !in {RdfType, RdfsSubClassOf, RdfsDomain, RdfsRange, P1};
  }

  method TestPredicates(d: seq<Quad>) returns (ts: set<Term>)
    requires FromFixture(d)
    ensures ts == FixturePredicates
    ensures |ts| == 6
  {
    ts := Predicates(d);
    PredicatesOfFixture();
    forall t | t in ts ensures t in FixturePredicates {
      var q :| q in d && q.p == t;
      assert q in SomeQuads;
    }
    assert RdfType in ts by { assert Q1 in d; }
    assert RdfsSubClassOf in ts by { assert Q4 in d; }
    assert RdfsDomain in ts by { assert Q6 in d; }
    assert RdfsRange in ts by { assert Q7 in d; }
    assert P1 in ts by { assert Q15 in d; }
    assert P2 in ts by { assert Q17 in d; }
    SixIn(ts, RdfType, RdfsSubClassOf, RdfsDomain, RdfsRange, P1, P2);
  }

  /** The objects the fixture uses. */
  const FixtureObjects: set<Term> := {RdfProperty, RdfsClass, C1, C2, I2A, I2B}

  lemma ObjectsOfFixture()
    ensures forall q :: q in SomeQuads ==> q.o in FixtureObjects
    ensures |FixtureObjects| == 6
  {
    forall q | q in SchemaQuads ensures q.o in FixtureObjects { }
    forall q | q in InstanceQuads ensures q.o in FixtureObjects { }
    assert RdfsClass !in {RdfProperty};
    assert |{RdfProperty, RdfsClass}| == 2;
    assert C1 !in {RdfProperty, RdfsClass};
    assert |{RdfProperty, RdfsClass, C1}| == 3;
    assert C2 !in {RdfProperty, RdfsClass, C1};
    assert |{RdfProperty, RdfsClass, C1, C2}| == 4;
    assert I2A !in {RdfProperty, RdfsClass, C1, C2};
    assert |{RdfProperty, RdfsClass, C1, C2, I2A}| == 5;
    assert I2B !in {RdfProperty, RdfsClass, C1, C2, I2A};
  }

  method TestObjects(d: seq<Quad>) returns (ts: set<Term>)
    requires FromFixture(d)
    ensures ts == FixtureObjects
    ensures |ts| == 6
  {
    ts := Objects(d);
    ObjectsOfFixture();
    forall t | t in ts ensures t in FixtureObjects {
      var q :| q in d && q.o == t;
      assert q in SomeQuads;
    }
    assert RdfProperty in ts by { assert Q5 in d; }
    assert RdfsClass in ts by { assert Q1 in d; }
    assert C1 in ts by { assert Q4 in d; }
    assert C2 in ts by { assert Q7 in d; }
    assert I2A in ts by { assert Q15 in d; }
    assert I2B in ts by { assert Q16 in d; }
    SixIn(ts, RdfProperty, RdfsClass, C1, C2, I2A, I2B);
  }

  /** The graph names the fixture uses. */
  const FixtureGraphNames: set<Term> := {G1, G2}

  lemma GraphNamesOfFixture()
    ensures forall q :: q in SomeQuads && q.g.Some? ==> q.g.value in FixtureGraphNames
    ensures |FixtureGraphNames| == 2
  {
    forall q | q in SchemaQuads && q.g.Some? ensures q.g.value in FixtureGraphNames { }
    forall q | q in InstanceQuads && q.g.Some? ensures q.g.value in FixtureGraphNames { }
    assert G2 !in {G1};
  }

  method TestGraphNames(d: seq<Quad>) returns (ts: set<Term>)
    requires FromFixture(d)
    ensures ts == FixtureGraphNames
    ensures |ts| == 2
  {
    ts := GraphNames(d);
    GraphNamesOfFixture();
    forall t | t in ts ensures t in FixtureGraphNames {
      var q :| q in d && q.g == Some(t);
      assert q in SomeQuads;
    }
    assert G1 in ts by { assert Q2 in d; }
    assert G2 in ts by { assert Q11 in d; }

  }

  // The mutation tests, on datasets collected by `collect_quads`.

  /** A set dataset collected from `no_quad()`. */
  method EmptyDataset() returns (d: MemDataset)
    ensures fresh(d) && d.Valid() && d.quads == []
  {
    var src := new Source<Quad, ()>([], None);
    var r;
    d, r := CollectQuads(src);
    SameElemsSameLength(d.quads, []);
  }

  /** A set dataset collected from `some_quads()`. */
  method CollectedFixture() returns (d: MemDataset)
    ensures fresh(d) && d.Valid() && FromFixture(d.quads)
  {
    var src := new Source<Quad, ()>(SomeQuads, None);
    var r;
    d, r := CollectQuads(src);
  }

  method TestSimpleMutations() returns (answers: seq<bool>, sizes: seq<nat>)
    ensures answers == [true, true, true, true]
    ensures sizes == [0, 1, 2, 1, 0]
  {
    var d := EmptyDataset();
    var a := Quad(C1, RdfType, RdfsClass, DG);
    var b := Quad(C1, RdfsSubClassOf, C2, GN1);
    sizes := [|d.quads|];
    var r1 := d.Insert(a);
    sizes := sizes + [|d.quads|];
    var r2 := d.Insert(b);
    sizes := sizes + [|d.quads|];
    var r3 := d.Remove(a);
    sizes := sizes + [|d.quads|];
    var r4 := d.Remove(b);
    sizes := sizes + [|d.quads|];
    answers := [r1, r2, r3, r4];
  }

  method TestNoDuplicate() returns (answers: seq<bool>, sizes: seq<nat>)
    ensures answers == [true, false, true, false]
    ensures sizes == [0, 1, 1, 0, 0]
  {
    var d := EmptyDataset();
    var a := Quad(C1, RdfType, RdfsClass, DG);
    sizes := [|d.quads|];
    var r1 := d.Insert(a);
    sizes := sizes + [|d.quads|];
    var r2 := d.Insert(a);
    sizes := sizes + [|d.quads|];
    var r3 := d.Remove(a);
    sizes := sizes + [|d.quads|];
    var r4 := d.Remove(a);
    sizes := sizes + [|d.quads|];
    answers := [r1, r2, r3, r4];
  }

  method TestDifferentGraphsDoNotCountAsDuplicate() returns (answers: seq<bool>, sizes: seq<nat>)
    ensures answers == [true, true, true, true]
    ensures sizes == [0, 1, 2, 1, 0]
  {
    var d := EmptyDataset();
    var a := Quad(C1, RdfType, RdfsClass, DG);
    var b := Quad(C1, RdfType, RdfsClass, GN1);
    sizes := [|d.quads|];
    var r1 := d.Insert(a);
    sizes := sizes + [|d.quads|];
    var r2 := d.Insert(b);
    sizes := sizes + [|d.quads|];
    var r3 := d.Remove(a);
    sizes := sizes + [|d.quads|];
    var r4 := d.Remove(b);
    sizes := sizes + [|d.quads|];
    answers := [r1, r2, r3, r4];
  }

  method TestXAllMutations() returns (counts: seq<nat>, sizes: seq<nat>)
    ensures counts == [2, 0, 2, 0]
    ensures sizes == [0, 2, 2, 0, 0]
  {
    var d := EmptyDataset();
    assert NoDup(MakeQuadSource);
    sizes := [|d.quads|];
    var src := new Source<Quad, ()>(MakeQuadSource, None);
    var r1 := d.InsertAll(src);
    SameElemsSameLength(d.quads, MakeQuadSource);
    sizes := sizes + [|d.quads|];
    src := new Source<Quad, ()>(MakeQuadSource, None);
    var r2 := d.InsertAll(src);
    SameElemsSameLength(d.quads, MakeQuadSource);
    sizes := sizes + [|d.quads|];
    src := new Source<Quad, ()>(MakeQuadSource, None);
    var r3 := d.RemoveAll(src);
    SameElemsSameLength(d.quads, []);
    sizes := sizes + [|d.quads|];
    src := new Source<Quad, ()>(MakeQuadSource, None);
    var r4 := d.RemoveAll(src);
    sizes := sizes + [|d.quads|];
    counts := [r1.value, r2.value, r3.value, r4.value];
  }

  lemma FixtureSize(d: seq<Quad>)
    requires FromFixture(d)
    ensures |d| == 17
  {
    FixtureNoDup();
    SameElemsSameLength(d, SomeQuads);
  }

  /** The quads `rdf:type` `C1` or `C2`, in any graph: the four instance
      typings. */
  lemma CountTyped()
    ensures Count(SomeQuads, Matching(Any(), Only(RdfType), OneOf([C1, C2]), AnyGraph())) == 4
  {
    CountFixture(Matching(Any(), Only(RdfType), OneOf([C1, C2]), AnyGraph()));
  }

  lemma CountUntyped()
    ensures Count(SomeQuads, Rejecting(Any(), Only(RdfType), OneOf([C1, C2]), AnyGraph())) == 13
  {
    CountFixture(Rejecting(Any(), Only(RdfType), OneOf([C1, C2]), AnyGraph()));
  }

  method TestRemoveMatching() returns (r: Result<nat, ()>, size: nat)
    ensures r == Ok(4)
    ensures size == 13
  {
    var d := CollectedFixture();
    FixtureSize(d.quads);
    MatchersSound(RdfType, [C1, C2], DG, (g: GraphName) => true);
    QuadsMatchingFilters(d.quads, Any(), Only(RdfType), OneOf([C1, C2]), AnyGraph());
    FixtureFilter(d.quads, Matching(Any(), Only(RdfType), OneOf([C1, C2]), AnyGraph()));
    CountTyped();
    r := d.RemoveMatching(Any(), Only(RdfType), OneOf([C1, C2]), AnyGraph());
    size := |d.quads|;
  }

  method TestRetainMatching() returns (size: nat)
    ensures size == 4
  {
    var d := CollectedFixture();
    FixtureSize(d.quads);
    FixtureFilter(d.quads, Rejecting(Any(), Only(RdfType), OneOf([C1, C2]), AnyGraph()));
    CountUntyped();
    var r := d.RetainMatching(Any(), Only(RdfType), OneOf([C1, C2]), AnyGraph());
    size := |d.quads|;
  }
}
