/** `HashGraph`: a set of index triples layered on a term dictionary. Each
    stored triple holds one reference to the slot of each of its three
    terms, so a slot's count is exactly the number of positions, over all
    stored triples, that use it. */
module HashGraphs {
  import opened Wrappers
  import opened Terms
  import opened TermIndex
  import opened Streams

  /** A triple of dictionary indices, as the graph stores it. */
  datatype IndexTriple = IndexTriple(s: nat, p: nat, o: nat)

  /** The indices a stored triple references, one per position. */
  function Uses(x: IndexTriple): (r: multiset<nat>)
    ensures |r| == 3 && x.s in r && x.p in r && x.o in r
  {
    multiset{x.s} + multiset{x.p} + multiset{x.o}
  }

  /** The references of `x`, listed from the predicate on. */
  lemma UsesRotate(x: IndexTriple)
    ensures Uses(x) == multiset{x.p} + multiset{x.o} + multiset{x.s}
    ensures multiset{x.o} + multiset{x.p} == multiset{x.p} + multiset{x.o}
    ensures multiset{} + multiset{x.o} == multiset{x.o}
  {
  }

  /** The references held by the triples in `ts`, one per position. */
  ghost function UsesOf(ts: set<IndexTriple>): multiset<nat>
    decreases ts
  {
    if ts == {} then multiset{}
    else
      var x :| x in ts;
      Uses(x) + UsesOf(ts - {x})
  }

  /** How many positions of the triples in `ts` hold index `i`. */
  ghost function Occ(ts: set<IndexTriple>, i: nat): nat {
    UsesOf(ts)[i]
  }

  /** Any stored triple can be the one taken out of the sum first. */
  lemma {:induction false} UsesOfRemove(ts: set<IndexTriple>, x: IndexTriple)
    requires x in ts
    ensures UsesOf(ts) == Uses(x) + UsesOf(ts - {x})
    decreases ts
  {
    var y :| y in ts && UsesOf(ts) == Uses(y) + UsesOf(ts - {y});
    if y != x {
      UsesOfRemove(ts - {y}, x);
      UsesOfRemove(ts - {x}, y);
      assert ts - {y} - {x} == ts - {x} - {y};
    }
  }

  lemma OccRemove(ts: set<IndexTriple>, x: IndexTriple, i: nat)
    requires x in ts
    ensures Occ(ts, i) == Uses(x)[i] + Occ(ts - {x}, i)
  {
    UsesOfRemove(ts, x);
  }

  lemma OccAdd(ts: set<IndexTriple>, x: IndexTriple, i: nat)
    requires x !in ts
    ensures Occ(ts + {x}, i) == Occ(ts, i) + Uses(x)[i]
  {
    UsesOfRemove(ts + {x}, x);
    assert ts + {x} - {x} == ts;
  }

  /** An index is referenced exactly when some stored triple uses it. */
  lemma {:induction false} UsesOfMember(ts: set<IndexTriple>, i: nat)
    ensures i in UsesOf(ts) <==> exists x :: x in ts && i in Uses(x)
    decreases ts
  {
    if ts != {} {
      var y :| y in ts && UsesOf(ts) == Uses(y) + UsesOf(ts - {y});
      UsesOfMember(ts - {y}, i);
    }
  }

  /** An index occurs exactly when some stored triple uses it. */
  lemma OccPositive(ts: set<IndexTriple>, i: nat)
    ensures Occ(ts, i) > 0 <==> exists x :: x in ts && i in Uses(x)
  {
    UsesOfMember(ts, i);
  }

  /** An index no stored triple uses occurs nowhere. */
  lemma OccZero(ts: set<IndexTriple>, i: nat)
    requires forall x :: x in ts ==> i !in Uses(x)
    ensures Occ(ts, i) == 0
  {
    UsesOfMember(ts, i);
  }

  /** The refcount invariant, generalised to states in the middle of an
      operation: every index a stored triple uses is live, so is every index
      in `extra` (references taken but not yet stored), and each live
      slot's count is its occurrences plus its pending references. */
  ghost predicate Accounts(slots: seq<Slot>, ts: set<IndexTriple>, extra: multiset<nat>) {
    && (forall x :: x in ts ==> IsLive(slots, x.s) && IsLive(slots, x.p) && IsLive(slots, x.o))
    && (forall i :: i in extra ==> IsLive(slots, i))
    && (forall i: nat :: IsLive(slots, i) ==> slots[i].count == Occ(ts, i) + extra[i])
  }

  /** Interning a term takes one more pending reference. */
  lemma AccountsIntern(before: seq<Slot>, after: seq<Slot>, ts: set<IndexTriple>,
                       extra: multiset<nat>, t: Term, i: nat)
    requires Accounts(before, ts, extra) && Interned(before, after, t, i)
    ensures Accounts(after, ts, extra + multiset{i})
  {
    if !IsLive(before, i) {
      forall x | x in ts ensures i !in Uses(x) {
      }
      OccZero(ts, i);
    }
    forall j: nat | IsLive(after, j)
      ensures after[j].count == Occ(ts, j) + (extra + multiset{i})[j]
    {
      if j != i {
        assert j < |before| && after[j] == before[j];
      }
    }
  }

  /** Releasing a reference gives back one pending reference; a slot whose
      last reference goes is used by no stored triple. */
  lemma AccountsRelease(before: seq<Slot>, after: seq<Slot>, ts: set<IndexTriple>,
                        extra: multiset<nat>, i: nat)
    requires Accounts(before, ts, extra + multiset{i}) && Released(before, after, i)
    ensures Accounts(after, ts, extra)
  {
    var freed := before[i].count == 1;
    if freed {
      OccPositive(ts, i);
    }
    forall x | x in ts ensures IsLive(after, x.s) && IsLive(after, x.p) && IsLive(after, x.o) {
      if freed {
        assert x.s in Uses(x) && x.p in Uses(x) && x.o in Uses(x);
      }
    }
    forall j | j in extra ensures IsLive(after, j) {
      assert (extra + multiset{i})[j] >= 1;
    }
    forall j: nat | IsLive(after, j)
      ensures after[j].count == Occ(ts, j) + extra[j]
    {
      if j != i {
        assert after[j] == before[j];
      }
    }
  }

  /** Storing a triple turns its three pending references into occurrences. */
  lemma AccountsStore(slots: seq<Slot>, ts: set<IndexTriple>, x: IndexTriple)
    requires Accounts(slots, ts, Uses(x)) && x !in ts
    ensures Accounts(slots, ts + {x}, multiset{})
  {
    forall i: nat | IsLive(slots, i)
      ensures slots[i].count == Occ(ts + {x}, i)
    {
      OccAdd(ts, x, i);
    }
  }

  /** Unstoring a triple turns its three occurrences into pending references. */
  lemma AccountsUnstore(slots: seq<Slot>, ts: set<IndexTriple>, x: IndexTriple)
    requires Accounts(slots, ts, multiset{}) && x in ts
    ensures Accounts(slots, ts - {x}, Uses(x))
  {
    forall i: nat | IsLive(slots, i)
      ensures slots[i].count == Occ(ts - {x}, i) + Uses(x)[i]
    {
      OccRemove(ts, x, i);
    }
  }

  /** All three indices of `x` name live slots. */
  ghost predicate Resolves(slots: seq<Slot>, x: IndexTriple) {
    IsLive(slots, x.s) && IsLive(slots, x.p) && IsLive(slots, x.o)
  }

  /** The triple of terms an index triple stands for. */
  function Decode(slots: seq<Slot>, x: IndexTriple): Triple
    requires Resolves(slots, x)
  {
    Triple(slots[x.s].term, slots[x.p].term, slots[x.o].term)
  }

  /** Every slot live in `before` is live in `after`, with the same term. */
  ghost predicate KeepsTerms(before: seq<Slot>, after: seq<Slot>) {
    forall i: nat :: IsLive(before, i) ==> IsLive(after, i) && after[i].term == before[i].term
  }

  lemma DecodeStable(before: seq<Slot>, after: seq<Slot>, x: IndexTriple)
    requires KeepsTerms(before, after) && Resolves(before, x)
    ensures Resolves(after, x) && Decode(after, x) == Decode(before, x)
  {
  }

  /** Over distinct live terms, decoding is injective. */
  lemma DecodeInjective(slots: seq<Slot>, x: IndexTriple, y: IndexTriple)
    requires Distinct(slots) && Resolves(slots, x) && Resolves(slots, y)
    requires Decode(slots, x) == Decode(slots, y)
    ensures x == y
  {
  }

  /** The triples of terms a set of index triples stands for. */
  ghost function DecodeAll(slots: seq<Slot>, ts: set<IndexTriple>): set<Triple>
    requires forall x :: x in ts ==> Resolves(slots, x)
  {
    set x | x in ts :: Decode(slots, x)
  }

  /** Decoding loses no triple: as many triples of terms as index triples. */
  lemma {:induction false} DecodeAllCard(slots: seq<Slot>, ts: set<IndexTriple>)
    requires Distinct(slots) && forall x :: x in ts ==> Resolves(slots, x)
    ensures |DecodeAll(slots, ts)| == |ts|
    decreases ts
  {
    if ts != {} {
      var x :| x in ts;
      var rest := ts - {x};
      DecodeAllCard(slots, rest);
      DecodeAllMember(slots, rest, x);
      assert ts == rest + {x};
      DecodeAllAdd(slots, rest, x);
    }
  }

  /** Slot changes that keep every live term keep every decoded triple. */
  lemma DecodeAllStable(before: seq<Slot>, after: seq<Slot>, ts: set<IndexTriple>)
    requires KeepsTerms(before, after) && forall x :: x in ts ==> Resolves(before, x)
    ensures forall x :: x in ts ==> Resolves(after, x)
    ensures DecodeAll(after, ts) == DecodeAll(before, ts)
  {
    forall x | x in ts ensures Resolves(after, x) && Decode(after, x) == Decode(before, x) {
      DecodeStable(before, after, x);
    }
  }

  /** The terms of a triple. */
  function TermsOfTriple(tr: Triple): set<Term> {
    {tr.s, tr.p, tr.o}
  }

  /** How many positions of `tr` hold `t`: the references to `t` that
      storing `tr` takes. */
  function Tally(t: Term, tr: Triple): (n: nat)
    ensures n <= 3 && (n > 0 <==> t in TermsOfTriple(tr))
  {
    (if tr.s == t then 1 else 0) + (if tr.p == t then 1 else 0) + (if tr.o == t then 1 else 0)
  }

  /** `a` and `b` have the same length, the same live terms and the same
      free slots; only counts may differ. */
  ghost predicate SameShape(a: seq<Slot>, b: seq<Slot>) {
    && |a| == |b|
    && forall j :: 0 <= j < |a| ==>
         if a[j].Live? then b[j].Live? && b[j].term == a[j].term else b[j] == a[j]
  }

  /** Two slot views accounting for the same triples with no pending
      references, and of the same shape, are equal: the counts are fixed by
      the triples. */
  lemma AccountsDetermine(a: seq<Slot>, b: seq<Slot>, ts: set<IndexTriple>)
    requires SameShape(a, b) && Accounts(a, ts, multiset{}) && Accounts(b, ts, multiset{})
    ensures a == b
  {
    forall j | 0 <= j < |a| ensures a[j] == b[j] {
      if a[j].Live? {
        assert IsLive(a, j) && IsLive(b, j);
      }
    }
  }

  lemma KeepsTrans(a: seq<Slot>, b: seq<Slot>, c: seq<Slot>)
    requires KeepsTerms(a, b) && KeepsTerms(b, c)
    ensures KeepsTerms(a, c)
  {
  }

  lemma ShapeTrans(a: seq<Slot>, b: seq<Slot>, c: seq<Slot>)
    requires SameShape(a, b) && SameShape(b, c)
    ensures SameShape(a, c)
  {
  }

  lemma InternedKeeps(before: seq<Slot>, after: seq<Slot>, t: Term, i: nat)
    requires Interned(before, after, t, i)
    ensures KeepsTerms(before, after)
    ensures IsLive(after, i) && after[i].term == t
    ensures IsLive(before, i) ==> SameShape(before, after)
  {
  }

  lemma ReleasedKeeps(before: seq<Slot>, after: seq<Slot>, i: nat)
    requires Released(before, after, i)
    ensures KeepsTerms(after, before)
    ensures before[i].count > 1 ==> SameShape(before, after)
  {
  }

  /** How many distinct terms among `s`, `p`, `o` the dictionary does not
      know yet: each of them takes one more slot. */
  function NewTerms(s: Term, p: Term, o: Term, known: set<Term>): (n: nat)
    ensures n <= 3
    ensures n == 0 <==> s in known && p in known && o in known
  {
    (if s in known then 0 else 1) + NewPair(p, o, known + {s})
  }

  /** How many distinct terms among `p`, `o` the dictionary does not know yet. */
  function NewPair(p: Term, o: Term, known: set<Term>): (n: nat)
    ensures n <= 2
    ensures n == 0 <==> p in known && o in known
  {
    (if p in known then 0 else 1) + (if o in known || o == p then 0 else 1)
  }

  /** Decoding a set with one more triple adds its decoding. */
  lemma DecodeAllAdd(slots: seq<Slot>, ts: set<IndexTriple>, x: IndexTriple)
    requires forall y :: y in ts ==> Resolves(slots, y)
    requires Resolves(slots, x)
    ensures DecodeAll(slots, ts + {x}) == DecodeAll(slots, ts) + {Decode(slots, x)}
  {
  }

  /** Over distinct live terms, decoding a set with one triple fewer drops
      exactly its decoding. */
  lemma DecodeAllRemove(slots: seq<Slot>, ts: set<IndexTriple>, x: IndexTriple)
    requires Distinct(slots) && forall y :: y in ts ==> Resolves(slots, y)
    requires x in ts
    ensures DecodeAll(slots, ts - {x}) == DecodeAll(slots, ts) - {Decode(slots, x)}
  {
    forall y | y in ts - {x} ensures Decode(slots, y) != Decode(slots, x) {
      if Decode(slots, y) == Decode(slots, x) {
        DecodeInjective(slots, x, y);
      }
    }
  }

  /** Over distinct live terms, a triple decodes into the set exactly when
      it is in it. */
  lemma DecodeAllMember(slots: seq<Slot>, ts: set<IndexTriple>, x: IndexTriple)
    requires Distinct(slots) && forall y :: y in ts ==> Resolves(slots, y)
    requires Resolves(slots, x)
    ensures Decode(slots, x) in DecodeAll(slots, ts) <==> x in ts
  {
    if Decode(slots, x) in DecodeAll(slots, ts) {
      var y :| y in ts && Decode(slots, y) == Decode(slots, x);
      DecodeInjective(slots, x, y);
    }
  }

  class HashGraph {
    const terms: TermIndexU
    var triples: set<IndexTriple>

    ghost predicate Valid()
      reads this, terms
    {
      terms.Valid() && Accounts(terms.Slots(), triples, multiset{})
    }

    /** The triples of terms the graph holds. */
    ghost function Content(): set<Triple>
      reads this, terms
      requires Valid()
    {
      DecodeAll(terms.Slots(), triples)
    }

    /** Interning the terms of `tr` overflows no reference count: each
        term's count, plus the references `tr` adds to it, fits the width. */
    predicate Fits(tr: Triple)
      reads this, terms
    {
      && terms.Refs(tr.s) + Tally(tr.s, tr) <= MaxIndex(terms.width)
      && terms.Refs(tr.p) + Tally(tr.p, tr) <= MaxIndex(terms.width)
      && terms.Refs(tr.o) + Tally(tr.o, tr) <= MaxIndex(terms.width)
    }

    constructor (w: Width)
      ensures Valid() && fresh(terms)
      ensures terms.width == w && triples == {} && Content() == {}
      ensures terms.t2i == map[] && terms.Room() == MaxIndex(w)
    {
      terms := new TermIndexU(w);
      triples := {};
    }

    /** `with_capacity`: the capacity only reserves room in the hash set,
        so the graph starts out as `new` makes it. */
    constructor WithCapacity(w: Width, capacity: nat)
      ensures Valid() && fresh(terms)
      ensures terms.width == w && triples == {} && Content() == {}
      ensures terms.t2i == map[] && terms.Room() == MaxIndex(w)
    {
      terms := new TermIndexU(w);
      triples := {};
    }

    /** `shrink_to_fit` only gives memory back: the dictionary and the
        triples stay as they are. */
    method ShrinkToFit()
      requires Valid()
      modifies this, terms
      ensures Valid() && unchanged(this) && unchanged(terms)
      ensures Content() == old(Content())
    {
      terms.ShrinkToFit();
    }

    function Len(): (n: nat)
      reads this, terms
      requires Valid()
      ensures n == |Content()|
    {
      terms.SlotsDistinct();
      DecodeAllCard(terms.Slots(), triples);
      |triples|
    }

    function IsEmpty(): (b: bool)
      reads this, terms
      requires Valid()
      ensures b <==> Content() == {}
      ensures b <==> Len() == 0
    {
      terms.SlotsDistinct();
      DecodeAllCard(terms.Slots(), triples);
      triples == {}
    }

    /** The dictionary knows exactly the terms of the stored triples. */
    function GetIndex(t: Term): (r: Option<nat>)
      reads this, terms
      requires Valid()
      ensures r.Some? <==> exists tr :: tr in Content() && t in TermsOfTriple(tr)
      ensures r.Some? ==> GetTerm(r.value) == Some(t)
    {
      var r := terms.GetIndex(t);
      UsedIffLive(t);
      r
    }

    /** An index resolves exactly when some stored triple uses it. */
    function GetTerm(i: nat): (r: Option<Term>)
      reads this, terms
      requires Valid()
      ensures r.Some? <==> exists x :: x in triples && i in Uses(x)
      ensures r.Some? ==> terms.GetIndex(r.value) == Some(i)
    {
      var r := terms.GetTerm(i);
      terms.LiveCount(i);
      LiveIffUsed(terms.Slots(), triples, i);
      r
    }

    /** `make_index` of one term, seen as one more pending reference. */
    method InternOne(t: Term, ghost extra: multiset<nat>) returns (i: nat)
      requires terms.Valid() && Accounts(terms.Slots(), triples, extra)
      requires t in terms.t2i || terms.HasRoom()
      requires terms.Refs(t) < MaxIndex(terms.width)
      modifies terms
      ensures terms.Valid() && Accounts(terms.Slots(), triples, extra + multiset{i})
      ensures forall u :: terms.Refs(u) == old(terms.Refs(u)) + (if u == t then 1 else 0)
      ensures KeepsTerms(old(terms.Slots()), terms.Slots())
      ensures IsLive(terms.Slots(), i) && terms.Slots()[i].term == t
      ensures IsLive(old(terms.Slots()), i) ==>
        && SameShape(old(terms.Slots()), terms.Slots())
        && terms.t2i == old(terms.t2i) && terms.nextFree == old(terms.nextFree)
      ensures terms.t2i.Keys == old(terms.t2i.Keys) + {t}
      ensures terms.Room() == old(terms.Room()) - (if t in old(terms.t2i) then 0 else 1)
    {
      ghost var before := terms.Slots();
      i := terms.MakeIndex(t);
      AccountsIntern(before, terms.Slots(), triples, extra, t, i);
      InternedKeeps(before, terms.Slots(), t, i);
    }

    /** `dec_ref` of one index, seen as one pending reference given back. */
    method ReleaseOne(i: nat, ghost rest: multiset<nat>)
      requires terms.Valid() && Accounts(terms.Slots(), triples, rest + multiset{i})
      modifies terms
      ensures terms.Valid() && Accounts(terms.Slots(), triples, rest)
      ensures KeepsTerms(terms.Slots(), old(terms.Slots()))
      ensures Occ(triples, i) > 0 ==>
        && SameShape(old(terms.Slots()), terms.Slots())
        && terms.t2i == old(terms.t2i) && terms.nextFree == old(terms.nextFree)
        && terms.Room() == old(terms.Room())
      ensures terms.Room() >= old(terms.Room())
      ensures forall u :: terms.Refs(u) == old(terms.Refs(u)) - (if u == old(terms.Slots())[i].term then 1 else 0)
    {
      ghost var before := terms.Slots();
      assert IsLive(before, i);
      terms.DecRef(i);
      AccountsRelease(before, terms.Slots(), triples, rest, i);
      ReleasedKeeps(before, terms.Slots(), i);
    }

    /** Interns two terms in order, taking one reference each. */
    method InternTwo(p: Term, o: Term, ghost extra: multiset<nat>) returns (pi: nat, oi: nat)
      requires terms.Valid() && Accounts(terms.Slots(), triples, extra)
      requires NewPair(p, o, terms.t2i.Keys) <= terms.Room()
      requires terms.Refs(p) < MaxIndex(terms.width)
      requires terms.Refs(o) + (if o == p then 1 else 0) < MaxIndex(terms.width)
      modifies terms
      ensures terms.Valid() && Accounts(terms.Slots(), triples, extra + multiset{pi} + multiset{oi})
      ensures KeepsTerms(old(terms.Slots()), terms.Slots())
      ensures IsLive(terms.Slots(), pi) && terms.Slots()[pi].term == p
      ensures IsLive(terms.Slots(), oi) && terms.Slots()[oi].term == o
      ensures IsLive(old(terms.Slots()), pi) && IsLive(old(terms.Slots()), oi) ==>
        && SameShape(old(terms.Slots()), terms.Slots())
        && terms.t2i == old(terms.t2i) && terms.nextFree == old(terms.nextFree)
      ensures terms.t2i.Keys == old(terms.t2i.Keys) + {p, o}
      ensures terms.Room() == old(terms.Room()) - NewPair(p, o, old(terms.t2i.Keys))
      ensures forall u :: (terms.Refs(u) ==
          old(terms.Refs(u)) + (if u == p then 1 else 0) + (if u == o then 1 else 0))
    {
      ghost var sl0, k0, r0 := terms.Slots(), terms.t2i.Keys, terms.Room();
      pi := InternOne(p, extra);
      ghost var sl1, k1, r1 := terms.Slots(), terms.t2i.Keys, terms.Room();
      oi := InternOne(o, extra + multiset{pi});
      PairChain(sl0, sl1, terms.Slots(), pi, oi, p);
      PairRoom(k0, k1, terms.t2i.Keys, r0, r1, terms.Room(), p, o);
    }

    /** Interns the three terms in order, taking one reference each. */
    method InternAll(s: Term, p: Term, o: Term) returns (x: IndexTriple)
      requires Valid() && NewTerms(s, p, o, terms.t2i.Keys) <= terms.Room()
      requires Fits(Triple(s, p, o))
      modifies terms
      ensures terms.Valid() && Accounts(terms.Slots(), triples, Uses(x))
      ensures Resolves(terms.Slots(), x) && Decode(terms.Slots(), x) == Triple(s, p, o)
      ensures KeepsTerms(old(terms.Slots()), terms.Slots())
      ensures x in triples ==>
        && SameShape(old(terms.Slots()), terms.Slots())
        && terms.t2i == old(terms.t2i) && terms.nextFree == old(terms.nextFree)
      ensures terms.t2i.Keys == old(terms.t2i.Keys) + {s, p, o}
      ensures terms.Room() == old(terms.Room()) - NewTerms(s, p, o, old(terms.t2i.Keys))
      ensures forall u :: (terms.Refs(u) == old(terms.Refs(u))
          + (if u == s then 1 else 0) + (if u == p then 1 else 0) + (if u == o then 1 else 0))
    {
      ghost var sl0, k0, r0 := terms.Slots(), terms.t2i.Keys, terms.Room();
      var si := InternOne(s, multiset{});
      ghost var sl1, k1, r1 := terms.Slots(), terms.t2i.Keys, terms.Room();
      var pi, oi := InternTwo(p, o, multiset{si});
      TripleRoom(k0, k1, terms.t2i.Keys, r0, r1, terms.Room(), s, p, o);
      x := IndexTriple(si, pi, oi);
      InternChain(sl0, sl1, terms.Slots(), triples, x, s, p, o);
    }

    /** Gives back the three references of `x` to the dictionary. */
    method ReleaseAll(x: IndexTriple)
      requires terms.Valid() && Accounts(terms.Slots(), triples, Uses(x))
      modifies terms
      ensures terms.Valid() && Accounts(terms.Slots(), triples, multiset{})
      ensures KeepsTerms(terms.Slots(), old(terms.Slots()))
      ensures x in triples ==>
        && SameShape(old(terms.Slots()), terms.Slots())
        && terms.t2i == old(terms.t2i) && terms.nextFree == old(terms.nextFree)
        && terms.Room() == old(terms.Room())
      ensures terms.Room() >= old(terms.Room())
      ensures Resolves(old(terms.Slots()), x)
      ensures forall u :: (terms.Refs(u) == old(terms.Refs(u))
          - (if u == old(terms.Slots())[x.s].term then 1 else 0)
          - (if u == old(terms.Slots())[x.p].term then 1 else 0)
          - (if u == old(terms.Slots())[x.o].term then 1 else 0))
    {
      ghost var sl0 := terms.Slots();
      ghost var stored := x in triples;
      if stored {
        StoredOccurs(triples, x);
      }
      UsesRotate(x);
      ReleaseOne(x.s, multiset{x.p} + multiset{x.o});
      ghost var sl1 := terms.Slots();
      assert IsLive(sl1, x.p) && sl1[x.p].term == sl0[x.p].term;
      assert IsLive(sl1, x.o) && sl1[x.o].term == sl0[x.o].term;
      ReleaseTwo(x.p, x.o);

      KeepsTrans(terms.Slots(), sl1, sl0);
      if stored {
        ShapeTrans(sl0, sl1, terms.Slots());
      }
    }

    /** Gives back one reference each to the slots `i`, then `j`. */
    method ReleaseTwo(i: nat, j: nat)
      requires terms.Valid() && Accounts(terms.Slots(), triples, multiset{i} + multiset{j})
      modifies terms
      ensures terms.Valid() && Accounts(terms.Slots(), triples, multiset{})
      ensures KeepsTerms(terms.Slots(), old(terms.Slots()))
      ensures Occ(triples, i) > 0 && Occ(triples, j) > 0 ==>
        && SameShape(old(terms.Slots()), terms.Slots())
        && terms.t2i == old(terms.t2i) && terms.nextFree == old(terms.nextFree)
        && terms.Room() == old(terms.Room())
      ensures terms.Room() >= old(terms.Room())
      ensures IsLive(old(terms.Slots()), i) && IsLive(old(terms.Slots()), j)
      ensures forall u :: (terms.Refs(u) == old(terms.Refs(u))
          - (if u == old(terms.Slots())[i].term then 1 else 0)
          - (if u == old(terms.Slots())[j].term then 1 else 0))
    {
      ghost var sl0 := terms.Slots();
      assert multiset{} + multiset{j} == multiset{j};
      ReleaseOne(i, multiset{j});
      ghost var sl1 := terms.Slots();
      assert IsLive(sl1, j) && sl1[j].term == sl0[j].term;
      ReleaseOne(j, multiset{});
      KeepsTrans(terms.Slots(), sl1, sl0);
      if Occ(triples, i) > 0 && Occ(triples, j) > 0 {
        ShapeTrans(sl0, sl1, terms.Slots());
      }
    }

    /** Inserts the triple (s, p, o); `Some` of its index triple exactly
        when it was not stored yet. On a duplicate the three references
        just taken are given back, which restores the dictionary. */
    method InsertIndexed(s: Term, p: Term, o: Term) returns (r: Option<IndexTriple>)
      requires Valid() && NewTerms(s, p, o, terms.t2i.Keys) <= terms.Room()
      requires Fits(Triple(s, p, o))
      modifies this, terms
      ensures Valid()
      ensures r.Some? <==> Triple(s, p, o) !in old(Content())
      ensures Content() == old(Content()) + {Triple(s, p, o)}
      ensures r.Some? ==>
        && r.value !in old(triples) && triples == old(triples) + {r.value}
        && Decode(terms.Slots(), r.value) == Triple(s, p, o)
      ensures r.None? ==>
        && triples == old(triples)
        && terms.i2t == old(terms.i2t) && terms.i2c == old(terms.i2c)
        && terms.t2i == old(terms.t2i) && terms.nextFree == old(terms.nextFree)
      ensures KeepsTerms(old(terms.Slots()), terms.Slots())
      ensures terms.t2i.Keys == old(terms.t2i.Keys) + {s, p, o}
      ensures terms.Room() == old(terms.Room()) - NewTerms(s, p, o, old(terms.t2i.Keys))
      ensures r.Some? ==> forall u :: (terms.Refs(u) == old(terms.Refs(u))
          + (if u == s then 1 else 0) + (if u == p then 1 else 0) + (if u == o then 1 else 0))
      ensures r.None? ==> forall u :: terms.Refs(u) == old(terms.Refs(u))
    {
      ghost var sl0, k0, r0 := terms.Slots(), terms.t2i.Keys, terms.Room();
      ghost var i2t0, i2c0 := terms.i2t, terms.i2c;
      var x := InternAll(s, p, o);
      ghost var sl1, r1 := terms.Slots(), terms.Room();
      assert r1 == r0 - NewTerms(s, p, o, k0);
      DecodeAllStable(sl0, sl1, triples);
      terms.SlotsDistinct();
      DecodeAllMember(sl1, triples, x);
      if x !in triples {
        Store(x);
        r := Some(x);
      } else {
        Restore(x, sl0, i2t0, i2c0);
        KnownTerms(Triple(s, p, o));
        r := None;
      }
    }

    /** Stores a triple whose three references were just taken: they become
        its occurrences, and its decoding joins the content. */
    method Store(x: IndexTriple)
      requires terms.Valid() && Accounts(terms.Slots(), triples, Uses(x)) && x !in triples
      requires Resolves(terms.Slots(), x)
      modifies this
      ensures Valid() && triples == old(triples) + {x}
      ensures Content() == DecodeAll(terms.Slots(), old(triples)) + {Decode(terms.Slots(), x)}
    {
      AccountsStore(terms.Slots(), triples, x);
      DecodeAllAdd(terms.Slots(), triples, x);
      triples := triples + {x};
    }

    /** Gives back the three references just taken for a triple that was
        already stored: the dictionary returns to the arrays `i2t0`, `i2c0`
        it had before, whose slot view is `sl0`. */
    method Restore(x: IndexTriple, ghost sl0: seq<Slot>, ghost i2t0: seq<Option<Term>>, ghost i2c0: seq<nat>)
      requires terms.Valid() && Accounts(terms.Slots(), triples, Uses(x)) && x in triples
      requires |i2t0| == |i2c0| && sl0 == SlotView(i2t0, i2c0) && Accounts(sl0, triples, multiset{})
      requires SameShape(sl0, terms.Slots())
      modifies terms
      ensures Valid() && terms.i2t == i2t0 && terms.i2c == i2c0
      ensures terms.t2i == old(terms.t2i) && terms.nextFree == old(terms.nextFree)
      ensures terms.Room() == old(terms.Room())
    {
      ghost var sl1 := terms.Slots();
      ReleaseAll(x);
      ShapeTrans(sl0, sl1, terms.Slots());
      AccountsDetermine(sl0, terms.Slots(), triples);
      SlotViewInjective(i2t0, i2c0, terms.i2t, terms.i2c);
    }

    /** Removes the triple (s, p, o); `Some` of its index triple exactly
        when it was stored. Lookups are read-only, so an unknown term or an
        absent triple changes nothing. */
    method RemoveIndexed(s: Term, p: Term, o: Term) returns (r: Option<IndexTriple>)
      requires Valid()
      modifies this, terms
      ensures Valid()
      ensures r.Some? <==> Triple(s, p, o) in old(Content())
      ensures Content() == old(Content()) - {Triple(s, p, o)}
      ensures r.Some? ==> r.value in old(triples) && triples == old(triples) - {r.value}
      ensures r.None? ==> triples == old(triples) && unchanged(terms)
      ensures (s !in old(terms.t2i) || p !in old(terms.t2i) || o !in old(terms.t2i)) ==> r.None?
      ensures KeepsTerms(terms.Slots(), old(terms.Slots()))
      ensures forall u :: (terms.Refs(u) ==
          old(terms.Refs(u)) - (if r.Some? then Tally(u, Triple(s, p, o)) else 0))
    {
      var si, pi, oi := terms.GetIndex(s), terms.GetIndex(p), terms.GetIndex(o);
      ghost var sl0 := terms.Slots();
      terms.SlotsDistinct();
      if si.None? || pi.None? || oi.None? {
        NotStored(s, p, o);
        return None;
      }
      var x := IndexTriple(si.value, pi.value, oi.value);
      assert Resolves(sl0, x) && Decode(sl0, x) == Triple(s, p, o) by {
        SlotViewAt(terms.i2t, terms.i2c, x.s);
        SlotViewAt(terms.i2t, terms.i2c, x.p);
        SlotViewAt(terms.i2t, terms.i2c, x.o);
      }
      DecodeAllMember(sl0, triples, x);
      if x !in triples {
        return None;
      }
      DecodeAllRemove(sl0, triples, x);
      AccountsUnstore(sl0, triples, x);
      triples := triples - {x};
      ReleaseAll(x);
      DecodeAllStable(terms.Slots(), sl0, triples);
      r := Some(x);
    }

    /** The stored triples, decoded through the dictionary, each once, in
        an order left open (that of the hash set). Every index of a stored
        triple is live, so each lookup succeeds. */
    method Triples() returns (out: seq<Triple>)
      requires Valid()
      ensures forall t :: t in out <==> t in Content()
      ensures forall i, j :: 0 <= i < j < |out| ==> out[i] != out[j]
      ensures |out| == Len()
    {
      ghost var slots := terms.Slots();
      terms.SlotsDistinct();
      var rest := triples;
      ghost var done: set<IndexTriple> := {};
      out := [];
      while rest != {}
        invariant rest <= triples && done == triples - rest
        invariant ListsDecoded(slots, done, out)
        decreases |rest|
      {
        var x :| x in rest;
        var s, p, o := terms.GetTerm(x.s), terms.GetTerm(x.p), terms.GetTerm(x.o);
        ListsDecodedStep(slots, triples, rest, done, out, x);
        out, rest, done := out + [Triple(s.value, p.value, o.value)], rest - {x}, done + {x};
      }
      DecodeAllCard(slots, triples);
    }

    /** The terms of a stored triple are known to the dictionary. */
    lemma KnownTerms(tr: Triple)
      requires Valid() && tr in Content()
      ensures TermsOfTriple(tr) <= terms.t2i.Keys
    {
      UsedIffLive(tr.s);
      UsedIffLive(tr.p);
      UsedIffLive(tr.o);
    }

    /** `insert` of one triple: `insert_indexed`, reporting whether it
        returned an index triple, that is, whether the triple was added. */
    method Insert(tr: Triple) returns (changed: bool)
      requires Valid() && NewTerms(tr.s, tr.p, tr.o, terms.t2i.Keys) <= terms.Room()
      requires Fits(tr)
      modifies this, terms
      ensures Valid() && Content() == old(Content()) + {tr}
      ensures changed <==> tr !in old(Content())
      ensures terms.t2i.Keys == old(terms.t2i.Keys) + TermsOfTriple(tr)
      ensures terms.Room() == old(terms.Room()) - NewTerms(tr.s, tr.p, tr.o, old(terms.t2i.Keys))
      ensures forall u :: terms.Refs(u) == old(terms.Refs(u)) + (if changed then Tally(u, tr) else 0)
    {
      var r := InsertIndexed(tr.s, tr.p, tr.o);
      changed := r.Some?;
    }

    /** Inserts the triples in order, as `insert_all` does over the drained
        source; the new terms of all of them have to fit in the room. */
    method InsertEach(items: seq<Triple>)
      requires Valid() && |TermsOfAll(items) - terms.t2i.Keys| <= terms.Room()
      requires forall t :: terms.Refs(t) + TallyAll(t, items) <= MaxIndex(terms.width)
      modifies this, terms
      ensures Valid()
      ensures forall tr :: tr in Content() <==> tr in old(Content()) || tr in items
    {
      var k := 0;
      while k < |items|
        invariant 0 <= k <= |items| && Valid()
        invariant forall tr :: tr in Content() <==> tr in old(Content()) || tr in items[..k]
        invariant |TermsOfAll(items[k..]) - terms.t2i.Keys| <= terms.Room()
        invariant forall t :: terms.Refs(t) + TallyAll(t, items[k..]) <= MaxIndex(terms.width)
      {
        var tr := items[k];
        ghost var known, room := terms.t2i.Keys, terms.Room();
        RoomBefore(items, k, known, room);
        TallyAllStep(items, k);
        label Before:
        var _ := Insert(tr);
        forall t ensures terms.Refs(t) + TallyAll(t, items[k + 1..]) <= MaxIndex(terms.width) {
          assert terms.Refs(t) <= old@Before(terms.Refs(t)) + Tally(t, tr);
        }
        RoomAfter(items, k, known, room, terms.t2i.Keys, terms.Room());
        PrefixStep(items, k);
        k := k + 1;
      }
      assert items[..k] == items;
    }

    /** A triple with a term the dictionary does not know is not stored. */
    lemma NotStored(s: Term, p: Term, o: Term)
      requires Valid()
      requires s !in terms.t2i || p !in terms.t2i || o !in terms.t2i
      ensures Triple(s, p, o) !in Content()
    {
      UsedIffLive(s);
      UsedIffLive(p);
      UsedIffLive(o);
      assert forall tr :: tr == Triple(s, p, o) ==> s in TermsOfTriple(tr) && p in TermsOfTriple(tr) && o in TermsOfTriple(tr);
    }

    lemma UsedIffLive(t: Term)
      requires Valid()
      ensures t in terms.t2i <==> exists tr :: tr in Content() && t in TermsOfTriple(tr)
    {
      var slots := terms.Slots();
      if t in terms.t2i {
        var i := terms.t2i[t];
        SlotViewAt(terms.i2t, terms.i2c, i);
        LiveIsUsed(slots, triples, i);
      }
      if tr :| tr in Content() && t in TermsOfTriple(tr) {
        var i := UsedIsLive(slots, triples, tr, t);
        SlotViewAt(terms.i2t, terms.i2c, i);
      }
    }
  }

  /** The terms of a sequence of triples. */
  function TermsOfAll(xs: seq<Triple>): set<Term>
    decreases |xs|
  {
    if xs == [] then {} else TermsOfTriple(xs[0]) + TermsOfAll(xs[1..])
  }

  /** How many positions of the triples in `xs` hold `t`, a triple counted
      once per occurrence in `xs`. */
  function TallyAll(t: Term, xs: seq<Triple>): nat
    decreases |xs|
  {
    if xs == [] then 0 else Tally(t, xs[0]) + TallyAll(t, xs[1..])
  }

  /** The tally of a suffix is that of its first triple plus the rest. */
  lemma TallyAllStep(xs: seq<Triple>, k: nat)
    requires k < |xs|
    ensures forall t :: TallyAll(t, xs[k..]) == Tally(t, xs[k]) + TallyAll(t, xs[k + 1..])
  {
    assert xs[k..][1..] == xs[k + 1..];
  }

  /** A subset has no more elements. */
  lemma SubsetCard<T>(a: set<T>, b: set<T>)
    requires a <= b
    ensures |a| <= |b|
  {
    assert b == a + (b - a);
  }

  /** `NewTerms` counts the terms of the triple the dictionary does not know. */
  lemma NewTermsCard(s: Term, p: Term, o: Term, known: set<Term>)
    ensures NewTerms(s, p, o, known) == |{s, p, o} - known|
  {
    var t := {s, p, o} - known;
    if s in known {
      assert t == {p, o} - known;
    } else {
      assert t == {s} + ({p, o} - known - {s});
    }
  }

  /** Interning the terms `ts` of one triple, out of the terms `u` still to
      come, uses up as much room as it takes slots: what is left to intern of
      the later terms `v` fits in what is left of the room. */
  lemma RoomLeft(u: set<Term>, v: set<Term>, known: set<Term>, ts: set<Term>)
    requires ts <= u && v <= u
    ensures |v - (known + ts)| + |ts - known| <= |u - known|
  {
    assert u - known == (u - (known + ts)) + (ts - known);
    assert (u - (known + ts)) * (ts - known) == {};
    SubsetCard(v - (known + ts), u - (known + ts));
  }

  /** One more item of a prefix. */
  lemma PrefixStep(xs: seq<Triple>, k: nat)
    requires k < |xs|
    ensures forall x :: x in xs[..k + 1] <==> x in xs[..k] || x == xs[k]
  {
    assert xs[..k + 1] == xs[..k] + [xs[k]];
  }

  /** Before inserting the `k`-th triple: its new terms fit in the room. */
  lemma RoomBefore(items: seq<Triple>, k: nat, known: set<Term>, room: int)
    requires k < |items| && |TermsOfAll(items[k..]) - known| <= room
    ensures NewTerms(items[k].s, items[k].p, items[k].o, known) <= room
  {
    var tr := items[k];
    assert items[k..] == [tr] + items[k + 1..];
    NewTermsCard(tr.s, tr.p, tr.o, known);
    SubsetCard(TermsOfTriple(tr) - known, TermsOfAll(items[k..]) - known);
  }

  /** After inserting the `k`-th triple: the new terms of the later triples
      fit in what is left of the room. */
  lemma RoomAfter(items: seq<Triple>, k: nat, known: set<Term>, room: int, known': set<Term>, room': int)
    requires k < |items| && |TermsOfAll(items[k..]) - known| <= room
    requires known' == known + TermsOfTriple(items[k])
    requires room' >= room - NewTerms(items[k].s, items[k].p, items[k].o, known)
    ensures |TermsOfAll(items[k + 1..]) - known'| <= room'
  {
    var tr := items[k];
    assert items[k..] == [tr] + items[k + 1..];
    NewTermsCard(tr.s, tr.p, tr.o, known);
    RoomLeft(TermsOfAll(items[k..]), TermsOfAll(items[k + 1..]), known, TermsOfTriple(tr));
  }

  /** `from_triple_source`: a new graph into which every triple of the
      source is inserted. The source is drained first: its items come out
      before its error, and on an error the graph is dropped. */
  method FromTripleSource<E>(w: Width, src: Source<Triple, E>)
    returns (r: Result<HashGraph, StreamError<E, ()>>)
    requires |TermsOfAll(src.items)| <= MaxIndex(w)
    requires forall t :: TallyAll(t, src.items) <= MaxIndex(w)
    modifies src
    ensures src.items == [] && src.failure == old(src.failure)
    ensures r.Ok? <==> src.failure.None?
    ensures r.Err? ==> r == Err(SourceError(src.failure.value))
    ensures r.Ok? ==>
      && fresh(r.value) && fresh(r.value.terms) && r.value.Valid() && r.value.terms.width == w
      && forall tr :: tr in r.value.Content() <==> tr in old(src.items)
  {
    var items, res := src.ForEach(Appending<Triple>(), []);
    FoldAppending<Triple>([], old(src.items));
    assert items == old(src.items);
    var g := new HashGraph(w);
    assert TermsOfAll(items) - g.terms.t2i.Keys == TermsOfAll(items);
    assert forall t :: g.terms.Refs(t) == 0;
    g.InsertEach(items);
    r := match res
      case Ok(_) => Ok(g)
      case Err(e) => Err(SourceError(e));
  }

  /** The room and the known terms after interning `p`, then `o`. */
  lemma PairRoom(k0: set<Term>, k1: set<Term>, k2: set<Term>, r0: int, r1: int, r2: int, p: Term, o: Term)
    requires k1 == k0 + {p} && r1 == r0 - (if p in k0 then 0 else 1)
    requires k2 == k1 + {o} && r2 == r1 - (if o in k1 then 0 else 1)
    ensures k2 == k0 + {p, o} && r2 == r0 - NewPair(p, o, k0)
  {
  }

  /** The room and the known terms after interning `s`, then `p` and `o`. */
  lemma TripleRoom(k0: set<Term>, k1: set<Term>, k2: set<Term>, r0: int, r1: int, r2: int,
                   s: Term, p: Term, o: Term)
    requires k1 == k0 + {s} && r1 == r0 - (if s in k0 then 0 else 1)
    requires k2 == k1 + {p, o} && r2 == r1 - NewPair(p, o, k1)
    ensures k2 == k0 + {s, p, o} && r2 == r0 - NewTerms(s, p, o, k0)
  {
  }

  /** The slot views before and after each of two interning steps: the
      terms stay where they are, and when both indices were live before
      the first step, the shape is kept. */
  lemma PairChain(sl0: seq<Slot>, sl1: seq<Slot>, sl2: seq<Slot>, pi: nat, oi: nat, p: Term)
    requires KeepsTerms(sl0, sl1) && KeepsTerms(sl1, sl2)
    requires IsLive(sl1, pi) && sl1[pi].term == p
    requires IsLive(sl0, pi) ==> SameShape(sl0, sl1)
    requires IsLive(sl1, oi) ==> SameShape(sl1, sl2)
    ensures KeepsTerms(sl0, sl2)
    ensures IsLive(sl2, pi) && sl2[pi].term == p
    ensures IsLive(sl0, oi) ==> IsLive(sl1, oi)
    ensures IsLive(sl0, pi) && IsLive(sl0, oi) ==> SameShape(sl0, sl2)
  {
    KeepsTrans(sl0, sl1, sl2);
    if IsLive(sl0, pi) && IsLive(sl0, oi) {
      ShapeTrans(sl0, sl1, sl2);
    }
  }

  /** The slot views before and after interning the subject and then the
      other two terms of a triple: the triple resolves to the interned
      terms, and a triple already stored finds every index live. */
  lemma InternChain(sl0: seq<Slot>, sl1: seq<Slot>, sl2: seq<Slot>,
                    ts: set<IndexTriple>, x: IndexTriple, s: Term, p: Term, o: Term)
    requires KeepsTerms(sl0, sl1) && KeepsTerms(sl1, sl2)
    requires IsLive(sl1, x.s) && sl1[x.s].term == s
    requires IsLive(sl2, x.p) && sl2[x.p].term == p
    requires IsLive(sl2, x.o) && sl2[x.o].term == o
    requires forall y :: y in ts ==> IsLive(sl0, y.s) && IsLive(sl0, y.p) && IsLive(sl0, y.o)
    requires IsLive(sl0, x.s) ==> SameShape(sl0, sl1)
    requires IsLive(sl1, x.p) && IsLive(sl1, x.o) ==> SameShape(sl1, sl2)
    ensures KeepsTerms(sl0, sl2)
    ensures Resolves(sl2, x) && Decode(sl2, x) == Triple(s, p, o)
    ensures x in ts ==> IsLive(sl0, x.s) && IsLive(sl1, x.p) && IsLive(sl1, x.o) && SameShape(sl0, sl2)
  {
    KeepsTrans(sl0, sl1, sl2);
    if x in ts {
      ShapeTrans(sl0, sl1, sl2);
    }
  }

  /** `out` lists the decodings of `done`, each once. */
  ghost predicate ListsDecoded(slots: seq<Slot>, done: set<IndexTriple>, out: seq<Triple>)
    requires forall y :: y in done ==> Resolves(slots, y)
  {
    && (forall t :: t in out <==> t in DecodeAll(slots, done))
    && (forall i, j :: 0 <= i < j < |out| ==> out[i] != out[j])
    && |out| == |done|
  }

  /** One step of listing a set of index triples: decoding one more of them
      adds a triple not listed yet. */
  lemma ListsDecodedStep(slots: seq<Slot>, ts: set<IndexTriple>, rest: set<IndexTriple>,
                         done: set<IndexTriple>, out: seq<Triple>, x: IndexTriple)
    requires Distinct(slots) && forall y :: y in ts ==> Resolves(slots, y)
    requires rest <= ts && done == ts - rest && x in rest
    requires ListsDecoded(slots, done, out)
    ensures Resolves(slots, x)
    ensures done + {x} == ts - (rest - {x})
    ensures ListsDecoded(slots, done + {x}, out + [Decode(slots, x)])
  {
    var d, out' := Decode(slots, x), out + [Decode(slots, x)];
    DecodeAllMember(slots, done, x);
    DecodeAllAdd(slots, done, x);
    assert d !in out;
    forall i, j | 0 <= i < j < |out'| ensures out'[i] != out'[j] {
      if j == |out| {
        assert out'[i] in out;
      }
    }
  }

  /** Each index of a stored triple occurs. */
  lemma StoredOccurs(ts: set<IndexTriple>, x: IndexTriple)
    requires x in ts
    ensures Occ(ts, x.s) > 0 && Occ(ts, x.p) > 0 && Occ(ts, x.o) > 0
  {
    assert x.s in Uses(x) && x.p in Uses(x) && x.o in Uses(x);
    OccPositive(ts, x.s);
    OccPositive(ts, x.p);
    OccPositive(ts, x.o);
  }

  /** Where every live count is positive, a slot is live exactly when some
      stored triple uses it. */
  lemma LiveIffUsed(slots: seq<Slot>, ts: set<IndexTriple>, i: nat)
    requires Accounts(slots, ts, multiset{})
    requires IsLive(slots, i) ==> slots[i].count >= 1
    ensures IsLive(slots, i) <==> exists x :: x in ts && i in Uses(x)
  {
    OccPositive(ts, i);
    if x :| x in ts && i in Uses(x) {
      assert x.s in Uses(x) && x.p in Uses(x) && x.o in Uses(x);
      assert IsLive(slots, x.s) && IsLive(slots, x.p) && IsLive(slots, x.o);
    }
  }

  /** A live slot with a positive count is used by a stored triple, whose
      decoding then mentions the slot's term. */
  lemma LiveIsUsed(slots: seq<Slot>, ts: set<IndexTriple>, i: nat)
    requires Accounts(slots, ts, multiset{}) && IsLive(slots, i) && slots[i].count >= 1
    ensures exists tr :: tr in DecodeAll(slots, ts) && slots[i].term in TermsOfTriple(tr)
  {
    OccPositive(ts, i);
    var x :| x in ts && i in Uses(x);
    assert Decode(slots, x) in DecodeAll(slots, ts);
    assert slots[i].term in TermsOfTriple(Decode(slots, x));
  }

  /** A term of a decoded triple sits in a live slot. */
  lemma UsedIsLive(slots: seq<Slot>, ts: set<IndexTriple>, tr: Triple, t: Term) returns (i: nat)
    requires Accounts(slots, ts, multiset{})
    requires tr in DecodeAll(slots, ts) && t in TermsOfTriple(tr)
    ensures IsLive(slots, i) && slots[i].term == t
  {
    var x :| x in ts && Decode(slots, x) == tr;
    i := if t == tr.s then x.s else if t == tr.p then x.p else x.o;
  }
}
