/** The mutable dataset layer: the bulk insertions and removals a dataset
    inherits from its own one-quad `insert` and `remove`, the matcher-driven
    removals built on them, and an in-memory dataset with set semantics. */
module MutableDatasets {
  import opened Wrappers
  import opened Terms
  import opened Streams
  import opened Datasets

  /** A dataset's own `insert` or `remove` of one quad: from its quads to its
      new quads and whether the call reports a change, or its mutation error. */
  type Mutation<K> = (seq<Quad>, Quad) -> (seq<Quad>, Result<bool, K>)

  /** The state of the closure of `insert_all` and `remove_all`: the
      dataset's quads and the counter `c`. */
  datatype Tally = Tally(quads: seq<Quad>, count: nat)

  /** The closure of `insert_all` and `remove_all`: applies the mutation to
      one quad and counts the calls that report a change; a mutation error
      stops the stream. */
  function Counting<K>(m: Mutation<K>): (Tally, Quad) -> (Tally, Option<K>) {
    (st: Tally, q: Quad) =>
      var step := m(st.quads, q);
      if step.1.Err? then (Tally(step.0, st.count), Some(step.1.error))
      else (Tally(step.0, if step.1.value then st.count + 1 else st.count), None)
  }

  /** The count never falls and grows by at most one per quad handed over. */
  lemma {:induction false} CountingBounds<K>(m: Mutation<K>, d: seq<Quad>, c: nat, xs: seq<Quad>)
    ensures var fed := Feed(Counting(m), Tally(d, c), xs);
      c <= fed.acc.count <= c + fed.used
    decreases |xs|
  {
    if xs != [] {
      var step := Counting(m)(Tally(d, c), xs[0]);
      if step.1.None? {
        CountingBounds(m, step.0.quads, step.0.count, xs[1..]);
      }
    }
  }

  /** `insert_all` and `remove_all`: the mutation applied to every quad of
      the source, in order, until the source is exhausted or either side
      fails; on success, the number of calls that reported a change. Quads
      changed before an error stay changed. */
  method MutateAll<E, K>(m: Mutation<K>, d: seq<Quad>, src: Source<Quad, E>)
    returns (d': seq<Quad>, r: Result<nat, StreamError<E, K>>)
    modifies src
    ensures src.failure == old(src.failure)
    ensures var fed := Feed(Counting(m), Tally(d, 0), old(src.items));
      && d' == fed.acc.quads
      && src.items == old(src.items)[fed.used..]
      && (fed.err.Some? ==> r == Err(SinkError(fed.err.value)))
      && (fed.err.None? && src.failure.Some? ==> r == Err(SourceError(src.failure.value)))
      && (fed.err.None? && src.failure.None? ==> r == Ok(fed.acc.count))
  {
    var acc, res := src.TryForEach(Counting(m), Tally(d, 0));
    d' := acc.quads;
    r := match res
      case Ok(_) => Ok(acc.count)
      case Err(e) => Err(e);
  }

  /** The quads the matchers reject: what `retain_matching` removes. */
  function Rejecting(ms: TermMatcher, mp: TermMatcher, mo: TermMatcher, mg: GraphNameMatcher): Quad -> bool {
    (q: Quad) => !Matches(ms, mp, mo, mg, q)
  }

  /** `remove_matching`: snapshots the matching quads, then removes them
      through `remove_all` over an infallible source. */
  method RemoveMatchingWith<K>(m: Mutation<K>, d: seq<Quad>,
                               ms: TermMatcher, mp: TermMatcher, mo: TermMatcher, mg: GraphNameMatcher)
    returns (d': seq<Quad>, r: Result<nat, K>)
    ensures var fed := Feed(Counting(m), Tally(d, 0), QuadsMatching(d, ms, mp, mo, mg));
      && d' == fed.acc.quads
      && r == (if fed.err.Some? then Err(fed.err.value) else Ok(fed.acc.count))
  {
    var src := new Source<Quad, K>(QuadsMatching(d, ms, mp, mo, mg), None);
    var res;
    d', res := MutateAll(m, d, src);
    r := match res
      case Ok(n) => Ok(n)
      case Err(e) => Err(InnerInto(e));
  }

  /** `retain_matching`: snapshots the quads the matchers reject, then
      removes them through `remove_all` over an infallible source. */
  method RetainMatchingWith<K>(m: Mutation<K>, d: seq<Quad>,
                               ms: TermMatcher, mp: TermMatcher, mo: TermMatcher, mg: GraphNameMatcher)
    returns (d': seq<Quad>, r: Result<(), K>)
    ensures var fed := Feed(Counting(m), Tally(d, 0), Filter(d, Rejecting(ms, mp, mo, mg)));
      && d' == fed.acc.quads
      && r == (if fed.err.Some? then Err(fed.err.value) else Ok(()))
  {
    var src := new Source<Quad, K>(Filter(d, Rejecting(ms, mp, mo, mg)), None);
    var res;
    d', res := MutateAll(m, d, src);
    r := match res
      case Ok(_) => Ok(())
      case Err(e) => Err(InnerInto(e));
  }

  /** The one-quad insertion of a set dataset; it never fails (its error
      type has a single value that is never raised). */
  function SetInsert(d: seq<Quad>, q: Quad): (r: (seq<Quad>, Result<bool, ()>))
    ensures r.1.Ok?
    ensures r.1.value <==> q !in d
    ensures forall x :: x in r.0 <==> x in d || x == q
    ensures |r.0| == |d| + (if r.1.value then 1 else 0)
    ensures NoDup(d) ==> NoDup(r.0)
  {
    if q in d then (d, Ok(false)) else (d + [q], Ok(true))
  }

  /** The quads other than `q`, in order. */
  function Without(d: seq<Quad>, q: Quad): (r: seq<Quad>)
    ensures forall x :: x in r <==> x in d && x != q
    ensures NoDup(d) ==> NoDup(r) && |r| == |d| - (if q in d then 1 else 0)
    decreases |d|
  {
    if d == [] then []
    else
      var rest := Without(d[1..], q);
      assert forall x :: x in d <==> x == d[0] || x in d[1..];
      if d[0] == q then rest
      else
        assert NoDup(d) ==> d[0] !in rest && NoDup(rest);
        NoDupCons(d[0], rest);
        [d[0]] + rest
  }

  /** The one-quad removal of a set dataset; it never fails. */
  function SetRemove(d: seq<Quad>, q: Quad): (r: (seq<Quad>, Result<bool, ()>))
    ensures r.1.Ok?
    ensures r.1.value <==> q in d
    ensures forall x :: x in r.0 <==> x in d && x != q
    ensures NoDup(d) ==> NoDup(r.0) && |r.0| == |d| - (if r.1.value then 1 else 0)
  {
    if q in d then (Without(d, q), Ok(true)) else (d, Ok(false))
  }

  /** The set-dataset promise for `insert_all`: nothing fails, the quads are
      the old ones and the inserted ones, none twice, and the count is the
      number of quads actually added. */
  lemma {:induction false} SetInsertAll(d: seq<Quad>, c: nat, xs: seq<Quad>)
    requires NoDup(d)
    ensures var fed := Feed(Counting(SetInsert), Tally(d, c), xs);
      && fed.err.None?
      && NoDup(fed.acc.quads)
      && (forall x :: x in fed.acc.quads <==> x in d || x in xs)
      && fed.acc.count + |d| == c + |fed.acc.quads|
    decreases |xs|
  {
    if xs != [] {
      var ins := SetInsert(d, xs[0]);
      var step := Counting(SetInsert)(Tally(d, c), xs[0]);
      assert step == (Tally(ins.0, if ins.1.value then c + 1 else c), None);
      var rest := Feed(Counting(SetInsert), step.0, xs[1..]);
      assert Feed(Counting(SetInsert), Tally(d, c), xs) == Fed(rest.acc, rest.used + 1, rest.err);
      SetInsertAll(ins.0, step.0.count, xs[1..]);
      assert forall x :: x in xs <==> x == xs[0] || x in xs[1..];
    }
  }

  /** The set-dataset promise for `remove_all`: nothing fails, the quads are
      the old ones not removed, none twice, and the count is the number of
      quads actually removed; removing distinct present quads counts each. */
  lemma {:induction false} SetRemoveAll(d: seq<Quad>, c: nat, xs: seq<Quad>)
    requires NoDup(d)
    ensures var fed := Feed(Counting(SetRemove), Tally(d, c), xs);
      && fed.err.None?
      && NoDup(fed.acc.quads)
      && (forall x :: x in fed.acc.quads <==> x in d && x !in xs)
      && fed.acc.count + |fed.acc.quads| == c + |d|
      && (NoDup(xs) && (forall x :: x in xs ==> x in d) ==> fed.acc.count == c + |xs|)
    decreases |xs|
  {
    if xs != [] {
      var rem := SetRemove(d, xs[0]);
      var step := Counting(SetRemove)(Tally(d, c), xs[0]);
      assert step == (Tally(rem.0, if rem.1.value then c + 1 else c), None);
      var rest := Feed(Counting(SetRemove), step.0, xs[1..]);
      assert Feed(Counting(SetRemove), Tally(d, c), xs) == Fed(rest.acc, rest.used + 1, rest.err);
      SetRemoveAll(rem.0, step.0.count, xs[1..]);
      assert forall x :: x in xs <==> x == xs[0] || x in xs[1..];
      if NoDup(xs) {
        assert NoDup(xs[1..]);
        assert xs[0] !in xs[1..];
      }
    }
  }

  /** An in-memory dataset with set semantics: its quads, each once. */
  class MemDataset {
    var quads: seq<Quad>

    ghost predicate Valid()
      reads this
    {
      NoDup(quads)
    }

    constructor ()
      ensures Valid() && quads == []
    {
      quads := [];
    }

    method Insert(q: Quad) returns (changed: bool)
      requires Valid()
      modifies this
      ensures Valid()
      ensures changed <==> q !in old(quads)
      ensures forall x :: x in quads <==> x in old(quads) || x == q
      ensures |quads| == |old(quads)| + (if changed then 1 else 0)
    {
      var r := SetInsert(quads, q);
      quads, changed := r.0, r.1.value;
    }

    method Remove(q: Quad) returns (changed: bool)
      requires Valid()
      modifies this
      ensures Valid()
      ensures changed <==> q in old(quads)
      ensures forall x :: x in quads <==> x in old(quads) && x != q
      ensures |quads| + (if changed then 1 else 0) == |old(quads)|
    {
      var r := SetRemove(quads, q);
      quads, changed := r.0, r.1.value;
    }

    /** Inserts every quad of the source; only the source can fail, after
        its items are in. */
    method InsertAll<E>(src: Source<Quad, E>) returns (r: Result<nat, StreamError<E, ()>>)
      requires Valid()
      modifies this, src
      ensures Valid() && src.items == [] && src.failure == old(src.failure)
      ensures forall x :: x in quads <==> x in old(quads) || x in old(src.items)
      ensures r.Ok? <==> src.failure.None?
      ensures r.Err? ==> r == Err(SourceError(src.failure.value))
      ensures r.Ok? ==> r.value + |old(quads)| == |quads|
    {
      SetInsertAll(quads, 0, src.items);
      quads, r := MutateAll(SetInsert, quads, src);
    }

    /** Removes every quad of the source; only the source can fail, after
        its items are out. */
    method RemoveAll<E>(src: Source<Quad, E>) returns (r: Result<nat, StreamError<E, ()>>)
      requires Valid()
      modifies this, src
      ensures Valid() && src.items == [] && src.failure == old(src.failure)
      ensures forall x :: x in quads <==> x in old(quads) && x !in old(src.items)
      ensures r.Ok? <==> src.failure.None?
      ensures r.Err? ==> r == Err(SourceError(src.failure.value))
      ensures r.Ok? ==> r.value + |quads| == |old(quads)|
    {
      SetRemoveAll(quads, 0, src.items);
      quads, r := MutateAll(SetRemove, quads, src);
    }

    /** Leaves exactly the quads the dispatch does not yield, and counts the
        ones it removed. */
    method RemoveMatching(ms: TermMatcher, mp: TermMatcher, mo: TermMatcher, mg: GraphNameMatcher)
      returns (r: Result<nat, ()>)
      requires Valid()
      modifies this
      ensures Valid()
      ensures forall x :: x in quads <==> x in old(quads) && x !in QuadsMatching(old(quads), ms, mp, mo, mg)
      ensures r == Ok(|QuadsMatching(old(quads), ms, mp, mo, mg)|)
      ensures |quads| + |QuadsMatching(old(quads), ms, mp, mo, mg)| == |old(quads)|
    {
      QuadsMatchingWithin(quads, ms, mp, mo, mg);
      SetRemoveAll(quads, 0, QuadsMatching(quads, ms, mp, mo, mg));
      quads, r := RemoveMatchingWith(SetRemove, quads, ms, mp, mo, mg);
    }

    /** Leaves exactly the quads all four matchers accept. */
    method RetainMatching(ms: TermMatcher, mp: TermMatcher, mo: TermMatcher, mg: GraphNameMatcher)
      returns (r: Result<(), ()>)
      requires Valid()
      modifies this
      ensures Valid() && r.Ok?
      ensures forall x :: x in quads <==> x in old(quads) && Matches(ms, mp, mo, mg, x)
      ensures |quads| + |Filter(old(quads), Rejecting(ms, mp, mo, mg))| == |old(quads)|
    {
      SetRemoveAll(quads, 0, Filter(quads, Rejecting(ms, mp, mo, mg)));
      quads, r := RetainMatchingWith(SetRemove, quads, ms, mp, mo, mg);
    }
  }

  /** For matchers keeping their contract, `remove_matching` leaves exactly
      the quads some matcher rejects. */
  lemma RemoveMatchingLeaves(d: seq<Quad>, x: Quad,
                             ms: TermMatcher, mp: TermMatcher, mo: TermMatcher, mg: GraphNameMatcher)
    requires Sound(ms) && Sound(mp) && Sound(mo) && SoundG(mg)
    ensures (x in d && x !in QuadsMatching(d, ms, mp, mo, mg)) <==> (x in d && !Matches(ms, mp, mo, mg, x))
  {
    QuadsMatchingFilters(d, ms, mp, mo, mg);
  }

  /** `collect_quads` into an in-memory set dataset: a new dataset, then
      `insert_all`. */
  method CollectQuads<E>(src: Source<Quad, E>) returns (d: MemDataset, r: Result<(), StreamError<E, ()>>)
    modifies src
    ensures fresh(d) && d.Valid()
    ensures forall x :: x in d.quads <==> x in old(src.items)
    ensures r == (if src.failure.Some? then Err(SourceError(src.failure.value)) else Ok(()))
  {
    d := new MemDataset();
    var n := d.InsertAll(src);
    r := match n
      case Ok(_) => Ok(())
      case Err(e) => Err(e);
  }

  /** `add_to_dataset`: exactly the dataset's `insert_all`. */
  method AddToDataset<E>(src: Source<Quad, E>, d: MemDataset) returns (r: Result<nat, StreamError<E, ()>>)
    requires d.Valid()
    modifies src, d
    ensures d.Valid() && src.items == []
    ensures forall x :: x in d.quads <==> x in old(d.quads) || x in old(src.items)
    ensures r.Ok? <==> src.failure.None?
    ensures r.Err? ==> r == Err(SourceError(src.failure.value))
    ensures r.Ok? ==> r.value + |old(d.quads)| == |d.quads|
  {
    r := d.InsertAll(src);
  }
}
