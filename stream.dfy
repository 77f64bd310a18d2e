/** The streaming protocol of quad (and triple) sources: a source produces
    items and may fail; the sink it feeds them to may fail too, and the two
    kinds of failure stay apart. A sink is a function from its state and one
    item to its new state and, possibly, an error; the state it reaches is
    returned even when it fails, because effects of a closure survive it. */
module Streams {
  import opened Wrappers

  /** Which side of a stream failed. */
  datatype StreamError<+E, +K> = SourceError(source: E) | SinkError(sink: K)

  /** Where both sides fail with the same type, the error they carry. */
  function InnerInto<E>(e: StreamError<E, E>): E {
    match e
    case SourceError(x) => x
    case SinkError(x) => x
  }

  /** What feeding items to a sink did: its final state, how many items it
      was handed (the failing one included), and the error it stopped on. */
  datatype Fed<S, K> = Fed(acc: S, used: nat, err: Option<K>)

  /** Feeds `xs`, in order, to the sink `f` starting in state `acc`,
      stopping at the first item the sink fails on. */
  function Feed<S, T, K>(f: (S, T) -> (S, Option<K>), acc: S, xs: seq<T>): (r: Fed<S, K>)
    ensures r.used <= |xs|
    ensures r.err.None? ==> r.used == |xs|
    ensures r.err.Some? ==> r.used >= 1
    decreases |xs|
  {
    if xs == [] then Fed(acc, 0, None)
    else
      var step := f(acc, xs[0]);
      if step.1.Some? then Fed(step.0, 1, step.1)
      else
        var rest := Feed(f, step.0, xs[1..]);
        Fed(rest.acc, rest.used + 1, rest.err)
  }

  /** Feeding a concatenation: the second part is fed from where the first
      part left the sink, unless the first part already failed. */
  lemma {:induction false} FeedAppend<S, T, K>(f: (S, T) -> (S, Option<K>), acc: S, xs: seq<T>, ys: seq<T>)
    ensures Feed(f, acc, xs + ys) ==
      var r := Feed(f, acc, xs);
      if r.err.Some? then r
      else var q := Feed(f, r.acc, ys); Fed(q.acc, |xs| + q.used, q.err)
    decreases |xs|
  {
    if xs == [] {
      assert xs + ys == ys;
    } else {
      var step := f(acc, xs[0]);
      assert (xs + ys)[0] == xs[0];
      assert (xs + ys)[1..] == xs[1..] + ys;
      if step.1.None? {
        FeedAppend(f, step.0, xs[1..], ys);
      }
    }
  }

  /** A run that fails within the first `k` items is the run over those
      items alone: nothing after the failing item reaches the sink. */
  lemma FeedPrefix<S, T, K>(f: (S, T) -> (S, Option<K>), acc: S, xs: seq<T>, k: nat)
    requires k <= |xs| && Feed(f, acc, xs[..k]).err.Some?
    ensures Feed(f, acc, xs) == Feed(f, acc, xs[..k])
  {
    assert xs == xs[..k] + xs[k..];
    FeedAppend(f, acc, xs[..k], xs[k..]);
  }

  /** A run over `done` and then `rest` that fails within the first `k`
      items of `rest` ends where the run over those `k` items ends. */
  lemma FeedStops<S, T, K>(f: (S, T) -> (S, Option<K>), acc: S, done: seq<T>, rest: seq<T>, from: S, k: nat)
    requires Feed(f, acc, done) == Fed(from, |done|, None)
    requires k <= |rest| && Feed(f, from, rest[..k]).err.Some?
    ensures var fed := Feed(f, from, rest[..k]);
      Feed(f, acc, done + rest) == Fed(fed.acc, |done| + fed.used, fed.err)
  {
    FeedAppend(f, acc, done, rest);
    FeedPrefix(f, from, rest, k);
  }

  /** A run over `done` and then the first `k` items of `rest` that does
      not fail goes on from where the run over those items ends. */
  lemma FeedGoesOn<S, T, K>(f: (S, T) -> (S, Option<K>), acc: S, done: seq<T>, rest: seq<T>, from: S, k: nat)
    requires Feed(f, acc, done) == Fed(from, |done|, None)
    requires k <= |rest| && Feed(f, from, rest[..k]).err.None?
    ensures Feed(f, acc, done + rest[..k]) == Fed(Feed(f, from, rest[..k]).acc, |done| + k, None)
  {
    FeedAppend(f, acc, done, rest[..k]);
    assert |rest[..k]| == k;
  }

  /** Splitting the rest of a sequence after its first `k` items. */
  lemma SplitAfter<T>(done: seq<T>, rest: seq<T>, k: nat)
    requires k <= |rest|
    ensures done + rest == (done + rest[..k]) + rest[k..]
  {
    assert rest == rest[..k] + rest[k..];
  }

  /** The run stops at the first failure: the items before it all went
      through, the last item handed over is the one that failed, and the
      items after it never reach the sink. */
  lemma FeedStopsAtFirstError<S, T, K>(f: (S, T) -> (S, Option<K>), acc: S, xs: seq<T>)
    requires Feed(f, acc, xs).err.Some?
    ensures var r := Feed(f, acc, xs);
      var before := Feed(f, acc, xs[..r.used - 1]);
      && before.err.None? && before.used == r.used - 1
      && f(before.acc, xs[r.used - 1]) == (r.acc, r.err)
      && Feed(f, acc, xs[..r.used]) == r
  {
    var r := Feed(f, acc, xs);
    var n := r.used - 1;
    var before := Feed(f, acc, xs[..n]);
    assert xs == xs[..n] + xs[n..];
    FeedAppend(f, acc, xs[..n], xs[n..]);
    assert xs[n..][0] == xs[n];
    assert xs[..r.used] == xs[..n] + [xs[n]];
    FeedAppend(f, acc, xs[..n], [xs[n]]);
  }

  /** The sink `f`, also logging each item it is handed. */
  function Logging<S, T, K>(f: (S, T) -> (S, Option<K>)): ((S, seq<T>), T) -> ((S, seq<T>), Option<K>) {
    (st: (S, seq<T>), t: T) => ((f(st.0, t).0, st.1 + [t]), f(st.0, t).1)
  }

  /** Every item is handed to the sink exactly once, in order, up to the
      one it fails on: the log of a run is the prefix of the items it used,
      and logging changes nothing else. */
  lemma {:induction false} FeedLogs<S, T, K>(f: (S, T) -> (S, Option<K>), acc: S, log: seq<T>, xs: seq<T>)
    ensures var r := Feed(Logging(f), (acc, log), xs);
      var plain := Feed(f, acc, xs);
      && r.acc.1 == log + xs[..r.used]
      && r.acc.0 == plain.acc && r.used == plain.used && r.err == plain.err
    decreases |xs|
  {
    if xs != [] {
      var step := f(acc, xs[0]);
      assert Logging(f)((acc, log), xs[0]) == ((step.0, log + [xs[0]]), step.1);
      if step.1.None? {
        FeedLogs(f, step.0, log + [xs[0]], xs[1..]);
        assert xs[..1] + xs[1..][..Feed(f, step.0, xs[1..]).used] == xs[..Feed(f, step.0, xs[1..]).used + 1];
      }
    }
  }

  /** Left fold of an infallible step function over the items. */
  function Fold<S, T>(g: (S, T) -> S, acc: S, xs: seq<T>): S
    decreases |xs|
  {
    if xs == [] then acc else Fold(g, g(acc, xs[0]), xs[1..])
  }

  /** An infallible step function seen as a sink whose error type is `E`. */
  function Lift<S, T, E>(g: (S, T) -> S): (S, T) -> (S, Option<E>) {
    (s: S, t: T) => (g(s, t), None)
  }

  /** An infallible sink never stops early: it takes every item and ends
      where the fold ends. */
  lemma {:induction false} FeedLift<S, T, E>(g: (S, T) -> S, acc: S, xs: seq<T>)
    ensures Feed(Lift<S, T, E>(g), acc, xs) == Fed(Fold(g, acc, xs), |xs|, None)
    decreases |xs|
  {
    if xs != [] {
      FeedLift<S, T, E>(g, g(acc, xs[0]), xs[1..]);
    }
  }

  /** A source holding the items it has yet to produce, and the error it
      will raise once they are exhausted, if any. */
  class Source<T, E> {
    var items: seq<T>
    var failure: Option<E>

    constructor (items: seq<T>, failure: Option<E>)
      ensures this.items == items && this.failure == failure
    {
      this.items := items;
      this.failure := failure;
    }

    /** Calls the sink for at least one item, if there is any, and says
        whether there may be more (`Ok(true)`) or not (`Ok(false)`). How
        many items one call hands over is the source's choice, `k`. */
    method TrySome<S, K>(f: (S, T) -> (S, Option<K>), acc: S)
      returns (acc': S, r: Result<bool, StreamError<E, K>>, ghost k: nat)
      modifies this
      ensures failure == old(failure)
      ensures old(items) == [] ==>
        && k == 0 && acc' == acc && items == []
        && r == (if failure.Some? then Err(SourceError(failure.value)) else Ok(false))
      ensures old(items) != [] ==>
        && 1 <= k <= |old(items)|
        && var fed := Feed(f, acc, old(items)[..k]);
           && acc' == fed.acc && items == old(items)[fed.used..]
           && r == (if fed.err.Some? then Err(SinkError(fed.err.value)) else Ok(true))
    {
      if items == [] {
        k, acc' := 0, acc;
        r := if failure.Some? then Err(SourceError(failure.value)) else Ok(false);
        return;
      }
      var n :| 1 <= n <= |items|;
      var fed := Feed(f, acc, items[..n]);
      k, acc', items := n, fed.acc, items[fed.used..];
      r := if fed.err.Some? then Err(SinkError(fed.err.value)) else Ok(true);
    }

    /** Calls the sink for every item until the source is exhausted or
        either side fails; the first error, of either side, is returned. */
    method TryForEach<S, K>(f: (S, T) -> (S, Option<K>), acc: S)
      returns (acc': S, r: Result<(), StreamError<E, K>>)
      modifies this
      ensures failure == old(failure)
      ensures acc' == Feed(f, acc, old(items)).acc
      ensures Feed(f, acc, old(items)).err.Some? ==>
        && r == Err(SinkError(Feed(f, acc, old(items)).err.value))
        && items == old(items)[Feed(f, acc, old(items)).used..]
      ensures Feed(f, acc, old(items)).err.None? ==>
        && items == []
        && r == (if failure.Some? then Err(SourceError(failure.value)) else Ok(()))
    {
      acc' := acc;
      ghost var done: seq<T> := [];
      while true
        invariant old(items) == done + items && failure == old(failure)
        invariant Feed(f, acc, done) == Fed(acc', |done|, None)
        decreases |items|
      {
        ghost var before, from := items, acc';
        var more;
        ghost var k;
        acc', more, k := TrySome(f, acc');
        if more.Err? {
          if before != [] {
            FeedStops(f, acc, done, before, from, k);
          } else {
            assert done == old(items);
          }
          r := Err(more.error);
          return;
        }
        if !more.value {
          assert done == old(items);
          r := Ok(());
          return;
        }
        FeedGoesOn(f, acc, done, before, from, k);
        SplitAfter(done, before, k);
        done := done + before[..k];
      }
    }

    /** `TrySome` with an infallible sink; only the source can fail. */
    method ForSome<S>(g: (S, T) -> S, acc: S) returns (acc': S, r: Result<bool, E>, ghost k: nat)
      modifies this
      ensures failure == old(failure)
      ensures old(items) == [] ==>
        && k == 0 && acc' == acc && items == []
        && r == (if failure.Some? then Err(failure.value) else Ok(false))
      ensures old(items) != [] ==>
        && 1 <= k <= |old(items)|
        && acc' == Fold(g, acc, old(items)[..k]) && items == old(items)[k..] && r == Ok(true)
    {
      ghost var before := items;
      var res;
      acc', res, k := TrySome(Lift<S, T, E>(g), acc);
      if before != [] {
        FeedLift<S, T, E>(g, acc, before[..k]);
      }
      r := match res
        case Ok(b) => Ok(b)
        case Err(e) => Err(InnerInto(e));
    }

    /** Folds an infallible step over every item; only the source can fail. */
    method ForEach<S>(g: (S, T) -> S, acc: S) returns (acc': S, r: Result<(), E>)
      modifies this
      ensures failure == old(failure) && items == []
      ensures acc' == Fold(g, acc, old(items))
      ensures r == (if failure.Some? then Err(failure.value) else Ok(()))
    {
      acc' := acc;
      ghost var done: seq<T> := [];
      while true
        invariant old(items) == done + items && failure == old(failure)
        invariant Fold(g, acc, done) == acc'
        decreases |items|
      {
        ghost var before, from := items, acc';
        var more;
        ghost var k;
        acc', more, k := ForSome(g, acc');
        if more.Err? || !more.value {
          assert done == old(items);
          r := if more.Err? then Err(more.error) else Ok(());
          return;
        }
        FoldAppend(g, acc, done, before[..k]);
        assert old(items) == (done + before[..k]) + items;
        done := done + before[..k];
      }
    }

    /** Bounds on the number of items still to come: the default hint
        claims nothing beyond the trivial lower bound. */
    function SizeHint(): (r: (nat, Option<nat>))
      reads this
      ensures r.0 <= |items| && (r.1.Some? ==> |items| <= r.1.value)
    {
      (0, None)
    }
  }

  /** The step that appends each item to the accumulated sequence. */
  function Appending<T>(): (seq<T>, T) -> seq<T> {
    (acc: seq<T>, x: T) => acc + [x]
  }

  /** Folding the appending step over the items appends them all, in order. */
  lemma {:induction false} FoldAppending<T>(acc: seq<T>, xs: seq<T>)
    ensures Fold(Appending(), acc, xs) == acc + xs
    decreases |xs|
  {
    if xs != [] {
      FoldAppending(acc + [xs[0]], xs[1..]);
      assert acc + [xs[0]] + xs[1..] == acc + xs;
    }
  }

  /** Folding a concatenation folds the second part from where the first
      part ended. */
  lemma {:induction false} FoldAppend<S, T>(g: (S, T) -> S, acc: S, xs: seq<T>, ys: seq<T>)
    ensures Fold(g, acc, xs + ys) == Fold(g, Fold(g, acc, xs), ys)
    decreases |xs|
  {
    if xs == [] {
      assert xs + ys == ys;
    } else {
      assert (xs + ys)[1..] == xs[1..] + ys;
      FoldAppend(g, g(acc, xs[0]), xs[1..], ys);
    }
  }
}
