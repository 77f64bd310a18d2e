/** The term dictionary `TermIndexU`: it interns terms into small integer
    indices and keeps a reference count per index. A slot whose count drops
    to zero goes onto an intrusive LIFO free list: while a slot is live,
    `i2c[i]` holds its count; once freed, `i2c[i]` holds the link to the next
    free slot, and the list ends at `|i2t|`. */
module TermIndex {
  import opened Wrappers
  import opened Terms

  /** The unsigned integer type of the indices (`u16` or `u32`). */
  datatype Width = U16 | U32

  /** The largest value an index of the given width can hold. */
  function MaxIndex(w: Width): nat {
    match w
    case U16 => 0xFFFF
    case U32 => 0xFFFF_FFFF
  }

  /** One slot of the dictionary, as the two parallel arrays encode it. */
  datatype Slot = Live(term: Term, count: nat) | Free(next: nat)

  /** What one entry of `i2t` and the matching entry of `i2c` stand for. */
  function SlotOf(t: Option<Term>, c: nat): Slot {
    if t.Some? then Live(t.value, c) else Free(c)
  }

  /** The slot view of the parallel arrays `i2t` and `i2c`. */
  function SlotView(i2t: seq<Option<Term>>, i2c: seq<nat>): (r: seq<Slot>)
    requires |i2t| == |i2c|
    ensures |r| == |i2t|
  {
    if |i2t| == 0 then []
    else SlotView(i2t[..|i2t| - 1], i2c[..|i2c| - 1]) + [SlotOf(i2t[|i2t| - 1], i2c[|i2c| - 1])]
  }

  /** Slot `i` of the view is what entry `i` of the two arrays encodes. */
  lemma {:induction false} SlotViewAt(i2t: seq<Option<Term>>, i2c: seq<nat>, i: nat)
    requires |i2t| == |i2c| && i < |i2t|
    ensures SlotView(i2t, i2c)[i] == SlotOf(i2t[i], i2c[i])
    decreases |i2t|
  {
    if i < |i2t| - 1 {
      SlotViewAt(i2t[..|i2t| - 1], i2c[..|i2c| - 1], i);
    }
  }

  /** Every slot of the view is what the two arrays encode. */
  lemma SlotViewAll(i2t: seq<Option<Term>>, i2c: seq<nat>)
    requires |i2t| == |i2c|
    ensures forall i :: 0 <= i < |i2t| ==> SlotView(i2t, i2c)[i] == SlotOf(i2t[i], i2c[i])
  {
    forall i | 0 <= i < |i2t| ensures SlotView(i2t, i2c)[i] == SlotOf(i2t[i], i2c[i]) {
      SlotViewAt(i2t, i2c, i);
    }
  }

  lemma SlotViewSet(i2t: seq<Option<Term>>, i2c: seq<nat>, i: nat, v: Option<Term>, c: nat)
    requires |i2t| == |i2c| && i < |i2t|
    ensures SlotView(i2t[i := v], i2c[i := c])
         == SlotView(i2t, i2c)[i := SlotOf(v, c)]
  {
    SlotViewAll(i2t, i2c);
    SlotViewAll(i2t[i := v], i2c[i := c]);
  }

  /** The slot view determines the two arrays. */
  lemma SlotViewInjective(a: seq<Option<Term>>, b: seq<nat>, c: seq<Option<Term>>, d: seq<nat>)
    requires |a| == |b| && |c| == |d| && SlotView(a, b) == SlotView(c, d)
    ensures a == c && b == d
  {
    assert |a| == |SlotView(a, b)| == |c|;
    forall i | 0 <= i < |a| ensures a[i] == c[i] && b[i] == d[i] {
      SlotViewAt(a, b, i);
      SlotViewAt(c, d, i);
    }
  }

  lemma SlotViewPush(i2t: seq<Option<Term>>, i2c: seq<nat>, t: Term)
    requires |i2t| == |i2c|
    ensures SlotView(i2t + [Some(t)], i2c + [1]) == SlotView(i2t, i2c) + [Live(t, 1)]
  {
    assert (i2t + [Some(t)])[..|i2t|] == i2t;
    assert (i2c + [1])[..|i2c|] == i2c;
  }

  /** Index `i` names a live slot. */
  predicate IsLive(slots: seq<Slot>, i: nat) {
    i < |slots| && slots[i].Live?
  }

  /** Live slots hold pairwise distinct terms. */
  ghost predicate Distinct(slots: seq<Slot>) {
    forall i: nat, j: nat :: IsLive(slots, i) && IsLive(slots, j) && slots[i].term == slots[j].term ==> i == j
  }

  /** `after` is `before` with one more reference to `t`, held by slot `i`:
      its own slot if `t` was live, otherwise a slot that was not live (a
      free one, or a new one at the end). No other slot changes. */
  ghost predicate Interned(before: seq<Slot>, after: seq<Slot>, t: Term, i: nat) {
    && i < |after| && |before| <= |after| <= |before| + 1
    && (|after| > |before| ==> i == |before|)
    && (forall j :: 0 <= j < |before| && j != i ==> after[j] == before[j])
    && (if IsLive(before, i) then before[i].term == t && after[i] == Live(t, before[i].count + 1)
        else after[i] == Live(t, 1))
  }

  /** `after` is `before` with one reference fewer to the live slot `i`,
      which is freed when that was its last reference. No other slot changes. */
  ghost predicate Released(before: seq<Slot>, after: seq<Slot>, i: nat) {
    && |after| == |before| && IsLive(before, i)
    && (forall j :: 0 <= j < |before| && j != i ==> after[j] == before[j])
    && (if before[i].count > 1 then after[i] == Live(before[i].term, before[i].count - 1)
        else after[i].Free?)
  }

  lemma InternedPresent(before: seq<Slot>, t: Term, i: nat)
    requires IsLive(before, i) && before[i].term == t
    ensures Interned(before, before[i := Live(t, before[i].count + 1)], t, i)
  {
  }

  lemma InternedPush(before: seq<Slot>, t: Term)
    ensures Interned(before, before + [Live(t, 1)], t, |before|)
  {
  }

  lemma InternedReuse(before: seq<Slot>, t: Term, i: nat)
    requires i < |before| && before[i].Free?
    ensures Interned(before, before[i := Live(t, 1)], t, i)
  {
  }

  lemma ReleasedAt(before: seq<Slot>, i: nat, s: Slot)
    requires IsLive(before, i)
    requires if before[i].count > 1 then s == Live(before[i].term, before[i].count - 1) else s.Free?
    ensures Released(before, before[i := s], i)
  {
  }

  /** `t2i` mirrors exactly the live slots of `i2t`, whose counts are positive. */
  ghost predicate Mirrors(i2t: seq<Option<Term>>, i2c: seq<nat>, t2i: map<Term, nat>)
    requires |i2t| == |i2c|
  {
    && (forall t :: t in t2i ==> t2i[t] < |i2t| && i2t[t2i[t]] == Some(t))
    && (forall i :: 0 <= i < |i2t| && i2t[i].Some? ==>
          i2t[i].value in t2i && t2i[i2t[i].value] == i && i2c[i] >= 1)
  }

  /** `nextFree` heads a chain of free slots, linked through `i2c`, that ends
      at `|i2t|`; `freeList` lists that chain, and every free slot is on it
      exactly once. */
  ghost predicate Chain(nextFree: nat, i2t: seq<Option<Term>>, i2c: seq<nat>, freeList: seq<nat>)
    requires |i2t| == |i2c|
  {
    && nextFree == (if freeList == [] then |i2t| else freeList[0])
    && (forall k :: 0 <= k < |freeList| ==> freeList[k] < |i2t| && i2t[freeList[k]].None?)
    && (forall k {:trigger i2c[freeList[k]]} :: 0 <= k < |freeList| ==>
          i2c[freeList[k]] == if k + 1 < |freeList| then freeList[k + 1] else |i2t|)
    && (forall i :: 0 <= i < |i2t| && i2t[i].None? ==> i in freeList)
    && (forall k, l :: 0 <= k < l < |freeList| ==> freeList[k] != freeList[l])
  }

  ghost predicate Inv(w: Width, nextFree: nat, i2t: seq<Option<Term>>, i2c: seq<nat>,
                      t2i: map<Term, nat>, freeList: seq<nat>)
  {
    && |i2t| == |i2c| <= MaxIndex(w)
    && Mirrors(i2t, i2c, t2i)
    && Chain(nextFree, i2t, i2c, freeList)
  }

  /** Changing the count of a live slot keeps the invariant. */
  lemma {:induction false} RecountKeeps(w: Width, nf: nat, i2t: seq<Option<Term>>, i2c: seq<nat>,
                                        t2i: map<Term, nat>, fl: seq<nat>, i: nat, c: nat)
    requires Inv(w, nf, i2t, i2c, t2i, fl)
    requires i < |i2t| && i2t[i].Some? && c >= 1
    ensures Inv(w, nf, i2t, i2c[i := c], t2i, fl)
  {
    assert forall k :: 0 <= k < |fl| ==> fl[k] != i;
  }

  /** Appending a fresh live slot when the free list is empty keeps the invariant. */
  lemma {:induction false} PushKeeps(w: Width, nf: nat, i2t: seq<Option<Term>>, i2c: seq<nat>,
                                     t2i: map<Term, nat>, fl: seq<nat>, t: Term)
    requires Inv(w, nf, i2t, i2c, t2i, fl)
    requires nf == |i2t| < MaxIndex(w) && t !in t2i
    ensures fl == []
    ensures Inv(w, nf + 1, i2t + [Some(t)], i2c + [1], t2i[t := nf], fl)
  {
    var i2t', i2c' := i2t + [Some(t)], i2c + [1];
    forall u | u in t2i[t := nf]
      ensures t2i[t := nf][u] < |i2t'| && i2t'[t2i[t := nf][u]] == Some(u)
    {
      if u != t {
        assert i2t'[t2i[u]] == i2t[t2i[u]];
      }
    }
    forall i | 0 <= i < |i2t'| && i2t'[i].Some?
      ensures i2t'[i].value in t2i[t := nf] && t2i[t := nf][i2t'[i].value] == i && i2c'[i] >= 1
    {
      if i < |i2t| {
        assert i2t'[i] == i2t[i];
        assert i2t[i].value != t;
      }
    }
    assert forall i :: 0 <= i < |i2t| ==> i2t'[i] == i2t[i];
  }

  /** The slot view before and after a free slot takes the term `t`. */
  lemma ReuseView(i2t: seq<Option<Term>>, i2c: seq<nat>, i: nat, t: Term)
    requires |i2t| == |i2c| && i < |i2t| && i2t[i].None?
    ensures SlotView(i2t, i2c)[i] == Free(i2c[i])
    ensures SlotView(i2t[i := Some(t)], i2c[i := 1]) == SlotView(i2t, i2c)[i := Live(t, 1)]
  {
    SlotViewAt(i2t, i2c, i);
    SlotViewSet(i2t, i2c, i, Some(t), 1);
  }

  /** Reusing the head of the free list for a new term keeps the invariant. */
  lemma ReuseKeeps(w: Width, nf: nat, i2t: seq<Option<Term>>, i2c: seq<nat>,
                   t2i: map<Term, nat>, fl: seq<nat>, t: Term)
    requires Inv(w, nf, i2t, i2c, t2i, fl)
    requires nf < |i2t| && t !in t2i
    ensures fl != [] && fl[0] == nf && i2t[nf].None? && |fl[1..]| == |fl| - 1
    ensures Inv(w, i2c[nf], i2t[nf := Some(t)], i2c[nf := 1], t2i[t := nf], fl[1..])
  {
    ReuseChain(nf, i2t, i2c, fl, t);
    ReuseMirrors(i2t, i2c, t2i, nf, t);
  }

  lemma {:induction false} ReuseChain(nf: nat, i2t: seq<Option<Term>>, i2c: seq<nat>, fl: seq<nat>, t: Term)
    requires |i2t| == |i2c| && Chain(nf, i2t, i2c, fl)
    requires nf < |i2t|
    ensures fl != [] && fl[0] == nf && i2t[nf].None?
    ensures Chain(i2c[nf], i2t[nf := Some(t)], i2c[nf := 1], fl[1..])
  {
    assert fl != [];
    var i2t', i2c', fl' := i2t[nf := Some(t)], i2c[nf := 1], fl[1..];
    forall k | 0 <= k < |fl'|
      ensures fl'[k] == fl[k + 1] && fl'[k] != nf && fl'[k] < |i2t'| && i2t'[fl'[k]].None?
    {
      assert fl[0] != fl[k + 1];
    }
    forall k, l | 0 <= k < l < |fl'| ensures fl'[k] != fl'[l] {
      assert fl'[k] == fl[k + 1] && fl'[l] == fl[l + 1];
    }
    assert i2c[fl[0]] == if 1 < |fl| then fl[1] else |i2t|;
    assert i2c[nf] == if fl' == [] then |i2t'| else fl'[0];
    forall k | 0 <= k < |fl'|
      ensures i2c'[fl'[k]] == if k + 1 < |fl'| then fl'[k + 1] else |i2t'|
    {
      assert fl'[k] == fl[k + 1];
      assert i2c[fl[k + 1]] == if k + 2 < |fl| then fl[k + 2] else |i2t|;
    }
    forall i | 0 <= i < |i2t'| && i2t'[i].None?
      ensures i in fl'
    {
      assert i != nf && i in fl;
      var k :| 0 <= k < |fl| && fl[k] == i;
      assert k != 0;
      assert fl'[k - 1] == i;
    }
  }

  lemma ReuseMirrors(i2t: seq<Option<Term>>, i2c: seq<nat>, t2i: map<Term, nat>, nf: nat, t: Term)
    requires |i2t| == |i2c| && Mirrors(i2t, i2c, t2i)
    requires nf < |i2t| && i2t[nf].None? && t !in t2i
    ensures Mirrors(i2t[nf := Some(t)], i2c[nf := 1], t2i[t := nf])
  {
    var i2t', i2c' := i2t[nf := Some(t)], i2c[nf := 1];
    forall u | u in t2i[t := nf]
      ensures t2i[t := nf][u] < |i2t'| && i2t'[t2i[t := nf][u]] == Some(u)
    {
      if u != t {
        assert t2i[u] != nf;
      }
    }
    forall i | 0 <= i < |i2t'| && i2t'[i].Some?
      ensures i2t'[i].value in t2i[t := nf] && t2i[t := nf][i2t'[i].value] == i && i2c'[i] >= 1
    {
      if i != nf {
        assert i2t'[i] == i2t[i] && i2t[i].value in t2i;
      }
    }
  }

  /** Freeing a live slot whose count reaches zero pushes it onto the free
      list and keeps the invariant. */
  lemma FreeKeeps(w: Width, nf: nat, i2t: seq<Option<Term>>, i2c: seq<nat>,
                  t2i: map<Term, nat>, fl: seq<nat>, i: nat)
    requires Inv(w, nf, i2t, i2c, t2i, fl)
    requires i < |i2t| && i2t[i].Some?
    ensures Inv(w, i, i2t[i := None], i2c[i := nf], t2i - {i2t[i].value}, [i] + fl)
  {
    FreeChain(nf, i2t, i2c, fl, i);
    FreeMirrors(i2t, i2c, t2i, i, nf);
  }

  lemma {:induction false} FreeChain(nf: nat, i2t: seq<Option<Term>>, i2c: seq<nat>, fl: seq<nat>, i: nat)
    requires |i2t| == |i2c| && Chain(nf, i2t, i2c, fl)
    requires i < |i2t| && i2t[i].Some?
    ensures Chain(i, i2t[i := None], i2c[i := nf], [i] + fl)
  {
    var i2t', i2c', fl' := i2t[i := None], i2c[i := nf], [i] + fl;
    assert forall k :: 0 <= k < |fl| ==> fl[k] != i;
    assert forall k :: 1 <= k < |fl'| ==> fl'[k] == fl[k - 1];
    forall k | 0 <= k < |fl'|
      ensures i2c'[fl'[k]] == if k + 1 < |fl'| then fl'[k + 1] else |i2t'|
    {
      if k > 0 {
        assert fl'[k] == fl[k - 1] && fl[k - 1] != i;
        assert i2c'[fl'[k]] == i2c[fl[k - 1]];
        assert i2c[fl[k - 1]] == if k < |fl| then fl[k] else |i2t|;
        if k < |fl| {
          assert fl'[k + 1] == fl[k];
        }
      } else {
        assert fl'[0] == i && i2c'[i] == nf;
        if fl != [] {
          assert fl'[1] == fl[0];
        }
      }
    }
    forall j | 0 <= j < |i2t'| && i2t'[j].None?
      ensures j in fl'
    {
      if j != i {
        assert i2t[j].None? && j in fl;
      }
    }
  }

  lemma FreeMirrors(i2t: seq<Option<Term>>, i2c: seq<nat>, t2i: map<Term, nat>, i: nat, c: nat)
    requires |i2t| == |i2c| && Mirrors(i2t, i2c, t2i)
    requires i < |i2t| && i2t[i].Some?
    ensures Mirrors(i2t[i := None], i2c[i := c], t2i - {i2t[i].value})
  {
    var t := i2t[i].value;
    var i2t', i2c', t2i' := i2t[i := None], i2c[i := c], t2i - {t};
    forall u | u in t2i'
      ensures t2i'[u] < |i2t'| && i2t'[t2i'[u]] == Some(u)
    {
      assert t2i[u] != i;
    }
    forall j | 0 <= j < |i2t'| && i2t'[j].Some?
      ensures i2t'[j].value in t2i' && t2i'[i2t'[j].value] == j && i2c'[j] >= 1
    {
      assert j != i && i2t'[j] == i2t[j];
      assert t2i[i2t[j].value] == j;
    }
  }

  /** The reference count of `t`: the count of the slot `t2i` gives it, or 0
      when the term has no slot. */
  function CountOf(i2c: seq<nat>, t2i: map<Term, nat>, t: Term): nat {
    if t in t2i && t2i[t] < |i2c| then i2c[t2i[t]] else 0
  }

  /** Setting the count of a live slot sets the count of its term, and of
      no other term. */
  lemma CountOfSet(i2t: seq<Option<Term>>, i2c: seq<nat>, t2i: map<Term, nat>, i: nat, c: nat)
    requires |i2t| == |i2c| && Mirrors(i2t, i2c, t2i)
    requires i < |i2t| && i2t[i].Some?
    ensures CountOf(i2c, t2i, i2t[i].value) == i2c[i]
    ensures forall u :: (CountOf(i2c[i := c], t2i, u) ==
        if u == i2t[i].value then c else CountOf(i2c, t2i, u))
  {
    forall u ensures (CountOf(i2c[i := c], t2i, u) ==
        if u == i2t[i].value then c else CountOf(i2c, t2i, u))
    {
      if u in t2i && u != i2t[i].value {
        assert t2i[u] != i;
      }
    }
  }

  /** A new term in a new slot at the end has count 1; no other count moves. */
  lemma CountOfPush(i2t: seq<Option<Term>>, i2c: seq<nat>, t2i: map<Term, nat>, t: Term)
    requires |i2t| == |i2c| && Mirrors(i2t, i2c, t2i) && t !in t2i
    ensures forall u :: (CountOf(i2c + [1], t2i[t := |i2c|], u) ==
        if u == t then 1 else CountOf(i2c, t2i, u))
  {
    forall u ensures (CountOf(i2c + [1], t2i[t := |i2c|], u) ==
        if u == t then 1 else CountOf(i2c, t2i, u))
    {
      if u in t2i && u != t {
        assert (i2c + [1])[t2i[u]] == i2c[t2i[u]];
      }
    }
  }

  /** A new term in a free slot has count 1; no other count moves. */
  lemma CountOfReuse(i2t: seq<Option<Term>>, i2c: seq<nat>, t2i: map<Term, nat>, i: nat, t: Term)
    requires |i2t| == |i2c| && Mirrors(i2t, i2c, t2i) && t !in t2i
    requires i < |i2t| && i2t[i].None?
    ensures forall u :: (CountOf(i2c[i := 1], t2i[t := i], u) ==
        if u == t then 1 else CountOf(i2c, t2i, u))
  {
    forall u ensures (CountOf(i2c[i := 1], t2i[t := i], u) ==
        if u == t then 1 else CountOf(i2c, t2i, u))
    {
      if u in t2i && u != t {
        assert t2i[u] != i;
      }
    }
  }

  /** Freeing a live slot takes the count of its term to 0 and leaves every
      other count alone, whatever link the slot now holds. */
  lemma CountOfFree(i2t: seq<Option<Term>>, i2c: seq<nat>, t2i: map<Term, nat>, i: nat, c: nat)
    requires |i2t| == |i2c| && Mirrors(i2t, i2c, t2i)
    requires i < |i2t| && i2t[i].Some?
    ensures forall u :: (CountOf(i2c[i := c], t2i - {i2t[i].value}, u) ==
        if u == i2t[i].value then 0 else CountOf(i2c, t2i, u))
  {
    forall u ensures (CountOf(i2c[i := c], t2i - {i2t[i].value}, u) ==
        if u == i2t[i].value then 0 else CountOf(i2c, t2i, u))
    {
      if u in t2i && u != i2t[i].value {
        assert t2i[u] != i;
      }
    }
  }

  class TermIndexU {
    const width: Width
    var nextFree: nat
    var i2t: seq<Option<Term>>
    var i2c: seq<nat>
    var t2i: map<Term, nat>
    /** The free slots in list order: `nextFree` first, each `i2c` link next. */
    ghost var freeList: seq<nat>

    ghost predicate Valid()
      reads this
    {
      Inv(width, nextFree, i2t, i2c, t2i, freeList)
    }

    ghost function Slots(): (r: seq<Slot>)
      reads this
      requires |i2t| == |i2c|
      ensures |r| == |i2t|
    {
      SlotView(i2t, i2c)
    }

    /** How many more terms can be interned before an index would overflow. */
    ghost function Room(): int
      reads this
    {
      |freeList| + MaxIndex(width) - |i2t|
    }

    /** The reference count of a term, 0 for a term without a slot. Counts
        have the index width, so a count is at most `MaxIndex(width)`. */
    function Refs(t: Term): nat
      reads this
    {
      CountOf(i2c, t2i, t)
    }

    /** A new term can be interned: a slot is free, or the arrays can grow. */
    predicate HasRoom()
      reads this
      requires Valid()
      ensures HasRoom() <==> Room() > 0
    {
      nextFree < |i2t| || |i2t| < MaxIndex(width)
    }

    /** Two live slots never hold the same term. */
    lemma LiveDistinct(i: nat, j: nat)
      requires Valid()
      requires i < |i2t| && j < |i2t| && i2t[i].Some? && i2t[i] == i2t[j]
      ensures i == j
    {
    }

    /** The slot view of a valid dictionary never holds a term twice. */
    lemma SlotsDistinct()
      requires Valid()
      ensures Distinct(Slots())
    {
      var sl := Slots();
      forall i: nat, j: nat | IsLive(sl, i) && IsLive(sl, j) && sl[i].term == sl[j].term
        ensures i == j
      {
        SlotViewAt(i2t, i2c, i);
        SlotViewAt(i2t, i2c, j);
        assert i2t[i].Some? && i2t[j].Some? && i2t[i].value == i2t[j].value;
        assert t2i[i2t[i].value] == i && t2i[i2t[j].value] == j;
      }
    }

    /** Live slots hold at least one reference. */
    lemma LiveCount(i: nat)
      requires Valid()
      ensures IsLive(Slots(), i) ==> Slots()[i].count >= 1
    {
      if i < |i2t| {
        SlotViewAt(i2t, i2c, i);
      }
    }

    constructor (w: Width)
      ensures Valid()
      ensures width == w && nextFree == 0 && i2t == [] && i2c == [] && t2i == map[]
      ensures Room() == MaxIndex(w)
    {
      width := w;
      nextFree := 0;
      i2t := [];
      i2c := [];
      t2i := map[];
      freeList := [];
    }

    function GetIndex(t: Term): (r: Option<nat>)
      reads this
      requires Valid()
      ensures r.Some? ==> r.value < |i2t| && i2t[r.value] == Some(t)
      ensures r.None? ==> forall i :: 0 <= i < |i2t| ==> i2t[i] != Some(t)
    {
      if t in t2i then Some(t2i[t]) else None
    }

    function GetTerm(i: nat): (r: Option<Term>)
      reads this
      requires Valid()
      ensures r.Some? <==> IsLive(Slots(), i)
      ensures r.Some? ==> Slots()[i].term == r.value && GetIndex(r.value) == Some(i)
    {
      if i < |i2t| then SlotViewAt(i2t, i2c, i); i2t[i] else None
    }

    method MakeIndex(t: Term) returns (i: nat)
      requires Valid()
      requires t in t2i || HasRoom()
      requires Refs(t) < MaxIndex(width)
      modifies this
      ensures Valid()
      ensures GetIndex(t) == Some(i) && GetTerm(i) == Some(t)
      ensures forall u :: Refs(u) == old(Refs(u)) + (if u == t then 1 else 0)
      ensures old(t in t2i) <==> IsLive(old(Slots()), i)
      // the term is already there: only its count goes up
      ensures old(t in t2i) ==>
        && i == old(t2i[t])
        && Slots() == old(Slots())[i := Live(t, old(Slots())[i].count + 1)]
        && nextFree == old(nextFree) && t2i == old(t2i) && Room() == old(Room())
      // no free slot: the arrays grow by one live slot
      ensures old(t !in t2i) && old(nextFree) == old(|i2t|) ==>
        && i == old(|i2t|)
        && Slots() == old(Slots()) + [Live(t, 1)]
        && nextFree == old(nextFree) + 1 && t2i == old(t2i)[t := i]
      // the head of the free list is reused and unlinked
      ensures old(t !in t2i) && old(nextFree) < old(|i2t|) ==>
        && i == old(nextFree)
        && old(Slots())[i] == Free(nextFree)
        && Slots() == old(Slots())[i := Live(t, 1)]
        && |i2t| == old(|i2t|) && t2i == old(t2i)[t := i]
      ensures old(t !in t2i) ==> Room() == old(Room()) - 1
      ensures Interned(old(Slots()), Slots(), t, i)
    {
      ghost var before := Slots();
      if t in t2i {
        i := t2i[t];
        SlotViewAt(i2t, i2c, i);
        CountOfSet(i2t, i2c, t2i, i, i2c[i]);
        InternedPresent(before, t, i);
        IncRef(i);
        return;
      }
      i := nextFree;
      if i == |i2t| {
        InternedPush(before, t);
        Grow(t);
      } else {
        ReuseHead(t);
        InternedReuse(before, t, i);
      }
    }

    /** The new term takes a new slot at the end of the arrays. */
    method Grow(t: Term)
      requires Valid() && t !in t2i && nextFree == |i2t| < MaxIndex(width)
      modifies this
      ensures Valid()
      ensures Slots() == old(Slots()) + [Live(t, 1)]
      ensures nextFree == old(nextFree) + 1 && t2i == old(t2i)[t := old(nextFree)]
      ensures Room() == old(Room()) - 1
      ensures forall u :: Refs(u) == if u == t then 1 else old(Refs(u))
    {
      ghost var nf0, i2t0, i2c0, t2i0 := nextFree, i2t, i2c, t2i;
      CountOfPush(i2t0, i2c0, t2i0, t);
      t2i, nextFree, i2t, i2c := t2i[t := nextFree], nextFree + 1, i2t + [Some(t)], i2c + [1];
      PushKeeps(width, nf0, i2t0, i2c0, t2i0, freeList, t);
      SlotViewPush(i2t0, i2c0, t);
    }

    /** The new term takes the slot at the head of the free list. */
    method ReuseHead(t: Term)
      requires Valid() && t !in t2i && nextFree < |i2t|
      modifies this
      ensures Valid()
      ensures old(Slots())[old(nextFree)] == Free(nextFree)
      ensures Slots() == old(Slots())[old(nextFree) := Live(t, 1)]
      ensures t2i == old(t2i)[t := old(nextFree)]
      ensures Room() == old(Room()) - 1
      ensures forall u :: Refs(u) == if u == t then 1 else old(Refs(u))
    {
      var i := nextFree;
      ghost var i2t0, i2c0, t2i0, fl0 := i2t, i2c, t2i, freeList;
      CountOfReuse(i2t0, i2c0, t2i0, i, t);
      t2i, nextFree, i2t, i2c, freeList :=
        t2i[t := i], i2c[i], i2t[i := Some(t)], i2c[i := 1], freeList[1..];
      ReuseKeeps(width, i, i2t0, i2c0, t2i0, fl0, t);
      ReuseView(i2t0, i2c0, i, t);
    }

    method IncRef(i: nat)
      requires Valid() && IsLive(Slots(), i) && Slots()[i].count < MaxIndex(width)
      modifies this
      ensures Valid()
      ensures Slots() == old(Slots())[i := Live(old(Slots())[i].term, old(Slots())[i].count + 1)]
      ensures nextFree == old(nextFree) && t2i == old(t2i) && Room() == old(Room())
      ensures forall u :: Refs(u) == old(Refs(u)) + (if u == old(Slots())[i].term then 1 else 0)
    {
      SlotViewAt(i2t, i2c, i);
      Recount(i, i2c[i] + 1);
    }

    method DecRef(i: nat)
      requires Valid() && IsLive(Slots(), i)
      modifies this
      ensures Valid()
      // the count stays positive: nothing else changes
      ensures old(Slots())[i].count > 1 ==>
        && Slots() == old(Slots())[i := Live(old(Slots())[i].term, old(Slots())[i].count - 1)]
        && nextFree == old(nextFree) && t2i == old(t2i) && Room() == old(Room())
      // the count reaches zero: the slot is pushed onto the free list
      ensures old(Slots())[i].count == 1 ==>
        && Slots() == old(Slots())[i := Free(old(nextFree))]
        && nextFree == i
        && t2i == old(t2i) - {old(Slots())[i].term}
        && Room() == old(Room()) + 1
      ensures Released(old(Slots()), Slots(), i)
      ensures forall u :: Refs(u) == old(Refs(u)) - (if u == old(Slots())[i].term then 1 else 0)
    {
      ghost var before := Slots();
      SlotViewAt(i2t, i2c, i);
      if i2c[i] == 1 {
        Release(i);
      } else {
        Recount(i, i2c[i] - 1);
      }
      ReleasedAt(before, i, Slots()[i]);
    }

    /** Sets the count of a live slot. */
    method Recount(i: nat, c: nat)
      requires Valid() && IsLive(Slots(), i) && c >= 1
      modifies this
      ensures Valid()
      ensures Slots() == old(Slots())[i := Live(old(Slots())[i].term, c)]
      ensures nextFree == old(nextFree) && t2i == old(t2i) && Room() == old(Room())
      ensures old(Refs(Slots()[i].term)) == old(Slots()[i].count)
      ensures forall u :: Refs(u) == if u == old(Slots())[i].term then c else old(Refs(u))
    {
      SlotViewAt(i2t, i2c, i);
      CountOfSet(i2t, i2c, t2i, i, c);
      RecountKeeps(width, nextFree, i2t, i2c, t2i, freeList, i, c);
      SlotViewSet(i2t, i2c, i, i2t[i], c);
      assert i2t[i := i2t[i]] == i2t;
      i2c := i2c[i := c];
    }

    /** Frees a live slot: it forgets its term and becomes the new head of
        the free list, linked to the previous head. */
    method Release(i: nat)
      requires Valid() && IsLive(Slots(), i)
      modifies this
      ensures Valid()
      ensures Slots() == old(Slots())[i := Free(old(nextFree))]
      ensures nextFree == i && t2i == old(t2i) - {old(Slots())[i].term}
      ensures Room() == old(Room()) + 1
      ensures old(Refs(Slots()[i].term)) == old(Slots()[i].count)
      ensures forall u :: Refs(u) == if u == old(Slots())[i].term then 0 else old(Refs(u))
    {
      SlotViewAt(i2t, i2c, i);
      CountOfSet(i2t, i2c, t2i, i, i2c[i]);
      CountOfFree(i2t, i2c, t2i, i, nextFree);
      var t := i2t[i].value;
      FreeKeeps(width, nextFree, i2t, i2c, t2i, freeList, i);
      SlotViewSet(i2t, i2c, i, None, nextFree);
      i2t, t2i, i2c, nextFree, freeList := i2t[i := None], t2i - {t}, i2c[i := nextFree], i, [i] + freeList;
    }

    /** Only releases spare capacity; nothing observable changes. */
    method ShrinkToFit()
      requires Valid()
      modifies this
      ensures Valid() && unchanged(this)
    {
    }
  }

  /** The inline test of the dictionary: the indices handed out and the
      head of the free list after each step, including slot reuse in LIFO
      order and growth once the free list is empty. */
  method IndexScenario() returns (indices: seq<nat>, heads: seq<nat>)
    ensures indices == [0, 1, 2, 1, 0, 1, 3]
    ensures heads == [1, 2, 3, 3, 3, 1, 0, 1, 3, 4]
  {
    var ti, i1, h1 := InternThree();
    var i2, h2 := CountUpDown(ti);
    var h3 := FreeTwo(ti);
    var i3, h4 := ReuseAndGrow(ti);
    indices := i1 + i2 + i3;
    heads := h1 + h2 + h3 + h4;
  }

  /** Three new terms take slots 0, 1 and 2. */
  method InternThree() returns (ti: TermIndexU, indices: seq<nat>, heads: seq<nat>)
    ensures fresh(ti) && ti.Valid() && ti.width == U16
    ensures ti.Slots() == [Live(RdfSubject, 1), Live(RdfPredicate, 1), Live(RdfObject, 1)]
    ensures ti.nextFree == 3 && ti.t2i == map[RdfSubject := 0, RdfPredicate := 1, RdfObject := 2]
    ensures indices == [0, 1, 2] && heads == [1, 2, 3]
  {
    ti := new TermIndexU(U16);
    assert ti.GetIndex(RdfSubject) == None;
    var a := ti.MakeIndex(RdfSubject);
    assert ti.Slots() == [Live(RdfSubject, 1)];
    var h1 := ti.nextFree;
    var b, c, h2, h3 := InternTwoMore(ti);
    indices, heads := [a, b, c], [h1, h2, h3];
  }

  method InternTwoMore(ti: TermIndexU) returns (b: nat, c: nat, h2: nat, h3: nat)
    requires ti.Valid() && ti.width == U16
    requires ti.Slots() == [Live(RdfSubject, 1)] && ti.nextFree == 1 && ti.t2i == map[RdfSubject := 0]
    modifies ti
    ensures ti.Valid()
    ensures ti.Slots() == [Live(RdfSubject, 1), Live(RdfPredicate, 1), Live(RdfObject, 1)]
    ensures ti.nextFree == 3 && ti.t2i == map[RdfSubject := 0, RdfPredicate := 1, RdfObject := 2]
    ensures b == 1 && c == 2 && h2 == 2 && h3 == 3
  {
    assert ti.GetIndex(RdfPredicate) == None;
    b := ti.MakeIndex(RdfPredicate);
    assert ti.Slots() == [Live(RdfSubject, 1), Live(RdfPredicate, 1)];
    h2 := ti.nextFree;
    assert ti.GetIndex(RdfObject) == None;
    c := ti.MakeIndex(RdfObject);
    h3 := ti.nextFree;
  }

  /** Interning a present term, then `IncRef` and `DecRef`, only move its count. */
  method CountUpDown(ti: TermIndexU) returns (indices: seq<nat>, heads: seq<nat>)
    requires ti.Valid()
    requires ti.Slots() == [Live(RdfSubject, 1), Live(RdfPredicate, 1), Live(RdfObject, 1)]
    requires ti.nextFree == 3 && ti.t2i == map[RdfSubject := 0, RdfPredicate := 1, RdfObject := 2]
    modifies ti
    ensures ti.Valid() && ti.Slots() == old(ti.Slots())
    ensures ti.nextFree == 3 && ti.t2i == old(ti.t2i) && ti.Room() == old(ti.Room())
    ensures indices == [1] && heads == [3, 3]
  {
    assert ti.Refs(RdfPredicate) == 1 by {
      SlotViewAt(ti.i2t, ti.i2c, 1);
    }
    var d := ti.MakeIndex(RdfPredicate);
    assert ti.Slots() == [Live(RdfSubject, 1), Live(RdfPredicate, 2), Live(RdfObject, 1)];
    ti.IncRef(1);
    assert ti.Slots() == [Live(RdfSubject, 1), Live(RdfPredicate, 3), Live(RdfObject, 1)];
    ti.DecRef(1);
    assert ti.Slots() == [Live(RdfSubject, 1), Live(RdfPredicate, 2), Live(RdfObject, 1)];
    var h1 := ti.nextFree;
    ti.DecRef(1);
    indices, heads := [d], [h1, ti.nextFree];
  }

  /** The last release of a term frees its slot; each freed slot links to the
      previous head of the free list. */
  method FreeTwo(ti: TermIndexU) returns (heads: seq<nat>)
    requires ti.Valid()
    requires ti.Slots() == [Live(RdfSubject, 1), Live(RdfPredicate, 1), Live(RdfObject, 1)]
    requires ti.nextFree == 3 && ti.t2i == map[RdfSubject := 0, RdfPredicate := 1, RdfObject := 2]
    modifies ti
    ensures ti.Valid() && ti.Slots() == [Free(1), Free(3), Live(RdfObject, 1)]
    ensures ti.nextFree == 0 && ti.t2i == map[RdfObject := 2]
    ensures ti.Room() == old(ti.Room()) + 2
    ensures heads == [1, 0]
  {
    ti.DecRef(1);
    assert ti.GetIndex(RdfPredicate) == None;
    assert ti.Slots() == [Live(RdfSubject, 1), Free(3), Live(RdfObject, 1)];
    var h1 := ti.nextFree;
    ti.DecRef(0);
    assert ti.GetIndex(RdfSubject) == None;
    assert ti.t2i == map[RdfObject := 2];
    heads := [h1, ti.nextFree];
  }

  /** New terms reuse the free slots in LIFO order, then the arrays grow. */
  method ReuseAndGrow(ti: TermIndexU) returns (indices: seq<nat>, heads: seq<nat>)
    requires ti.Valid() && ti.width == U16
    requires ti.Slots() == [Free(1), Free(3), Live(RdfObject, 1)]
    requires ti.nextFree == 0 && ti.t2i == map[RdfObject := 2]
    modifies ti
    ensures ti.Valid()
    ensures ti.Slots() == [Live(RdfType, 1), Live(RdfSubject, 1), Live(RdfObject, 1), Live(RdfProperty, 1)]
    ensures indices == [0, 1, 3] && heads == [1, 3, 4]
  {
    assert ti.GetIndex(RdfType) == None;
    var e := ti.MakeIndex(RdfType);
    assert ti.Slots() == [Live(RdfType, 1), Free(3), Live(RdfObject, 1)];
    var h1 := ti.nextFree;
    // re-interning rdf:subject now lands in a different slot
    var f, h2, g, h3 := ReuseThenGrow(ti);
    indices, heads := [e, f, g], [h1, h2, h3];
  }

  method ReuseThenGrow(ti: TermIndexU) returns (f: nat, h2: nat, g: nat, h3: nat)
    requires ti.Valid() && ti.width == U16
    requires ti.Slots() == [Live(RdfType, 1), Free(3), Live(RdfObject, 1)]
    requires ti.nextFree == 1 && ti.t2i == map[RdfObject := 2, RdfType := 0]
    modifies ti
    ensures ti.Valid()
    ensures ti.Slots() == [Live(RdfType, 1), Live(RdfSubject, 1), Live(RdfObject, 1), Live(RdfProperty, 1)]
    ensures f == 1 && h2 == 3 && g == 3 && h3 == 4
  {
    assert ti.GetIndex(RdfSubject) == None;
    f := ti.MakeIndex(RdfSubject);
    assert ti.Slots() == [Live(RdfType, 1), Live(RdfSubject, 1), Live(RdfObject, 1)];
    h2 := ti.nextFree;
    assert ti.GetIndex(RdfProperty) == None;
    g := ti.MakeIndex(RdfProperty);
    h3 := ti.nextFree;
  }
}
