/**
 * Extraction steps.  The extractor's state is taken as a value (`Snap`), and
 * `Step` says what every extraction call keeps between the state it starts
 * from and the state it leaves: tuples, labels and diagnostics only grow,
 * interned labels stay, loops leave the loop map only when they were
 * entered inside the call, and every new tuple that places an entity under
 * an existing label places it in the slot the call was given.
 */
module Steps {
  import opened Wrappers
  import opened Ir
  import opened Facts

  /**
   * A tuple placing an entity under a label allocated before `bound` puts
   * it under `anchor`, at one of the indices `idxs`.
   */
  ghost predicate AttachOk(f: Fact, bound: nat, anchor: Label, lo: int, hi: int)
  {
    match SlotOf(f)
    case None => true
    case Some(pi) => (pi.0.Fresh? && pi.0.n < bound) ==> pi.0 == anchor && lo <= pi.1 < hi
  }

  /** Tuple `j` of `s` exists and satisfies `AttachOk`. */
  ghost predicate AttachOkAt(s: seq<Fact>, j: int, bound: nat, anchor: Label, lo: int, hi: int)
  {
    0 <= j < |s| && AttachOk(s[j], bound, anchor, lo, hi)
  }

  /** Every tuple of `s` from index `from` on satisfies `AttachOk`. */
  ghost predicate AttachedFrom(s: seq<Fact>, from: nat, bound: nat, anchor: Label, lo: int, hi: int)
  {
    forall j | from <= j < |s| :: AttachOkAt(s, j, bound, anchor, lo, hi)
  }

  /** `m1` is `m0` with at most the entries for `inner` removed. */
  ghost predicate ShrinksWithin(m0: map<LoopRef, Label>, m1: map<LoopRef, Label>, inner: set<LoopRef>)
  {
    m1.Keys <= m0.Keys && (forall k | k in m1 :: m1[k] == m0[k]) && m0.Keys - m1.Keys <= inner
  }

  /** Extraction only removes loops it entered, so a map holding none of them comes back unchanged. */
  lemma ShrinksWithinDisjoint(m0: map<LoopRef, Label>, m1: map<LoopRef, Label>, inner: set<LoopRef>)
    requires ShrinksWithin(m0, m1, inner)
    requires m0.Keys !! inner
    ensures m1 == m0
  {
    assert m0.Keys - m1.Keys == {};
    assert m1.Keys == m0.Keys;
  }

  /** Interned keys keep their labels. */
  ghost predicate InternExtends(m0: map<string, Label>, m1: map<string, Label>)
  {
    forall k | k in m0 :: k in m1 && m1[k] == m0[k]
  }

  /** The extractor's state as a value, for relating the states between extraction steps. */
  datatype Snap = Snap(facts: seq<Fact>, next: nat, interned: map<string, Label>, loops: map<LoopRef, Label>,
                       currentFunction: Option<FunctionSym>, log: seq<Diagnostic>)

  /** Interned labels are numbered below the counter and distinct keys have distinct labels. */
  ghost predicate LabelsValid(interned: map<string, Label>, next: nat)
  {
    (forall k | k in interned :: interned[k].Interned? && interned[k].n < next) &&
    (forall k1, k2 | k1 in interned && k2 in interned && k1 != k2 :: interned[k1] != interned[k2])
  }

  /** A snapshot whose intern map and label counter are consistent. */
  ghost predicate SnapValid(s: Snap)
  {
    LabelsValid(s.interned, s.next)
  }

  /**
   * What every extraction step from `a` to `b` keeps: tuples, labels and
   * diagnostics only grow, interned labels stay, only the loops in `inner`
   * may leave the loop map, the current function is kept or cleared, and
   * every new tuple hangs either under a label allocated by the step or at
   * an index in `lo..hi` under `anchor`.
   */
  ghost predicate Step(a: Snap, b: Snap, inner: set<LoopRef>, anchor: Label, lo: int, hi: int)
  {
    SnapValid(b) &&
    a.facts <= b.facts && a.next <= b.next && a.log <= b.log &&
    InternExtends(a.interned, b.interned) &&
    ShrinksWithin(a.loops, b.loops, inner) &&
    (b.currentFunction == a.currentFunction || b.currentFunction.None?) &&
    AttachedFrom(b.facts, |a.facts|, a.next, anchor, lo, hi)
  }

  /**
   * A slot that is no wider than `anchor`'s `lo..hi`: the same anchor and a
   * sub-range, an empty range, or an anchor no expression can have as parent
   * because it is not a fresh label.
   */
  predicate Within(anchor1: Label, lo1: int, hi1: int, anchor: Label, lo: int, hi: int)
  {
    (anchor1 == anchor && lo <= lo1 && hi1 <= hi) || hi1 <= lo1 || !anchor1.Fresh?
  }

  /**
   * Two steps make one: the second works inside the first's slot, or under
   * a label the first allocated.
   */
  lemma StepThen(a: Snap, b: Snap, c: Snap, inner1: set<LoopRef>, anchor1: Label, lo1: int, hi1: int,
                 inner2: set<LoopRef>, anchor2: Label, lo2: int, hi2: int, inner: set<LoopRef>, anchor: Label, lo: int, hi: int)
    requires Step(a, b, inner1, anchor1, lo1, hi1) && Step(b, c, inner2, anchor2, lo2, hi2)
    requires inner1 <= inner && inner2 <= inner
    requires Within(anchor1, lo1, hi1, anchor, lo, hi)
    requires Within(anchor2, lo2, hi2, anchor, lo, hi) || (anchor2.Fresh? && anchor2.n >= a.next)
    ensures Step(a, c, inner, anchor, lo, hi)
  {
    forall j | |a.facts| <= j < |c.facts|
      ensures AttachOkAt(c.facts, j, a.next, anchor, lo, hi)
    {
      if j < |b.facts| {
        assert AttachOkAt(b.facts, j, a.next, anchor1, lo1, hi1);
        assert c.facts[j] == b.facts[j];
      } else {
        assert AttachOkAt(c.facts, j, b.next, anchor2, lo2, hi2);
      }
    }
  }

  /** A step in a slot is a step in any wider slot, with more loops allowed to leave the loop map. */
  lemma StepWiden(a: Snap, b: Snap, inner: set<LoopRef>, anchor: Label, lo: int, hi: int, inner2: set<LoopRef>, lo2: int, hi2: int)
    requires Step(a, b, inner, anchor, lo, hi) && inner <= inner2 && lo2 <= lo && hi <= hi2
    ensures Step(a, b, inner2, anchor, lo2, hi2)
  {
    forall j | |a.facts| <= j < |b.facts|
      ensures AttachOkAt(b.facts, j, a.next, anchor, lo2, hi2)
    {
      assert AttachOkAt(b.facts, j, a.next, anchor, lo, hi);
    }
  }

  /** Every tuple of `added` satisfies `AttachOk`. */
  ghost predicate AllAttach(added: seq<Fact>, bound: nat, anchor: Label, lo: int, hi: int)
  {
    forall k | 0 <= k < |added| :: AttachOkAt(added, k, bound, anchor, lo, hi)
  }

  /**
   * Appending tuples that hang under `anchor` (or under new labels), while
   * the maps stay, is one extraction step.
   */
  lemma AppendStep(a: Snap, b: Snap, added: seq<Fact>, anchor: Label, lo: int, hi: int)
    requires SnapValid(a)
    requires b.facts == a.facts + added && b.interned == a.interned && b.loops == a.loops
    requires b.currentFunction == a.currentFunction && a.next <= b.next && a.log <= b.log
    requires AllAttach(added, a.next, anchor, lo, hi)
    ensures Step(a, b, {}, anchor, lo, hi)
  {
    forall j | |a.facts| <= j < |b.facts|
      ensures AttachOkAt(b.facts, j, a.next, anchor, lo, hi)
    {
      assert AttachOkAt(added, j - |a.facts|, a.next, anchor, lo, hi);
      assert b.facts[j] == added[j - |a.facts|];
    }
  }

  /** A step that writes no tuple and keeps the maps is an extraction step in any slot. */
  lemma StepWithoutFacts(a: Snap, b: Snap, anchor: Label, lo: int, hi: int)
    requires SnapValid(b) && b.facts == a.facts && b.loops == a.loops && b.currentFunction == a.currentFunction
    requires a.next <= b.next && a.log <= b.log && InternExtends(a.interned, b.interned)
    ensures Step(a, b, {}, anchor, lo, hi)
  {
    assert ShrinksWithin(a.loops, b.loops, {});
  }

  /**
   * A loop's scope: the extractor maps loop `l` to `id` before the loop's
   * children and unmaps it after, so over the whole loop the map only
   * loses entries of `inner`.
   */
  lemma LoopScope(a: Snap, b: Snap, c: Snap, l: LoopRef, id: Label, inner: set<LoopRef>, anchor: Label, idx: int, lo: int, hi: int)
    requires Step(a, b.(loops := a.loops), {}, anchor, idx, idx + 1)
    requires b.loops == a.loops[l := id]
    requires Step(b, c, inner, id, lo, hi) && id.Fresh? && id.n >= a.next
    requires l in inner
    ensures Step(a, c.(loops := c.loops - {l}), inner, anchor, idx, idx + 1)
  {
    var next := idx + 1;
    forall j | |a.facts| <= j < |c.facts|
      ensures AttachOkAt(c.facts, j, a.next, anchor, idx, next)
    {
      if j < |b.facts| {
        assert AttachOkAt(b.facts, j, a.next, anchor, idx, next);
        assert c.facts[j] == b.facts[j];
      } else {
        assert AttachOkAt(c.facts, j, b.next, id, lo, hi);
      }
    }
  }

  /**
   * A function's scope: `extractFunction` sets the current function before
   * its body and clears it after, so over the whole call the current
   * function ends cleared whatever it was before.
   */
  lemma FunctionScope(a: Snap, b: Snap, c: Snap, inner: set<LoopRef>, anchor: Label, lo: int, hi: int)
    requires SnapValid(a) && b == a.(currentFunction := b.currentFunction)
    requires Step(b, c, inner, anchor, lo, hi)
    ensures Step(a, c.(currentFunction := None), inner, anchor, lo, hi)
  {
  }

  /** Tuples that each hang in a slot together hang in it. */
  lemma AllAttachConcat(x: seq<Fact>, y: seq<Fact>, bound: nat, anchor: Label, lo: int, hi: int)
    requires AllAttach(x, bound, anchor, lo, hi) && AllAttach(y, bound, anchor, lo, hi)
    ensures AllAttach(x + y, bound, anchor, lo, hi)
  {
    forall k | 0 <= k < |x + y|
      ensures AttachOkAt(x + y, k, bound, anchor, lo, hi)
    {
      if k < |x| {
        assert AttachOkAt(x, k, bound, anchor, lo, hi);
        assert (x + y)[k] == x[k];
      } else {
        assert AttachOkAt(y, k - |x|, bound, anchor, lo, hi);
        assert (x + y)[k] == y[k - |x|];
      }
    }
  }

  // ---------------------------------------------------------------------
  // Children in order
  // ---------------------------------------------------------------------

  /** Every tuple of `s` from `from` up to `to` satisfies `AttachOk`. */
  ghost predicate AttachedBetween(s: seq<Fact>, from: nat, to: nat, bound: nat, anchor: Label, lo: int, hi: int)
  {
    forall j | from <= j < to && j < |s| :: AttachOkAt(s, j, bound, anchor, lo, hi)
  }

  /** The tuples a step added stay attached when more are appended after them. */
  lemma AttachedPrefix(s: seq<Fact>, t: seq<Fact>, from: nat, bound: nat, anchor: Label, lo: int, hi: int)
    requires AttachedFrom(s, from, bound, anchor, lo, hi) && s <= t
    ensures AttachedBetween(t, from, |s|, bound, anchor, lo, hi)
  {
    forall j | from <= j < |s| && j < |t|
      ensures AttachOkAt(t, j, bound, anchor, lo, hi)
    {
      assert AttachOkAt(s, j, bound, anchor, lo, hi);
      assert t[j] == s[j];
    }
  }

  /** What a step appended is the suffix of the tuples after it. */
  lemma SuffixAfter<T>(a: seq<T>, b: seq<T>)
    ensures (a + b)[|a|..] == b && (a + b)[..|a|] == a
  {
  }

  /** Tuples `b` appended to `a`, followed in `d` by `x`, make `a + (b + x)` a prefix of `d`. */
  lemma PrefixThen<T>(a: seq<T>, b: seq<T>, x: seq<T>, d: seq<T>)
    requires a + b + x <= d
    ensures a + (b + x) <= d
  {
    assert a + (b + x) == a + b + x;
  }

  /** The indices `lo`, `lo + 1`, ..., `lo + n - 1`. */
  function Indices(lo: int, n: nat): (r: seq<int>)
    ensures |r| == n && forall k | 0 <= k < n :: r[k] == lo + k
  {
    if n == 0 then [] else Indices(lo, n - 1) + [lo + n - 1]
  }

  /**
   * The tuples of `s` from `starts[0]` on, cut at `starts` into one segment
   * per child: segment `k` places entities under labels below `bound` only
   * at index `idxs[k]` of `anchor`.  So the children come in the order of
   * `idxs`, each at its own index.
   */
  ghost predicate Segmented(s: seq<Fact>, starts: seq<nat>, bound: nat, anchor: Label, idxs: seq<int>)
  {
    |starts| == |idxs| + 1 && starts[|idxs|] == |s| &&
    (forall k | 0 <= k < |idxs| :: starts[k] <= starts[k + 1]) &&
    (forall k | 0 <= k <= |idxs| :: starts[k] <= |s|) &&
    (forall k | 0 <= k < |idxs| :: AttachedBetween(s, starts[k], starts[k + 1], bound, anchor, idxs[k], idxs[k] + 1))
  }

  /** A step in slot `i` of `anchor` adds the next child segment. */
  lemma SegmentAppend(a: Snap, b: Snap, starts: seq<nat>, bound: nat, anchor: Label, idxs: seq<int>, i: int, inner: set<LoopRef>)
    requires Segmented(a.facts, starts, bound, anchor, idxs) && bound <= a.next
    requires Step(a, b, inner, anchor, i, i + 1)
    ensures Segmented(b.facts, starts + [|b.facts|], bound, anchor, idxs + [i])
  {
    var s2 := starts + [|b.facts|];
    var i2 := idxs + [i];
    forall k | 0 <= k < |i2|
      ensures AttachedBetween(b.facts, s2[k], s2[k + 1], bound, anchor, i2[k], i2[k] + 1)
    {
      var lo, hi := i2[k], i2[k] + 1;
      forall j | s2[k] <= j < s2[k + 1] && j < |b.facts|
        ensures AttachOkAt(b.facts, j, bound, anchor, lo, hi)
      {
        if k < |idxs| {
          assert AttachedBetween(a.facts, starts[k], starts[k + 1], bound, anchor, idxs[k], idxs[k] + 1);
          assert AttachOkAt(a.facts, j, bound, anchor, idxs[k], idxs[k] + 1);
          assert b.facts[j] == a.facts[j];
        } else {
          assert AttachOkAt(b.facts, j, a.next, anchor, i, i + 1);
        }
      }
    }
  }

  /** Tuples none of which places an entity under a parent. */
  predicate NoSlots(fs: seq<Fact>)
  {
    forall k | 0 <= k < |fs| :: SlotOf(fs[k]).None?
  }

  /** Tuples that place no entity hang in every slot. */
  lemma NoSlotsAttach(fs: seq<Fact>, bound: nat, anchor: Label, lo: int, hi: int)
    requires NoSlots(fs)
    ensures AllAttach(fs, bound, anchor, lo, hi)
  {
  }

  // ---------------------------------------------------------------------
  // Children written
  // ---------------------------------------------------------------------

  /** Some tuple of `s` from index `from` on places an entity at index `idx` of `anchor`. */
  ghost predicate Opens(s: seq<Fact>, from: nat, anchor: Label, idx: int)
  {
    exists j | from <= j < |s| :: SlotOf(s[j]) == Some((anchor, idx))
  }

  /**
   * How the extraction of one child ends: an entity is placed at index
   * `idx` of `anchor` by the tuples of `s` from `from` on, or no tuple was
   * written from `from` on and the log grew from `logFrom` to `logLen`
   * diagnostics.
   */
  ghost predicate HandledAt(s: seq<Fact>, from: nat, logLen: nat, logFrom: nat, anchor: Label, idx: int)
  {
    Opens(s, from, anchor, idx) || (|s| == from && logFrom < logLen)
  }

  /** Unless the log grew from `logFrom` to `logLen` diagnostics, an entity is placed at index `idx` of `anchor` from `from` on. */
  ghost predicate PlacedAt(s: seq<Fact>, from: nat, logLen: nat, logFrom: nat, anchor: Label, idx: int)
  {
    Opens(s, from, anchor, idx) || logFrom < logLen
  }

  /** `PlacedAt` for child `k` at index `lo + k`, for every `k` with `present[k]`. */
  ghost predicate AllPlacedAt(s: seq<Fact>, from: nat, logLen: nat, logFrom: nat, anchor: Label, lo: int, present: seq<bool>)
  {
    forall k | 0 <= k < |present| && present[k] :: PlacedAt(s, from, logLen, logFrom, anchor, lo + k)
  }

  /** Every child `k < n` has an entity placed at index `k` of `anchor` from `from` on. */
  ghost predicate AllOpen(s: seq<Fact>, from: nat, anchor: Label, n: nat)
  {
    forall k | 0 <= k < n :: Opens(s, from, anchor, k)
  }

  /** Which of `xs` are present. */
  function Present<T>(xs: seq<Option<T>>): (r: seq<bool>)
    ensures |r| == |xs| && forall k | 0 <= k < |xs| :: r[k] <==> xs[k].Some?
  {
    seq(|xs|, k requires 0 <= k < |xs| => xs[k].Some?)
  }

  /** `n` children, all present. */
  function Every(n: nat): (r: seq<bool>)
    ensures |r| == n && forall k | 0 <= k < n :: r[k]
  {
    seq(n, k => true)
  }

  /** Tuple `j` is a witness of `Opens`. */
  lemma OpensAt(s: seq<Fact>, from: nat, j: nat, anchor: Label, idx: int)
    requires from <= j < |s| && SlotOf(s[j]) == Some((anchor, idx))
    ensures Opens(s, from, anchor, idx)
  {
  }

  /** What is placed stays placed as tuples are appended, and seen from an earlier start. */
  lemma OpensKept(s: seq<Fact>, t: seq<Fact>, from: nat, from2: nat, anchor: Label, idx: int)
    requires Opens(s, from, anchor, idx) && s <= t && from2 <= from
    ensures Opens(t, from2, anchor, idx)
  {
    var j :| from <= j < |s| && SlotOf(s[j]) == Some((anchor, idx));
    assert t[j] == s[j];
  }

  /** `PlacedAt` survives later steps, seen from an earlier start. */
  lemma PlacedKept(s: seq<Fact>, t: seq<Fact>, from: nat, from2: nat, logLen: nat, logLen2: nat,
                   logFrom: nat, logFrom2: nat, anchor: Label, idx: int)
    requires PlacedAt(s, from, logLen, logFrom, anchor, idx)
    requires s <= t && from2 <= from && logLen <= logLen2 && logFrom2 <= logFrom
    ensures PlacedAt(t, from2, logLen2, logFrom2, anchor, idx)
  {
    if Opens(s, from, anchor, idx) {
      OpensKept(s, t, from, from2, anchor, idx);
    }
  }

  /** `AllPlacedAt` survives later steps, seen from an earlier start. */
  lemma AllPlacedKept(s: seq<Fact>, t: seq<Fact>, from: nat, from2: nat, logLen: nat, logLen2: nat,
                      logFrom: nat, logFrom2: nat, anchor: Label, lo: int, present: seq<bool>)
    requires AllPlacedAt(s, from, logLen, logFrom, anchor, lo, present)
    requires s <= t && from2 <= from && logLen <= logLen2 && logFrom2 <= logFrom
    ensures AllPlacedAt(t, from2, logLen2, logFrom2, anchor, lo, present)
  {
    forall k | 0 <= k < |present| && present[k]
      ensures PlacedAt(t, from2, logLen2, logFrom2, anchor, lo + k)
    {
      PlacedKept(s, t, from, from2, logLen, logLen2, logFrom, logFrom2, anchor, lo + k);
    }
  }

  /** One more child, placed (when present) by the step from `s` to `t`, joins the children placed before. */
  lemma AllPlacedStep(s: seq<Fact>, t: seq<Fact>, from: nat, logLen: nat, logLen2: nat, logFrom: nat,
                      anchor: Label, lo: int, present: seq<bool>, b: bool)
    requires AllPlacedAt(s, from, logLen, logFrom, anchor, lo, present)
    requires s <= t && logLen <= logLen2 && from <= |s| && logFrom <= logLen
    requires b ==> PlacedAt(t, |s|, logLen2, logLen, anchor, lo + |present|)
    ensures AllPlacedAt(t, from, logLen2, logFrom, anchor, lo, present + [b])
  {
    var p2 := present + [b];
    forall k | 0 <= k < |p2| && p2[k]
      ensures PlacedAt(t, from, logLen2, logFrom, anchor, lo + k)
    {
      if k < |present| {
        assert present[k];
        PlacedKept(s, t, from, from, logLen, logLen2, logFrom, logFrom, anchor, lo + k);
      } else {
        PlacedKept(t, t, |s|, from, logLen2, logLen2, logLen, logFrom, anchor, lo + k);
      }
    }
  }

  /** `AllOpen` survives later steps, seen from an earlier start. */
  lemma AllOpenKept(s: seq<Fact>, t: seq<Fact>, from: nat, from2: nat, anchor: Label, n: nat)
    requires AllOpen(s, from, anchor, n) && s <= t && from2 <= from
    ensures AllOpen(t, from2, anchor, n)
  {
    forall k | 0 <= k < n
      ensures Opens(t, from2, anchor, k)
    {
      OpensKept(s, t, from, from2, anchor, k);
    }
  }

  /** One more child, placed by the step from `s` to `t` at index `n`, joins the `n` children placed before. */
  lemma AllOpenStep(s: seq<Fact>, t: seq<Fact>, from: nat, anchor: Label, n: nat)
    requires AllOpen(s, from, anchor, n) && s <= t && from <= |s|
    requires Opens(t, |s|, anchor, n)
    ensures AllOpen(t, from, anchor, n + 1)
  {
    forall k | 0 <= k < n + 1
      ensures Opens(t, from, anchor, k)
    {
      if k < n {
        OpensKept(s, t, from, from, anchor, k);
      } else {
        OpensKept(t, t, |s|, from, anchor, k);
      }
    }
  }

  /**
   * The anchor of a step that places nothing under an existing statement or
   * expression: declarations hang under their own (non-fresh) labels.
   */
  const Nowhere: Label := Ext("")
}
