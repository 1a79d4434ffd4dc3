/**
 * Creates whose transactions overlap: the lookup of the open term and the write
 * that closes it are two steps, and other creates may come between them.
 */
module PriceOverlap {
  import opened Wrappers
  import opened PriceTerms

  // ----- one write on chains in order

  function ItemOf(vendor: nat, dto: Dto): Key { KeyOf(NewTerm(vendor, dto, None)) }

  /** What a lookup may have found, now or earlier: nothing, or a term of the item that starts before the new one. */
  predicate Found(rows: seq<Term>, vendor: nat, dto: Dto, open: Option<nat>) {
    open.Some? ==>
      open.value < |rows| && KeyOf(rows[open.value]) == ItemOf(vendor, dto) && rows[open.value].from < dto.effectiveFrom
  }

  predicate Current(rows: seq<Term>, vendor: nat, dto: Dto, open: Option<nat>) {
    open == FindOpen(rows, ItemOf(vendor, dto), 0)
  }

  /** Each term supersedes the one created before it for its key. */
  ghost predicate Linked(rows: seq<Term>) { forall k, i: nat :: i < |Chain(rows, k)| ==> LinkOk(rows, k, i) }

  ghost predicate LinkOk(rows: seq<Term>, k: Key, i: nat)
    requires i < |Chain(rows, k)|
  {
    var c := Chain(rows, k);
    rows[c[i]].supersedes == if i == 0 then None else Some(c[i - 1])
  }

  lemma {:induction false} ChainedIsLinked(rows: seq<Term>)
    requires Chained(rows)
    ensures Linked(rows)
  {
    forall k, i: nat | i < |Chain(rows, k)| ensures LinkOk(rows, k, i) { assert ChainOk(rows, Chain(rows, k)); }
  }

  /** A link once wrong stays wrong: no write changes what a term supersedes. */
  lemma {:induction false} BrokenStays(rows: seq<Term>, vendor: nat, dto: Dto, open: Option<nat>)
    requires !Linked(rows) && Found(rows, vendor, dto, open)
    ensures !Linked(Supersede(rows, vendor, dto, open))
  {
    var k, i: nat :| i < |Chain(rows, k)| && !LinkOk(rows, k, i);
    LinkStays(rows, NewTerm(vendor, dto, open), open, k, i);
    assert !LinkOk(Supersede(rows, vendor, dto, open), k, i);
  }

  lemma {:induction false} LinkStays(rows: seq<Term>, t: Term, open: Option<nat>, k: Key, i: nat)
    requires open.Some? ==> open.value < |rows|
    requires i < |Chain(rows, k)|
    ensures i < |Chain(Append(rows, t, open), k)|
    ensures LinkOk(Append(rows, t, open), k, i) == LinkOk(rows, k, i)
  {
    ChainGrows(rows, t, open, k);
    var c, after := Chain(rows, k), Append(rows, t, open);
    assert c[i] in c;
    assert after[c[i]].supersedes == rows[c[i]].supersedes;
    assert Chain(after, k)[i] == c[i] && (i > 0 ==> Chain(after, k)[i - 1] == c[i - 1]);
  }

  lemma {:induction false} StaleBreaks(rows: seq<Term>, vendor: nat, dto: Dto, open: Option<nat>)
    requires Chained(rows) && Found(rows, vendor, dto, open) && !Current(rows, vendor, dto, open)
    ensures !Linked(Supersede(rows, vendor, dto, open))
  {
    var k, after := ItemOf(vendor, dto), Supersede(rows, vendor, dto, open);
    assert ChainOk(rows, Chain(rows, k));
    OpenIsLast(rows, k);
    ChainGrows(rows, NewTerm(vendor, dto, open), open, k);
    assert !LinkOk(after, k, |Chain(rows, k)|);
  }

  lemma {:induction false} CurrentKeeps(rows: seq<Term>, vendor: nat, dto: Dto, open: Option<nat>)
    requires Chained(rows) && Found(rows, vendor, dto, open) && Current(rows, vendor, dto, open)
    ensures Chained(Supersede(rows, vendor, dto, open))
  {
    var t, after := NewTerm(vendor, dto, open), Supersede(rows, vendor, dto, open);
    forall k ensures ChainOk(after, Chain(after, k)) {
      if k == KeyOf(t) { OwnKept(rows, t); } else { OtherKept(rows, t, k); }
    }
  }

  /** A write keeps the chains exactly when what its lookup found is the open term it would find now. */
  lemma {:induction false} SupersedeExactly(rows: seq<Term>, vendor: nat, dto: Dto, open: Option<nat>)
    requires Chained(rows) && Found(rows, vendor, dto, open)
    ensures Chained(Supersede(rows, vendor, dto, open)) <==> Current(rows, vendor, dto, open)
  {
    if Current(rows, vendor, dto, open) { CurrentKeeps(rows, vendor, dto, open); }
    else {
      StaleBreaks(rows, vendor, dto, open);
      if Chained(Supersede(rows, vendor, dto, open)) { ChainedIsLinked(Supersede(rows, vendor, dto, open)); }
    }
  }

  // ----- transactions that interleave

  /** A create past its lookup. */
  datatype Pending = Pending(vendor: nat, dto: Dto, open: Option<nat>)

  datatype State = State(rows: seq<Term>, pending: map<nat, Pending>)

  /** Creates refused for an unknown vendor or too early a start leave nothing and are no steps. */
  datatype Step = DoLookup(id: nat, vendor: nat, dto: Dto) | DoWrite(id: nat) | DoAbort(id: nat)

  predicate CanLookup(s: State, id: nat, vendor: nat, dto: Dto) {
    && id !in s.pending
    && var open := FindOpen(s.rows, ItemOf(vendor, dto), 0);
       open.None? || s.rows[open.value].from < dto.effectiveFrom
  }

  function Lookup(s: State, id: nat, vendor: nat, dto: Dto): State {
    s.(pending := s.pending[id := Pending(vendor, dto, FindOpen(s.rows, ItemOf(vendor, dto), 0))])
  }

  /** Rows are never deleted, so what a lookup found is still a row. */
  predicate CanWrite(s: State, id: nat) {
    id in s.pending && (s.pending[id].open.Some? ==> s.pending[id].open.value < |s.rows|)
  }

  function Write(s: State, id: nat): State
    requires CanWrite(s, id)
  {
    var p := s.pending[id];
    State(Supersede(s.rows, p.vendor, p.dto, p.open), Without(s.pending, id))
  }

  predicate Enabled(s: State, step: Step) {
    match step
    case DoLookup(id, vendor, dto) => CanLookup(s, id, vendor, dto)
    case DoWrite(id) => CanWrite(s, id)
    case DoAbort(id) => id in s.pending
  }

  function Apply(s: State, step: Step): State
    requires Enabled(s, step)
  {
    match step
    case DoLookup(id, vendor, dto) => Lookup(s, id, vendor, dto)
    case DoWrite(id) => Write(s, id)
    case DoAbort(id) => s.(pending := Without(s.pending, id))
  }

  predicate Trace(s: State, steps: seq<Step>, last: State)
    decreases |steps|
  {
    if steps == [] then last == s
    else Enabled(s, steps[0]) && Trace(Apply(s, steps[0]), steps[1..], last)
  }

  /** The write uses what a lookup made at the same moment would find. */
  predicate UpToDate(s: State, step: Step)
    requires Enabled(s, step)
  {
    step.DoWrite? ==> var p := s.pending[step.id]; Current(s.rows, p.vendor, p.dto, p.open)
  }

  predicate AllUpToDate(s: State, steps: seq<Step>, last: State)
    requires Trace(s, steps, last)
    decreases |steps|
  {
    steps == [] || (UpToDate(s, steps[0]) && AllUpToDate(Apply(s, steps[0]), steps[1..], last))
  }

  predicate PendingOk(s: State) {
    forall id :: id in s.pending ==> Found(s.rows, s.pending[id].vendor, s.pending[id].dto, s.pending[id].open)
  }

  lemma {:induction false} StepFound(s: State, step: Step)
    requires PendingOk(s) && Enabled(s, step)
    ensures PendingOk(Apply(s, step))
  {
    if step.DoWrite? {
      var p, r := s.pending[step.id], Apply(s, step);
      forall i | 0 <= i < |s.rows| ensures KeyOf(r.rows[i]) == KeyOf(s.rows[i]) && r.rows[i].from == s.rows[i].from {}
    }
  }

  lemma {:induction false} BrokenAlong(s: State, steps: seq<Step>, last: State)
    requires PendingOk(s) && !Linked(s.rows) && Trace(s, steps, last)
    ensures !Chained(last.rows)
    decreases |steps|
  {
    if steps == [] {
      if Chained(s.rows) { ChainedIsLinked(s.rows); }
    } else {
      StepFound(s, steps[0]);
      if steps[0].DoWrite? {
        var p := s.pending[steps[0].id];
        BrokenStays(s.rows, p.vendor, p.dto, p.open);
      }
      BrokenAlong(Apply(s, steps[0]), steps[1..], last);
    }
  }

  lemma {:induction false} ChainedAlong(s: State, steps: seq<Step>, last: State)
    requires PendingOk(s) && Chained(s.rows) && Trace(s, steps, last)
    ensures Chained(last.rows) <==> AllUpToDate(s, steps, last)
    decreases |steps|
  {
    if steps != [] {
      StepFound(s, steps[0]);
      if UpToDate(s, steps[0]) {
        if steps[0].DoWrite? {
          var p := s.pending[steps[0].id];
          CurrentKeeps(s.rows, p.vendor, p.dto, p.open);
        }
        ChainedAlong(Apply(s, steps[0]), steps[1..], last);
      } else {
        var p := s.pending[steps[0].id];
        StaleBreaks(s.rows, p.vendor, p.dto, p.open);
        BrokenAlong(Apply(s, steps[0]), steps[1..], last);
      }
    }
  }

  /**
   * However creates interleave: the terms end in order exactly when every write
   * used an up-to-date lookup; one that did not is never made good.
   */
  lemma {:induction false} OverlapExactly(steps: seq<Step>, last: State)
    requires Trace(State([], map[]), steps, last)
    ensures Chained(last.rows) <==> AllUpToDate(State([], map[]), steps, last)
  {
    ChainedAlong(State([], map[]), steps, last);
  }

  /** A create that nothing overlaps is the one transaction of `Recorded`. */
  lemma {:induction false} AloneIsRecorded(s: State, vendors: set<nat>, id: nat, vendor: nat, dto: Dto)
    requires id !in s.pending && vendor in vendors
    ensures CanLookup(s, id, vendor, dto) <==> Recorded(s.rows, vendors, vendor, dto).result.Inserted?
    ensures CanLookup(s, id, vendor, dto) ==>
      var after := State(Recorded(s.rows, vendors, vendor, dto).rows, s.pending);
      Trace(s, [DoLookup(id, vendor, dto), DoWrite(id)], after)
  {
    if CanLookup(s, id, vendor, dto) {
      var mid, steps := Lookup(s, id, vendor, dto), [DoLookup(id, vendor, dto), DoWrite(id)];
      assert Without(mid.pending, id) == s.pending;
      assert steps[1..] == [DoWrite(id)] && steps[1..][1..] == [];
      assert Trace(Write(mid, id), [], Write(mid, id));
      assert Trace(mid, steps[1..], Write(mid, id));
    }
  }

  /**
   * So two first terms of an item, both looked up before either is written:
   * both end open, and no later create puts that right.
   */
  lemma {:induction false} OverlappingCreates(vendor: nat, a: Dto, b: Dto)
    requires ItemOf(vendor, a) == ItemOf(vendor, b)
    ensures var rows := Supersede(Supersede([], vendor, a, None), vendor, b, None);
      rows[0].to.None? && rows[1].to.None? && Chain(rows, ItemOf(vendor, a)) == [0, 1]
    ensures var rows := Supersede(Supersede([], vendor, a, None), vendor, b, None); !Linked(rows) && !Chained(rows)
  {
    var k := ItemOf(vendor, a);
    var one := Supersede([], vendor, a, None);
    ChainGrows([], NewTerm(vendor, a, None), None, k);
    ChainGrows(one, NewTerm(vendor, b, None), None, k);
    var rows := Supersede(one, vendor, b, None);
    assert Chain(rows, k) == [0, 1] && !LinkOk(rows, k, 1);
    if Chained(rows) { ChainedIsLinked(rows); }
  }
}
