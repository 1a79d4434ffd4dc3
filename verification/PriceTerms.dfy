/**
 * Agreed vendor prices as half-open windows: creating a term closes the open
 * one it supersedes, and a lookup finds the one price that applied at a time.
 */
module PriceTerms {
  import opened Wrappers
  import opened JsText

  /** A row; its id is its position. `vendor` stands for the vendor within its workspace. */
  datatype Term = Term(
    vendor: nat, sku: string, skuKey: string, uom: Option<string>, currency: string, price: string,
    from: int, to: Option<int>, supersedes: Option<nat>)

  datatype Dto = Dto(sku: string, uom: Option<string>, currency: string, price: string, effectiveFrom: int)

  /** What one open term is allowed for. */
  datatype Key = Key(vendor: nat, skuKey: string, uom: string, currency: string)

  function Folded(uom: Option<string>): string { if uom.Some? then Lower(uom.value) else "" }

  function KeyOf(t: Term): Key { Key(t.vendor, t.skuKey, Folded(t.uom), t.currency) }

  function NewTerm(vendor: nat, dto: Dto, supersedes: Option<nat>): Term {
    var sku := Trim(dto.sku);
    var uom := if dto.uom.Some? && Trim(dto.uom.value) != "" then Some(Trim(dto.uom.value)) else None;
    Term(vendor, sku, Lower(sku), uom, Upper(dto.currency), dto.price, dto.effectiveFrom, None, supersedes)
  }

  /** The first open row of the key. */
  function FindOpen(rows: seq<Term>, k: Key, i: nat): (r: Option<nat>)
    requires i <= |rows|
    ensures r.Some? ==> i <= r.value < |rows| && KeyOf(rows[r.value]) == k && rows[r.value].to.None?
    ensures r.None? ==> forall j :: i <= j < |rows| && KeyOf(rows[j]) == k ==> rows[j].to.Some?
    decreases |rows| - i
  {
    if i == |rows| then None
    else if KeyOf(rows[i]) == k && rows[i].to.None? then Some(i)
    else FindOpen(rows, k, i + 1)
  }

  datatype Created = NotFound | TooEarly | Inserted(id: nat)

  datatype Outcome = Outcome(result: Created, rows: seq<Term>)

  /** Closes the open term, if any, where the new one begins, and appends the new one. */
  function Append(rows: seq<Term>, t: Term, open: Option<nat>): seq<Term>
    requires open.Some? ==> open.value < |rows|
  {
    (if open.Some? then rows[open.value := rows[open.value].(to := Some(t.from))] else rows) + [t]
  }

  function Supersede(rows: seq<Term>, vendor: nat, dto: Dto, open: Option<nat>): seq<Term>
    requires open.Some? ==> open.value < |rows|
  {
    Append(rows, NewTerm(vendor, dto, open), open)
  }

  function Recorded(rows: seq<Term>, vendors: set<nat>, vendor: nat, dto: Dto): Outcome {
    var open := FindOpen(rows, KeyOf(NewTerm(vendor, dto, None)), 0);
    if vendor !in vendors then Outcome(NotFound, rows)
    else if open.Some? && rows[open.value].from >= dto.effectiveFrom then Outcome(TooEarly, rows)
    else Outcome(Inserted(|rows|), Supersede(rows, vendor, dto, open))
  }

  class Terms {
    const vendors: set<nat>
    var rows: seq<Term>

    constructor (vendors: set<nat>)
      ensures this.vendors == vendors && rows == []
    {
      this.vendors, rows := vendors, [];
    }

    /** One transaction: refuse, or close the open term and insert its successor. */
    method Create(vendor: nat, dto: Dto) returns (result: Created)
      modifies this
      ensures Outcome(result, rows) == Recorded(old(rows), vendors, vendor, dto)
    {
      if vendor !in vendors { return NotFound; }
      var open := FindOpen(rows, KeyOf(NewTerm(vendor, dto, None)), 0);
      if open.Some? && rows[open.value].from >= dto.effectiveFrom { return TooEarly; }
      if open.Some? {
        rows := rows[open.value := rows[open.value].(to := Some(dto.effectiveFrom))];
      }
      result := Inserted(|rows|);
      rows := rows + [NewTerm(vendor, dto, open)];
    }
  }

  // ----- the terms of one key form a chain

  /** The rows of the key, in order of creation. */
  function Chain(rows: seq<Term>, k: Key): (c: seq<nat>)
    ensures forall i :: i in c <==> 0 <= i < |rows| && KeyOf(rows[i]) == k
    ensures forall i :: 0 <= i < |c| ==> c[i] < |rows|
  {
    if rows == [] then []
    else
      var n := |rows| - 1;
      var rest := Chain(rows[..n], k);
      assert forall i :: i in rest ==> rows[..n][i] == rows[i];
      if KeyOf(rows[n]) == k then rest + [n] else rest
  }

  /** Each term starts later than the one it supersedes and where that one ends; the last is open. */
  ghost predicate ChainOk(rows: seq<Term>, c: seq<nat>)
    requires forall i :: 0 <= i < |c| ==> c[i] < |rows|
  {
    && (c != [] ==> rows[c[0]].supersedes == None)
    && (forall i :: 0 < i < |c| ==> rows[c[i]].supersedes == Some(c[i - 1]))
    && (forall i :: 0 < i < |c| ==> Follows(rows[c[i - 1]], rows[c[i]]))
    && (c != [] ==> rows[c[|c| - 1]].to.None?)
  }

  ghost predicate Follows(earlier: Term, later: Term) { earlier.to == Some(later.from) && earlier.from < later.from }

  ghost predicate Chained(rows: seq<Term>) { forall k :: ChainOk(rows, Chain(rows, k)) }

  lemma {:induction false} SameKeysSameChain(a: seq<Term>, b: seq<Term>, k: Key)
    requires |a| == |b| && forall i :: 0 <= i < |a| ==> KeyOf(a[i]) == KeyOf(b[i])
    ensures Chain(a, k) == Chain(b, k)
  {
    if a != [] { SameKeysSameChain(a[..|a| - 1], b[..|b| - 1], k); }
  }

  /** The open term is the chain's last; without one the chain is empty. */
  lemma {:induction false} OpenIsLast(rows: seq<Term>, k: Key)
    requires ChainOk(rows, Chain(rows, k))
    ensures var c := Chain(rows, k); FindOpen(rows, k, 0) == if c == [] then None else Some(c[|c| - 1])
  {
    var c, open := Chain(rows, k), FindOpen(rows, k, 0);
    if c != [] { assert c[|c| - 1] in c; }
    if open.Some? {
      assert open.value in c;
      var i :| 0 <= i < |c| && c[i] == open.value;
      if i + 1 < |c| { ClosedInside(rows, c, i); }
    }
  }

  lemma {:induction false} ClosedInside(rows: seq<Term>, c: seq<nat>, i: nat)
    requires (forall x :: 0 <= x < |c| ==> c[x] < |rows|) && ChainOk(rows, c) && i + 1 < |c|
    ensures rows[c[i]].to.Some?
  {
    assert Follows(rows[c[i + 1 - 1]], rows[c[i + 1]]);
  }

  lemma {:induction false} ChainGrows(rows: seq<Term>, t: Term, open: Option<nat>, k: Key)
    requires open.Some? ==> open.value < |rows|
    ensures Chain(Append(rows, t, open), k) == Chain(rows, k) + if KeyOf(t) == k then [|rows|] else []
  {
    var after := Append(rows, t, open);
    SameKeysSameChain(after[..|rows|], rows, k);
  }

  lemma {:induction false} ChainSorted(rows: seq<Term>, k: Key)
    ensures forall i, j :: 0 <= i < j < |Chain(rows, k)| ==> Chain(rows, k)[i] < Chain(rows, k)[j]
  {
    if rows != [] { ChainSorted(rows[..|rows| - 1], k); }
  }

  /** A write leaves starts and links alone, and all ends but the open term's. */
  lemma {:induction false} ChainStays(rows: seq<Term>, t: Term, c: seq<nat>, open: Option<nat>)
    requires (forall i :: 0 <= i < |c| ==> c[i] < |rows|) && (open.Some? ==> open.value < |rows|)
    ensures var after := Append(rows, t, open);
      && (forall i :: 0 <= i < |c| ==>
           after[c[i]].from == rows[c[i]].from && after[c[i]].supersedes == rows[c[i]].supersedes)
      && (forall i :: 0 <= i < |c| && open != Some(c[i]) ==> after[c[i]] == rows[c[i]])
  {
  }

  /** A term that starts after its key's open one extends the chain. */
  lemma {:induction false} OwnChainKept(rows: seq<Term>, t: Term, c: seq<nat>, open: Option<nat>)
    requires (forall i :: 0 <= i < |c| ==> c[i] < |rows|) && (forall i, j :: 0 <= i < j < |c| ==> c[i] < c[j])
    requires ChainOk(rows, c)
    requires open == if c == [] then None else Some(c[|c| - 1])
    requires t.to.None? && t.supersedes == open && (open.Some? ==> rows[open.value].from < t.from)
    ensures forall i :: 0 <= i < |c| + 1 ==> (c + [|rows|])[i] < |Append(rows, t, open)|
    ensures ChainOk(Append(rows, t, open), c + [|rows|])
  {
    var d, after := c + [|rows|], Append(rows, t, open);
    ChainStays(rows, t, c, open);
    forall i | 0 < i < |d| ensures Follows(after[d[i - 1]], after[d[i]]) {
      if i < |c| { assert Follows(rows[c[i - 1]], rows[c[i]]); }
    }
  }

  /** A chain the step does not touch. */
  lemma {:induction false} OtherChainKept(rows: seq<Term>, t: Term, c: seq<nat>, open: Option<nat>)
    requires (forall i :: 0 <= i < |c| ==> c[i] < |rows|) && ChainOk(rows, c)
    requires open.Some? ==> open.value < |rows| && open.value !in c
    ensures forall i :: 0 <= i < |c| ==> c[i] < |Append(rows, t, open)|
    ensures ChainOk(Append(rows, t, open), c)
  {
    var after := Append(rows, t, open);
    assert forall i :: 0 <= i < |c| ==> c[i] in c && after[c[i]] == rows[c[i]];
  }

  /** The term to append: it supersedes its key's open one and starts later. */
  ghost predicate Succeeds(rows: seq<Term>, t: Term) {
    && t.to.None? && t.supersedes == FindOpen(rows, KeyOf(t), 0)
    && (t.supersedes.Some? ==> rows[t.supersedes.value].from < t.from)
  }

  lemma {:induction false} OwnKept(rows: seq<Term>, t: Term)
    requires ChainOk(rows, Chain(rows, KeyOf(t))) && Succeeds(rows, t)
    ensures var after := Append(rows, t, t.supersedes); ChainOk(after, Chain(after, KeyOf(t)))
  {
    var k := KeyOf(t);
    var c := Chain(rows, k);
    OpenIsLast(rows, k);
    ChainSorted(rows, k);
    OwnChainKept(rows, t, c, t.supersedes);
    ChainGrows(rows, t, t.supersedes, k);
  }

  lemma {:induction false} OtherKept(rows: seq<Term>, t: Term, k: Key)
    requires ChainOk(rows, Chain(rows, k)) && Succeeds(rows, t) && k != KeyOf(t)
    ensures var after := Append(rows, t, t.supersedes); ChainOk(after, Chain(after, k))
  {
    var c := Chain(rows, k);
    OtherChainKept(rows, t, c, t.supersedes);
    ChainGrows(rows, t, t.supersedes, k);
    assert c + [] == c;
  }

  lemma {:induction false} CreateKeepsChains(rows: seq<Term>, vendors: set<nat>, vendor: nat, dto: Dto)
    requires Chained(rows)
    ensures Chained(Recorded(rows, vendors, vendor, dto).rows)
  {
    var after := Recorded(rows, vendors, vendor, dto);
    var open := FindOpen(rows, KeyOf(NewTerm(vendor, dto, None)), 0);
    if after.result.Inserted? {
      var t := NewTerm(vendor, dto, open);
      forall k ensures ChainOk(after.rows, Chain(after.rows, k)) {
        if k == KeyOf(t) { OwnKept(rows, t); } else { OtherKept(rows, t, k); }
      }
    }
  }

  datatype Call = Call(vendor: nat, dto: Dto)

  function After(calls: seq<Call>, vendors: set<nat>): seq<Term> {
    if calls == [] then []
    else
      var last := calls[|calls| - 1];
      Recorded(After(calls[..|calls| - 1], vendors), vendors, last.vendor, last.dto).rows
  }

  /** After any calls, accepted or refused, every key's terms form such a chain. */
  lemma {:induction false} AlwaysChained(calls: seq<Call>, vendors: set<nat>)
    ensures Chained(After(calls, vendors))
  {
    if calls != [] {
      var n := |calls| - 1;
      AlwaysChained(calls[..n], vendors);
      CreateKeepsChains(After(calls[..n], vendors), vendors, calls[n].vendor, calls[n].dto);
    }
  }

  // ----- the price agreed at a time

  predicate Live(t: Term, at: int) { t.from <= at && (t.to.None? || t.to.value > at) }

  predicate Applies(t: Term, vendor: nat, key: string, at: int) { t.vendor == vendor && t.skuKey == key && Live(t, at) }

  /** The filter of `agreedPriceAt`, over the vendor's rows. */
  function LiveRows(rows: seq<Term>, vendor: nat, key: string, at: int): (r: seq<nat>)
    ensures forall i :: i in r <==> 0 <= i < |rows| && Applies(rows[i], vendor, key, at)
    ensures forall i, j :: 0 <= i < j < |r| ==> r[i] != r[j]
  {
    if rows == [] then []
    else
      var n := |rows| - 1;
      var rest := LiveRows(rows[..n], vendor, key, at);
      assert forall i :: 0 <= i < |rest| ==> rest[i] in rest;
      if Applies(rows[n], vendor, key, at) then rest + [n] else rest
  }

  function AgreedPriceAt(rows: seq<Term>, vendor: nat, sku: Option<string>, at: int): Option<string> {
    var key := if sku.Some? then Lower(Trim(sku.value)) else "";
    if key == "" then None
    else
      var live := LiveRows(rows, vendor, key, at);
      assert |live| == 1 ==> live[0] in live;
      if |live| == 1 then Some(rows[live[0]].price) else None
  }

  /** The chain's latest term started by then. */
  function Latest(rows: seq<Term>, c: seq<nat>, at: int): (r: Option<nat>)
    requires forall i :: 0 <= i < |c| ==> c[i] < |rows|
    ensures r.Some? ==> r.value in c && rows[r.value].from <= at
    ensures r.None? ==> forall i :: 0 <= i < |c| ==> rows[c[i]].from > at
  {
    if c == [] then None
    else if rows[c[|c| - 1]].from <= at then Some(c[|c| - 1])
    else Latest(rows, c[..|c| - 1], at)
  }

  /** A chain of this vendor and item whose first term has started. */
  ghost predicate Started(rows: seq<Term>, k: Key, vendor: nat, skuKey: string, at: int) {
    && k.vendor == vendor && k.skuKey == skuKey
    && Chain(rows, k) != [] && rows[Chain(rows, k)[0]].from <= at
  }

  lemma {:induction false} StartsIncrease(rows: seq<Term>, c: seq<nat>, i: nat, j: nat)
    requires (forall x :: 0 <= x < |c| ==> c[x] < |rows|) && ChainOk(rows, c) && i <= j < |c|
    ensures rows[c[i]].from <= rows[c[j]].from && (i < j ==> rows[c[i]].from < rows[c[j]].from)
    decreases j - i
  {
    if i < j {
      StartsIncrease(rows, c, i, j - 1);
      assert Follows(rows[c[j - 1]], rows[c[j]]);
    }
  }

  lemma {:induction false} LatestAt(rows: seq<Term>, c: seq<nat>, j: nat, at: int)
    requires (forall x :: 0 <= x < |c| ==> c[x] < |rows|) && j < |c|
    requires rows[c[j]].from <= at && forall x :: j < x < |c| ==> rows[c[x]].from > at
    ensures Latest(rows, c, at) == Some(c[j])
    decreases |c|
  {
    if j < |c| - 1 { LatestAt(rows, c[..|c| - 1], j, at); }
  }

  /** A term is live exactly when it is its chain's latest started. */
  lemma {:induction false} LiveIsLatest(rows: seq<Term>, k: Key, i: nat, at: int)
    requires Chained(rows) && i < |rows| && KeyOf(rows[i]) == k
    ensures Live(rows[i], at) <==> Latest(rows, Chain(rows, k), at) == Some(i)
  {
    var c := Chain(rows, k);
    assert ChainOk(rows, c) && i in c;
    var j :| 0 <= j < |c| && c[j] == i;
    ChainSorted(rows, k);
    forall x | j < x < |c| ensures rows[c[j + 1]].from <= rows[c[x]].from { StartsIncrease(rows, c, j + 1, x); }
    assert j + 1 < |c| ==> Follows(rows[c[j]], rows[c[j + 1]]);
    if Live(rows[i], at) { LatestAt(rows, c, j, at); }
    else if rows[i].from <= at { LaterStarted(rows, c, j, at); }
  }

  lemma {:induction false} LaterStarted(rows: seq<Term>, c: seq<nat>, j: nat, at: int)
    requires (forall x :: 0 <= x < |c| ==> c[x] < |rows|) && j + 1 < |c| && rows[c[j + 1]].from <= at
    requires forall x, y :: 0 <= x < y < |c| ==> c[x] < c[y]
    ensures Latest(rows, c, at) != Some(c[j])
    decreases |c|
  {
    if rows[c[|c| - 1]].from > at { LaterStarted(rows, c[..|c| - 1], j, at); }
  }

  lemma {:induction false} StartedHasLatest(rows: seq<Term>, k: Key, vendor: nat, skuKey: string, at: int)
    requires Chained(rows) && k.vendor == vendor && k.skuKey == skuKey
    ensures Started(rows, k, vendor, skuKey, at) <==> Latest(rows, Chain(rows, k), at).Some?
  {
    var c := Chain(rows, k);
    assert ChainOk(rows, c);
    if Latest(rows, c, at).Some? {
      var i := Latest(rows, c, at).value;
      var j :| 0 <= j < |c| && c[j] == i;
      StartsIncrease(rows, c, 0, j);
    }
  }

  /** The one chain of the item that has started, if there is exactly one. */
  ghost predicate OnlyStarted(rows: seq<Term>, k: Key, vendor: nat, skuKey: string, at: int) {
    Started(rows, k, vendor, skuKey, at) && forall x :: Started(rows, x, vendor, skuKey, at) ==> x == k
  }

  lemma {:induction false} OnlyOne(s: seq<nat>, x: nat)
    requires x in s && (forall i :: i in s ==> i == x) && forall i, j :: 0 <= i < j < |s| ==> s[i] != s[j]
    ensures s == [x]
  {
    assert s[0] in s;
    if |s| > 1 { Another(s, x); }
  }

  lemma {:induction false} Another(s: seq<nat>, x: nat)
    requires |s| > 1 && forall i, j :: 0 <= i < j < |s| ==> s[i] != s[j]
    ensures exists i :: i in s && i != x
  {
    if s[0] == x { assert s[1] in s && s[1] != s[0]; } else { assert s[0] in s; }
  }

  lemma {:induction false} OnlyStartedIsOnlyLive(rows: seq<Term>, k: Key, vendor: nat, skuKey: string, at: int)
    requires Chained(rows) && OnlyStarted(rows, k, vendor, skuKey, at)
    ensures Latest(rows, Chain(rows, k), at).Some?
    ensures LiveRows(rows, vendor, skuKey, at) == [Latest(rows, Chain(rows, k), at).value]
  {
    StartedHasLatest(rows, k, vendor, skuKey, at);
    var latest, live := Latest(rows, Chain(rows, k), at).value, LiveRows(rows, vendor, skuKey, at);
    LiveIsLatest(rows, k, latest, at);
    forall i | i in live ensures i == latest {
      LiveIsLatest(rows, KeyOf(rows[i]), i, at);
      StartedHasLatest(rows, KeyOf(rows[i]), vendor, skuKey, at);
    }
    assert latest in live;
    OnlyOne(live, latest);
  }

  lemma {:induction false} OneLiveIsOnlyStarted(rows: seq<Term>, vendor: nat, skuKey: string, at: int)
    requires Chained(rows) && |LiveRows(rows, vendor, skuKey, at)| == 1
    ensures var i := LiveRows(rows, vendor, skuKey, at)[0];
      i < |rows| && OnlyStarted(rows, KeyOf(rows[i]), vendor, skuKey, at)
  {
    var live := LiveRows(rows, vendor, skuKey, at);
    var i := live[0];
    assert i in live;
    LiveIsLatest(rows, KeyOf(rows[i]), i, at);
    StartedHasLatest(rows, KeyOf(rows[i]), vendor, skuKey, at);
    forall x | Started(rows, x, vendor, skuKey, at) ensures x == KeyOf(rows[i]) {
      StartedHasLatest(rows, x, vendor, skuKey, at);
      var l := Latest(rows, Chain(rows, x), at).value;
      LiveIsLatest(rows, x, l, at);
      assert l in live;
    }
  }

  /**
   * After any calls: a price was agreed at that time exactly when one chain of
   * the item had started, and then it is that of the chain's latest term started.
   */
  lemma {:induction false} AgreedPriceExactly(
    calls: seq<Call>, vendors: set<nat>, vendor: nat, sku: string, at: int, price: string)
    requires Lower(Trim(sku)) != ""
    ensures var rows, key := After(calls, vendors), Lower(Trim(sku));
      AgreedPriceAt(rows, vendor, Some(sku), at) == Some(price)
      <==> exists k :: OnlyStarted(rows, k, vendor, key, at) && PriceOf(rows, k, at) == Some(price)
  {
    var rows, key := After(calls, vendors), Lower(Trim(sku));
    AlwaysChained(calls, vendors);
    var live := LiveRows(rows, vendor, key, at);
    if |live| == 1 {
      OneLiveIsOnlyStarted(rows, vendor, key, at);
      OnlyStartedIsOnlyLive(rows, KeyOf(rows[live[0]]), vendor, key, at);
    }
    forall k | OnlyStarted(rows, k, vendor, key, at)
      ensures AgreedPriceAt(rows, vendor, Some(sku), at) == PriceOf(rows, k, at)
    {
      OnlyStartedIsOnlyLive(rows, k, vendor, key, at);
    }
  }

  function PriceOf(rows: seq<Term>, k: Key, at: int): Option<string> {
    var latest := Latest(rows, Chain(rows, k), at);
    if latest.Some? then Some(rows[latest.value].price) else None
  }
}
