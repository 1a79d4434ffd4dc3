/** The meter of one model call: tokens by model, their cost, and bounds on the rounding. */
module TokenMeter {
  import opened Wrappers
  import opened JsText
  import opened Pricing

  datatype Usage = Usage(input: Option<real>, output: Option<real>, total: Option<real>)

  datatype Response = Response(usage: Option<Usage>, modelName: Option<string>, model: Option<string>)

  /** One call of `record`. */
  datatype Record = Record(response: Response, model: Option<string>)

  /** Absent, not a finite number, or not positive counts as zero. */
  function Positive(x: Option<real>): (r: real)
    ensures r >= 0.0
  {
    if x.Some? && x.value > 0.0 then x.value else 0.0
  }

  function Reported(r: Record): Usage {
    if r.response.usage.Some? then r.response.usage.value else Usage(None, None, None)
  }

  function Total(r: Record): (t: real)
    ensures t >= 0.0
  {
    var u := Reported(r);
    if Positive(u.total) > 0.0 then Positive(u.total) else Positive(u.input) + Positive(u.output)
  }

  function Input(r: Record): real { Positive(Reported(r).input) }

  /** A bare total is priced as output, the dearer side. */
  function Output(r: Record): real {
    var u := Reported(r);
    if Positive(u.input) + Positive(u.output) == 0.0 then Total(r) else Positive(u.output)
  }

  function Name(r: Record): string {
    var given := if r.model.Some? then Trim(r.model.value) else "";
    Trim(if given != "" then given
         else if r.response.modelName.Some? && r.response.modelName.value != "" then r.response.modelName.value
         else if r.response.model.Some? then r.response.model.value
         else "")
  }

  /** One entry of the map, which keeps its keys in order of insertion. */
  datatype Entry = Entry(name: string, input: real, output: real)

  function Add(entries: seq<Entry>, name: string, input: real, output: real): seq<Entry> {
    if entries == [] then [Entry(name, input, output)]
    else if entries[0].name == name then
      [Entry(name, entries[0].input + input, entries[0].output + output)] + entries[1..]
    else [entries[0]] + Add(entries[1..], name, input, output)
  }

  function Recorded(entries: seq<Entry>, r: Record): seq<Entry> {
    if Total(r) == 0.0 then entries else Add(entries, Name(r), Input(r), Output(r))
  }

  function After(records: seq<Record>): seq<Entry> {
    if records == [] then [] else Recorded(After(records[..|records| - 1]), records[|records| - 1])
  }

  /** A price for every model name. */
  type Prices = string -> Price

  ghost predicate Proper(p: Prices) { forall name :: Below(Price(0.0, 0.0), p(name)) }

  /** The table in use. */
  function TablePrice(name: string): Price { PriceFor(Some(name)) }

  lemma {:induction false} TableIsProper()
    ensures Proper(TablePrice)
  {
    forall name ensures Below(Price(0.0, 0.0), TablePrice(name)) { PricesBelowFallback(Some(name)); }
  }

  function EntryCost(e: Entry, p: Prices): int { Ceil(At(p(e.name), e.input, e.output)) }

  function Cost(entries: seq<Entry>, p: Prices): int {
    if entries == [] then 0 else Cost(entries[..|entries| - 1], p) + EntryCost(entries[|entries| - 1], p)
  }

  function SumInput(entries: seq<Entry>): real {
    if entries == [] then 0.0 else SumInput(entries[..|entries| - 1]) + entries[|entries| - 1].input
  }

  function SumOutput(entries: seq<Entry>): real {
    if entries == [] then 0.0 else SumOutput(entries[..|entries| - 1]) + entries[|entries| - 1].output
  }

  lemma {:induction false} AddAt(entries: seq<Entry>, name: string, input: real, output: real, i: nat)
    requires i <= |entries| && (i < |entries| ==> entries[i].name == name)
    requires forall j :: 0 <= j < i ==> entries[j].name != name
    ensures Add(entries, name, input, output)
      == if i < |entries| then entries[i := Entry(name, entries[i].input + input, entries[i].output + output)]
         else entries + [Entry(name, input, output)]
  {
    if i > 0 {
      AddAt(entries[1..], name, input, output, i - 1);
    }
  }

  class Meter {
    const price: Prices
    var used: real
    var byModel: seq<Entry>

    constructor (price: Prices)
      ensures this.price == price && used == 0.0 && byModel == []
    {
      this.price, used, byModel := price, 0.0, [];
    }

    method Find(name: string) returns (i: nat)
      ensures i <= |byModel| && (i < |byModel| ==> byModel[i].name == name)
      ensures forall j :: 0 <= j < i ==> byModel[j].name != name
    {
      i := 0;
      while i < |byModel| && byModel[i].name != name
        invariant i <= |byModel| && forall j :: 0 <= j < i ==> byModel[j].name != name
      {
        i := i + 1;
      }
    }

    method Record(r: Record)
      modifies this
      ensures used == old(used) + Total(r) && byModel == Recorded(old(byModel), r)
    {
      var total := Total(r);
      if total == 0.0 { return; }
      used := used + total;
      var name, input, output := Name(r), Input(r), Output(r);
      var i := Find(name);
      AddAt(byModel, name, input, output, i);
      if i < |byModel| {
        byModel := byModel[i := Entry(name, byModel[i].input + input, byModel[i].output + output)];
      } else {
        byModel := byModel + [Entry(name, input, output)];
      }
    }

    method Tokens() returns (input: real, output: real)
      ensures input == SumInput(byModel) && output == SumOutput(byModel)
    {
      input, output := 0.0, 0.0;
      for i := 0 to |byModel|
        invariant input == SumInput(byModel[..i]) && output == SumOutput(byModel[..i])
      {
        assert byModel[..i + 1][..i] == byModel[..i];
        input, output := input + byModel[i].input, output + byModel[i].output;
      }
      assert byModel[..|byModel|] == byModel;
    }

    method CostMicroUsd() returns (sum: int)
      ensures sum == Cost(byModel, price)
    {
      sum := 0;
      for i := 0 to |byModel|
        invariant sum == Cost(byModel[..i], price)
      {
        assert byModel[..i + 1][..i] == byModel[..i];
        sum := sum + EntryCost(byModel[i], price);
      }
      assert byModel[..|byModel|] == byModel;
    }

    /** The first name that cost the most; nothing when there is none or it is blank. */
    method DominantModel() returns (best: Option<string>)
      requires Proper(price)
      ensures best.Some? ==>
        exists i: nat :: Dominates(byModel, i, price) && best == Some(byModel[i].name) && best != Some("")
      ensures best.None? ==> byModel == [] || exists i: nat :: Dominates(byModel, i, price) && byModel[i].name == ""
    {
      best := None;
      var bestCost := -1;
      ghost var at := 0;
      for i := 0 to |byModel|
        invariant i == 0 ==> best.None? && bestCost == -1
        invariant i > 0 ==> Dominates(byModel[..i], at, price) && best == Some(byModel[at].name)
        invariant i > 0 ==> bestCost == EntryCost(byModel[at], price)
      {
        CostsAreNonNegative(byModel[i], price);
        var cost := EntryCost(byModel[i], price);
        if cost > bestCost {
          best, bestCost, at := Some(byModel[i].name), cost, i;
        }
      }
      assert byModel[..|byModel|] == byModel;
      if best == Some("") { best := None; }
    }
  }

  /** No entry costs more, and none before it as much. */
  ghost predicate Dominates(entries: seq<Entry>, i: nat, p: Prices) {
    && i < |entries|
    && (forall j :: 0 <= j < |entries| ==> EntryCost(entries[j], p) <= EntryCost(entries[i], p))
    && (forall j :: 0 <= j < i ==> EntryCost(entries[j], p) < EntryCost(entries[i], p))
  }

  lemma {:induction false} CostsAreNonNegative(e: Entry, p: Prices)
    requires Proper(p)
    ensures EntryCost(e, p) >= 0
  {
    assert Below(Price(0.0, 0.0), p(e.name));
    DearerCostsMore(Price(0.0, 0.0), p(e.name), e.input, e.output);
  }

  // ----- what the entries say, whatever order they came in

  function Sum(rs: seq<Record>, f: Record -> real): real { if rs == [] then 0.0 else f(rs[0]) + Sum(rs[1..], f) }

  lemma {:induction false} SumSplit(a: seq<Record>, b: seq<Record>, f: Record -> real)
    ensures Sum(a + b, f) == Sum(a, f) + Sum(b, f)
  {
    if a == [] {
      assert a + b == b;
    } else {
      assert (a + b)[1..] == a[1..] + b;
      SumSplit(a[1..], b, f);
    }
  }

  lemma {:induction false} SumSnoc(a: seq<Record>, x: Record, f: Record -> real)
    ensures Sum(a + [x], f) == Sum(a, f) + f(x)
  {
    SumSplit(a, [x], f);
    assert [x][1..] == [];
  }

  lemma {:induction false} WithoutOne(b: seq<Record>, i: nat)
    requires i < |b|
    ensures multiset(b[..i] + b[i + 1..]) == multiset(b) - multiset{b[i]}
  {
    assert b == b[..i] + [b[i]] + b[i + 1..];
  }

  lemma {:induction false} SumWithout(b: seq<Record>, i: nat, f: Record -> real)
    requires i < |b|
    ensures Sum(b, f) == f(b[i]) + Sum(b[..i] + b[i + 1..], f)
  {
    var tail := [b[i]] + b[i + 1..];
    assert b == b[..i] + tail;
    SumSplit(b[..i], tail, f);
    assert tail[1..] == b[i + 1..];
    SumSplit(b[..i], b[i + 1..], f);
  }

  lemma {:induction false} WithoutHead(a: seq<Record>)
    requires a != []
    ensures a[0] in multiset(a) && multiset(a[1..]) == multiset(a) - multiset{a[0]}
  {
    assert a == [a[0]] + a[1..];
  }

  lemma {:induction false} IndexIn(b: seq<Record>, x: Record) returns (i: nat)
    requires x in multiset(b)
    ensures i < |b| && b[i] == x
  {
    i :| i < |b| && b[i] == x;
  }

  /** The first of some records is among the others too; both without it hold the same. */
  lemma {:induction false} HeadAmong(a: seq<Record>, b: seq<Record>) returns (i: nat)
    requires a != [] && multiset(a) == multiset(b)
    ensures i < |b| && b[i] == a[0] && multiset(a[1..]) == multiset(b[..i] + b[i + 1..])
  {
    WithoutHead(a);
    i := IndexIn(b, a[0]);
    WithoutOne(b, i);
  }

  lemma {:induction false} SumReordered(a: seq<Record>, b: seq<Record>, f: Record -> real)
    requires multiset(a) == multiset(b)
    ensures Sum(a, f) == Sum(b, f)
  {
    if a == [] {
      assert |multiset(b)| == 0;
    } else {
      var i := HeadAmong(a, b);
      SumReordered(a[1..], b[..i] + b[i + 1..], f);
      SumWithout(b, i, f);
    }
  }

  // What a record adds to its model's entry, and to no other.

  function InputFor(name: string): Record -> real { r => if Total(r) != 0.0 && Name(r) == name then Input(r) else 0.0 }

  function OutputFor(name: string): Record -> real {
    r => if Total(r) != 0.0 && Name(r) == name then Output(r) else 0.0
  }

  ghost predicate Mentions(rs: seq<Record>, name: string) { exists r :: r in rs && Total(r) != 0.0 && Name(r) == name }

  ghost predicate DistinctNames(entries: seq<Entry>) {
    forall i, j :: 0 <= i < j < |entries| ==> entries[i].name != entries[j].name
  }

  function TallyOf(rs: seq<Record>, name: string): Entry {
    Entry(name, Sum(rs, InputFor(name)), Sum(rs, OutputFor(name)))
  }

  /** There is one entry for every model mentioned, and it holds the sums of that model's records. */
  ghost predicate Tallies(entries: seq<Entry>, rs: seq<Record>) {
    DistinctNames(entries) && forall e :: e in entries <==> Mentions(rs, e.name) && e == TallyOf(rs, e.name)
  }

  ghost predicate Names(entries: seq<Entry>, name: string) { exists e :: e in entries && e.name == name }

  /** `r` is `entries` with `now` for the entry of its name. */
  ghost predicate Renewed(entries: seq<Entry>, r: seq<Entry>, now: Entry) {
    DistinctNames(r) && forall e :: e in r <==> if e.name == now.name then e == now else e in entries
  }

  lemma {:induction false} AddMembers(entries: seq<Entry>, was: Entry, input: real, output: real)
    requires DistinctNames(entries)
    requires was in entries || (!Names(entries, was.name) && was.input == 0.0 && was.output == 0.0)
    ensures Renewed(entries, Add(entries, was.name, input, output),
      Entry(was.name, was.input + input, was.output + output))
  {
    var now := Entry(was.name, was.input + input, was.output + output);
    if was in entries {
      var i :| 0 <= i < |entries| && entries[i] == was;
      AddAt(entries, was.name, input, output, i);
      SwapMembers(entries, i, now);
    } else {
      AddAt(entries, was.name, input, output, |entries|);
      AppendMembers(entries, now);
    }
  }

  lemma {:induction false} AppendMembers(entries: seq<Entry>, now: Entry)
    requires DistinctNames(entries) && !Names(entries, now.name)
    ensures Renewed(entries, entries + [now], now)
  {
    assert forall i :: 0 <= i < |entries| ==> entries[i] in entries;
  }

  lemma {:induction false} SwapMembers(entries: seq<Entry>, i: nat, now: Entry)
    requires DistinctNames(entries) && i < |entries| && now.name == entries[i].name
    ensures Renewed(entries, entries[i := now], now)
  {
    var r := entries[i := now];
    forall e | e in entries && e.name != now.name ensures e in r {
      var j :| 0 <= j < |entries| && entries[j] == e;
      assert r[j] == e;
    }
    assert r[i] == now;
  }

  lemma {:induction false} UnmentionedIsZero(rs: seq<Record>, name: string)
    requires !Mentions(rs, name)
    ensures Sum(rs, InputFor(name)) == 0.0 && Sum(rs, OutputFor(name)) == 0.0
  {
    if rs != [] {
      assert rs[0] in rs;
      assert !Mentions(rs[1..], name);
      UnmentionedIsZero(rs[1..], name);
    }
  }

  lemma {:induction false} MentionsSnoc(rs: seq<Record>, r: Record, name: string)
    ensures Mentions(rs + [r], name) <==> Mentions(rs, name) || (Total(r) != 0.0 && Name(r) == name)
  {
    assert r in rs + [r];
    assert forall x :: x in rs ==> x in rs + [r];
  }

  lemma {:induction false} TallySnoc(rs: seq<Record>, r: Record, name: string)
    ensures TallyOf(rs + [r], name)
      == Entry(name, TallyOf(rs, name).input + InputFor(name)(r), TallyOf(rs, name).output + OutputFor(name)(r))
  {
    SumSnoc(rs, r, InputFor(name));
    SumSnoc(rs, r, OutputFor(name));
  }

  lemma {:induction false} RecordedTallies(entries: seq<Entry>, rs: seq<Record>, r: Record)
    requires Tallies(entries, rs)
    ensures Tallies(Recorded(entries, r), rs + [r])
  {
    var was := TallyOf(rs, Name(r));
    if Total(r) != 0.0 {
      assert Mentions(rs, was.name) ==> was in entries;
      if !Mentions(rs, was.name) { UnmentionedIsZero(rs, was.name); }
      AddMembers(entries, was, Input(r), Output(r));
    }
    forall e ensures e in Recorded(entries, r) <==> Mentions(rs + [r], e.name) && e == TallyOf(rs + [r], e.name) {
      MentionsSnoc(rs, r, e.name);
      TallySnoc(rs, r, e.name);
    }
  }

  lemma {:induction false} AfterTallies(rs: seq<Record>)
    ensures Tallies(After(rs), rs)
  {
    if rs != [] {
      var n := |rs| - 1;
      AfterTallies(rs[..n]);
      RecordedTallies(After(rs[..n]), rs[..n], rs[n]);
      assert rs[..n] + [rs[n]] == rs;
    }
  }

  lemma {:induction false} CostWithout(b: seq<Entry>, i: nat, p: Prices)
    requires i < |b|
    ensures Cost(b, p) == EntryCost(b[i], p) + Cost(b[..i] + b[i + 1..], p)
    decreases |b|
  {
    var n := |b| - 1;
    if i < n {
      CostWithout(b[..n], i, p);
      var rest := b[..i] + b[i + 1..];
      assert rest[..n - 1] == b[..n][..i] + b[..n][i + 1..] && rest[n - 1] == b[n];
      assert b[..n][i] == b[i];
    } else {
      assert b[..i] + b[i + 1..] == b[..n];
    }
  }

  lemma {:induction false} WithoutMember(b: seq<Entry>, i: nat)
    requires DistinctNames(b) && i < |b|
    ensures DistinctNames(b[..i] + b[i + 1..])
    ensures forall e :: e in b[..i] + b[i + 1..] <==> e in b && e != b[i]
  {
    var rest := b[..i] + b[i + 1..];
    forall e | e in b && e != b[i] ensures e in rest {
      var j :| 0 <= j < |b| && b[j] == e;
      assert rest[if j < i then j else j - 1] == e;
    }
  }

  /** The cost depends only on which entries there are. */
  lemma {:induction false} SameEntriesSameCost(a: seq<Entry>, b: seq<Entry>, p: Prices)
    requires DistinctNames(a) && DistinctNames(b) && forall e :: e in a <==> e in b
    ensures Cost(a, p) == Cost(b, p)
    decreases |a|
  {
    assert b == [] || b[0] in b;
    if a != [] {
      var n := |a| - 1;
      assert a[n] in b;
      var i :| 0 <= i < |b| && b[i] == a[n];
      WithoutMember(a, n);
      WithoutMember(b, i);
      var rest := b[..i] + b[i + 1..];
      forall e ensures e in a[..n] <==> e in rest {
        assert a[..n] + a[n + 1..] == a[..n];
        assert e in a[..n] + a[n + 1..] <==> e in a && e != a[n];
      }
      SameEntriesSameCost(a[..n], rest, p);
      CostWithout(b, i, p);
    }
  }

  lemma {:induction false} SameMentions(a: seq<Record>, b: seq<Record>, name: string)
    requires multiset(a) == multiset(b)
    ensures Mentions(a, name) <==> Mentions(b, name)
  {
    assert forall r :: r in a <==> r in multiset(a);
    assert forall r :: r in b <==> r in multiset(b);
  }

  /** Recording the same calls in any order ends with the same cost. */
  lemma {:induction false} OrderDoesNotMatter(a: seq<Record>, b: seq<Record>, p: Prices)
    requires multiset(a) == multiset(b)
    ensures Cost(After(a), p) == Cost(After(b), p)
  {
    AfterTallies(a);
    AfterTallies(b);
    forall e ensures e in After(a) <==> e in After(b) {
      SameMentions(a, b, e.name);
      SumReordered(a, b, InputFor(e.name));
      SumReordered(a, b, OutputFor(e.name));
    }
    SameEntriesSameCost(After(a), After(b), p);
  }

  // ----- a bare total

  /** One report of a model: only a total, or the same total with `input` of it counted as input. */
  function BareTotal(model: string, total: real): Record {
    Record(Response(Some(Usage(None, None, Some(total))), None, None), Some(model))
  }

  function SplitTotal(model: string, total: real, input: real): Record {
    Record(Response(Some(Usage(Some(input), Some(total - input), Some(total))), None, None), Some(model))
  }

  lemma {:induction false} TotalsPriced(model: string, total: real, input: real, p: Prices)
    requires total > 0.0 && 0.0 <= input <= total
    ensures var price := p(Name(BareTotal(model, total)));
      && Alone(p)(BareTotal(model, total)) == total * price.output
      && Alone(p)(SplitTotal(model, total, input)) == input * price.input + (total - input) * price.output
  {
    var split := SplitTotal(model, total, input);
    assert Name(split) == Name(BareTotal(model, total));
    assert Input(split) == input && Output(split) == total - input && Total(split) == total;
  }

  lemma {:induction false} DearerSide(x: real, low: real, high: real)
    requires low <= high && x >= 0.0
    ensures x * low <= x * high
  {
  }

  lemma {:induction false} Parts(total: real, part: real, price: real)
    ensures part * price + (total - part) * price == total * price
  {
  }

  lemma {:induction false} SplitCovered(model: string, total: real, input: real, p: Prices)
    requires total > 0.0 && 0.0 <= input <= total
    requires var price := p(Name(BareTotal(model, total))); price.input <= price.output
    ensures Alone(p)(SplitTotal(model, total, input)) <= Alone(p)(BareTotal(model, total))
  {
    var price := p(Name(BareTotal(model, total)));
    TotalsPriced(model, total, input, p);
    DearerSide(input, price.input, price.output);
    Parts(total, input, price.output);
  }

  lemma {:induction false} SplitUncovered(model: string, total: real, p: Prices)
    requires total > 0.0
    requires var price := p(Name(BareTotal(model, total))); price.output < price.input
    ensures Alone(p)(SplitTotal(model, total, total)) > Alone(p)(BareTotal(model, total))
  {
    var price := p(Name(BareTotal(model, total)));
    TotalsPriced(model, total, total, p);
    StrictlyDearer(total, price.output, price.input);
  }

  lemma {:induction false} StrictlyDearer(x: real, low: real, high: real)
    requires low < high && x > 0.0
    ensures x * low < x * high
  {
  }

  /**
   * Pricing a bare total as output never under-counts any split of it exactly
   * for the models whose output is the dearer side.
   */
  lemma {:induction false} BareTotalCoversExactly(model: string, total: real, p: Prices)
    requires total > 0.0
    ensures var price := p(Name(BareTotal(model, total)));
      (forall input: real :: 0.0 <= input <= total ==>
        Alone(p)(SplitTotal(model, total, input)) <= Alone(p)(BareTotal(model, total)))
      <==> price.input <= price.output
  {
    var price := p(Name(BareTotal(model, total)));
    if price.input <= price.output {
      forall input: real | 0.0 <= input <= total
        ensures Alone(p)(SplitTotal(model, total, input)) <= Alone(p)(BareTotal(model, total))
      {
        SplitCovered(model, total, input, p);
      }
    } else {
      SplitUncovered(model, total, p);
    }
  }

  /** One model of the table is not among them: its bare totals cost nothing. */
  lemma {:induction false} EmbeddingTotalsAreFree(total: real)
    requires total > 0.0
    ensures MODEL_PRICES[3].key == "text-embedding-3-small"
    ensures MODEL_PRICES[3].price.input > MODEL_PRICES[3].price.output
    ensures forall p: Prices :: p("text-embedding-3-small") == MODEL_PRICES[3].price ==>
      Alone(p)(BareTotal("text-embedding-3-small", total)) == 0.0
  {
    var name := "text-embedding-3-small";
    TrimKeeps(name);
    forall p: Prices | p(name) == MODEL_PRICES[3].price ensures Alone(p)(BareTotal(name, total)) == 0.0 {
      TotalsPriced(name, total, 0.0, p);
    }
  }

  lemma {:induction false} TrimKeeps(s: string)
    requires s != "" && !IsSpace(s[0]) && !IsSpace(s[|s| - 1])
    ensures Trim(s) == s
  {
  }

  // ----- rounding

  function ExactCost(entries: seq<Entry>, p: Prices): real {
    if entries == [] then 0.0
    else ExactCost(entries[1..], p) + At(p(entries[0].name), entries[0].input, entries[0].output)
  }

  function Alone(p: Prices): Record -> real {
    r => if Total(r) == 0.0 then 0.0 else At(p(Name(r)), Input(r), Output(r))
  }

  /** The cost of a meter that saw only this record. */
  function CostAlone(r: Record, p: Prices): int { Cost(Recorded([], r), p) }

  function SumAlone(rs: seq<Record>, p: Prices): int {
    if rs == [] then 0 else SumAlone(rs[..|rs| - 1], p) + CostAlone(rs[|rs| - 1], p)
  }

  /** Counted from the front, as the sums above are from the back. */
  lemma DropFirst<T>(s: seq<T>)
    requires s != []
    ensures s[..0] + s[1..] == s[1..]
  {
  }

  lemma {:induction false} CostFront(entries: seq<Entry>, p: Prices)
    requires entries != []
    ensures Cost(entries, p) == EntryCost(entries[0], p) + Cost(entries[1..], p)
  {
    DropFirst(entries);
    CostWithout(entries, 0, p);
  }

  ghost predicate Spent(entries: seq<Entry>) { forall e :: e in entries ==> e.input >= 0.0 && e.output >= 0.0 }

  lemma {:induction false} AtAdds(price: Price, i: real, o: real, j: real, q: real)
    requires i >= 0.0 && o >= 0.0 && j >= 0.0 && q >= 0.0
    ensures At(price, i + j, o + q) == At(price, i, o) + At(price, j, q)
  {
    assert (i + j) * price.input == i * price.input + j * price.input;
    assert (o + q) * price.output == o * price.output + q * price.output;
  }

  /** One record adds its exact price, and at most its own rounded price. */
  lemma {:induction false} AddCosts(entries: seq<Entry>, name: string, input: real, output: real, p: Prices)
    requires Spent(entries) && input >= 0.0 && output >= 0.0
    ensures var r := Add(entries, name, input, output);
      && Spent(r)
      && ExactCost(r, p) == ExactCost(entries, p) + At(p(name), input, output)
      && Cost(r, p) <= Cost(entries, p) + EntryCost(Entry(name, input, output), p)
  {
    var r := Add(entries, name, input, output);
    CostFront(r, p);
    if entries == [] {
      assert r[1..] == [];
    } else {
      CostFront(entries, p);
      assert r[1..] == if entries[0].name == name then entries[1..] else Add(entries[1..], name, input, output);
      assert entries[0] in entries;
      if entries[0].name == name {
        AtAdds(p(name), entries[0].input, entries[0].output, input, output);
        CeilSum(At(p(name), entries[0].input, entries[0].output), At(p(name), input, output));
      } else {
        assert forall e :: e in entries[1..] ==> e in entries;
        AddCosts(entries[1..], name, input, output, p);
      }
    }
  }

  lemma {:induction false} AloneIsEntry(r: Record, p: Prices)
    requires Total(r) != 0.0
    ensures CostAlone(r, p) == EntryCost(Entry(Name(r), Input(r), Output(r)), p)
  {
    var e := Entry(Name(r), Input(r), Output(r));
    assert Recorded([], r) == [e];
    assert [e][..|[e]| - 1] == [] && Cost([e], p) == Cost([], p) + EntryCost(e, p);
  }

  lemma {:induction false} RecordedCosts(entries: seq<Entry>, r: Record, p: Prices)
    requires Spent(entries)
    ensures Spent(Recorded(entries, r))
    ensures ExactCost(Recorded(entries, r), p) == ExactCost(entries, p) + Alone(p)(r)
    ensures Cost(Recorded(entries, r), p) <= Cost(entries, p) + CostAlone(r, p)
  {
    if Total(r) != 0.0 {
      AddCosts(entries, Name(r), Input(r), Output(r), p);
      AloneIsEntry(r, p);
    }
  }

  /** What entries cost before rounding, and a bound on what they cost after. */
  ghost predicate Priced(entries: seq<Entry>, exact: real, bound: int, p: Prices) {
    Spent(entries) && ExactCost(entries, p) == exact && Cost(entries, p) <= bound
  }

  lemma {:induction false} RecordedPriced(entries: seq<Entry>, r: Record, exact: real, bound: int, p: Prices)
    requires Priced(entries, exact, bound, p)
    ensures Priced(Recorded(entries, r), exact + Alone(p)(r), bound + CostAlone(r, p), p)
  {
    RecordedCosts(entries, r, p);
  }

  lemma {:induction false} SumLast(rs: seq<Record>, f: Record -> real)
    requires rs != []
    ensures Sum(rs, f) == Sum(rs[..|rs| - 1], f) + f(rs[|rs| - 1])
  {
    SumSnoc(rs[..|rs| - 1], rs[|rs| - 1], f);
    assert rs[..|rs| - 1] + [rs[|rs| - 1]] == rs;
  }

  lemma {:induction false} AfterCosts(rs: seq<Record>, p: Prices)
    ensures Priced(After(rs), Sum(rs, Alone(p)), SumAlone(rs, p), p)
  {
    if rs != [] {
      var init, r := rs[..|rs| - 1], rs[|rs| - 1];
      AfterCosts(init, p);
      SumLast(rs, Alone(p));
      RecordedPriced(After(init), r, Sum(init, Alone(p)), SumAlone(init, p), p);
    }
  }

  lemma {:induction false} RoundedUp(entries: seq<Entry>, p: Prices)
    ensures ExactCost(entries, p) <= Cost(entries, p) as real <= ExactCost(entries, p) + |entries| as real
    ensures entries != [] ==> Cost(entries, p) as real < ExactCost(entries, p) + |entries| as real
  {
    if entries != [] {
      CostFront(entries, p);
      RoundedUp(entries[1..], p);
      CeilTight(At(p(entries[0].name), entries[0].input, entries[0].output));
    }
  }

  /**
   * The meter's cost is at least the exact price of the calls, less than one
   * micro-dollar above it for each model named, and never more than pricing
   * each call alone.
   */
  lemma {:induction false} CostBounds(rs: seq<Record>, p: Prices)
    ensures Sum(rs, Alone(p)) <= Cost(After(rs), p) as real
    ensures After(rs) != [] ==> Cost(After(rs), p) as real < Sum(rs, Alone(p)) + |After(rs)| as real
    ensures Cost(After(rs), p) <= SumAlone(rs, p)
  {
    AfterCosts(rs, p);
    RoundedUp(After(rs), p);
  }
}
