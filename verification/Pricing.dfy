/** The price table: which row a model name resolves to, and what a call costs. */
module Pricing {
  import opened Wrappers
  import opened JsText

  /** USD per million tokens, which is micro-USD per token. */
  datatype Price = Price(input: real, output: real)

  datatype Listed = Listed(key: string, price: Price)

  const MODEL_PRICES: seq<Listed> := [
    Listed("gpt-4o", Price(2.5, 10.0)),
    Listed("gpt-4o-mini", Price(0.15, 0.6)),
    Listed("gpt-4-turbo", Price(10.0, 30.0)),
    Listed("text-embedding-3-small", Price(0.02, 0.0))]

  /** The row of `gpt-4-turbo`. */
  const FALLBACK: Listed := MODEL_PRICES[2]

  // ----- resolution

  /** The key itself or a dated snapshot of it. */
  predicate Matches(name: string, key: string) { name == key || key + "-" <= name }

  /** Stable, longest key first. */
  function InsertByLength(x: Listed, rows: seq<Listed>): (r: seq<Listed>)
    ensures forall y :: y in r <==> y == x || y in rows
    ensures LongestFirst(rows) ==> LongestFirst(r)
  {
    if rows == [] then [x]
    else if |x.key| >= |rows[0].key| then [x] + rows
    else
      var rest := InsertByLength(x, rows[1..]);
      assert forall i :: 0 <= i < |rest| ==> rest[i] in rest;
      assert LongestFirst(rows) ==> forall y :: y in rest ==> |rows[0].key| >= |y.key|;
      [rows[0]] + rest
  }

  predicate LongestFirst(rows: seq<Listed>) { forall i, j :: 0 <= i < j < |rows| ==> |rows[i].key| >= |rows[j].key| }

  /** Inserting from the back keeps rows of equal length in table order. */
  function SortByLength(rows: seq<Listed>): (r: seq<Listed>)
    ensures (forall y :: y in r <==> y in rows) && LongestFirst(r)
  {
    if rows == [] then [] else InsertByLength(rows[0], SortByLength(rows[1..]))
  }

  function FirstMatch(name: string, rows: seq<Listed>): (r: Option<Listed>)
    ensures r.None? <==> forall x :: x in rows ==> !Matches(name, x.key)
    ensures r.Some? ==> r.value in rows && Matches(name, r.value.key)
  {
    if rows == [] then None
    else if Matches(name, rows[0].key) then Some(rows[0])
    else FirstMatch(name, rows[1..])
  }

  function Resolve(table: seq<Listed>, model: Option<string>): Option<Listed> {
    FirstMatch(Lower(Trim(if model.Some? then model.value else "")), SortByLength(table))
  }

  function PriceFor(model: Option<string>): Price {
    var row := Resolve(MODEL_PRICES, model);
    if row.Some? then row.value.price else FALLBACK.price
  }

  predicate DistinctKeys(table: seq<Listed>) { forall i, j :: 0 <= i < j < |table| ==> table[i].key != table[j].key }

  /** A name has at most one matching key of each length. */
  lemma {:induction false} OneKeyPerLength(name: string, a: string, b: string)
    requires Matches(name, a) && Matches(name, b) && |a| == |b|
    ensures a == b
  {
    assert a == name[..|a|] by { assert a <= name; }
    assert b == name[..|b|] by { assert b <= name; }
  }

  lemma {:induction false} FirstIsLongest(name: string, rows: seq<Listed>)
    requires LongestFirst(rows) && FirstMatch(name, rows).Some?
    ensures forall x :: x in rows && Matches(name, x.key) ==> |x.key| <= |FirstMatch(name, rows).value.key|
  {
    if Matches(name, rows[0].key) {
      forall x | x in rows ensures |x.key| <= |rows[0].key| { var i :| 0 <= i < |rows| && rows[i] == x; }
    } else {
      FirstIsLongest(name, rows[1..]);
    }
  }

  lemma {:induction false} KeyNamesRow(table: seq<Listed>, x: Listed, y: Listed)
    requires DistinctKeys(table) && x in table && y in table && x.key == y.key
    ensures x == y
  {
    var i, j :| 0 <= i < |table| && 0 <= j < |table| && table[i] == x && table[j] == y;
    assert i == j;
  }

  /** The key that matches, longer than every other that does. */
  ghost predicate Longest(table: seq<Listed>, name: string, row: Listed) {
    && row in table && Matches(name, row.key)
    && forall x :: x in table && x != row && Matches(name, x.key) ==> |x.key| < |row.key|
  }

  lemma {:induction false} FoundIsLongest(table: seq<Listed>, name: string)
    requires DistinctKeys(table)
    ensures var found := FirstMatch(name, SortByLength(table));
      found.Some? ==> Longest(table, name, found.value)
  {
    var sorted := SortByLength(table);
    var found := FirstMatch(name, sorted);
    if found.Some? {
      FirstIsLongest(name, sorted);
      forall x | x in table && x != found.value && Matches(name, x.key) ensures |x.key| < |found.value.key| {
        if |x.key| == |found.value.key| {
          OneKeyPerLength(name, x.key, found.value.key);
          KeyNamesRow(table, x, found.value);
        }
      }
    }
  }

  /**
   * In any table of distinct keys, whatever its order: a row is the answer
   * exactly when its key matches and every other matching key is shorter.
   */
  lemma {:induction false} LongestKeyWins(table: seq<Listed>, model: Option<string>, row: Listed)
    requires DistinctKeys(table)
    ensures Resolve(table, model) == Some(row)
       <==> Longest(table, Lower(Trim(if model.Some? then model.value else "")), row)
  {
    var name := Lower(Trim(if model.Some? then model.value else ""));
    FoundIsLongest(table, name);
  }

  lemma {:induction false} TableKeysDiffer()
    ensures DistinctKeys(MODEL_PRICES)
  {
    assert MODEL_PRICES[0].key != MODEL_PRICES[1].key && MODEL_PRICES[1].key[5] != MODEL_PRICES[2].key[5];
  }

  /** A model costs by the longest key of the price table its name starts with, or by the fallback. */
  lemma {:induction false} PriceForExactly(model: Option<string>)
    ensures var name := Lower(Trim(if model.Some? then model.value else ""));
      || (exists row :: Longest(MODEL_PRICES, name, row) && PriceFor(model) == row.price)
      || ((forall row :: row in MODEL_PRICES ==> !Matches(name, row.key)) && PriceFor(model) == FALLBACK.price)
  {
    TableKeysDiffer();
    var found := Resolve(MODEL_PRICES, model);
    if found.Some? { LongestKeyWins(MODEL_PRICES, model, found.value); }
  }

  // ----- cost

  function Tokens(x: real): (r: real)
    ensures r >= 0.0
  {
    if x > 0.0 then x else 0.0
  }

  function Ceil(x: real): int { -(-x).Floor }

  function At(price: Price, input: real, output: real): real {
    Tokens(input) * price.input + Tokens(output) * price.output
  }

  /** The price before rounding. */
  function Exact(model: Option<string>, input: real, output: real): real { At(PriceFor(model), input, output) }

  function CostMicroUsd(model: Option<string>, input: real, output: real): int { Ceil(Exact(model, input, output)) }

  lemma {:induction false} CeilTight(x: real)
    ensures x <= Ceil(x) as real < x + 1.0
  {
  }

  lemma {:induction false} CeilMonotone(x: real, y: real)
    requires x <= y
    ensures Ceil(x) <= Ceil(y)
  {
  }

  /** Rounding once costs no more than rounding twice. */
  lemma {:induction false} CeilSum(x: real, y: real)
    ensures Ceil(x + y) <= Ceil(x) + Ceil(y)
  {
    CeilTight(x);
    CeilTight(y);
    CeilTight(x + y);
  }

  /** The fallback is at least as dear as every row, both ways. */
  lemma {:induction false} RowsBelowFallback(row: Listed)
    requires row in MODEL_PRICES
    ensures 0.0 <= row.price.input <= FALLBACK.price.input && 0.0 <= row.price.output <= FALLBACK.price.output
  {
  }

  lemma {:induction false} ResolvedIsListed(table: seq<Listed>, model: Option<string>)
    ensures Resolve(table, model).Some? ==> Resolve(table, model).value in table
  {
  }

  predicate Below(a: Price, b: Price) { 0.0 <= a.input <= b.input && 0.0 <= a.output <= b.output }

  lemma {:induction false} PricesBelowFallback(model: Option<string>)
    ensures Below(PriceFor(model), FALLBACK.price)
  {
    ResolvedIsListed(MODEL_PRICES, model);
    if Resolve(MODEL_PRICES, model).Some? { RowsBelowFallback(Resolve(MODEL_PRICES, model).value); }
  }

  lemma {:induction false} DearerCostsMore(a: Price, b: Price, input: real, output: real)
    requires Below(a, b)
    ensures Ceil(At(a, input, output)) <= Ceil(At(b, input, output))
  {
    var i, o := Tokens(input), Tokens(output);
    assert i * a.input <= i * b.input;
    assert o * a.output <= o * b.output;
    CeilMonotone(At(a, input, output), At(b, input, output));
  }

  lemma {:induction false} UnknownIsFallback(unknown: Option<string>)
    requires Resolve(MODEL_PRICES, unknown).None?
    ensures PriceFor(unknown) == FALLBACK.price
  {
  }

  lemma {:induction false} CostIsAt(model: Option<string>, input: real, output: real, price: Price)
    requires PriceFor(model) == price
    ensures CostMicroUsd(model, input, output) == Ceil(At(price, input, output))
  {
  }

  /** An unknown name never costs less than any other for the same tokens. */
  lemma {:induction false} UnknownIsDearest(unknown: Option<string>, model: Option<string>, input: real, output: real)
    requires Resolve(MODEL_PRICES, unknown).None?
    ensures CostMicroUsd(model, input, output) <= CostMicroUsd(unknown, input, output)
  {
    var price := PriceFor(model);
    PricesBelowFallback(model);
    DearerCostsMore(price, FALLBACK.price, input, output);
    UnknownIsFallback(unknown);
    CostIsAt(model, input, output, price);
    CostIsAt(unknown, input, output, FALLBACK.price);
  }
}
