/** Escaping a search term for SQL LIKE, and the candidates a line item is compared with. */
module CatalogMatch {
  import opened Wrappers
  import opened JsText

  // ----- LIKE, with backslash as the escape character

  /** A pattern that ends in a lone backslash is an error in SQL; here it matches nothing. */
  predicate Like(p: string, s: string)
    decreases |p| + |s|
  {
    if p == "" then s == ""
    else if p[0] == '%' then Like(p[1..], s) || (s != "" && Like(p, s[1..]))
    else if p[0] == '_' then s != "" && Like(p[1..], s[1..])
    else if p[0] == '\\' then |p| > 1 && s != "" && s[0] == p[1] && Like(p[2..], s[1..])
    else s != "" && s[0] == p[0] && Like(p[1..], s[1..])
  }

  /** ILIKE, for ASCII letters. */
  predicate ILike(p: string, s: string) { Like(Lower(p), Lower(s)) }

  predicate Special(c: char) { c == '\\' || c == '%' || c == '_' }

  function EscapeChar(c: char): string { if Special(c) then ['\\', c] else [c] }

  function EscapeLikeLiteral(value: string): string {
    if value == "" then ""
    else EscapeChar(value[0]) + EscapeLikeLiteral(value[1..])
  }

  ghost predicate Contains(s: string, t: string) { exists k :: 0 <= k <= |s| && t <= s[k..] }

  /** An escaped text matches itself and leaves the rest to the rest of the pattern. */
  lemma {:induction false} EscapedIsLiteral(t: string, q: string, s: string)
    ensures Like(EscapeLikeLiteral(t) + q, s) <==> t <= s && Like(q, s[|t|..])
    decreases |t|
  {
    if t == "" {
      assert EscapeLikeLiteral(t) + q == q && s[0..] == s;
    } else {
      FirstEscaped(t, q, s);
      if s != "" && s[0] == t[0] {
        EscapedIsLiteral(t[1..], q, s[1..]);
        PrefixSteps(t, s);
      }
    }
  }

  lemma {:induction false} LikeChar(c: char, rest: string, s: string)
    ensures Like(EscapeChar(c) + rest, s) <==> s != "" && s[0] == c && Like(rest, s[1..])
  {
    var p := EscapeChar(c) + rest;
    if Special(c) { assert p[0] == '\\' && p[1] == c && p[2..] == rest; } else { assert p[0] == c && p[1..] == rest; }
  }

  lemma {:induction false} FirstEscaped(t: string, q: string, s: string)
    requires t != ""
    ensures Like(EscapeLikeLiteral(t) + q, s)
       <==> s != "" && s[0] == t[0] && Like(EscapeLikeLiteral(t[1..]) + q, s[1..])
  {
    var rest := EscapeLikeLiteral(t[1..]) + q;
    assert EscapeLikeLiteral(t) + q == EscapeChar(t[0]) + rest;
    LikeChar(t[0], rest, s);
  }

  lemma {:induction false} PrefixSteps(t: string, s: string)
    requires t != "" && s != "" && s[0] == t[0]
    ensures t <= s <==> t[1..] <= s[1..]
    ensures t <= s ==> s[1..][|t| - 1..] == s[|t|..]
  {
    assert t == [t[0]] + t[1..] && s == [s[0]] + s[1..];
  }

  /** `%` skips any number of characters. */
  lemma {:induction false} PercentSkips(q: string, s: string)
    ensures Like("%" + q, s) <==> exists k :: 0 <= k <= |s| && Like(q, s[k..])
    decreases |s|
  {
    var p := "%" + q;
    assert p[1..] == q && s[0..] == s;
    if s != "" {
      PercentSkips(q, s[1..]);
      if Like(p, s[1..]) {
        var k :| 0 <= k <= |s[1..]| && Like(q, s[1..][k..]);
        assert s[1..][k..] == s[k + 1..];
      }
      if k :| 1 <= k <= |s| && Like(q, s[k..]) {
        assert s[k..] == s[1..][k - 1..];
      }
    }
  }

  lemma {:induction false} PercentMatchesAll(s: string)
    ensures Like("%", s)
  {
    PercentSkips("", s);
    assert "%" + "" == "%" && s[|s|..] == "";
  }

  /**
   * For every term, whatever wildcards and backslashes it holds: the pattern
   * matches exactly the texts it occurs in.
   */
  lemma {:induction false} EscapedMatchesSubstring(t: string, s: string)
    ensures Like("%" + EscapeLikeLiteral(t) + "%", s) <==> Contains(s, t)
  {
    var q := EscapeLikeLiteral(t) + "%";
    assert "%" + EscapeLikeLiteral(t) + "%" == "%" + q;
    PercentSkips(q, s);
    forall k | 0 <= k <= |s| ensures Like(q, s[k..]) <==> t <= s[k..] {
      EscapedIsLiteral(t, "%", s[k..]);
      if t <= s[k..] { PercentMatchesAll(s[k..][|t|..]); }
    }
  }

  lemma {:induction false} LowerEscapes(t: string)
    ensures Lower(EscapeLikeLiteral(t)) == EscapeLikeLiteral(Lower(t))
  {
    if t != "" {
      LowerEscapes(t[1..]);
      assert Lower(t)[1..] == Lower(t[1..]);
    }
  }

  lemma {:induction false} ILikeMatchesSubstring(t: string, s: string)
    ensures ILike("%" + EscapeLikeLiteral(t) + "%", s) <==> Contains(Lower(s), Lower(t))
  {
    LowerEscapes(t);
    assert Lower("%" + EscapeLikeLiteral(t) + "%") == "%" + EscapeLikeLiteral(Lower(t)) + "%";
    EscapedMatchesSubstring(Lower(t), Lower(s));
  }

  /** Without the escape a `%` inside the term would match anything there. */
  lemma {:induction false} UnescapedOvermatches(a: string, filler: string, b: string)
    requires forall c :: c in a + b ==> !Special(c)
    ensures Like("%" + (a + "%" + b) + "%", a + filler + b)
  {
    var s, q := a + filler + b, "%" + (b + "%");
    PlainTail(filler, b);
    Plain(a);
    assert a <= s && s[|a|..] == filler + b;
    EscapedIsLiteral(a, q, s);
    PercentSkips(a + q, s);
    assert s[0..] == s;
    assert "%" + (a + "%" + b) + "%" == "%" + (a + q);
  }

  lemma {:induction false} PlainTail(filler: string, b: string)
    requires forall c :: c in b ==> !Special(c)
    ensures Like("%" + (b + "%"), filler + b)
  {
    Plain(b);
    PercentMatchesAll("");
    assert b[|b|..] == "" && (filler + b)[|filler|..] == b;
    EscapedIsLiteral(b, "%", b);
    PercentSkips(b + "%", filler + b);
  }

  lemma {:induction false} Plain(t: string)
    requires forall c :: c in t ==> !Special(c)
    ensures EscapeLikeLiteral(t) == t
  {
    if t != "" {
      assert t[0] in t;
      Plain(t[1..]);
    }
  }

  // ----- candidates

  datatype Item = Item(workspace: nat, vendor: nat, sku: Option<string>, description: Option<string>)

  datatype Query = Query(workspace: nat, sku: Option<string>, description: Option<string>)

  function Term(q: Query): string {
    Trim(if q.sku.Some? then q.sku.value else if q.description.Some? then q.description.value else "")
  }

  predicate TextMatches(text: Option<string>, pattern: string) { text.Some? && ILike(pattern, text.value) }

  predicate Selected(item: Item, q: Query, vendor: Option<nat>) {
    var pattern := "%" + EscapeLikeLiteral(Term(q)) + "%";
    && item.workspace == q.workspace && (vendor.None? || item.vendor == vendor.value)
    && (TextMatches(item.sku, pattern) || TextMatches(item.description, pattern))
  }

  /** Positions of the selected items; `items` are in order of creation. */
  function Filtered(items: seq<Item>, q: Query, vendor: Option<nat>): (r: seq<nat>)
    ensures forall i :: i in r <==> 0 <= i < |items| && Selected(items[i], q, vendor)
    ensures forall a, b :: 0 <= a < b < |r| ==> r[a] < r[b]
  {
    if items == [] then []
    else
      var n := |items| - 1;
      var rest := Filtered(items[..n], q, vendor);
      assert forall a :: 0 <= a < |rest| ==> rest[a] in rest;
      if Selected(items[n], q, vendor) then rest + [n] else rest
  }

  function FindCandidates(items: seq<Item>, q: Query, vendor: Option<nat>, cap: nat): seq<nat> {
    if Term(q) == "" then []
    else
      var rows := Filtered(items, q, vendor);
      if |rows| > cap then rows[..cap] else rows
  }

  /** The text of the item contains the term, letter case aside. */
  ghost predicate Mentions(item: Item, term: string) {
    || (item.sku.Some? && Contains(Lower(item.sku.value), Lower(term)))
    || (item.description.Some? && Contains(Lower(item.description.value), Lower(term)))
  }

  /** How many earlier items qualify. */
  function Earlier(items: seq<Item>, q: Query, vendor: Option<nat>, i: nat): nat
    requires i <= |items|
  {
    |Filtered(items[..i], q, vendor)|
  }

  lemma {:induction false} FilteredPrefix(items: seq<Item>, q: Query, vendor: Option<nat>, i: nat)
    requires i < |items| && Selected(items[i], q, vendor)
    ensures var r, at := Filtered(items, q, vendor), Earlier(items, q, vendor, i); at < |r| && r[at] == i
    decreases |items|
  {
    var n := |items| - 1;
    if i < n {
      FilteredPrefix(items[..n], q, vendor, i);
      assert items[..n][..i] == items[..i];
    } else {
      assert items[..n] == items[..i];
    }
  }

  /**
   * An item is a candidate exactly when the line has a term, the item is of
   * its workspace (and the vendor, if given) and mentions the term, and fewer
   * than the cap qualify before it.
   */
  lemma {:induction false} CandidatesExactly(items: seq<Item>, q: Query, vendor: Option<nat>, cap: nat, i: nat)
    requires i < |items|
    ensures i in FindCandidates(items, q, vendor, cap)
      <==> && Term(q) != "" && items[i].workspace == q.workspace && (vendor.None? || items[i].vendor == vendor.value)
           && Mentions(items[i], Term(q)) && Earlier(items, q, vendor, i) < cap
  {
    if items[i].sku.Some? { ILikeMatchesSubstring(Term(q), items[i].sku.value); }
    if items[i].description.Some? { ILikeMatchesSubstring(Term(q), items[i].description.value); }
    var r, at := Filtered(items, q, vendor), Earlier(items, q, vendor, i);
    if Selected(items[i], q, vendor) {
      FilteredPrefix(items, q, vendor, i);
      if |r| > cap { PrefixHolds(r, cap, at); }
    }
  }

  lemma {:induction false} PrefixHolds(r: seq<nat>, cap: nat, at: nat)
    requires at < |r| && cap < |r| && forall a, b :: 0 <= a < b < |r| ==> r[a] < r[b]
    ensures r[at] in r[..cap] <==> at < cap
  {
    if at < cap { assert r[..cap][at] == r[at]; }
  }
}
