/** Where parsed values lie in the file: which spans nest, which are disjoint, and the one way nesting fails. */
module YamlSpans {
  import opened Wrappers
  import opened Text
  import opened YamlLines
  import opened YamlParser

  /** The nodes directly inside a value, in reading order of the result. */
  function Children(v: Value): (r: seq<Node>) {
    match v
    case Items(items) => items
    case Dict(entries) => Nodes(entries)
    case _ => []
  }

  function Nodes(entries: seq<Entry>): (r: seq<Node>)
    ensures |r| == |entries| && forall k :: 0 <= k < |entries| ==> r[k] == entries[k].node
  {
    if entries == [] then [] else [entries[0].node] + Nodes(entries[1..])
  }

  predicate Disjoint(a: Node, b: Node) { a.endLine < b.line || b.endLine < a.line }

  /** `kids[m]` starts last, and only blank or comment lines follow it up to line `hi`. */
  predicate IsLast(skip: seq<bool>, kids: seq<Node>, m: nat, hi: nat)
    requires m < |kids| && hi <= |skip|
  {
    && kids[m].endLine <= hi
    && (forall k :: 0 <= k < |kids| && k != m ==> kids[k].endLine < kids[m].line)
    && (forall x :: kids[m].endLine <= x < hi ==> skip[x])
  }

  /** Each node starts on a content line of `(lo, hi]` and ends there. */
  predicate Within(skip: seq<bool>, kids: seq<Node>, lo: nat, hi: nat)
    requires hi <= |skip|
  {
    forall k :: 0 <= k < |kids| ==> lo < kids[k].line <= kids[k].endLine <= hi && !skip[kids[k].line - 1]
  }

  predicate Apart(kids: seq<Node>) {
    forall j, k :: 0 <= j < |kids| && 0 <= k < |kids| && j != k ==> Disjoint(kids[j], kids[k])
  }

  predicate Increasing(kids: seq<Node>) {
    forall j, k :: 0 <= j < k < |kids| ==> kids[j].endLine < kids[k].line
  }

  /** Nodes read from lines `(lo, hi]`: none overlaps another, and nothing but blanks follows the last. */
  predicate Laid(skip: seq<bool>, kids: seq<Node>, lo: nat, hi: nat)
    requires hi <= |skip|
  {
    && Within(skip, kids, lo, hi)
    && Apart(kids)
    && (kids != [] ==> exists m :: 0 <= m < |kids| && IsLast(skip, kids, m, hi))
  }

  /** The span of a parent covers its children. */
  predicate Covers(p: Node) {
    forall k :: 0 <= k < |Children(p.v)| ==> Children(p.v)[k].endLine <= p.endLine
  }

  /** The child that starts last ends on a content line, not on a `#` line. */
  predicate EndsOnContent(skip: seq<bool>, p: Node) {
    forall m :: 0 <= m < |Children(p.v)| && StartsLast(Children(p.v), m) ==> EndLineReal(skip, Children(p.v)[m])
  }

  /** The last line of the span is a content line. */
  predicate EndLineReal(skip: seq<bool>, n: Node) { 0 < n.endLine <= |skip| && !skip[n.endLine - 1] }

  predicate StartsLast(kids: seq<Node>, m: nat)
    requires m < |kids|
  {
    forall k :: 0 <= k < |kids| ==> kids[k].line <= kids[m].line
  }

  predicate SpanOk(skip: seq<bool>, p: Node) {
    && 1 <= p.line <= p.endLine <= |skip|
    && !skip[p.line - 1]
    && (!p.v.Str? ==> EndLineReal(skip, p))
    && (forall k :: 0 <= k < |Children(p.v)| ==> p.line <= Children(p.v)[k].line)
    && Apart(Children(p.v))
    && (p.v.Items? ==> Increasing(p.v.items))
    && (Covers(p) <==> EndsOnContent(skip, p))
  }

  /** `SpanOk` for a node and everything below it. */
  predicate NodeOk(skip: seq<bool>, p: Node) {
    && SpanOk(skip, p)
    && match p.v
       case Items(items) => ItemsOk(skip, items)
       case Dict(entries) => EntriesOk(skip, entries)
       case _ => true
  }

  predicate ItemsOk(skip: seq<bool>, items: seq<Node>) {
    forall k :: 0 <= k < |items| ==> NodeOk(skip, items[k])
  }

  predicate EntriesOk(skip: seq<bool>, entries: seq<Entry>) {
    forall k :: 0 <= k < |entries| ==> EntryOk(skip, entries[k])
  }

  predicate EntryOk(skip: seq<bool>, e: Entry) { NodeOk(skip, e.node) }

  /** What the parser knows of the children it has read up to line `hi`. */
  predicate Read(skip: seq<bool>, v: Value, lo: nat, hi: nat)
    requires hi <= |skip|
  {
    && Laid(skip, Children(v), lo, hi)
    && (v.Items? ==> ItemsOk(skip, v.items) && Increasing(v.items))
    && (v.Dict? ==> EntriesOk(skip, v.entries))
  }

  // ----- layout

  lemma {:induction false} LaidExtend(skip: seq<bool>, kids: seq<Node>, lo: nat, hi: nat, next: nat)
    requires hi <= next <= |skip| && Laid(skip, kids, lo, hi)
    requires forall x :: hi <= x < next ==> skip[x]
    ensures Laid(skip, kids, lo, next)
  {
    if kids != [] {
      var m :| 0 <= m < |kids| && IsLast(skip, kids, m, hi);
      assert IsLast(skip, kids, m, next);
    }
  }

  /** `kids` with `n` in place `m`, or at the end. */
  function Placed(kids: seq<Node>, m: nat, n: Node): (r: seq<Node>)
    requires m <= |kids|
    ensures m < |r| && r[m] == n
    ensures forall k :: 0 <= k < |r| && k != m ==> k < |kids| && r[k] == kids[k]
  {
    if m == |kids| then kids + [n] else kids[m := n]
  }

  /** A node read behind the others keeps the layout, wherever the dict puts it. */
  lemma {:induction false} LaidReplace(skip: seq<bool>, kids: seq<Node>, m: nat, n: Node, lo: nat, hi: nat, next: nat)
    requires hi <= next <= |skip| && Laid(skip, kids, lo, hi) && m <= |kids|
    requires lo <= hi < n.line <= n.endLine <= next && !skip[n.line - 1]
    requires forall x :: n.endLine <= x < next ==> skip[x]
    ensures Laid(skip, Placed(kids, m, n), lo, next)
  {
    var all := Placed(kids, m, n);
    assert Within(skip, all, lo, next);
    PlacedApart(kids, m, n, hi);
    PlacedLast(skip, kids, m, n, hi, next);
  }

  lemma {:induction false} PlacedApart(kids: seq<Node>, m: nat, n: Node, hi: nat)
    requires m <= |kids| && Apart(kids) && hi < n.line
    requires forall k :: 0 <= k < |kids| ==> kids[k].endLine <= hi
    ensures Apart(Placed(kids, m, n))
  {
    var all := Placed(kids, m, n);
    forall j, k | 0 <= j < |all| && 0 <= k < |all| && j != k ensures Disjoint(all[j], all[k]) {
      if j != m && k != m { assert Disjoint(kids[j], kids[k]); }
    }
  }

  lemma {:induction false} PlacedLast(skip: seq<bool>, kids: seq<Node>, m: nat, n: Node, hi: nat, next: nat)
    requires m <= |kids| && hi < n.line && n.endLine <= next <= |skip|
    requires forall k :: 0 <= k < |kids| ==> kids[k].endLine <= hi
    requires forall x :: n.endLine <= x < next ==> skip[x]
    ensures IsLast(skip, Placed(kids, m, n), m, next)
  {
  }

  lemma {:induction false} PutPlace(entries: seq<Entry>, e: Entry) returns (m: nat)
    ensures m <= |entries|
    ensures Put(entries, e) == if m == |entries| then entries + [e] else entries[m := e]
    ensures Nodes(Put(entries, e)) == Placed(Nodes(entries), m, e.node)
    decreases entries
  {
    if entries == [] { m := 0; }
    else if entries[0].key == e.key {
      m := 0;
      assert [e] + entries[1..] == entries[0 := e];
    } else {
      var k := PutPlace(entries[1..], e);
      m := k + 1;
      BehindFirst(entries, k, e);
      NodesPlaced(entries, k + 1, e);
    }
  }

  lemma {:induction false} BehindFirst(entries: seq<Entry>, k: nat, e: Entry)
    requires entries != [] && k <= |entries| - 1
    ensures [entries[0]] + (if k == |entries[1..]| then entries[1..] + [e] else entries[1..][k := e])
         == if k + 1 == |entries| then entries + [e] else entries[k + 1 := e]
  {
    var rest := entries[1..];
    assert [entries[0]] + rest == entries;
    if k == |rest| { assert [entries[0]] + (rest + [e]) == entries + [e]; }
    else { assert [entries[0]] + rest[k := e] == entries[k + 1 := e]; }
  }

  lemma {:induction false} NodesPlaced(entries: seq<Entry>, m: nat, e: Entry)
    requires m <= |entries|
    ensures Nodes(if m == |entries| then entries + [e] else entries[m := e]) == Placed(Nodes(entries), m, e.node)
  {
  }

  /** A node read from `(hi, next]`, with only blanks behind it. */
  predicate Fresh(skip: seq<bool>, n: Node, hi: nat, next: nat)
    requires next <= |skip|
  {
    && hi < n.line <= n.endLine <= next
    && !skip[n.line - 1]
    && forall x :: n.endLine <= x < next ==> skip[x]
  }

  /** A well-placed node read behind line `i`, with only blanks behind it. */
  predicate Spanned(skip: seq<bool>, f: Found, i: nat) {
    f.next <= |skip| && NodeOk(skip, f.node) && Fresh(skip, f.node, i, f.next)
  }

  lemma {:induction false} LaidPut(skip: seq<bool>, entries: seq<Entry>, e: Entry, lo: nat, hi: nat, next: nat)
    requires lo <= hi <= next <= |skip| && Laid(skip, Nodes(entries), lo, hi) && Fresh(skip, e.node, hi, next)
    ensures Laid(skip, Nodes(Put(entries, e)), lo, next)
  {
    var m := PutPlace(entries, e);
    LaidReplace(skip, Nodes(entries), m, e.node, lo, hi, next);
  }

  lemma {:induction false} EntriesOkPut(skip: seq<bool>, entries: seq<Entry>, e: Entry)
    requires EntriesOk(skip, entries) && EntryOk(skip, e)
    ensures EntriesOk(skip, Put(entries, e))
  {
    var m := PutPlace(entries, e);
    var put := Put(entries, e);
    forall k | 0 <= k < |put| ensures EntryOk(skip, put[k]) {
      assert put[k] == if k == m then e else entries[k];
    }
  }

  lemma {:induction false} LaidAppend(skip: seq<bool>, items: seq<Node>, n: Node, lo: nat, hi: nat, next: nat)
    requires lo <= hi <= next <= |skip| && Laid(skip, items, lo, hi) && Increasing(items) && Fresh(skip, n, hi, next)
    ensures Laid(skip, items + [n], lo, next) && Increasing(items + [n])
  {
    LaidReplace(skip, items, |items|, n, lo, hi, next);
    var all := items + [n];
    forall j, k | 0 <= j < k < |all| ensures all[j].endLine < all[k].line {
      if k < |items| { assert items[j].endLine < items[k].line; }
    }
  }

  lemma ItemsOkAppend(skip: seq<bool>, items: seq<Node>, n: Node)
    requires ItemsOk(skip, items) && NodeOk(skip, n)
    ensures ItemsOk(skip, items + [n])
  {
  }

  /** A block's own span, ended at its last content line, covers its children exactly when it should. */
  lemma {:induction false} BlockSpanOk(skip: seq<bool>, v: Value, i: nat, lo: nat, next: nat)
    requires i <= lo && i < next <= |skip| && !skip[i] && !v.Str? && Laid(skip, Children(v), lo, next)
    requires v.Items? ==> Increasing(v.items)
    ensures SpanOk(skip, Node(v, i + 1, LastContent(skip, next, i)))
  {
    var p := Node(v, i + 1, LastContent(skip, next, i));
    BlockCovers(skip, v, i, lo, next);
    assert EndLineReal(skip, p);
    assert Children(p.v) == Children(v);
  }

  lemma {:induction false} BlockCovers(skip: seq<bool>, v: Value, i: nat, lo: nat, next: nat)
    requires i <= lo && i < next <= |skip| && !skip[i] && Laid(skip, Children(v), lo, next)
    ensures var p := Node(v, i + 1, LastContent(skip, next, i)); Covers(p) <==> EndsOnContent(skip, p)
  {
    var kids := Children(v);
    if kids != [] {
      var m :| 0 <= m < |kids| && IsLast(skip, kids, m, next);
      OnlyLast(skip, kids, m, lo, next);
      CoversExactly(skip, kids, m, i, next, lo);
      assert EndLineReal(skip, kids[m]) <==> !skip[kids[m].endLine - 1];
      CoversByLast(skip, Node(v, i + 1, LastContent(skip, next, i)), m);
    }
  }

  /** Only the child that starts last decides. */
  lemma {:induction false} CoversByLast(skip: seq<bool>, p: Node, m: nat)
    requires var kids := Children(p.v);
      && m < |kids| && (forall k :: 0 <= k < |kids| ==> (StartsLast(kids, k) <==> k == m))
      && (forall k :: 0 <= k < |kids| && k != m ==> kids[k].endLine <= p.endLine)
      && (kids[m].endLine <= p.endLine <==> EndLineReal(skip, kids[m]))
    ensures Covers(p) <==> EndsOnContent(skip, p)
  {
    assert StartsLast(Children(p.v), m);
  }

  lemma {:induction false} OnlyLast(skip: seq<bool>, kids: seq<Node>, m: nat, lo: nat, next: nat)
    requires next <= |skip| && Within(skip, kids, lo, next) && m < |kids| && IsLast(skip, kids, m, next)
    ensures forall k :: 0 <= k < |kids| ==> (StartsLast(kids, k) <==> k == m)
  {
    forall k | 0 <= k < |kids| && k != m ensures !StartsLast(kids, k) {
      assert kids[k].line < kids[m].line;
    }
  }

  lemma {:induction false} CoversExactly(skip: seq<bool>, kids: seq<Node>, m: nat, i: nat, next: nat, lo: nat)
    requires i <= lo && i < next <= |skip| && Laid(skip, kids, lo, next)
    requires m < |kids| && IsLast(skip, kids, m, next)
    ensures kids[m].endLine <= LastContent(skip, next, i) <==> !skip[kids[m].endLine - 1]
    ensures forall k :: 0 <= k < |kids| && k != m ==> kids[k].endLine <= LastContent(skip, next, i)
  {
    var end := LastContent(skip, next, i);
    var firstLine, lastLine := skip[kids[m].line - 1], skip[end - 1];
  }

  // ----- the parser lays its nodes well

  lemma {:induction false} SpansNode(lines: seq<string>, i: nat, indent: nat, lo: nat)
    requires lo <= i <= |lines|
    ensures var r := ParseNode(lines, i, indent); Read(Skips(lines), r.v, lo, r.next)
    decreases |lines| - i, if IsItemNode(lines, i, indent) then 5 else 1
  {
    var j := NextContent(lines, i);
    if j < |lines| && Indent(lines[j]) >= indent {
      if IsDash(Strip(lines[j])) { SpansSequence(lines, j, Indent(lines[j]), [], lo); }
      else { SpansMapping(lines, j, Indent(lines[j]), [], lo); }
    }
  }

  lemma {:induction false} SpansMapping(lines: seq<string>, start: nat, indent: nat, result: seq<Entry>, lo: nat)
    requires lo <= start <= |lines|
    requires Laid(Skips(lines), Nodes(result), lo, start) && EntriesOk(Skips(lines), result)
    ensures var r := ParseMapping(lines, start, indent, result);
      Laid(Skips(lines), Nodes(r.entries), lo, r.next) && EntriesOk(Skips(lines), r.entries)
    decreases |lines| - start, 0
  {
    var skip, i := Skips(lines), NextContent(lines, start);
    LaidExtend(skip, Nodes(result), lo, start, i);
    if IsKeyLine(lines, i, indent) {
      var a := ParseEntry(lines, i, indent);
      SpansEntry(lines, i, indent);
      LaidPut(skip, result, a.entry, lo, i, a.next);
      EntriesOkPut(skip, result, a.entry);
      SpansMapping(lines, a.next, indent, Put(result, a.entry), lo);
    }
  }

  lemma {:induction false} SpansEntry(lines: seq<string>, i: nat, indent: nat)
    requires IsKeyLine(lines, i, indent)
    ensures var a := ParseEntry(lines, i, indent);
      EntryOk(Skips(lines), a.entry) && Fresh(Skips(lines), a.entry.node, i, a.next)
    decreases |lines| - i - 1, 8
  {
    SpansValue(lines, i, indent, SplitKey(Strip(lines[i])).value.rest);
  }

  lemma {:induction false} SpansValue(lines: seq<string>, i: nat, indent: nat, rest: string)
    requires i < |lines| && !Skippable(lines[i])
    ensures var f := ParseValue(lines, i, indent, rest);
      Spanned(Skips(lines), f, i)
    decreases |lines| - i - 1, 7
  {
    var inline := Strip(Uncommented(rest));
    if IsBlockMarker(inline) { SpansText(lines, i, indent); }
    else if inline == "" { SpansBlock(lines, i, indent); }
    else { ScalarOk(Skips(lines), rest, i); }
  }

  lemma {:induction false} SpansText(lines: seq<string>, i: nat, indent: nat)
    requires i < |lines| && !Skippable(lines[i])
    ensures var f := ParseText(lines, i, indent);
      Spanned(Skips(lines), f, i)
  {
    var f := ParseText(lines, i, indent);
    TextTail(lines, i + 1, indent);
    LeafOk(Skips(lines), f.node);
  }

  lemma {:induction false} LeafOk(skip: seq<bool>, n: Node)
    requires n.v.Str? && 1 <= n.line <= n.endLine <= |skip| && !skip[n.line - 1]
    ensures NodeOk(skip, n)
  {
    assert Children(n.v) == [];
  }

  lemma {:induction false} TextTail(lines: seq<string>, i: nat, indent: nat)
    requires i <= |lines|
    ensures forall x :: i + |BlockBody(lines, i, indent)| <= x < BlockEnd(lines, i, indent) ==> Skips(lines)[x]
  {
    var end := BlockEnd(lines, i, indent);
    var read := BlankToEmpty(lines[i..end]);
    var body := DropTrailingEmpty(read);
    forall x | i + |body| <= x < end ensures Skips(lines)[x] {
      assert read[x - i] == "";
      assert lines[i..end][x - i] == lines[x];
    }
  }

  lemma {:induction false} SpansBlock(lines: seq<string>, i: nat, indent: nat)
    requires i < |lines| && !Skippable(lines[i])
    ensures var f := ParseBlock(lines, i, indent);
      Spanned(Skips(lines), f, i)
    decreases |lines| - i - 1, 6
  {
    var j := NextContent(lines, i + 1);
    if HasChild(lines, j, indent) {
      var p := ParseNode(lines, i + 1, Indent(lines[j]));
      SpansNode(lines, i + 1, Indent(lines[j]), i + 1);
      BlockNode(Skips(lines), p.v, i, i + 1, p.next);
    }
  }

  /** A block read behind line `i`, as a node that starts on that line. */
  lemma {:induction false} BlockNode(skip: seq<bool>, v: Value, i: nat, lo: nat, next: nat)
    requires i <= lo && i < next <= |skip| && !skip[i] && !v.Str? && Read(skip, v, lo, next)
    ensures Spanned(skip, Found(Node(v, i + 1, LastContent(skip, next, i)), next), i)
  {
    BlockSpanOk(skip, v, i, lo, next);
  }

  lemma {:induction false} SpansSequence(lines: seq<string>, start: nat, indent: nat, items: seq<Node>, lo: nat)
    requires lo <= start <= |lines|
    requires Read(Skips(lines), Items(items), lo, start)
    ensures var r := ParseSequence(lines, start, indent, items); Read(Skips(lines), Items(r.items), lo, r.next)
    decreases |lines| - start, 4
  {
    var skip, i := Skips(lines), NextContent(lines, start);
    LaidExtend(skip, items, lo, start, i);
    if IsItemLine(lines, i, indent) {
      var f := ParseItem(lines, i, indent);
      SpansItem(lines, i, indent);
      LaidAppend(skip, items, f.node, lo, i, f.next);
      ItemsOkAppend(skip, items, f.node);
      SpansSequence(lines, f.next, indent, items + [f.node], lo);
    }
  }

  lemma {:induction false} SpansItem(lines: seq<string>, i: nat, indent: nat)
    requires IsItemLine(lines, i, indent)
    ensures var f := ParseItem(lines, i, indent);
      Spanned(Skips(lines), f, i)
    decreases |lines| - i, 3
  {
    if Strip(lines[i]) == "-" {
      SpansBelow(lines, i, indent + 1);
    } else {
      var offset := ItemOffset(lines[i], indent);
      if SplitKey(Drop(lines[i], offset)).Some? {
        SpansPatched(lines, i, offset);
      } else {
        ScalarOk(Skips(lines), Drop(lines[i], offset), i);
      }
    }
  }

  /** An inline value on a content line. */
  lemma {:induction false} ScalarOk(skip: seq<bool>, raw: string, i: nat)
    requires i < |skip| && !skip[i]
    ensures Spanned(skip, Found(Node(Scalar(raw), i + 1, i + 1), i + 1), i)
  {
    assert Children(Scalar(raw)) == [];
  }

  lemma {:induction false} SpansPatched(lines: seq<string>, i: nat, offset: nat)
    requires i < |lines| && offset <= |lines[i]| && SplitKey(lines[i][offset..]).Some? && !Skippable(lines[i])
    ensures var p := ParseNode(lines[i := PatchLine(lines[i], offset)], i, offset);
      Spanned(Skips(lines), Found(Node(p.v, i + 1, LastContent(Skips(lines), p.next, i)), p.next), i)
    decreases |lines| - i, 3, 0
  {
    PatchedKeyLine(lines, i, offset);
    PatchedSkips(lines, i, offset);
    SpansFirst(lines[i := PatchLine(lines[i], offset)], i, offset);
  }

  /** The block behind line `i`. */
  lemma {:induction false} SpansBelow(lines: seq<string>, i: nat, indent: nat)
    requires i < |lines| && !Skippable(lines[i]) && !ParseNode(lines, i + 1, indent).v.Str?
    ensures var p := ParseNode(lines, i + 1, indent);
      Spanned(Skips(lines), Found(Node(p.v, i + 1, LastContent(Skips(lines), p.next, i)), p.next), i)
    decreases |lines| - i - 1, 6
  {
    var p := ParseNode(lines, i + 1, indent);
    SpansNode(lines, i + 1, indent, i + 1);
    BlockNode(Skips(lines), p.v, i, i + 1, p.next);
  }

  /** The mapping that starts on the dash line itself, once the dash is blanked out. */
  lemma {:induction false} SpansFirst(lines: seq<string>, i: nat, offset: nat)
    requires IsKeyLine(lines, i, offset) && NextContent(lines, i) == i
    ensures var p := ParseNode(lines, i, offset);
      Spanned(Skips(lines), Found(Node(p.v, i + 1, LastContent(Skips(lines), p.next, i)), p.next), i)
    decreases |lines| - i, 2
  {
    var p := ParseNode(lines, i, offset);
    SpansNode(lines, i, offset, i);
    BlockNode(Skips(lines), p.v, i, i, p.next);
  }

  /** Blanking out the dash of a content line leaves it one. */
  lemma {:induction false} PatchedSkips(lines: seq<string>, i: nat, offset: nat)
    requires i < |lines| && offset <= |lines[i]| && SplitKey(lines[i][offset..]).Some? && !Skippable(lines[i])
    ensures Skips(lines[i := PatchLine(lines[i], offset)]) == Skips(lines)
  {
    PatchedKeyLine(lines, i, offset);
  }

  // ----- whole files

  function Lines(text: string): seq<string> { Split(Untab(text), '\n') }

  /** Every node of a parsed file, at every depth, has a good span; see `SpanOk`. */
  lemma {:induction false} FileSpans(text: string)
    ensures forall k :: 0 <= k < |Children(ParseYaml(text))| ==>
      NodeOk(Skips(Lines(text)), Children(ParseYaml(text))[k])
    ensures Apart(Children(ParseYaml(text)))
  {
    SpansNode(Lines(text), 0, 0, 0);
    var v := ParseYaml(text);
    if v.Dict? {
      forall k | 0 <= k < |v.entries| ensures NodeOk(Skips(Lines(text)), Nodes(v.entries)[k]) {
        assert EntryOk(Skips(Lines(text)), v.entries[k]);
      }
    }
  }

  /** No block scalar below `p` ends on a `#` line. */
  predicate TextsEndOnContent(skip: seq<bool>, p: Node) {
    match p.v
    case Str(_) => EndLineReal(skip, p)
    case Items(items) => forall k :: 0 <= k < |items| ==> TextsEndOnContent(skip, items[k])
    case Dict(entries) => forall k :: 0 <= k < |entries| ==> EntryEndsOnContent(skip, entries[k])
    case _ => true
  }

  predicate EntryEndsOnContent(skip: seq<bool>, e: Entry) { TextsEndOnContent(skip, e.node) }

  /** Every span below `p` lies inside its parent's. */
  predicate Nested(p: Node) {
    && Covers(p)
    && match p.v
       case Items(items) => forall k :: 0 <= k < |items| ==> Nested(items[k])
       case Dict(entries) => forall k :: 0 <= k < |entries| ==> EntryNested(entries[k])
       case _ => true
  }

  predicate EntryNested(e: Entry) { Nested(e.node) }

  /** Without a block scalar that ends on a `#` line, all spans nest. */
  lemma {:induction false} SpansNest(skip: seq<bool>, p: Node)
    requires NodeOk(skip, p) && TextsEndOnContent(skip, p)
    ensures Nested(p) && EndLineReal(skip, p)
    decreases p
  {
    match p.v
    case Items(items) =>
      forall k | 0 <= k < |items| ensures Nested(items[k]) && EndLineReal(skip, Children(p.v)[k]) {
        SpansNest(skip, items[k]);
      }
      assert EndsOnContent(skip, p);
    case Dict(entries) =>
      forall k | 0 <= k < |entries| ensures EntryNested(entries[k]) && EndLineReal(skip, Children(p.v)[k]) {
        NestEntry(skip, entries[k]);
      }
      assert EndsOnContent(skip, p);
    case _ =>
      assert Children(p.v) == [];
  }

  lemma {:induction false} NestEntry(skip: seq<bool>, e: Entry)
    requires EntryOk(skip, e) && EntryEndsOnContent(skip, e)
    ensures EntryNested(e) && EndLineReal(skip, e.node)
    decreases e
  {
    SpansNest(skip, e.node);
  }
}
