/** Printing a tree and parsing the file gives the tree back. */
module YamlRoundTrip {
  import opened Wrappers
  import opened Text
  import opened YamlLines
  import opened YamlParser
  import opened YamlPrint
  import opened YamlInline

  predicate Window(lines: seq<string>, i: nat, block: seq<string>) {
    i + |block| <= |lines| && lines[i..i + |block|] == block
  }

  /** Only empty lines from `p` on. */
  predicate AtEnd(lines: seq<string>, p: nat) {
    p <= |lines| && forall k :: p <= k < |lines| ==> lines[k] == ""
  }

  /** The block at column `n` is over at `p`: the file is, or a shallower content line stands there. */
  predicate Over(lines: seq<string>, p: nat, n: nat) {
    AtEnd(lines, p) || (p < |lines| && !Skippable(lines[p]) && Indent(lines[p]) < n)
  }

  /** Where the parser's line index rests after a block that is over at `p`. */
  function Rest(lines: seq<string>, p: nat): nat {
    if AtEnd(lines, p) then |lines| else p
  }

  lemma {:induction false} NextContentRest(lines: seq<string>, p: nat, n: nat)
    requires Over(lines, p, n)
    ensures p <= |lines| && NextContent(lines, p) == Rest(lines, p)
    decreases |lines| - p
  {
    if AtEnd(lines, p) && p < |lines| {
      assert Strip("") == "";
      NextContentRest(lines, p + 1, n);
    }
  }

  /** What may follow a pair at column `n`. */
  predicate AfterPair(lines: seq<string>, p: nat, n: nat) {
    Over(lines, p, n) || IsKeyLine(lines, p, n)
  }

  predicate AfterItem(lines: seq<string>, p: nat, n: nat) {
    Over(lines, p, n) || IsItemLine(lines, p, n)
  }

  lemma {:induction false} AfterIsOver(lines: seq<string>, p: nat, n: nat, m: nat)
    requires n < m && (AfterPair(lines, p, n) || AfterItem(lines, p, n))
    ensures Over(lines, p, m)
  {
  }

  /** The tail of a printed pair's first line. */
  function HeadTail(t: Tree): string {
    if t.Literal? then " |" else if IsInline(t) then " " + InlineText(t) else ""
  }

  lemma {:induction false} PairHead(p: Pair, n: nat, w: nat, lines: seq<string>, i: nat)
    requires PairOk(p) && Window(lines, i, PairLines(p, n, w))
    ensures IsKeyLine(lines, i, n) && NextContent(lines, i) == i
    ensures SplitKey(Strip(lines[i])) == Some(KeyRest(p.key.s, HeadTail(p.value)))
  {
    assert lines[i] == PairLines(p, n, w)[0];
    var tail := HeadTail(p.value);
    if IsInline(p.value) {
      InlineTrimmed(p.value);
      assert tail[1..] == InlineText(p.value);
    }
    HeadIsKeyLine(p.key, n, tail, lines, i);
  }

  lemma {:induction false} PairsSplit(pairs: seq<Pair>, n: nat, w: nat)
    requires pairs != []
    ensures MappingLines(pairs, n, w) == PairLines(pairs[0], n, w) + MappingLines(pairs[1..], n, w)
  {
  }

  lemma {:induction false} ItemsSplit(items: seq<Tree>, n: nat, w: nat)
    requires items != []
    ensures ListLines(items, n, w) == ItemLines(items[0], n, w) + ListLines(items[1..], n, w)
  {
  }

  lemma {:induction false} MappingParts(pairs: seq<Pair>, n: nat, w: nat, lines: seq<string>, i: nat)
    requires pairs != [] && Window(lines, i, MappingLines(pairs, n, w))
    ensures Window(lines, i, PairLines(pairs[0], n, w))
    ensures Window(lines, i + |PairLines(pairs[0], n, w)|, MappingLines(pairs[1..], n, w))
  {
    PairsSplit(pairs, n, w);
    WholeSplit(lines, i, MappingLines(pairs, n, w), PairLines(pairs[0], n, w), MappingLines(pairs[1..], n, w));
  }

  lemma {:induction false} MappingHead(pairs: seq<Pair>, n: nat, w: nat, lines: seq<string>, i: nat)
    requires pairs != [] && PairsOk(pairs) && Window(lines, i, MappingLines(pairs, n, w))
    ensures IsKeyLine(lines, i, n) && NextContent(lines, i) == i
    ensures Window(lines, i, PairLines(pairs[0], n, w))
    ensures Window(lines, i + |PairLines(pairs[0], n, w)|, MappingLines(pairs[1..], n, w))
  {
    MappingParts(pairs, n, w, lines, i);
    PairHead(pairs[0], n, w, lines, i);
  }

  lemma {:induction false} WindowSplit(lines: seq<string>, i: nat, a: seq<string>, b: seq<string>)
    requires Window(lines, i, a + b)
    ensures Window(lines, i, a) && Window(lines, i + |a|, b)
  {
    assert lines[i..i + |a|] == lines[i..i + |a + b|][..|a|];
    assert lines[i + |a|..i + |a| + |b|] == lines[i..i + |a + b|][|a|..];
  }

  lemma {:induction false} WholeSplit(lines: seq<string>, i: nat, whole: seq<string>, a: seq<string>, b: seq<string>)
    requires whole == a + b && Window(lines, i, whole)
    ensures Window(lines, i, a) && Window(lines, i + |a|, b)
  {
    WindowSplit(lines, i, a, b);
  }

  lemma {:induction false} InlineItemHead(t: Tree, n: nat, lines: seq<string>, i: nat)
    requires IsInline(t) && InlineOk(t)
    requires i < |lines| && lines[i] == Spaces(n) + ("- " + InlineText(t))
    ensures IsItemLine(lines, i, n) && NextContent(lines, i) == i && Strip(lines[i]) != "-"
    ensures ItemOffset(lines[i], n) == n + 2 && Drop(lines[i], n + 2) == InlineText(t)
  {
    InlineTrimmed(t);
    DashIsItemLine("- " + InlineText(t), n, lines, i);
  }

  lemma {:induction false} MappingItemHead(first: string, n: nat, lines: seq<string>, i: nat)
    requires KeyText(first, n + 2)
    requires i < |lines| && lines[i] == Spaces(n) + ("- " + Drop(first, n + 2))
    ensures IsItemLine(lines, i, n) && NextContent(lines, i) == i && Strip(lines[i]) != "-"
    ensures ItemOffset(lines[i], n) == n + 2 && SplitKey(Drop(lines[i], n + 2)).Some?
    ensures PatchLine(lines[i], n + 2) == first
  {
    var x := Drop(first, n + 2);
    DashText(x);
    DashIsItemLine("- " + x, n, lines, i);
    PatchedIs(lines[i], first, n + 2);
  }

  lemma {:induction false} DashText(x: string)
    requires x != "" && Trimmed(x) && x[0] != ' '
    ensures var y := "- " + x; "- " <= y && |y| > 2 && Trimmed(y) && y[2] != ' ' && y[2..] == x
  {
  }

  lemma {:induction false} PatchedIs(line: string, first: string, n: nat)
    requires Drop(line, n) == Drop(first, n) && first == Spaces(n) + Drop(first, n)
    ensures PatchLine(line, n) == first
  {
  }

  lemma {:induction false} ItemHead(t: Tree, n: nat, w: nat, lines: seq<string>, i: nat)
    requires ItemOk(t) && Window(lines, i, ItemLines(t, n, w))
    ensures IsItemLine(lines, i, n) && NextContent(lines, i) == i
  {
    assert lines[i] == ItemLines(t, n, w)[0];
    if IsInline(t) {
      InlineItemHead(t, n, lines, i);
    } else if t.Mapping? {
      FirstLine(t.pairs, n + 2, w);
      MappingItemHead(MappingLines(t.pairs, n + 2, w)[0], n, lines, i);
    } else {
      DashIsItemLine("-", n, lines, i);
    }
  }

  /** The first line of a printed pair is a trimmed key text behind its indentation. */
  lemma {:induction false} PairFirst(p: Pair, n: nat, w: nat)
    requires PairOk(p)
    ensures KeyText(PairLines(p, n, w)[0], n)
  {
    var tail := HeadTail(p.value);
    if IsInline(p.value) {
      InlineTrimmed(p.value);
      assert tail[1..] == InlineText(p.value);
    }
    var x := Written(p.key) + ":" + tail;
    assert PairLines(p, n, w)[0] == Spaces(n) + x;
    assert (Spaces(n) + x)[n..] == x;
    HeadTrimmed(p.key, tail);
    KeyReadsBack(p.key, tail);
  }

  predicate KeyText(line: string, n: nat) {
    var x := Drop(line, n);
    line == Spaces(n) + x && x != "" && Trimmed(x) && x[0] != ' ' && SplitKey(x).Some?
  }

  lemma {:induction false} FirstLine(pairs: seq<Pair>, n: nat, w: nat)
    requires pairs != [] && PairsOk(pairs)
    ensures KeyText(MappingLines(pairs, n, w)[0], n)
  {
    PairFirst(pairs[0], n, w);
  }

  // ----- one node

  lemma {:induction false} NodeAtKey(lines: seq<string>, j: nat, m: nat, indent: nat)
    requires IsKeyLine(lines, j, m) && NextContent(lines, j) == j && indent <= m
    ensures ParseNode(lines, j, indent)
         == (var p := ParseMapping(lines, j, m, []); Parsed(Dict(p.entries), p.next))
  {
    assert Strip(lines[j]) != "-";
  }

  lemma {:induction false} NodeAtItem(lines: seq<string>, j: nat, m: nat, indent: nat)
    requires IsItemLine(lines, j, m) && NextContent(lines, j) == j && indent <= m
    ensures ParseNode(lines, j, indent)
         == (var p := ParseSequence(lines, j, m, []); Parsed(Items(p.items), p.next))
  {
  }

  /** What a printed value, starting at line `i` and ending before `after`, is parsed to. */
  predicate ReadAs(e: Found, t: Tree, n: nat, lines: seq<string>, after: nat) {
    && Erase(e.node.v) == Meaning(t)
    && (e.next == after || (Over(lines, after, n) && e.next == Rest(lines, after)))
  }

  predicate PairRead(p: Pair, n: nat, lines: seq<string>, i: nat, after: nat)
    requires i < |lines|
  {
    ReadAs(ParseValue(lines, i, n, HeadTail(p.value)), p.value, n, lines, after)
  }

  lemma {:induction false} EmptyStrips()
    ensures Strip(Uncommented("")) == ""
  {
  }

  lemma {:induction false} NoChildAfter(lines: seq<string>, p: nat, n: nat)
    requires AfterPair(lines, p, n)
    ensures p <= |lines| && !HasChild(lines, NextContent(lines, p), n)
  {
    if Over(lines, p, n) { NextContentRest(lines, p, n); }
  }

  lemma {:induction false} NothingPair(p: Pair, n: nat, lines: seq<string>, i: nat)
    requires p.value.Nothing? && i < |lines| && AfterPair(lines, i + 1, n)
    ensures PairRead(p, n, lines, i, i + 1)
  {
    EmptyStrips();
    NoChildAfter(lines, i + 1, n);
  }

  lemma {:induction false} InlinePair(p: Pair, n: nat, lines: seq<string>, i: nat)
    requires PairOk(p) && IsInline(p.value) && i < |lines|
    ensures PairRead(p, n, lines, i, i + 1)
  {
    InlineStrips(p.value, " ");
    InlineTrimmed(p.value);
    InlineReadsBack(p.value, " ");
  }

  lemma {:induction false} MarkerStrips()
    ensures Strip(Uncommented(" |")) == "|"
  {
    NoCommentNoCut(" |", 0, None);
    assert " |"[..2] == " |" == " " + "|";
    StripLead(" ", "|");
  }

  /** Printed lines of a `|` text, deeper than `n`, that are read back as the text. */
  predicate Prints(printed: seq<string>, body: seq<string>, n: nat) {
    IsBody(printed, n) && |printed| == |body| && BlockText(printed) == Join(body, "\n")
  }

  lemma {:induction false} LiteralPrints(body: seq<string>, m: nat, n: nat, printed: seq<string>)
    requires LiteralOk(body) && n < m && printed == Indented(body, m)
    ensures Prints(printed, body, n)
  {
    LiteralBody(body, m, n);
    LiteralReadsBack(body, m);
  }

  lemma {:induction false} LiteralPair(
    p: Pair, n: nat, lines: seq<string>, i: nat, after: nat, block: seq<string>, printed: seq<string>)
    requires p.value.Literal? && Prints(printed, p.value.body, n)
    requires block == [Head(p.key, n, " |")] + printed && Window(lines, i, block)
    requires after == i + |block| && AfterPair(lines, after, n)
    ensures PairRead(p, n, lines, i, after)
  {
    WindowSplit(lines, i, [Head(p.key, n, " |")], printed);
    PairStops(lines, after, n);
    TextRead(p.value.body, printed, n, lines, i, Rest(lines, after));
    LiteralMeaning(p, p.value.body, n, lines, i, after);
  }

  lemma {:induction false} LiteralMeaning(p: Pair, body: seq<string>, n: nat, lines: seq<string>, i: nat, after: nat)
    requires p.value == Literal(body) && i < |lines|
    requires ParseText(lines, i, n) == Found(Node(Str(Join(body, "\n")), i + 1, after), Rest(lines, after))
    requires Rest(lines, after) == after || Over(lines, after, n)
    ensures PairRead(p, n, lines, i, after)
  {
    MarkerValue(lines, i, n);
    var found := ParseValue(lines, i, n, " |");
    assert HeadTail(p.value) == " |" && Erase(found.node.v) == Meaning(p.value);
    assert ReadAs(found, p.value, n, lines, after);
  }

  lemma {:induction false} MarkerValue(lines: seq<string>, i: nat, n: nat)
    requires i < |lines|
    ensures ParseValue(lines, i, n, " |") == ParseText(lines, i, n)
  {
    MarkerStrips();
  }

  lemma {:induction false} LiteralBody(body: seq<string>, m: nat, n: nat)
    requires LiteralOk(body) && n < m
    ensures IsBody(Indented(body, m), n)
  {
    PrintedIsBody(body, m);
    IsBodyShallower(Indented(body, m), m - 1, n);
  }

  lemma {:induction false} TextRead(
    body: seq<string>, printed: seq<string>, n: nat, lines: seq<string>, i: nat, end: nat)
    requires IsBody(printed, n) && i < |lines| && Window(lines, i + 1, printed)
    requires |printed| == |body| && BlockText(printed) == Join(body, "\n") && Stops(lines, i + 1 + |body|, end, n)
    ensures ParseText(lines, i, n) == Found(Node(Str(Join(body, "\n")), i + 1, i + 1 + |body|), end)
  {
    BodyText(printed, n, lines, i, end);
  }

  lemma {:induction false} BodyText(printed: seq<string>, n: nat, lines: seq<string>, i: nat, end: nat)
    requires IsBody(printed, n) && i < |lines| && Window(lines, i + 1, printed)
    requires Stops(lines, i + 1 + |printed|, end, n)
    ensures ParseText(lines, i, n) == Found(Node(Str(BlockText(printed)), i + 1, i + 1 + |printed|), end)
  {
    BodyEnd(printed, n, lines, i + 1, end);
    BodyRead(printed, n, lines, i + 1, end);
  }

  lemma {:induction false} WindowAt(lines: seq<string>, i: nat, block: seq<string>, k: nat)
    requires Window(lines, i, block) && k < |block|
    ensures lines[i + k] == block[k]
  {
    assert lines[i..i + |block|][k] == lines[i + k];
  }

  /** Behind a pair the block scalar reader sees empty lines, then nothing or a line it stops at. */
  predicate Stops(lines: seq<string>, p: nat, end: nat, n: nat) {
    && p <= end <= |lines|
    && (forall k :: p <= k < end ==> lines[k] == "")
    && (end < |lines| ==> !Blank(lines[end]) && Indent(lines[end]) <= n)
  }

  lemma {:induction false} PairStops(lines: seq<string>, p: nat, n: nat)
    requires AfterPair(lines, p, n)
    ensures Stops(lines, p, Rest(lines, p), n)
    ensures Rest(lines, p) == p || Over(lines, p, n)
  {
  }

  /** Lines a block scalar below column `n` takes in as they are. */
  predicate IsBody(printed: seq<string>, n: nat) {
    && (printed != [] ==> printed[|printed| - 1] != "")
    && forall k :: 0 <= k < |printed| && printed[k] != "" ==> PrintedDeeper(printed[k], n)
  }

  lemma {:induction false} PrintedIsBody(body: seq<string>, m: nat)
    requires LiteralOk(body) && m > 0
    ensures IsBody(Indented(body, m), m - 1)
  {
    forall k | 0 <= k < |body| && Indented(body, m)[k] != "" ensures PrintedDeeper(Indented(body, m)[k], m - 1) {
      PrintedLine(body, m, k);
    }
  }

  predicate PrintedDeeper(line: string, n: nat) { !Blank(line) && Indent(line) > n }

  lemma {:induction false} PrintedLine(body: seq<string>, m: nat, k: nat)
    requires LiteralOk(body) && m > 0 && k < |body| && Indented(body, m)[k] != ""
    ensures PrintedDeeper(Indented(body, m)[k], m - 1)
  {
    IndentedLine(body, m, k);
  }

  lemma {:induction false} IsBodyShallower(printed: seq<string>, m: nat, n: nat)
    requires IsBody(printed, m) && n <= m
    ensures IsBody(printed, n)
  {
  }

  lemma {:induction false} BodyEnd(printed: seq<string>, n: nat, lines: seq<string>, i: nat, end: nat)
    requires IsBody(printed, n) && Window(lines, i, printed) && Stops(lines, i + |printed|, end, n)
    ensures BlockEnd(lines, i, n) == end
  {
    forall k | i <= k < end ensures Blank(lines[k]) || Indent(lines[k]) > n {
      if k < i + |printed| { WindowAt(lines, i, printed, k - i); }
    }
    BlockEndsAt(lines, i, n, end);
  }

  lemma {:induction false} BodyRead(printed: seq<string>, n: nat, lines: seq<string>, i: nat, end: nat)
    requires IsBody(printed, n) && Window(lines, i, printed) && Stops(lines, i + |printed|, end, n)
    ensures DropTrailingEmpty(BlankToEmpty(lines[i..end])) == printed
  {
    var read := BlankToEmpty(lines[i..end]);
    forall k | 0 <= k < |printed| ensures read[k] == printed[k] {
      WindowAt(lines, i, printed, k);
    }
    forall k | |printed| <= k < |read| ensures read[k] == "" {
      assert lines[i + k] == "";
    }
    DropTrailingExact(read, |printed|);
    assert read[..|printed|] == printed;
  }

  // ----- nested blocks

  /** The block below a key line that ends with its colon. */
  lemma {:induction false} BlockValue(lines: seq<string>, i: nat, n: nat, m: nat)
    requires i + 1 < |lines| && n < m && NextContent(lines, i + 1) == i + 1 && Indent(lines[i + 1]) == m
    ensures var p := ParseNode(lines, i + 1, m);
      ParseValue(lines, i, n, "") == Found(Node(p.v, i + 1, LastContent(Skips(lines), p.next, i)), p.next)
  {
    EmptyStrips();
  }

  predicate BlockRead(v: Parsed, t: Tree, lines: seq<string>, after: nat) {
    Erase(v.v) == Meaning(t) && v.next == Rest(lines, after)
  }

  lemma {:induction false} BlockPair(p: Pair, n: nat, m: nat, lines: seq<string>, i: nat, after: nat)
    requires p.value.List? || p.value.Mapping?
    requires i + 1 < |lines| && n < m && NextContent(lines, i + 1) == i + 1 && Indent(lines[i + 1]) == m
    requires BlockRead(ParseNode(lines, i + 1, m), p.value, lines, after)
    requires Rest(lines, after) == after || Over(lines, after, n)
    ensures PairRead(p, n, lines, i, after)
  {
    BlockValue(lines, i, n, m);
  }

  lemma {:induction false} PairRoundTrip(p: Pair, n: nat, w: nat, lines: seq<string>, i: nat, after: nat)
    requires PairOk(p) && w > 0
    requires Window(lines, i, PairLines(p, n, w)) && after == i + |PairLines(p, n, w)|
    requires AfterPair(lines, after, n)
    ensures PairRead(p, n, lines, i, after)
    decreases p, 0
  {
    match p.value
    case List(items) => ListPair(p, items, n, w, lines, i, after);
    case Mapping(pairs) => MappingPair(p, pairs, n, w, lines, i, after);
    case _ => LeafPair(p, n, w, lines, i, after);
  }

  lemma {:induction false} LeafPair(p: Pair, n: nat, w: nat, lines: seq<string>, i: nat, after: nat)
    requires PairOk(p) && w > 0 && !p.value.List? && !p.value.Mapping?
    requires Window(lines, i, PairLines(p, n, w)) && after == i + |PairLines(p, n, w)|
    requires AfterPair(lines, after, n)
    ensures PairRead(p, n, lines, i, after)
  {
    match p.value
    case Nothing => NothingPair(p, n, lines, i);
    case Literal(body) => LiteralLeaf(p, body, n, w, lines, i, after);
    case _ => InlinePair(p, n, lines, i);
  }

  lemma {:induction false} LiteralLeaf(
    p: Pair, body: seq<string>, n: nat, w: nat, lines: seq<string>, i: nat, after: nat)
    requires p.value == Literal(body) && LiteralOk(body) && w > 0
    requires Window(lines, i, [Head(p.key, n, " |")] + Indented(body, n + w))
    requires after == i + 1 + |body| && AfterPair(lines, after, n)
    ensures PairRead(p, n, lines, i, after)
  {
    var m := LiteralWindow(Head(p.key, n, " |"), body, n, w, lines, i);
    LiteralBlock(p, body, n, m, lines, i, after);
  }

  lemma {:induction false} LiteralWindow(
    head: string, body: seq<string>, n: nat, w: nat, lines: seq<string>, i: nat) returns (m: nat)
    requires w > 0 && Window(lines, i, [head] + Indented(body, n + w))
    ensures n < m && Window(lines, i, [head] + Indented(body, m))
  {
    m := n + w;
  }

  lemma {:induction false} LiteralBlock(
    p: Pair, body: seq<string>, n: nat, m: nat, lines: seq<string>, i: nat, after: nat)
    requires p.value == Literal(body) && LiteralOk(body) && n < m
    requires Window(lines, i, [Head(p.key, n, " |")] + Indented(body, m))
    requires after == i + 1 + |body| && AfterPair(lines, after, n)
    ensures PairRead(p, n, lines, i, after)
  {
    var printed := Printed(body, m, n);
    LiteralPair(p, n, lines, i, after, [Head(p.key, n, " |")] + printed, printed);
  }

  lemma {:induction false} Printed(body: seq<string>, m: nat, n: nat) returns (printed: seq<string>)
    requires LiteralOk(body) && n < m
    ensures printed == Indented(body, m) && Prints(printed, body, n)
  {
    printed := Indented(body, m);
    LiteralPrints(body, m, n, printed);
  }

  lemma {:induction false} BlockBehind(
    head: string, block: seq<string>, n: nat, w: nat, lines: seq<string>, i: nat, after: nat)
    requires Window(lines, i, [head] + block) && after == i + 1 + |block| && w > 0 && AfterPair(lines, after, n)
    ensures Window(lines, i + 1, block) && Over(lines, after, n + w)
    ensures Rest(lines, after) == after || Over(lines, after, n)
  {
    WindowSplit(lines, i, [head], block);
    AfterIsOver(lines, after, n, n + w);
    PairStops(lines, after, n);
  }

  lemma {:induction false} ListPair(p: Pair, items: seq<Tree>, n: nat, w: nat, lines: seq<string>, i: nat, after: nat)
    requires p.value == List(items) && items != [] && ItemsOk(items) && w > 0
    requires Window(lines, i, [Head(p.key, n, "")] + ListLines(items, n + w, w))
    requires after == i + 1 + |ListLines(items, n + w, w)| && AfterPair(lines, after, n)
    ensures PairRead(p, n, lines, i, after)
    decreases items, 4
  {
    BlockBehind(Head(p.key, n, ""), ListLines(items, n + w, w), n, w, lines, i, after);
    ListBlock(items, n + w, w, lines, i + 1, n + w, after);
    BlockPair(p, n, n + w, lines, i, after);
  }

  lemma {:induction false} MappingPair(
    p: Pair, pairs: seq<Pair>, n: nat, w: nat, lines: seq<string>, i: nat, after: nat)
    requires p.value == Mapping(pairs) && pairs != [] && PairsOk(pairs) && w > 0
    requires Window(lines, i, [Head(p.key, n, "")] + MappingLines(pairs, n + w, w))
    requires after == i + 1 + |MappingLines(pairs, n + w, w)| && AfterPair(lines, after, n)
    ensures PairRead(p, n, lines, i, after)
    decreases pairs, 4
  {
    BlockBehind(Head(p.key, n, ""), MappingLines(pairs, n + w, w), n, w, lines, i, after);
    MappingBlock(pairs, n + w, w, lines, i + 1, n + w, after);
    BlockPair(p, n, n + w, lines, i, after);
  }

  /** A printed block is parsed to what it means, and the parser rests behind it. */
  lemma {:induction false} ListBlock(
    items: seq<Tree>, n: nat, w: nat, lines: seq<string>, i: nat, indent: nat, after: nat)
    requires items != [] && ItemsOk(items) && w > 0 && indent <= n
    requires Window(lines, i, ListLines(items, n, w)) && after == i + |ListLines(items, n, w)|
    requires Over(lines, after, n)
    ensures i < |lines| && NextContent(lines, i) == i && Indent(lines[i]) == n
    ensures BlockRead(ParseNode(lines, i, indent), List(items), lines, after)
    decreases items, 3
  {
    ListHead(items, n, w, lines, i);
    ListAt(items, n, w, lines, i, after);
    ListFromEmpty(items, n, w, lines, i, Rest(lines, after), ParseSequence(lines, i, n, []));
    ListNode(items, n, lines, i, indent, after, ParseSequence(lines, i, n, []));
  }

  lemma {:induction false} ListAt(items: seq<Tree>, n: nat, w: nat, lines: seq<string>, i: nat, after: nat)
    requires ItemsOk(items) && w > 0 && Over(lines, after, n)
    requires Window(lines, i, ListLines(items, n, w)) && after == i + |ListLines(items, n, w)|
    ensures ItemsAt(items, n, w, lines, i, Rest(lines, after))
  {
  }

  lemma {:induction false} ListNode(
    items: seq<Tree>, n: nat, lines: seq<string>, i: nat, indent: nat, after: nat, r: Listed)
    requires IsItemLine(lines, i, n) && NextContent(lines, i) == i && indent <= n
    requires r == ParseSequence(lines, i, n, [])
    requires EraseItems(r.items) == ItemMeanings(items) && r.next == Rest(lines, after)
    ensures BlockRead(ParseNode(lines, i, indent), List(items), lines, after)
  {
    NodeAtItem(lines, i, n, indent);
  }

  lemma {:induction false} ListFromEmpty(
    items: seq<Tree>, n: nat, w: nat, lines: seq<string>, i: nat, stop: nat, r: Listed)
    requires ItemsAt(items, n, w, lines, i, stop) && r == ParseSequence(lines, i, n, [])
    ensures EraseItems(r.items) == ItemMeanings(items) && r.next == stop
    decreases items, 2
  {
    ListRoundTrip(items, n, w, lines, i, [], r, stop);
    ItemsFromEmpty(r, items, stop);
  }

  lemma {:induction false} MappingBlock(
    pairs: seq<Pair>, n: nat, w: nat, lines: seq<string>, i: nat, indent: nat, after: nat)
    requires pairs != [] && PairsOk(pairs) && w > 0 && indent <= n
    requires Window(lines, i, MappingLines(pairs, n, w)) && after == i + |MappingLines(pairs, n, w)|
    requires Over(lines, after, n)
    ensures i < |lines| && NextContent(lines, i) == i && Indent(lines[i]) == n
    ensures BlockRead(ParseNode(lines, i, indent), Mapping(pairs), lines, after)
    decreases pairs, 3
  {
    MappingHead(pairs, n, w, lines, i);
    MappingAt(pairs, n, w, lines, i, after);
    MappingFromEmpty(pairs, n, w, lines, i, Rest(lines, after), ParseMapping(lines, i, n, []));
    MappingNode(pairs, n, lines, i, indent, after, ParseMapping(lines, i, n, []));
  }

  lemma {:induction false} MappingAt(pairs: seq<Pair>, n: nat, w: nat, lines: seq<string>, i: nat, after: nat)
    requires PairsOk(pairs) && w > 0 && Over(lines, after, n)
    requires Window(lines, i, MappingLines(pairs, n, w)) && after == i + |MappingLines(pairs, n, w)|
    ensures PairsAt(pairs, n, w, lines, i, [], Rest(lines, after))
  {
    NoKeys(pairs);
  }

  lemma {:induction false} MappingNode(
    pairs: seq<Pair>, n: nat, lines: seq<string>, i: nat, indent: nat, after: nat, r: Mapped)
    requires IsKeyLine(lines, i, n) && NextContent(lines, i) == i && indent <= n
    requires r == ParseMapping(lines, i, n, [])
    requires EraseEntries(r.entries) == PairMeanings(pairs) && r.next == Rest(lines, after)
    ensures BlockRead(ParseNode(lines, i, indent), Mapping(pairs), lines, after)
  {
    NodeAtKey(lines, i, n, indent);
  }

  lemma {:induction false} MappingFromEmpty(
    pairs: seq<Pair>, n: nat, w: nat, lines: seq<string>, i: nat, stop: nat, r: Mapped)
    requires PairsAt(pairs, n, w, lines, i, [], stop) && r == ParseMapping(lines, i, n, [])
    ensures EraseEntries(r.entries) == PairMeanings(pairs) && r.next == stop
    decreases pairs, 2
  {
    MappingRoundTrip(pairs, n, w, lines, i, [], r, stop);
    PairsFromEmpty(r, pairs, stop);
  }

  /** The entries read are those there were and those printed. */
  predicate PairsRead(r: Mapped, before: seq<Entry>, pairs: seq<Pair>, next: nat) {
    EraseEntries(r.entries) == EntriesThen(before, pairs) && r.next == next
  }

  function EntriesThen(before: seq<Entry>, pairs: seq<Pair>): seq<Field> { EraseEntries(before) + PairMeanings(pairs) }

  function ItemsThen(before: seq<Node>, items: seq<Tree>): seq<Data> { EraseItems(before) + ItemMeanings(items) }

  lemma {:induction false} PairsDone(r: Mapped, pairs: seq<Pair>)
    requires pairs == []
    ensures PairsRead(r, r.entries, pairs, r.next)
  {
  }

  lemma {:induction false} ItemsDone(r: Listed, items: seq<Tree>)
    requires items == []
    ensures ItemsRead(r, r.items, items, r.next)
  {
  }

  lemma {:induction false} PairsFromEmpty(r: Mapped, pairs: seq<Pair>, next: nat)
    requires PairsRead(r, [], pairs, next)
    ensures EraseEntries(r.entries) == PairMeanings(pairs) && r.next == next
  {
    FromEmpty(EraseEntries([]), PairMeanings(pairs));
  }

  lemma {:induction false} PairsOneMore(r: Mapped, before: seq<Entry>, e: Entry, pairs: seq<Pair>, next: nat)
    requires pairs != [] && EraseEntries(before + [e]) == EraseEntries(before) + [PairMeaning(pairs[0])]
    requires PairsRead(r, before + [e], pairs[1..], next)
    ensures PairsRead(r, before, pairs, next)
  {
    Append(EraseEntries(before), PairMeaning(pairs[0]), PairMeanings(pairs[1..]));
  }

  predicate ItemsRead(r: Listed, before: seq<Node>, items: seq<Tree>, next: nat) {
    EraseItems(r.items) == ItemsThen(before, items) && r.next == next
  }

  lemma {:induction false} ItemsFromEmpty(r: Listed, items: seq<Tree>, next: nat)
    requires ItemsRead(r, [], items, next)
    ensures EraseItems(r.items) == ItemMeanings(items) && r.next == next
  {
    FromEmpty(EraseItems([]), ItemMeanings(items));
  }

  lemma {:induction false} ItemsOneMore(r: Listed, before: seq<Node>, node: Node, items: seq<Tree>, next: nat)
    requires items != [] && EraseItems(before + [node]) == EraseItems(before) + [Meaning(items[0])]
    requires ItemsRead(r, before + [node], items[1..], next)
    ensures ItemsRead(r, before, items, next)
  {
    assert ItemMeanings(items) == [Meaning(items[0])] + ItemMeanings(items[1..]);
    Append(EraseItems(before), Meaning(items[0]), ItemMeanings(items[1..]));
  }

  lemma NoKeys(pairs: seq<Pair>)
    ensures KeysOf(pairs) !! EntryKeys([])
  {
  }

  lemma FromEmpty<T>(a: seq<T>, b: seq<T>)
    requires a == []
    ensures a + b == b
  {
  }

  lemma {:induction false} ListHead(items: seq<Tree>, n: nat, w: nat, lines: seq<string>, i: nat)
    requires items != [] && ItemsOk(items) && Window(lines, i, ListLines(items, n, w))
    ensures IsItemLine(lines, i, n) && NextContent(lines, i) == i
    ensures Window(lines, i, ItemLines(items[0], n, w))
    ensures Window(lines, i + |ItemLines(items[0], n, w)|, ListLines(items[1..], n, w))
  {
    ItemsSplit(items, n, w);
    WholeSplit(lines, i, ListLines(items, n, w), ItemLines(items[0], n, w), ListLines(items[1..], n, w));
    ItemHead(items[0], n, w, lines, i);
  }

  // ----- the loops

  lemma {:induction false} MappingEnds(lines: seq<string>, p: nat, n: nat, result: seq<Entry>)
    requires Over(lines, p, n)
    ensures ParseMapping(lines, p, n, result) == Mapped(result, Rest(lines, p))
  {
    NextContentRest(lines, p, n);
  }

  lemma {:induction false} ListEnds(lines: seq<string>, p: nat, n: nat, items: seq<Node>)
    requires Over(lines, p, n)
    ensures ParseSequence(lines, p, n, items) == Listed(items, Rest(lines, p))
  {
    NextContentRest(lines, p, n);
  }

  function EntryKeys(entries: seq<Entry>): set<string> { set e <- entries :: e.key }

  lemma {:induction false} PutFresh(entries: seq<Entry>, e: Entry)
    requires e.key !in EntryKeys(entries)
    ensures Put(entries, e) == entries + [e]
    ensures EraseEntries(entries + [e]) == EraseEntries(entries) + [EraseEntry(e)]
    decreases entries
  {
    if entries != [] {
      assert entries[0].key in EntryKeys(entries);
      assert forall k :: k in EntryKeys(entries[1..]) ==> k in EntryKeys(entries);
      PutFresh(entries[1..], e);
      assert (entries + [e])[1..] == entries[1..] + [e];
      assert [entries[0]] + entries[1..] == entries;
    } else {
      assert entries + [e] == [e];
    }
  }

  lemma {:induction false} EraseItemsSnoc(items: seq<Node>, node: Node)
    ensures EraseItems(items + [node]) == EraseItems(items) + [EraseNode(node)]
    decreases items
  {
    if items != [] {
      EraseItemsSnoc(items[1..], node);
      assert (items + [node])[1..] == items[1..] + [node];
    } else {
      assert items + [node] == [node];
    }
  }

  /** Where the parser stands after one printed part of a block that goes on with `rest`. */
  predicate Onward(lines: seq<string>, after: nat, next: nat, n: nat, more: bool) {
    if more then next == after else Over(lines, next, n) && Rest(lines, next) == Rest(lines, after)
  }

  lemma {:induction false} OnwardLast(lines: seq<string>, after: nat, next: nat, n: nat)
    requires Over(lines, after, n) && (next == after || next == Rest(lines, after))
    ensures Onward(lines, after, next, n, false)
  {
  }

  /** One turn of the mapping loop over the first printed pair. */
  /** What stands behind a printed pair: the other pairs, or the end of the block. */
  lemma {:induction false} PairsBehind(rest: seq<Pair>, n: nat, w: nat, lines: seq<string>, after: nat)
    requires PairsOk(rest) && Window(lines, after, MappingLines(rest, n, w))
    requires Over(lines, after + |MappingLines(rest, n, w)|, n)
    ensures AfterPair(lines, after, n)
    ensures if rest == [] then Over(lines, after, n) else Rest(lines, after) == after && !Over(lines, after, n)
  {
    if rest != [] { MappingHead(rest, n, w, lines, after); }
  }

  lemma {:induction false} MappingTurn(pairs: seq<Pair>, n: nat, w: nat, lines: seq<string>, i: nat, after: nat)
    requires pairs != [] && PairsOk(pairs) && w > 0
    requires Window(lines, i, MappingLines(pairs, n, w)) && after == i + |PairLines(pairs[0], n, w)|
    requires Over(lines, i + |MappingLines(pairs, n, w)|, n)
    ensures IsKeyLine(lines, i, n) && NextContent(lines, i) == i
    ensures EraseEntry(ParseEntry(lines, i, n).entry) == PairMeaning(pairs[0])
    ensures Onward(lines, after, ParseEntry(lines, i, n).next, n, pairs[1..] != [])
    decreases pairs, 0, 0
  {
    MappingParts(pairs, n, w, lines, i);
    PairsSplit(pairs, n, w);
    PairsBehind(pairs[1..], n, w, lines, after);
    PairTurn(pairs[0], n, w, lines, i, after, pairs[1..] != []);
  }

  lemma {:induction false} PairTurn(p: Pair, n: nat, w: nat, lines: seq<string>, i: nat, after: nat, more: bool)
    requires PairOk(p) && w > 0 && Window(lines, i, PairLines(p, n, w)) && after == i + |PairLines(p, n, w)|
    requires AfterPair(lines, after, n)
    requires if more then Rest(lines, after) == after && !Over(lines, after, n) else Over(lines, after, n)
    ensures IsKeyLine(lines, i, n) && NextContent(lines, i) == i
    ensures EraseEntry(ParseEntry(lines, i, n).entry) == PairMeaning(p)
    ensures Onward(lines, after, ParseEntry(lines, i, n).next, n, more)
    decreases p, 1
  {
    PairHead(p, n, w, lines, i);
    PairRoundTrip(p, n, w, lines, i, after);
    EntryRead(p, n, lines, i, after, more, ParseEntry(lines, i, n));
  }

  lemma {:induction false} EntryRead(
    p: Pair, n: nat, lines: seq<string>, i: nat, after: nat, more: bool, r: Assigned)
    requires IsKeyLine(lines, i, n) && SplitKey(Strip(lines[i])) == Some(KeyRest(p.key.s, HeadTail(p.value)))
    requires PairRead(p, n, lines, i, after) && r == ParseEntry(lines, i, n)
    requires if more then Rest(lines, after) == after && !Over(lines, after, n) else Over(lines, after, n)
    ensures EraseEntry(r.entry) == PairMeaning(p) && Onward(lines, after, r.next, n, more)
  {
    if !more { OnwardLast(lines, after, r.next, n); }
  }

  /** The loop stands at a printed block, and will rest at `stop`. */
  predicate BlockAt(block: seq<string>, n: nat, lines: seq<string>, i: nat, stop: nat) {
    Window(lines, i, block) && Over(lines, i + |block|, n) && stop == Rest(lines, i + |block|)
  }

  /** Behind the first part of a block the loop stands at the others. */
  lemma {:induction false} BlockNext(
    whole: seq<string>, a: seq<string>, b: seq<string>, n: nat, lines: seq<string>, i: nat, stop: nat,
    next: nat, more: bool)
    requires whole == a + b && BlockAt(whole, n, lines, i, stop)
    requires next <= |lines| && Onward(lines, i + |a|, next, n, more) && (more || b == [])
    ensures BlockAt(b, n, lines, next, stop)
  {
    WindowSplit(lines, i, a, b);
  }

  ghost predicate PairsAt(pairs: seq<Pair>, n: nat, w: nat, lines: seq<string>, i: nat, result: seq<Entry>, stop: nat) {
    && PairsOk(pairs) && w > 0 && KeysOf(pairs) !! EntryKeys(result)
    && BlockAt(MappingLines(pairs, n, w), n, lines, i, stop)
  }

  ghost predicate ItemsAt(items: seq<Tree>, n: nat, w: nat, lines: seq<string>, i: nat, stop: nat) {
    ItemsOk(items) && w > 0 && BlockAt(ListLines(items, n, w), n, lines, i, stop)
  }

  lemma {:induction false} NoPairs(n: nat, w: nat, lines: seq<string>, i: nat, result: seq<Entry>, r: Mapped, stop: nat)
    requires PairsAt([], n, w, lines, i, result, stop) && r == ParseMapping(lines, i, n, result)
    ensures PairsRead(r, result, [], stop)
  {
    MappingEnds(lines, i, n, result);
    PairsDone(Mapped(result, Rest(lines, i)), []);
  }

  lemma {:induction false} NoItems(n: nat, w: nat, lines: seq<string>, i: nat, acc: seq<Node>, r: Listed, stop: nat)
    requires ItemsAt([], n, w, lines, i, stop) && r == ParseSequence(lines, i, n, acc)
    ensures ItemsRead(r, acc, [], stop)
  {
    ListEnds(lines, i, n, acc);
    ItemsDone(Listed(acc, Rest(lines, i)), []);
  }

  /** `r`: what the loop returns from here. */
  lemma {:induction false} MappingRoundTrip(
    pairs: seq<Pair>, n: nat, w: nat, lines: seq<string>, i: nat, result: seq<Entry>, r: Mapped, stop: nat)
    requires PairsAt(pairs, n, w, lines, i, result, stop) && r == ParseMapping(lines, i, n, result)
    ensures PairsRead(r, result, pairs, stop)
    decreases pairs, 1
  {
    if pairs == [] {
      NoPairs(n, w, lines, i, result, r, stop);
    } else {
      var next, e := MappingAdvance(pairs, n, w, lines, i, result, stop);
      MappingRoundTrip(pairs[1..], n, w, lines, next, result + [e], r, stop);
      PairsOneMore(r, result, e, pairs, stop);
    }
  }

  lemma {:induction false} MappingAdvance(
    pairs: seq<Pair>, n: nat, w: nat, lines: seq<string>, i: nat, result: seq<Entry>, stop: nat)
    returns (next: nat, e: Entry)
    requires pairs != [] && PairsAt(pairs, n, w, lines, i, result, stop)
    ensures PairsAt(pairs[1..], n, w, lines, next, result + [e], stop)
    ensures ParseMapping(lines, i, n, result) == ParseMapping(lines, next, n, result + [e])
    ensures EraseEntries(result + [e]) == EraseEntries(result) + [PairMeaning(pairs[0])]
    decreases pairs, 0, 1
  {
    var after := i + |PairLines(pairs[0], n, w)|;
    MappingTurn(pairs, n, w, lines, i, after);
    next, e := ParseEntry(lines, i, n).next, ParseEntry(lines, i, n).entry;
    FreshKeys(pairs, result, e);
    PutFresh(result, e);
    MappingNext(pairs, n, w, lines, i, result, stop, after, next, e);
    MappingStep(lines, i, n, result);
  }

  /** Behind the first pair the loop stands at the others. */
  lemma {:induction false} MappingNext(
    pairs: seq<Pair>, n: nat, w: nat, lines: seq<string>, i: nat, result: seq<Entry>, stop: nat,
    after: nat, next: nat, e: Entry)
    requires pairs != [] && PairsAt(pairs, n, w, lines, i, result, stop) && after == i + |PairLines(pairs[0], n, w)|
    requires KeysOf(pairs[1..]) !! EntryKeys(result + [e])
    requires next <= |lines| && Onward(lines, after, next, n, pairs[1..] != [])
    ensures PairsAt(pairs[1..], n, w, lines, next, result + [e], stop)
  {
    var whole, first, others := MappingLines(pairs, n, w), PairLines(pairs[0], n, w), MappingLines(pairs[1..], n, w);
    PairsSplit(pairs, n, w);
    BlockNext(whole, first, others, n, lines, i, stop, next, pairs[1..] != []);
  }

  lemma {:induction false} MappingStep(lines: seq<string>, i: nat, n: nat, result: seq<Entry>)
    requires IsKeyLine(lines, i, n) && NextContent(lines, i) == i
    ensures var a := ParseEntry(lines, i, n);
      ParseMapping(lines, i, n, result) == ParseMapping(lines, a.next, n, Put(result, a.entry))
  {
  }

  lemma {:induction false} ListStep(lines: seq<string>, i: nat, n: nat, items: seq<Node>)
    requires IsItemLine(lines, i, n) && NextContent(lines, i) == i
    ensures var found := ParseItem(lines, i, n);
      ParseSequence(lines, i, n, items) == ParseSequence(lines, found.next, n, items + [found.node])
  {
  }

  lemma Append<T>(a: seq<T>, x: T, b: seq<T>)
    ensures a + [x] + b == a + ([x] + b)
  {
  }

  lemma {:induction false} FreshKeys(pairs: seq<Pair>, result: seq<Entry>, e: Entry)
    requires pairs != [] && PairsOk(pairs) && KeysOf(pairs) !! EntryKeys(result) && e.key == pairs[0].key.s
    ensures e.key !in EntryKeys(result) && KeysOf(pairs[1..]) !! EntryKeys(result + [e])
  {
    assert pairs[0] in pairs && e.key in KeysOf(pairs);
    assert forall p :: p in pairs[1..] ==> p in pairs && p.key.s in KeysOf(pairs);
    assert forall x :: x in result + [e] <==> x in result || x == e;
  }

  lemma {:induction false} BareItem(lines: seq<string>, i: nat, n: nat)
    requires i < |lines| && lines[i] == Spaces(n) + "-"
    ensures IsItemLine(lines, i, n)
    ensures var p := ParseNode(lines, i + 1, n + 1);
      ParseItem(lines, i, n) == Found(Node(p.v, i + 1, LastContent(Skips(lines), p.next, i)), p.next)
  {
    DashIsItemLine("-", n, lines, i);
  }

  lemma {:induction false} InlineItem(t: Tree, n: nat, lines: seq<string>, i: nat)
    requires IsInline(t) && InlineOk(t) && SplitKey(InlineText(t)).None?
    requires i < |lines| && lines[i] == Spaces(n) + ("- " + InlineText(t))
    ensures IsItemLine(lines, i, n) && ReadAs(ParseItem(lines, i, n), t, n, lines, i + 1)
  {
    InlineItemHead(t, n, lines, i);
    InlineReadsBack(t, "");
    assert "" + InlineText(t) == InlineText(t);
  }

  lemma {:induction false} KeyItem(first: string, n: nat, lines: seq<string>, i: nat)
    requires KeyText(first, n + 2) && i < |lines| && lines[i] == Spaces(n) + ("- " + Drop(first, n + 2))
    ensures IsItemLine(lines, i, n)
    ensures var p := ParseNode(lines[i := first], i, n + 2);
      ParseItem(lines, i, n) == Found(Node(p.v, i + 1, LastContent(Skips(lines), p.next, i)), p.next)
  {
    MappingItemHead(first, n, lines, i);
  }

  lemma {:induction false} NothingItem(lines: seq<string>, p: nat, n: nat)
    requires AfterItem(lines, p, n)
    ensures p <= |lines| && ParseNode(lines, p, n + 1) == Parsed(Null, Rest(lines, p))
  {
    if Over(lines, p, n) { NextContentRest(lines, p, n); }
  }

  /** Blanking out the dash changes nothing behind the item's first line. */
  lemma {:induction false} PatchedWindow(lines: seq<string>, i: nat, printed: seq<string>, block: seq<string>, n: nat)
    requires block != [] && |printed| == |block| && printed[1..] == block[1..] && Window(lines, i, printed)
    ensures Window(lines[i := block[0]], i, block)
    ensures AtEnd(lines, i + |block|) == AtEnd(lines[i := block[0]], i + |block|)
    ensures Rest(lines, i + |block|) == Rest(lines[i := block[0]], i + |block|)
    ensures Over(lines, i + |block|, n) ==> Over(lines[i := block[0]], i + |block|, n)
  {
    var patched := lines[i := block[0]];
    forall k | 0 <= k < |block| ensures patched[i..i + |block|][k] == block[k] {
      if k > 0 {
        WindowAt(lines, i, printed, k);
        assert printed[1..][k - 1] == block[1..][k - 1];
      }
    }
    assert forall k :: i + |block| <= k < |lines| ==> patched[k] == lines[k];
  }

  predicate ItemRest(lines: seq<string>, after: nat, n: nat) {
    after <= |lines| && (Rest(lines, after) == after || Over(lines, after, n))
  }

  lemma {:induction false} ItemStops(lines: seq<string>, p: nat, n: nat)
    requires AfterItem(lines, p, n)
    ensures ItemRest(lines, p, n) && forall m :: m > n ==> Over(lines, p, m)
  {
  }

  lemma {:induction false} ListItem(items: seq<Tree>, n: nat, w: nat, lines: seq<string>, i: nat, after: nat)
    requires items != [] && ItemsOk(items) && w > 0
    requires i < |lines| && lines[i] == Spaces(n) + "-" && Window(lines, i + 1, ListLines(items, n + w, w))
    requires after == i + 1 + |ListLines(items, n + w, w)| && ItemRest(lines, after, n) && Over(lines, after, n + w)
    ensures IsItemLine(lines, i, n) && ReadAs(ParseItem(lines, i, n), List(items), n, lines, after)
    decreases items, 4
  {
    ListBlock(items, n + w, w, lines, i + 1, n + 1, after);
    BareBlock(ParseNode(lines, i + 1, n + 1), List(items), n, lines, i, after);
  }

  lemma {:induction false} BareBlock(p: Parsed, t: Tree, n: nat, lines: seq<string>, i: nat, after: nat)
    requires i < |lines| && lines[i] == Spaces(n) + "-" && p == ParseNode(lines, i + 1, n + 1)
    requires BlockRead(p, t, lines, after) && ItemRest(lines, after, n)
    ensures IsItemLine(lines, i, n) && ReadAs(ParseItem(lines, i, n), t, n, lines, after)
  {
    BareItem(lines, i, n);
    FoundBlock(p, t, n, lines, after, ParseItem(lines, i, n));
  }

  /** A mapping item is its block with the dash in front of the first line. */
  lemma {:induction false} MappingItemLines(pairs: seq<Pair>, n: nat, w: nat, block: seq<string>)
    requires pairs != [] && block == MappingLines(pairs, n + 2, w)
    ensures var printed := ItemLines(Mapping(pairs), n, w);
      && |printed| == |block| && printed[1..] == block[1..]
      && printed[0] == Spaces(n) + ("- " + Drop(block[0], n + 2))
  {
    var printed := ItemLines(Mapping(pairs), n, w);
    assert printed == [Spaces(n) + ("- " + Drop(block[0], n + 2))] + block[1..];
  }

  lemma {:induction false} MappingItem(pairs: seq<Pair>, n: nat, w: nat, lines: seq<string>, i: nat, after: nat)
    requires pairs != [] && PairsOk(pairs) && w > 0
    requires Window(lines, i, ItemLines(Mapping(pairs), n, w)) && after == i + |MappingLines(pairs, n + 2, w)|
    requires ItemRest(lines, after, n) && Over(lines, after, n + 2)
    ensures IsItemLine(lines, i, n) && ReadAs(ParseItem(lines, i, n), Mapping(pairs), n, lines, after)
    decreases pairs, 5
  {
    var block, printed := MappingLines(pairs, n + 2, w), ItemLines(Mapping(pairs), n, w);
    FirstLine(pairs, n + 2, w);
    MappingItemLines(pairs, n, w, block);
    WindowAt(lines, i, printed, 0);
    KeyItem(block[0], n, lines, i);
    PatchedBlock(pairs, printed, block, n, w, lines, i, after);
    FoundBlock(ParseNode(lines[i := block[0]], i, n + 2), Mapping(pairs), n, lines, after, ParseItem(lines, i, n));
  }

  lemma {:induction false} FoundBlock(p: Parsed, t: Tree, n: nat, lines: seq<string>, after: nat, found: Found)
    requires BlockRead(p, t, lines, after) && ItemRest(lines, after, n)
    requires found.node.v == p.v && found.next == p.next
    ensures ReadAs(found, t, n, lines, after)
  {
  }

  lemma {:induction false} PatchedBlock(
    pairs: seq<Pair>, printed: seq<string>, block: seq<string>, n: nat, w: nat, lines: seq<string>, i: nat, after: nat)
    requires pairs != [] && PairsOk(pairs) && w > 0 && block == MappingLines(pairs, n + 2, w)
    requires |printed| == |block| && printed[1..] == block[1..]
    requires Window(lines, i, printed) && after == i + |block|
    requires Over(lines, after, n + 2)
    ensures BlockRead(ParseNode(lines[i := block[0]], i, n + 2), Mapping(pairs), lines, after)
    decreases pairs, 4
  {
    PatchedWindow(lines, i, printed, block, n + 2);
    MappingBlock(pairs, n + 2, w, lines[i := block[0]], i, n + 2, after);
  }

  lemma {:induction false} EmptyItem(n: nat, lines: seq<string>, i: nat)
    requires i < |lines| && lines[i] == Spaces(n) + "-" && AfterItem(lines, i + 1, n)
    ensures IsItemLine(lines, i, n) && ReadAs(ParseItem(lines, i, n), Nothing, n, lines, i + 1)
  {
    ItemStops(lines, i + 1, n);
    BareItem(lines, i, n);
    NothingItem(lines, i + 1, n);
  }

  lemma {:induction false} ListedItem(items: seq<Tree>, n: nat, w: nat, lines: seq<string>, i: nat, after: nat)
    requires ItemOk(List(items)) && w > 0
    requires Window(lines, i, ItemLines(List(items), n, w)) && after == i + |ItemLines(List(items), n, w)|
    requires ItemRest(lines, after, n) && Over(lines, after, n + w)
    ensures IsItemLine(lines, i, n) && ReadAs(ParseItem(lines, i, n), List(items), n, lines, after)
    decreases items, 5
  {
    assert lines[i] == ItemLines(List(items), n, w)[0];
    WindowSplit(lines, i, [Spaces(n) + "-"], ListLines(items, n + w, w));
    ListItem(items, n, w, lines, i, after);
  }

  lemma {:induction false} ItemRoundTrip(t: Tree, n: nat, w: nat, lines: seq<string>, i: nat, after: nat)
    requires ItemOk(t) && w > 0
    requires Window(lines, i, ItemLines(t, n, w)) && after == i + |ItemLines(t, n, w)|
    requires AfterItem(lines, after, n)
    ensures IsItemLine(lines, i, n) && ReadAs(ParseItem(lines, i, n), t, n, lines, after)
    decreases t
  {
    ItemStops(lines, after, n);
    assert lines[i] == ItemLines(t, n, w)[0];
    match t
    case Nothing => EmptyItem(n, lines, i);
    case List(items) => ListedItem(items, n, w, lines, i, after);
    case Mapping(pairs) => MappingItem(pairs, n, w, lines, i, after);
    case Literal(_) => assert false;
    case _ => InlineItem(t, n, lines, i);
  }

  /** One turn of the list loop over the first printed item. */
  lemma {:induction false} ListTurn(items: seq<Tree>, n: nat, w: nat, lines: seq<string>, i: nat, after: nat)
    requires items != [] && ItemsOk(items) && w > 0
    requires Window(lines, i, ListLines(items, n, w)) && after == i + |ItemLines(items[0], n, w)|
    requires Over(lines, i + |ListLines(items, n, w)|, n)
    ensures IsItemLine(lines, i, n) && NextContent(lines, i) == i
    ensures EraseNode(ParseItem(lines, i, n).node) == Meaning(items[0])
    ensures Onward(lines, after, ParseItem(lines, i, n).next, n, items[1..] != [])
    decreases items, 0, 0
  {
    ListHead(items, n, w, lines, i);
    if items[1..] != [] { ListHead(items[1..], n, w, lines, after); }
    ItemRoundTrip(items[0], n, w, lines, i, after);
    if items[1..] == [] { OnwardLast(lines, after, ParseItem(lines, i, n).next, n); }
  }

  lemma {:induction false} ListRoundTrip(
    items: seq<Tree>, n: nat, w: nat, lines: seq<string>, i: nat, acc: seq<Node>, r: Listed, stop: nat)
    requires ItemsAt(items, n, w, lines, i, stop) && r == ParseSequence(lines, i, n, acc)
    ensures ItemsRead(r, acc, items, stop)
    decreases items, 1
  {
    if items == [] {
      NoItems(n, w, lines, i, acc, r, stop);
    } else {
      var next, node := ListAdvance(items, n, w, lines, i, acc, stop);
      ListRoundTrip(items[1..], n, w, lines, next, acc + [node], r, stop);
      ItemsOneMore(r, acc, node, items, stop);
    }
  }

  lemma {:induction false} ListAdvance(
    items: seq<Tree>, n: nat, w: nat, lines: seq<string>, i: nat, acc: seq<Node>, stop: nat)
    returns (next: nat, node: Node)
    requires items != [] && ItemsAt(items, n, w, lines, i, stop)
    ensures ItemsAt(items[1..], n, w, lines, next, stop)
    ensures ParseSequence(lines, i, n, acc) == ParseSequence(lines, next, n, acc + [node])
    ensures EraseItems(acc + [node]) == EraseItems(acc) + [Meaning(items[0])]
    decreases items, 0, 1
  {
    var after := i + |ItemLines(items[0], n, w)|;
    ListTurn(items, n, w, lines, i, after);
    next, node := ParseItem(lines, i, n).next, ParseItem(lines, i, n).node;
    ListNext(items, n, w, lines, i, stop, after, next);
    EraseItemsSnoc(acc, node);
    ListStep(lines, i, n, acc);
  }

  /** Behind the first item the loop stands at the others. */
  lemma {:induction false} ListNext(
    items: seq<Tree>, n: nat, w: nat, lines: seq<string>, i: nat, stop: nat, after: nat, next: nat)
    requires items != [] && ItemsAt(items, n, w, lines, i, stop) && after == i + |ItemLines(items[0], n, w)|
    requires next <= |lines| && Onward(lines, after, next, n, items[1..] != [])
    ensures ItemsAt(items[1..], n, w, lines, next, stop)
  {
    var whole, first, others := ListLines(items, n, w), ItemLines(items[0], n, w), ListLines(items[1..], n, w);
    ItemsSplit(items, n, w);
    BlockNext(whole, first, others, n, lines, i, stop, next, items[1..] != []);
  }

  // ----- whole files

  predicate Clean(block: seq<string>) { forall k :: 0 <= k < |block| ==> OneLine(block[k]) }

  lemma {:induction false} CleanJoin(parts: seq<string>, sep: string)
    requires Clean(parts) && OneLine(sep)
    ensures OneLine(Join(parts, sep))
    decreases |parts|
  {
    if |parts| > 1 { CleanJoin(parts[1..], sep); }
  }

  lemma {:induction false} CleanInline(t: Tree)
    requires IsInline(t) && InlineOk(t)
    ensures OneLine(InlineText(t))
  {
    if t.FlowList? {
      forall k | 0 <= k < |t.parts| ensures OneLine(AllWritten(t.parts)[k]) { assert PartOk(t.parts[k]); }
      CleanJoin(AllWritten(t.parts), ", ");
    }
  }

  lemma {:induction false} CleanHead(key: Quotable, n: nat, tail: string)
    requires KeyOk(key) && OneLine(tail)
    ensures Clean([Head(key, n, tail)])
  {
    assert OneLine(Spaces(n)) && OneLine(Written(key)) && OneLine(":");
  }

  lemma CleanConcat(a: seq<string>, b: seq<string>)
    requires Clean(a) && Clean(b)
    ensures Clean(a + b)
  {
  }

  lemma {:induction false} CleanPair(p: Pair, n: nat, w: nat)
    requires PairOk(p)
    ensures Clean(PairLines(p, n, w))
    decreases p
  {
    match p.value
    case Nothing => CleanHead(p.key, n, "");
    case Literal(body) =>
      CleanHead(p.key, n, " |");
      CleanConcat([Head(p.key, n, " |")], Indented(body, n + w));
    case List(items) =>
      CleanHead(p.key, n, "");
      CleanList(items, n + w, w);
      CleanConcat([Head(p.key, n, "")], ListLines(items, n + w, w));
    case Mapping(pairs) =>
      CleanHead(p.key, n, "");
      CleanMapping(pairs, n + w, w);
      CleanConcat([Head(p.key, n, "")], MappingLines(pairs, n + w, w));
    case _ =>
      CleanInline(p.value);
      CleanHead(p.key, n, " " + InlineText(p.value));
  }

  lemma {:induction false} CleanMapping(pairs: seq<Pair>, n: nat, w: nat)
    requires PairsOk(pairs)
    ensures Clean(MappingLines(pairs, n, w))
    decreases pairs
  {
    if pairs != [] {
      CleanPair(pairs[0], n, w);
      CleanMapping(pairs[1..], n, w);
      CleanConcat(PairLines(pairs[0], n, w), MappingLines(pairs[1..], n, w));
    }
  }

  lemma {:induction false} CleanItem(t: Tree, n: nat, w: nat)
    requires ItemOk(t)
    ensures Clean(ItemLines(t, n, w))
    decreases t
  {
    match t
    case Nothing =>
    case List(items) =>
      CleanList(items, n + w, w);
      CleanConcat([Spaces(n) + "-"], ListLines(items, n + w, w));
    case Mapping(pairs) =>
      var block := MappingLines(pairs, n + 2, w);
      CleanMapping(pairs, n + 2, w);
      MappingItemLines(pairs, n, w, block);
      CleanDash(Drop(block[0], n + 2), n);
      CleanConcat([Spaces(n) + ("- " + Drop(block[0], n + 2))], block[1..]);
    case Literal(_) => assert false;
    case _ =>
      CleanInline(t);
      CleanDash(InlineText(t), n);
  }

  lemma CleanDash(x: string, n: nat)
    requires OneLine(x)
    ensures Clean([Spaces(n) + ("- " + x)])
  {
  }

  lemma {:induction false} CleanList(items: seq<Tree>, n: nat, w: nat)
    requires ItemsOk(items)
    ensures Clean(ListLines(items, n, w))
    decreases items
  {
    if items != [] {
      CleanItem(items[0], n, w);
      CleanList(items[1..], n, w);
      CleanConcat(ItemLines(items[0], n, w), ListLines(items[1..], n, w));
    }
  }

  lemma {:induction false} UntabNone(s: string)
    requires '\t' !in s
    ensures Untab(s) == s
    decreases |s|
  {
    if s != "" {
      UntabNone(s[1..]);
      assert [s[0]] + s[1..] == s;
    }
  }

  lemma {:induction false} JoinNoTab(parts: seq<string>)
    requires Clean(parts)
    ensures '\t' !in Join(parts, "\n")
    decreases |parts|
  {
    if |parts| > 1 { JoinNoTab(parts[1..]); }
  }

  /** The lines of a printed file are the printed lines and the empty text behind the last newline. */
  lemma {:induction false} DocumentLines(t: Tree, w: nat)
    requires TreeOk(t)
    ensures Split(Untab(Document(t, w)), '\n') == BlockLines(t, w) + [""]
  {
    var lines := BlockLines(t, w) + [""];
    if t.List? { CleanList(t.items, 0, w); } else { CleanMapping(t.pairs, 0, w); }
    CleanConcat(BlockLines(t, w), [""]);
    JoinNoTab(lines);
    UntabNone(Join(lines, "\n"));
    forall p | p in lines ensures '\n' !in p {
      var k :| 0 <= k < |lines| && lines[k] == p;
    }
    SplitJoin(lines, '\n');
  }

  lemma {:induction false} BlockRoundTrip(t: Tree, w: nat, lines: seq<string>, after: nat)
    requires TreeOk(t) && w > 0 && Window(lines, 0, BlockLines(t, w))
    requires after == |BlockLines(t, w)| && Over(lines, after, 0)
    ensures BlockRead(ParseNode(lines, 0, 0), t, lines, after)
  {
    if t.List? { ListBlock(t.items, 0, w, lines, 0, 0, after); }
    else { MappingBlock(t.pairs, 0, w, lines, 0, 0, after); }
  }

  /** Parsing the printed file of any well-formed tree gives what the tree means. */
  lemma {:induction false} RoundTrip(t: Tree, w: nat)
    requires TreeOk(t) && w > 0
    ensures Erase(ParseYaml(Document(t, w))) == Meaning(t)
  {
    var block := BlockLines(t, w);
    var lines := block + [""];
    DocumentLines(t, w);
    assert lines[0..|block|] == block;
    BlockRoundTrip(t, w, lines, |block|);
  }
}
