/**
 * A canonical printer for the trees the workflow parser reads, and which trees
 * it may be given. Blocks are indented deeper than their parent by `w` columns;
 * a mapping that is a list item starts on the dash line.
 */
module YamlPrint {
  import opened Wrappers
  import opened Text
  import opened YamlLines

  datatype Tree =
    | Nothing
    | Plain(s: string)
    | Quoted(s: string, q: char)
    | FlowList(parts: seq<Quotable>)
    | Literal(body: seq<string>)
    | List(items: seq<Tree>)
    | Mapping(pairs: seq<Pair>)

  datatype Pair = Pair(key: Quotable, value: Tree)

  /** A word written as it is, or between two of the same quotes. */
  datatype Quotable = Quotable(s: string, quote: Option<char>)

  /** What a tree means, and what a parsed value means without its line spans. */
  datatype Data =
    | Absent
    | Words(s: string)
    | Row(parts: seq<string>)
    | Sequence(items: seq<Data>)
    | Table(fields: seq<Field>)

  datatype Field = Field(key: string, value: Data)

  function Erase(v: Value): Data {
    match v
    case Null => Absent
    case Str(s) => Words(s)
    case Flow(parts) => Row(parts)
    case Items(items) => Sequence(EraseItems(items))
    case Dict(entries) => Table(EraseEntries(entries))
  }

  function EraseItems(items: seq<Node>): seq<Data> {
    if items == [] then [] else [EraseNode(items[0])] + EraseItems(items[1..])
  }

  function EraseNode(node: Node): Data { Erase(node.v) }

  function EraseEntries(entries: seq<Entry>): seq<Field> {
    if entries == [] then []
    else [EraseEntry(entries[0])] + EraseEntries(entries[1..])
  }

  function EraseEntry(e: Entry): Field { Field(e.key, EraseNode(e.node)) }

  function Meaning(t: Tree): Data {
    match t
    case Nothing => Absent
    case Plain(s) => Words(s)
    case Quoted(s, _) => Words(s)
    case FlowList(parts) => Row(Names(parts))
    case Literal(body) => Words(Join(body, "\n"))
    case List(items) => Sequence(ItemMeanings(items))
    case Mapping(pairs) => Table(PairMeanings(pairs))
  }

  function ItemMeanings(items: seq<Tree>): seq<Data> {
    if items == [] then [] else [Meaning(items[0])] + ItemMeanings(items[1..])
  }

  function PairMeanings(pairs: seq<Pair>): seq<Field> {
    if pairs == [] then []
    else [PairMeaning(pairs[0])] + PairMeanings(pairs[1..])
  }

  function PairMeaning(p: Pair): Field { Field(p.key.s, Meaning(p.value)) }

  function Names(parts: seq<Quotable>): (r: seq<string>)
    ensures |r| == |parts| && forall k :: 0 <= k < |parts| ==> r[k] == parts[k].s
  {
    seq(|parts|, k requires 0 <= k < |parts| => parts[k].s)
  }

  // ----- printing

  function Written(x: Quotable): string {
    if x.quote.Some? then [x.quote.value] + x.s + [x.quote.value] else x.s
  }

  function AllWritten(parts: seq<Quotable>): (r: seq<string>)
    ensures |r| == |parts| && forall k :: 0 <= k < |parts| ==> r[k] == Written(parts[k])
  {
    seq(|parts|, k requires 0 <= k < |parts| => Written(parts[k]))
  }

  predicate IsInline(t: Tree) { t.Plain? || t.Quoted? || t.FlowList? }

  function InlineText(t: Tree): string
    requires IsInline(t)
  {
    match t
    case Plain(s) => s
    case Quoted(s, q) => Written(Quotable(s, Some(q)))
    case FlowList(parts) => "[" + Join(AllWritten(parts), ", ") + "]"
  }

  function Indented(body: seq<string>, n: nat): (r: seq<string>)
    ensures |r| == |body|
    ensures forall k :: 0 <= k < |body| ==> r[k] == if body[k] == "" then "" else Spaces(n) + body[k]
  {
    seq(|body|, k requires 0 <= k < |body| => if body[k] == "" then "" else Spaces(n) + body[k])
  }

  function Head(key: Quotable, n: nat, tail: string): string {
    Spaces(n) + (Written(key) + ":" + tail)
  }

  function PairLines(p: Pair, n: nat, w: nat): (r: seq<string>)
    ensures r != []
  {
    match p.value
    case Nothing => [Head(p.key, n, "")]
    case Literal(body) => [Head(p.key, n, " |")] + Indented(body, n + w)
    case List(items) => [Head(p.key, n, "")] + ListLines(items, n + w, w)
    case Mapping(pairs) => [Head(p.key, n, "")] + MappingLines(pairs, n + w, w)
    case _ => [Head(p.key, n, " " + InlineText(p.value))]
  }

  function MappingLines(pairs: seq<Pair>, n: nat, w: nat): (r: seq<string>)
    ensures pairs != [] ==> r != []
  {
    if pairs == [] then [] else PairLines(pairs[0], n, w) + MappingLines(pairs[1..], n, w)
  }

  /** A mapping item starts on its dash line: two columns of its first line give way to the dash. */
  function ItemLines(t: Tree, n: nat, w: nat): (r: seq<string>)
    ensures r != []
  {
    match t
    case Nothing => [Spaces(n) + "-"]
    case Literal(_) => [Spaces(n) + "-"]
    case List(items) => [Spaces(n) + "-"] + ListLines(items, n + w, w)
    case Mapping(pairs) =>
      var block := MappingLines(pairs, n + 2, w);
      if block == [] then [Spaces(n) + "-"]
      else [Spaces(n) + ("- " + Drop(block[0], n + 2))] + block[1..]
    case _ => [Spaces(n) + ("- " + InlineText(t))]
  }

  function ListLines(items: seq<Tree>, n: nat, w: nat): (r: seq<string>)
    ensures items != [] ==> r != []
  {
    if items == [] then [] else ItemLines(items[0], n, w) + ListLines(items[1..], n, w)
  }

  function BlockLines(t: Tree, w: nat): seq<string> {
    match t
    case List(items) => ListLines(items, 0, w)
    case Mapping(pairs) => MappingLines(pairs, 0, w)
    case _ => []
  }

  /** The file: every line ended by a newline. */
  function Document(t: Tree, w: nat): string {
    Join(BlockLines(t, w) + [""], "\n")
  }

  // ----- what may be printed

  predicate OneLine(s: string) { '\n' !in s && '\t' !in s }

  /** No `#` stands first or behind a blank. */
  predicate NoComment(s: string) {
    forall k :: 0 <= k < |s| && s[k] == '#' ==> k > 0 && s[k - 1] != ' ' && s[k - 1] != '\t'
  }

  predicate Escaped(s: string, q: char) {
    forall k :: 0 <= k < |s| && s[k] == q ==> k > 0 && s[k - 1] == '\\'
  }

  predicate InlineOk(t: Tree)
    requires IsInline(t)
  {
    match t
    case Plain(s) => s != "" && Trimmed(s) && OneLine(s) && NoComment(s) && !IsFlow(s) && Unquote(s) == s
    case Quoted(s, q) => IsQuote(q) && OneLine(s) && (Escaped(s, q) || NoComment([q] + s + [q]))
    case FlowList(parts) =>
      && NoComment(InlineText(t))
      && forall k :: 0 <= k < |parts| ==> PartOk(parts[k])
  }

  /** A flow part: the code splits at every comma, so none may stand in it, quoted or not. */
  predicate PartOk(x: Quotable) {
    var text := Written(x);
    && text != "" && Trimmed(text) && OneLine(text) && ',' !in text
    && (if x.quote.Some? then IsQuote(x.quote.value) else Unquote(x.s) == x.s)
  }

  predicate KeyOk(key: Quotable) {
    && key.s != ""
    && OneLine(key.s)
    && if key.quote.Some? then IsQuote(key.quote.value) && key.quote.value !in key.s
       else IsKeyStart(key.s[0]) && forall c :: c in key.s ==> IsKeyChar(c)
  }

  /** A `|` text: some line is flush, the last line is not blank, blank lines are empty. */
  predicate LiteralOk(body: seq<string>) {
    body != [] ==>
      && (forall k :: 0 <= k < |body| ==> OneLine(body[k]) && (Blank(body[k]) ==> body[k] == ""))
      && body[|body| - 1] != ""
      && exists k :: 0 <= k < |body| && body[k] != "" && Indent(body[k]) == 0
  }

  predicate ValueOk(t: Tree) {
    match t
    case Nothing => true
    case Literal(body) => LiteralOk(body)
    case List(items) => items != [] && ItemsOk(items)
    case Mapping(pairs) => pairs != [] && PairsOk(pairs)
    case _ => InlineOk(t) && !IsBlockMarker(InlineText(t))
  }

  /** Items: a `|` text cannot be one, and an inline item must not read as a key line. */
  predicate ItemOk(t: Tree) {
    match t
    case Nothing => true
    case Literal(_) => false
    case List(items) => items != [] && ItemsOk(items)
    case Mapping(pairs) => pairs != [] && PairsOk(pairs)
    case _ => InlineOk(t) && SplitKey(InlineText(t)).None?
  }

  predicate ItemsOk(items: seq<Tree>) {
    items == [] || (ItemOk(items[0]) && ItemsOk(items[1..]))
  }

  predicate PairsOk(pairs: seq<Pair>) {
    pairs == [] ||
    (&& PairOk(pairs[0])
     && pairs[0].key.s !in KeysOf(pairs[1..])
     && PairsOk(pairs[1..]))
  }

  predicate PairOk(p: Pair) { KeyOk(p.key) && ValueOk(p.value) }

  function KeysOf(pairs: seq<Pair>): set<string> {
    set p <- pairs :: p.key.s
  }

  predicate TreeOk(t: Tree) { (t.List? || t.Mapping?) && ValueOk(t) }
}
