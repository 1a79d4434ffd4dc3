/**
 * The recursive-descent parser over the lines of a workflow file: what it
 * computes, as functions. `YamlMachine` runs it with loops.
 */
module YamlParser {
  import opened Wrappers
  import opened Text
  import opened YamlLines

  datatype Parsed = Parsed(v: Value, next: nat)
  datatype Mapped = Mapped(entries: seq<Entry>, next: nat)
  datatype Listed = Listed(items: seq<Node>, next: nat)
  datatype Found = Found(node: Node, next: nat)
  datatype Assigned = Assigned(entry: Entry, next: nat)

  predicate StartsDash(content: string) { "- " <= content }

  predicate IsDash(content: string) { StartsDash(content) || content == "-" }

  /** A line on which the mapping loop at this indentation reads a key. */
  predicate IsKeyLine(lines: seq<string>, i: nat, indent: nat) {
    && i < |lines|
    && !Skippable(lines[i])
    && Indent(lines[i]) == indent
    && !StartsDash(Strip(lines[i]))
    && SplitKey(Strip(lines[i])).Some?
  }

  predicate IsItemLine(lines: seq<string>, i: nat, indent: nat) {
    i < |lines| && !Skippable(lines[i]) && Indent(lines[i]) == indent && IsDash(Strip(lines[i]))
  }

  /** `result[key] = node` on a dict: an existing key keeps its place. */
  function Put(entries: seq<Entry>, e: Entry): (r: seq<Entry>)
    ensures |entries| <= |r| <= |entries| + 1
  {
    if entries == [] then [e]
    else if entries[0].key == e.key then [e] + entries[1..]
    else [entries[0]] + Put(entries[1..], e)
  }

  function SkipBlanks(s: string, i: nat): (r: nat)
    requires i <= |s|
    ensures i <= r <= |s|
    ensures forall k :: i <= k < r ==> s[k] == ' '
    ensures r < |s| ==> s[r] != ' '
    decreases |s| - i
  {
    if i < |s| && s[i] == ' ' then SkipBlanks(s, i + 1) else i
  }

  /** The column of the text behind the dash of an item line. */
  function ItemOffset(raw: string, indent: nat): (r: nat)
    requires indent <= |raw|
    ensures indent < r
    ensures r < |raw| ==> raw[r] != ' '
  {
    var dash := FindChar(raw, '-', indent);
    if dash < |raw| then SkipBlanks(raw, dash + 1) else dash + 1
  }

  /** The item line with its dash blanked out, so that a mapping can start there. */
  function PatchLine(raw: string, offset: nat): string {
    Spaces(offset) + Drop(raw, offset)
  }

  // ----- why a patched item line is a key line

  lemma {:induction false} IndentOfPadded(n: nat, x: string)
    requires x != "" && x[0] != ' '
    ensures Indent(Spaces(n) + x) == n
    decreases n
  {
    if n > 0 {
      assert (Spaces(n) + x)[1..] == Spaces(n - 1) + x;
      IndentOfPadded(n - 1, x);
    }
  }

  lemma {:induction false} SkipKeyCharsPrefix(s: string, m: nat, i: nat)
    requires i <= m <= |s| && SkipKeyChars(s, i) <= m
    ensures SkipKeyChars(s[..m], i) == SkipKeyChars(s, i)
    decreases |s| - i
  {
    if i < m && IsKeyChar(s[i]) { SkipKeyCharsPrefix(s, m, i + 1); }
  }

  lemma {:induction false} SkipSpacesPrefix(s: string, m: nat, i: nat)
    requires i <= m <= |s| && SkipSpaces(s, i) < m
    ensures SkipSpaces(s[..m], i) == SkipSpaces(s, i)
    decreases |s| - i
  {
    if IsSpace(s[i]) { SkipSpacesPrefix(s, m, i + 1); }
  }

  lemma {:induction false} FindCharPrefix(s: string, m: nat, c: char, i: nat)
    requires i <= m <= |s| && FindChar(s, c, i) < m
    ensures FindChar(s[..m], c, i) == FindChar(s, c, i)
    decreases |s| - i
  {
    if s[i] != c { FindCharPrefix(s, m, c, i + 1); }
  }

  /** Trailing whitespace does not change the key of a line. */
  lemma {:induction false} SplitKeyRStrip(s: string)
    requires SplitKey(s).Some?
    ensures SplitKey(RStrip(s)).Some? && SplitKey(RStrip(s)).value.key == SplitKey(s).value.key
  {
    var end := KeyEnd(s).value;
    var colon := SkipSpaces(s, end);
    var m := |RStrip(s)|;
    RStripEnds(s);
    RStripTail(s);
    assert colon < m by { assert !IsSpace(s[colon]); }
    assert RStrip(s) == s[..m];
    assert KeyEnd(s[..m]) == Some(end) by {
      if IsKeyStart(s[0]) { SkipKeyCharsPrefix(s, m, 1); }
      else { FindCharPrefix(s, m, s[0], 1); }
    }
    SkipSpacesPrefix(s, m, end);
    assert s[..m][..end] == s[..end];
  }

  lemma {:induction false} PatchedKeyLine(lines: seq<string>, j: nat, offset: nat)
    requires j < |lines| && offset <= |lines[j]|
    requires SplitKey(lines[j][offset..]).Some?
    ensures var patched := lines[j := PatchLine(lines[j], offset)];
            && IsKeyLine(patched, j, offset)
            && Strip(patched[j]) == RStrip(lines[j][offset..])
            && NextContent(patched, j) == j
  {
    var x := lines[j][offset..];
    var line := Spaces(offset) + x;
    IndentOfPadded(offset, x);
    LStripSpaces(offset, x);
    SplitKeyRStrip(x);
    RStripEnds(x);
    assert Strip(line) == RStrip(x);
  }

  // ----- the parser

  /**
   * Termination: lines left, then item lines before the item loop, before key
   * lines, before the key loop. The item loop re-enters `ParseNode` on its own
   * line once, with that line patched into a key line.
   */
  function ParseNode(lines: seq<string>, i: nat, indent: nat): (r: Parsed)
    requires i <= |lines|
    ensures i <= r.next <= |lines|
    ensures IsKeyLine(lines, i, indent) ==> i < r.next
    decreases |lines| - i, if IsItemNode(lines, i, indent) then 4 else 1
  {
    var j := NextContent(lines, i);
    if j >= |lines| || Indent(lines[j]) < indent then Parsed(Null, j)
    else if IsDash(Strip(lines[j])) then
      var p := ParseSequence(lines, j, Indent(lines[j]), []);
      Parsed(Items(p.items), p.next)
    else
      var p := ParseMapping(lines, j, Indent(lines[j]), []);
      Parsed(Dict(p.entries), p.next)
  }

  predicate IsItemNode(lines: seq<string>, i: nat, indent: nat)
    requires i <= |lines|
  {
    var j := NextContent(lines, i);
    j < |lines| && Indent(lines[j]) >= indent && IsDash(Strip(lines[j]))
  }

  /** A block follows the key when the next content is deeper, or an item at the same column. */
  predicate HasChild(lines: seq<string>, j: nat, indent: nat) {
    && j < |lines|
    && (Indent(lines[j]) > indent || (Indent(lines[j]) == indent && StartsDash(Strip(lines[j]))))
  }

  function ParseMapping(lines: seq<string>, start: nat, indent: nat, result: seq<Entry>): (r: Mapped)
    requires start <= |lines|
    ensures start <= r.next <= |lines|
    ensures IsKeyLine(lines, start, indent) ==> start < r.next
    decreases |lines| - start, 0
  {
    var i := NextContent(lines, start);
    if !IsKeyLine(lines, i, indent) then Mapped(result, i)
    else
      var p := ParseEntry(lines, i, indent);
      ParseMapping(lines, p.next, indent, Put(result, p.entry))
  }

  /** One key line and the value that belongs to it. */
  function ParseEntry(lines: seq<string>, i: nat, indent: nat): (r: Assigned)
    requires IsKeyLine(lines, i, indent)
    ensures i < r.next <= |lines|
    decreases |lines| - i - 1, 7
  {
    var KeyRest(key, rest) := SplitKey(Strip(lines[i])).value;
    var p := ParseValue(lines, i, indent, rest);
    Assigned(Entry(key, p.node), p.next)
  }

  /** The value behind the colon of line `i`: a block scalar, an inline value, or the block below. */
  function ParseValue(lines: seq<string>, i: nat, indent: nat, rest: string): (r: Found)
    requires i < |lines|
    ensures i < r.next <= |lines|
    decreases |lines| - i - 1, 6
  {
    var inline := Strip(Uncommented(rest));
    if IsBlockMarker(inline) then ParseText(lines, i, indent)
    else if inline != "" then Found(Node(Scalar(rest), i + 1, i + 1), i + 1)
    else ParseBlock(lines, i, indent)
  }

  function ParseText(lines: seq<string>, i: nat, indent: nat): (r: Found)
    requires i < |lines|
    ensures i < r.next <= |lines|
  {
    var body := BlockBody(lines, i + 1, indent);
    Found(Node(Str(BlockText(body)), i + 1, i + 1 + |body|), BlockEnd(lines, i + 1, indent))
  }

  function ParseBlock(lines: seq<string>, i: nat, indent: nat): (r: Found)
    requires i < |lines|
    ensures i < r.next <= |lines|
    decreases |lines| - i - 1, 5
  {
    var j := NextContent(lines, i + 1);
    if HasChild(lines, j, indent) then
      var p := ParseNode(lines, i + 1, Indent(lines[j]));
      Found(Node(p.v, i + 1, LastContent(Skips(lines), p.next, i)), p.next)
    else
      Found(Node(Null, i + 1, i + 1), i + 1)
  }

  function ParseSequence(lines: seq<string>, start: nat, indent: nat, items: seq<Node>): (r: Listed)
    requires start <= |lines|
    ensures start <= r.next <= |lines|
    decreases |lines| - start, 3
  {
    var i := NextContent(lines, start);
    if !IsItemLine(lines, i, indent) then Listed(items, i)
    else
      var p := ParseItem(lines, i, indent);
      ParseSequence(lines, p.next, indent, items + [p.node])
  }

  /** One dash line and the value that belongs to it. */
  function ParseItem(lines: seq<string>, i: nat, indent: nat): (r: Found)
    requires IsItemLine(lines, i, indent)
    ensures i < r.next <= |lines|
    decreases |lines| - i, 2
  {
    if Strip(lines[i]) == "-" then
      var p := ParseNode(lines, i + 1, indent + 1);
      Found(Node(p.v, i + 1, LastContent(Skips(lines), p.next, i)), p.next)
    else
      var raw := lines[i];
      var offset := ItemOffset(raw, indent);
      var text := Drop(raw, offset);
      if SplitKey(text).None? then Found(Node(Scalar(text), i + 1, i + 1), i + 1)
      else
        PatchedKeyLine(lines, i, offset);
        var patched := lines[i := PatchLine(raw, offset)];
        var p := ParseNode(patched, i, offset);
        Found(Node(p.v, i + 1, LastContent(Skips(lines), p.next, i)), p.next)
  }

  function ParseYaml(text: string): Value {
    ParseNode(Split(Untab(text), '\n'), 0, 0).v
  }

  /** `text.replace("\t", "    ")` */
  function Untab(text: string): string {
    if text == "" then ""
    else (if text[0] == '\t' then Spaces(4) else [text[0]]) + Untab(text[1..])
  }
}
