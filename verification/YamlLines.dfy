/**
 * Line-level rules of the workflow parser: indentation, comments, keys,
 * scalars and block-scalar bodies. Each loop of the original is a method here,
 * proved against the function of the same meaning.
 */
module YamlLines {
  import opened Wrappers
  import opened Text

  /** A parsed value; `Dict` keeps insertion order, as a Python dict does. */
  datatype Value =
    | Null
    | Str(text: string)
    | Flow(parts: seq<string>)
    | Items(items: seq<Node>)
    | Dict(entries: seq<Entry>)

  /** A value with the 1-based lines it starts and ends on. */
  datatype Node = Node(v: Value, line: nat, endLine: nat)

  datatype Entry = Entry(key: string, node: Node)

  // ----- indentation and blank or comment lines

  function Indent(line: string): (n: nat)
    ensures n <= |line|
    ensures forall k :: 0 <= k < n ==> line[k] == ' '
    ensures n < |line| ==> line[n] != ' '
  {
    if line != "" && line[0] == ' ' then 1 + Indent(line[1..]) else 0
  }

  predicate Blank(line: string)
    ensures line == "" ==> Blank(line)
  {
    Strip(line) == ""
  }

  predicate Skippable(line: string) {
    var s := Strip(line);
    s == "" || s[0] == '#'
  }

  function NextContent(lines: seq<string>, i: nat): (r: nat)
    requires i <= |lines|
    ensures i <= r <= |lines|
    ensures forall k :: i <= k < r ==> Skippable(lines[k])
    ensures r < |lines| ==> !Skippable(lines[r])
    decreases |lines| - i
  {
    if i < |lines| && Skippable(lines[i]) then NextContent(lines, i + 1) else i
  }

  method FindNextContent(lines: seq<string>, start: nat) returns (i: nat)
    requires start <= |lines|
    ensures i == NextContent(lines, start)
  {
    i := start;
    while i < |lines| && Skippable(lines[i])
      invariant i <= |lines|
      invariant NextContent(lines, i) == NextContent(lines, start)
    {
      i := i + 1;
    }
  }

  /** Which lines are blank or comments. */
  function Skips(lines: seq<string>): (r: seq<bool>)
    ensures |r| == |lines| && forall k :: 0 <= k < |lines| ==> r[k] == Skippable(lines[k])
  {
    seq(|lines|, k requires 0 <= k < |lines| => Skippable(lines[k]))
  }

  /**
   * The 1-based number of the last content line before `end`, but not before
   * the line after index `floor`.
   */
  function LastContent(skip: seq<bool>, end: nat, floor: nat): (r: nat)
    ensures floor < end <= |skip| ==> floor + 1 <= r <= end
    ensures floor < end <= |skip| ==> forall k :: r <= k < end ==> skip[k]
    ensures floor < end <= |skip| ==> r == floor + 1 || !skip[r - 1]
    decreases end
  {
    if end > |skip| then LastContent(skip, |skip|, floor)
    else if end > floor && skip[end - 1] then LastContent(skip, end - 1, floor)
    else if end > floor then end
    else floor + 1
  }

  method LastContentLine(lines: seq<string>, end: nat, floor: nat) returns (r: nat)
    ensures r == LastContent(Skips(lines), end, floor)
  {
    ghost var skip := Skips(lines);
    var stop := if end < |lines| then end else |lines|;
    var j: int := stop - 1;
    while j >= floor && Skippable(lines[j])
      invariant j < stop
      invariant j >= floor - 1 || j == stop - 1
      invariant j >= -1
      invariant LastContent(skip, end, floor) == LastContent(skip, j + 1, floor)
    {
      j := j - 1;
    }
    r := if j + 1 >= floor + 1 then j + 1 else floor + 1;
  }

  // ----- inline comments

  predicate IsQuote(c: char) { c == '"' || c == '\'' }

  /** Where an unquoted `#` that follows a blank, or starts the text, cuts it. */
  function CommentStart(text: string, i: nat, quote: Option<char>): (r: nat)
    requires i <= |text|
    ensures i <= r <= |text|
    decreases |text| - i
  {
    if i == |text| then i
    else if quote.Some? then
      CommentStart(text, i + 1, if text[i] == quote.value && !(i > 0 && text[i - 1] == '\\') then None else quote)
    else if IsQuote(text[i]) then CommentStart(text, i + 1, Some(text[i]))
    else if text[i] == '#' && (i == 0 || text[i - 1] == ' ' || text[i - 1] == '\t') then i
    else CommentStart(text, i + 1, None)
  }

  /** The text without its inline comment and trailing whitespace. */
  function Uncommented(text: string): string {
    RStrip(text[..CommentStart(text, 0, None)])
  }

  method StripInlineComment(text: string) returns (r: string)
    ensures r == Uncommented(text)
  {
    var out: string := [];
    var quote: Option<char> := None;
    var prev: Option<char> := None;
    var idx := 0;
    while idx < |text|
      invariant 0 <= idx <= |text|
      invariant out == text[..idx]
      invariant prev == if idx == 0 then None else Some(text[idx - 1])
      invariant CommentStart(text, idx, quote) == CommentStart(text, 0, None)
    {
      var ch := text[idx];
      if quote.Some? {
        out := out + [ch];
        if ch == quote.value && prev != Some('\\') {
          quote := None;
        }
      } else if IsQuote(ch) {
        quote := Some(ch);
        out := out + [ch];
      } else if ch == '#' && (idx == 0 || text[idx - 1] == ' ' || text[idx - 1] == '\t') {
        break;
      } else {
        out := out + [ch];
      }
      prev := Some(ch);
      idx := idx + 1;
    }
    r := RStrip(out);
  }

  // ----- scalars and keys

  function Unquote(s: string): string {
    if |s| >= 2 && s[0] == s[|s| - 1] && IsQuote(s[0]) then s[1..|s| - 1] else s
  }

  function UnquoteAll(parts: seq<string>): (r: seq<string>)
    ensures |r| == |parts|
    ensures forall k :: 0 <= k < |parts| ==> r[k] == Unquote(Strip(parts[k]))
  {
    seq(|parts|, k requires 0 <= k < |parts| => Unquote(Strip(parts[k])))
  }

  predicate IsFlow(s: string) { s != "" && s[0] == '[' && s[|s| - 1] == ']' }

  function Scalar(raw: string): Value {
    var s := Strip(Uncommented(raw));
    if s == "" then Null
    else if IsFlow(s) then
      var inner := Strip(s[1..|s| - 1]);
      if inner == "" then Flow([]) else Flow(UnquoteAll(Split(inner, ',')))
    else Str(Unquote(s))
  }

  /** `|`, `|-`, `|+`, `>`, `>-` or `>+`. */
  predicate IsBlockMarker(s: string) {
    && 1 <= |s| <= 2
    && (s[0] == '|' || s[0] == '>')
    && (|s| == 2 ==> s[1] == '-' || s[1] == '+')
  }

  predicate IsKeyStart(c: char) { IsLetter(c) || c == '_' }

  predicate IsKeyChar(c: char) { IsLetter(c) || IsDigit(c) || c == '_' || c == '.' || c == '-' }

  function SkipKeyChars(s: string, i: nat): (r: nat)
    requires i <= |s|
    ensures i <= r <= |s|
    decreases |s| - i
  {
    if i < |s| && IsKeyChar(s[i]) then SkipKeyChars(s, i + 1) else i
  }

  function SkipSpaces(s: string, i: nat): (r: nat)
    requires i <= |s|
    ensures i <= r <= |s|
    decreases |s| - i
  {
    if i < |s| && IsSpace(s[i]) then SkipSpaces(s, i + 1) else i
  }

  function FindChar(s: string, c: char, i: nat): (r: nat)
    requires i <= |s|
    ensures i <= r <= |s|
    ensures forall k :: i <= k < r ==> s[k] != c
    ensures r < |s| ==> s[r] == c
    decreases |s| - i
  {
    if i < |s| && s[i] != c then FindChar(s, c, i + 1) else i
  }

  /** The end of the key that starts the text: an identifier or a non-empty quoted run. */
  function KeyEnd(s: string): (r: Option<nat>)
    ensures r.Some? ==> 0 < r.value <= |s|
  {
    if s == "" then None
    else if IsKeyStart(s[0]) then Some(SkipKeyChars(s, 1))
    else if IsQuote(s[0]) then
      var close := FindChar(s, s[0], 1);
      if 2 <= close < |s| then Some(close + 1) else None
    else None
  }

  datatype KeyRest = KeyRest(key: string, rest: string)

  /** The key and the text after its colon, when the text is `key:` or `key: …`. */
  function SplitKey(s: string): Option<KeyRest> {
    var end := KeyEnd(s);
    if end.None? then None
    else
      var colon := SkipSpaces(s, end.value);
      if colon < |s| && s[colon] == ':' && (colon + 1 == |s| || IsSpace(s[colon + 1]))
      then Some(KeyRest(Unquote(s[..end.value]), s[colon + 1..]))
      else None
  }

  // ----- block scalars

  /** The first line at or after `i` that is neither blank nor deeper than the parent. */
  function BlockEnd(lines: seq<string>, i: nat, parentIndent: nat): (r: nat)
    requires i <= |lines|
    ensures i <= r <= |lines|
    decreases |lines| - i
  {
    if i < |lines| && (Blank(lines[i]) || Indent(lines[i]) > parentIndent)
    then BlockEnd(lines, i + 1, parentIndent)
    else i
  }

  function BlankToEmpty(lines: seq<string>): (r: seq<string>)
    ensures |r| == |lines|
    ensures forall k :: 0 <= k < |lines| ==> r[k] == if Blank(lines[k]) then "" else lines[k]
  {
    seq(|lines|, k requires 0 <= k < |lines| => if Blank(lines[k]) then "" else lines[k])
  }

  function DropTrailingEmpty(body: seq<string>): (r: seq<string>)
    ensures r <= body
    ensures forall k :: |r| <= k < |body| ==> body[k] == ""
    ensures r == [] || r[|r| - 1] != ""
  {
    if body != [] && body[|body| - 1] == "" then DropTrailingEmpty(body[..|body| - 1]) else body
  }

  /** The least indentation of the non-blank lines, if there is such a line. */
  function MinIndent(body: seq<string>): (r: Option<nat>)
    ensures r.Some? ==> exists k :: 0 <= k < |body| && !Blank(body[k]) && Indent(body[k]) == r.value
    ensures forall k :: 0 <= k < |body| && !Blank(body[k]) ==> r.Some? && r.value <= Indent(body[k])
  {
    if body == [] then None
    else
      var rest := MinIndent(body[1..]);
      if Blank(body[0]) || (rest.Some? && rest.value <= Indent(body[0])) then
        assert rest.Some? ==>
          exists k :: 0 <= k < |body[1..]| && !Blank(body[1..][k]) && Indent(body[1..][k]) == rest.value;
        rest
      else Some(Indent(body[0]))
  }

  /** `s[n:]` as Python slices it. */
  function Drop(s: string, n: nat): string { if n <= |s| then s[n..] else "" }

  function Dedent(body: seq<string>, base: nat): (r: seq<string>)
    ensures |r| == |body|
    ensures forall k :: 0 <= k < |body| ==> r[k] == if Blank(body[k]) then "" else Drop(body[k], base)
  {
    seq(|body|, k requires 0 <= k < |body| => if Blank(body[k]) then "" else Drop(body[k], base))
  }

  /** The body lines of the block scalar that starts at line `i`, blank tail dropped. */
  function BlockBody(lines: seq<string>, i: nat, parentIndent: nat): (r: seq<string>)
    requires i <= |lines|
    ensures i + |r| <= BlockEnd(lines, i, parentIndent)
  {
    DropTrailingEmpty(BlankToEmpty(lines[i..BlockEnd(lines, i, parentIndent)]))
  }

  /** The text of a block scalar body: its common indentation removed, lines joined. */
  function BlockText(body: seq<string>): string {
    var base := MinIndent(body);
    if body == [] || base.None? then "" else Join(Dedent(body, base.value), "\n")
  }

  lemma BlankToEmptySnoc(lines: seq<string>, start: nat, i: nat)
    requires start <= i < |lines|
    ensures BlankToEmpty(lines[start..i + 1])
         == BlankToEmpty(lines[start..i]) + [if Blank(lines[i]) then "" else lines[i]]
  {
    assert lines[start..i + 1] == lines[start..i] + [lines[i]];
  }

  lemma DropTrailingEmptySnoc(body: seq<string>, line: string)
    ensures DropTrailingEmpty(body + [line]) == if line == "" then DropTrailingEmpty(body) else body + [line]
  {
    assert (body + [line])[..|body|] == body;
  }

  /** What one more line of a block scalar adds. */
  lemma {:induction false} CollectOne(
    lines: seq<string>, start: nat, i: nat, parentIndent: nat, body: seq<string>, end: int)
    requires start <= i < |lines| && (Blank(lines[i]) || Indent(lines[i]) > parentIndent)
    requires Collected(lines, start, i, parentIndent, body, end)
    ensures Blank(lines[i]) ==> Collected(lines, start, i + 1, parentIndent, body + [""], end)
    ensures !Blank(lines[i]) ==> Collected(lines, start, i + 1, parentIndent, body + [lines[i]], i)
  {
    BlankToEmptySnoc(lines, start, i);
    DropTrailingEmptySnoc(body, if Blank(lines[i]) then "" else lines[i]);
    assert !Blank(lines[i]) ==> lines[i] != "";
  }

  /** The state of the loop below before line `i`. */
  ghost predicate Collected(lines: seq<string>, start: nat, i: nat, parentIndent: nat, body: seq<string>, end: int)
    requires start <= i <= |lines|
  {
    && BlockEnd(lines, i, parentIndent) == BlockEnd(lines, start, parentIndent)
    && body == BlankToEmpty(lines[start..i]) && |body| == i - start
    && end == start + |DropTrailingEmpty(body)| - 1
  }

  lemma {:induction false} CollectNone(lines: seq<string>, start: nat, parentIndent: nat)
    requires start <= |lines|
    ensures Collected(lines, start, start, parentIndent, [], start - 1)
  {
    assert lines[start..start] == [];
  }

  lemma {:induction false} CollectAll(
    lines: seq<string>, start: nat, i: nat, parentIndent: nat, body: seq<string>, end: int)
    requires start <= i <= |lines| && Collected(lines, start, i, parentIndent, body, end)
    requires i == |lines| || (!Blank(lines[i]) && Indent(lines[i]) <= parentIndent)
    ensures i == BlockEnd(lines, start, parentIndent)
    ensures body == BlankToEmpty(lines[start..i]) && end == start + |DropTrailingEmpty(body)| - 1
  {
  }

  /** The lines of a block scalar, blank ones emptied, and the index of its last non-blank line. */
  method CollectBlock(lines: seq<string>, start: nat, parentIndent: nat) returns (body: seq<string>, i: nat, end: int)
    requires start <= |lines|
    ensures i == BlockEnd(lines, start, parentIndent)
    ensures body == BlankToEmpty(lines[start..i])
    ensures end == start + |DropTrailingEmpty(body)| - 1
  {
    i, body, end := start, [], start - 1;
    CollectNone(lines, start, parentIndent);
    while i < |lines| && (Blank(lines[i]) || Indent(lines[i]) > parentIndent)
      invariant start <= i <= |lines|
      invariant Collected(lines, start, i, parentIndent, body, end)
    {
      CollectOne(lines, start, i, parentIndent, body, end);
      var line := lines[i];
      if Blank(line) {
        body := body + [""];
      } else {
        body, end := body + [line], i;
      }
      i := i + 1;
    }
    CollectAll(lines, start, i, parentIndent, body, end);
  }

  /** `next` is the first unread line; `end` the 0-based last body line (`start - 1` when empty). */
  method ReadBlockScalar(lines: seq<string>, start: nat, parentIndent: nat) returns (text: string, next: nat, end: int)
    requires start <= |lines|
    ensures next == BlockEnd(lines, start, parentIndent)
    ensures text == BlockText(BlockBody(lines, start, parentIndent))
    ensures end == start + |BlockBody(lines, start, parentIndent)| - 1
  {
    var body;
    body, next, end := CollectBlock(lines, start, parentIndent);
    ghost var full := body;
    while body != [] && body[|body| - 1] == ""
      invariant DropTrailingEmpty(body) == DropTrailingEmpty(full)
    {
      body := body[..|body| - 1];
    }
    text := if body == [] then "" else BlockText(body);
  }
}
