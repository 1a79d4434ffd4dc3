/** The file on which spans do not nest: a `|` text that ends on a `#` line. */
module YamlSpanCase {
  import opened Wrappers
  import opened Text
  import opened YamlLines
  import opened YamlParser
  import opened YamlPrint
  import opened YamlInline
  import opened YamlRoundTrip
  import opened YamlSpans

  const OUTER := Quotable("a", None)
  const INNER := Quotable("b", None)

  /** `a:`, below it `b: |`, below that the text `# y`. */
  function Case(): seq<string> { [Head(OUTER, 0, ""), Head(INNER, 2, " |"), Spaces(4) + "# y"] }

  lemma {:induction false} CaseLines()
    ensures var lines := Case();
      && IsKeyLine(lines, 0, 0) && NextContent(lines, 0) == 0
      && SplitKey(Strip(lines[0])) == Some(KeyRest("a", ""))
      && IsKeyLine(lines, 1, 2) && NextContent(lines, 1) == 1
      && SplitKey(Strip(lines[1])) == Some(KeyRest("b", " |"))
      && Skippable(lines[2]) && !Blank(lines[2]) && Indent(lines[2]) == 4
  {
    OuterLine();
    InnerLine();
    CommentLine();
  }

  lemma {:induction false} OuterLine()
    ensures IsKeyLine(Case(), 0, 0) && NextContent(Case(), 0) == 0
    ensures SplitKey(Strip(Case()[0])) == Some(KeyRest("a", ""))
  {
    HeadIsKeyLine(OUTER, 0, "", Case(), 0);
  }

  lemma {:induction false} InnerLine()
    ensures IsKeyLine(Case(), 1, 2) && NextContent(Case(), 1) == 1
    ensures SplitKey(Strip(Case()[1])) == Some(KeyRest("b", " |"))
  {
    assert " |"[1..] == "|";
    HeadIsKeyLine(INNER, 2, " |", Case(), 1);
  }

  lemma {:induction false} CommentLine()
    ensures var line := Case()[2]; Skippable(line) && !Blank(line) && Indent(line) == 4
  {
    StripIndented(4, "# y");
    IndentOfPadded(4, "# y");
  }

  lemma {:induction false} CaseText()
    ensures ParseText(Case(), 1, 2).node.line == 2 && ParseText(Case(), 1, 2).node.endLine == 3
    ensures ParseText(Case(), 1, 2).next == 3
  {
    var lines := Case();
    CaseLines();
    assert BlockEnd(lines, 2, 2) == 3;
    var read := BlankToEmpty(lines[2..3]);
    assert read[0] == lines[2] && lines[2] != "";
    DropTrailingExact(read, 1);
  }

  lemma {:induction false} CaseInner()
    ensures var p := ParseNode(Case(), 1, 2);
      && p.next == 3 && |Children(p.v)| == 1 && Children(p.v)[0].line == 2 && Children(p.v)[0].endLine == 3
  {
    var lines := Case();
    CaseLines();
    CaseText();
    MarkerValue(lines, 1, 2);
    NodeAtKey(lines, 1, 2, 2);
    MappingStep(lines, 1, 2, []);
    MappingEnds(lines, 3, 2, Put([], ParseEntry(lines, 1, 2).entry));
  }

  /** The child's span ends one line below its parent's. */
  lemma {:induction false} CommentTailOutrunsParent()
    ensures IsKeyLine(Case(), 0, 0)
    ensures var p := ParseEntry(Case(), 0, 0).entry.node;
      && p.line == 1 && p.endLine == 2 && |Children(p.v)| == 1 && Children(p.v)[0].endLine == 3
      && !Covers(p)
  {
    var lines := Case();
    CaseLines();
    CaseInner();
    EmptyStrips();
    assert Skips(lines)[2] && !Skips(lines)[1];
    assert LastContent(Skips(lines), 3, 0) == 2;
    var p := ParseEntry(lines, 0, 0).entry.node;
    assert Children(p.v)[0].endLine > p.endLine;
  }
}
