/** Reading back one printed line: keys, inline scalars and `|` bodies. */
module YamlInline {
  import opened Wrappers
  import opened Text
  import opened YamlLines
  import opened YamlParser
  import opened YamlPrint

  // ----- the comment scanner cuts nothing

  lemma {:induction false} NoCommentNoCut(text: string, i: nat, quote: Option<char>)
    requires i <= |text| && NoComment(text)
    ensures CommentStart(text, i, quote) == |text|
    decreases |text| - i
  {
    if i < |text| {
      NoCommentNoCut(text, i + 1, None);
      NoCommentNoCut(text, i + 1, quote);
      NoCommentNoCut(text, i + 1, Some(text[i]));
    }
  }

  /** Inside quotes `#` is text, as long as every inner quote is escaped. */
  lemma {:induction false} QuoteNoCut(text: string, i: nat, q: char)
    requires 0 < i <= |text|
    requires forall k :: i <= k < |text| - 1 && text[k] == q ==> text[k - 1] == '\\'
    ensures CommentStart(text, i, Some(q)) == |text|
    decreases |text| - i
  {
    if i < |text| - 1 {
      QuoteNoCut(text, i + 1, q);
    }
  }

  lemma {:induction false} InlineNoCut(t: Tree, lead: string)
    requires IsInline(t) && InlineOk(t) && (lead == "" || lead == " ")
    ensures var text := lead + InlineText(t); CommentStart(text, 0, None) == |text|
  {
    if t.Quoted? && Escaped(t.s, t.q) {
      EscapedNoCut(t.s, t.q, lead);
    } else {
      LeadNoComment(lead, InlineText(t));
      NoCommentNoCut(lead + InlineText(t), 0, None);
    }
  }

  lemma {:induction false} LeadNoComment(lead: string, s: string)
    requires (lead == "" || lead == " ") && NoComment(s)
    ensures NoComment(lead + s)
  {
    var text, n := lead + s, |lead|;
    forall k | 0 <= k < |text| && text[k] == '#' ensures k > 0 && text[k - 1] != ' ' && text[k - 1] != '\t' {
      assert s[k - n] == '#';
    }
  }

  lemma {:induction false} EscapedNoCut(s: string, q: char, lead: string)
    requires (lead == "" || lead == " ") && IsQuote(q) && Escaped(s, q)
    ensures var text := lead + ([q] + s + [q]); CommentStart(text, 0, None) == |text|
  {
    var text, n := lead + ([q] + s + [q]), |lead|;
    assert text[n] == q;
    forall k | n + 1 <= k < |text| - 1 && text[k] == q ensures text[k - 1] == '\\' {
      assert text[k] == s[k - n - 1];
    }
    QuoteNoCut(text, n + 1, q);
  }

  lemma {:induction false} InlineTrimmed(t: Tree)
    requires IsInline(t) && InlineOk(t)
    ensures InlineText(t) != "" && Trimmed(InlineText(t))
  {
  }

  lemma {:induction false} StripLead(lead: string, x: string)
    requires (lead == "" || lead == " ") && x != "" && Trimmed(x)
    ensures Strip(lead + x) == x && RStrip(lead + x) == lead + x
  {
    assert lead == Spaces(|lead|);
    StripIndented(|lead|, x);
    RStripKeepsTrimmed(lead, x);
  }

  // ----- flow lists

  /** `", "`-joined parts split at the commas into the parts, each but the first behind a blank. */
  lemma {:induction false} SplitFlow(parts: seq<string>)
    requires parts != []
    requires forall k :: 0 <= k < |parts| ==> ',' !in parts[k]
    ensures var pieces := Split(Join(parts, ", "), ',');
      && |pieces| == |parts| && pieces[0] == parts[0]
      && forall k :: 1 <= k < |parts| ==> pieces[k] == " " + parts[k]
  {
    if |parts| == 1 {
      SplitNone(parts[0], ',');
    } else {
      var rest := Join(parts[1..], ", ");
      SplitFlow(parts[1..]);
      var tail := " " + rest;
      assert Join(parts, ", ") == parts[0] + [','] + tail;
      SplitFirst(parts[0], ',', tail);
      assert tail[1..] == rest;
      var inner := Split(rest, ',');
      assert Split(tail, ',') == [" " + inner[0]] + inner[1..];
    }
  }

  lemma {:induction false} JoinEnds(parts: seq<string>)
    requires parts != [] && forall k :: 0 <= k < |parts| ==> parts[k] != "" && Trimmed(parts[k])
    ensures Join(parts, ", ") != "" && Trimmed(Join(parts, ", "))
  {
    if |parts| > 1 { JoinEnds(parts[1..]); }
  }

  lemma {:induction false} UnquoteWritten(x: Quotable)
    requires if x.quote.Some? then IsQuote(x.quote.value) else Unquote(x.s) == x.s
    ensures Unquote(Written(x)) == x.s
  {
  }

  lemma {:induction false} FlowReadsBack(parts: seq<Quotable>)
    requires forall k :: 0 <= k < |parts| ==> PartOk(parts[k])
    ensures var inner := Strip(Join(AllWritten(parts), ", "));
      Names(parts) == if inner == "" then [] else UnquoteAll(Split(inner, ','))
  {
    var texts := AllWritten(parts);
    if parts != [] {
      assert forall k :: 0 <= k < |parts| ==> PartOk(parts[k]);
      JoinEnds(texts);
      var joined := Join(texts, ", ");
      assert "" + joined == joined;
      StripLead("", joined);
      SplitFlow(texts);
      PiecesReadBack(parts, Split(joined, ','));
    }
  }

  lemma {:induction false} PiecesReadBack(parts: seq<Quotable>, pieces: seq<string>)
    requires |pieces| == |parts| && forall k :: 0 <= k < |parts| ==> PartOk(parts[k])
    requires forall k :: 0 <= k < |parts| ==> pieces[k] == if k == 0 then Written(parts[k]) else " " + Written(parts[k])
    ensures UnquoteAll(pieces) == Names(parts)
  {
    forall k | 0 <= k < |parts| ensures Unquote(Strip(pieces[k])) == parts[k].s { PieceReadsBack(parts[k]); }
  }

  lemma {:induction false} PieceReadsBack(x: Quotable)
    requires PartOk(x)
    ensures Unquote(Strip(Written(x))) == x.s && Unquote(Strip(" " + Written(x))) == x.s
  {
    assert "" + Written(x) == Written(x);
    StripLead("", Written(x));
    StripLead(" ", Written(x));
    UnquoteWritten(x);
  }

  lemma {:induction false} InlineStrips(t: Tree, lead: string)
    requires IsInline(t) && InlineOk(t) && (lead == "" || lead == " ")
    ensures Strip(Uncommented(lead + InlineText(t))) == InlineText(t)
  {
    var raw := lead + InlineText(t);
    InlineNoCut(t, lead);
    InlineTrimmed(t);
    assert raw[..|raw|] == raw;
    StripLead(lead, InlineText(t));
  }

  lemma {:induction false} UnquoteReadsBack(t: Tree)
    requires IsInline(t) && InlineOk(t) && !t.FlowList?
    ensures !IsFlow(InlineText(t)) && Words(Unquote(InlineText(t))) == Meaning(t)
  {
    if t.Quoted? { UnquoteWritten(Quotable(t.s, Some(t.q))); }
  }

  /** An inline scalar is read back as what it says. */
  lemma {:induction false} InlineReadsBack(t: Tree, lead: string)
    requires IsInline(t) && InlineOk(t) && (lead == "" || lead == " ")
    ensures Erase(Scalar(lead + InlineText(t))) == Meaning(t)
  {
    InlineStrips(t, lead);
    InlineTrimmed(t);
    if t.FlowList? { FlowScalar(lead + InlineText(t), t); } else { WordScalar(lead + InlineText(t), t); }
  }

  lemma {:induction false} FlowScalar(raw: string, t: Tree)
    requires t.FlowList? && InlineOk(t) && Strip(Uncommented(raw)) == InlineText(t)
    ensures Erase(Scalar(raw)) == Meaning(t)
  {
    FlowInner(t);
    FlowReadsBack(t.parts);
  }

  lemma {:induction false} WordScalar(raw: string, t: Tree)
    requires IsInline(t) && InlineOk(t) && !t.FlowList? && Strip(Uncommented(raw)) == InlineText(t) != ""
    ensures Erase(Scalar(raw)) == Meaning(t)
  {
    UnquoteReadsBack(t);
  }

  lemma {:induction false} FlowInner(t: Tree)
    requires t.FlowList?
    ensures var s := InlineText(t); |s| >= 2 && s[1..|s| - 1] == Join(AllWritten(t.parts), ", ")
  {
  }

  // ----- key lines

  lemma {:induction false} SkipKeyCharsTo(s: string, i: nat, end: nat)
    requires i <= end < |s| && !IsKeyChar(s[end])
    requires forall k :: i <= k < end ==> IsKeyChar(s[k])
    ensures SkipKeyChars(s, i) == end
    decreases end - i
  {
    if i < end { SkipKeyCharsTo(s, i + 1, end); }
  }

  lemma {:induction false} FindCharAt(s: string, c: char, i: nat, at: nat)
    requires i <= at < |s| && s[at] == c
    requires forall k :: i <= k < at ==> s[k] != c
    ensures FindChar(s, c, i) == at
    decreases at - i
  {
    if i < at { FindCharAt(s, c, i + 1, at); }
  }

  lemma {:induction false} KeyReadsBack(key: Quotable, tail: string)
    requires KeyOk(key) && (tail == "" || tail[0] == ' ')
    ensures SplitKey(Written(key) + ":" + tail) == Some(KeyRest(key.s, tail))
  {
    var word := Written(key);
    var s := word + ":" + tail;
    var end := |word|;
    assert s[end] == ':';
    assert s[..end] == word;
    assert s[end + 1..] == tail;
    if key.quote.None? {
      forall k | 1 <= k < end ensures IsKeyChar(s[k]) { assert s[k] == key.s[k]; }
      SkipKeyCharsTo(s, 1, end);
      assert key.s[0] == s[0];
    } else {
      forall k | 1 <= k < end - 1 ensures s[k] != key.quote.value { assert s[k] == key.s[k - 1]; }
      FindCharAt(s, key.quote.value, 1, end - 1);
    }
    assert KeyEnd(s) == Some(end);
    UnquoteKey(key);
  }

  lemma {:induction false} UnquoteKey(key: Quotable)
    requires KeyOk(key)
    ensures Unquote(Written(key)) == key.s
  {
    if key.quote.None? { assert key.s[0] in key.s; }
  }

  /** The line `key:tail` at column `n`, as the mapping loop sees it. */
  lemma {:induction false} HeadIsKeyLine(key: Quotable, n: nat, tail: string, lines: seq<string>, i: nat)
    requires KeyOk(key) && i < |lines| && lines[i] == Head(key, n, tail)
    requires tail == "" || (tail[0] == ' ' && Trimmed(tail[1..]) && tail[1..] != "")
    ensures IsKeyLine(lines, i, n) && Strip(lines[i]) == Written(key) + ":" + tail
    ensures SplitKey(Strip(lines[i])) == Some(KeyRest(key.s, tail))
    ensures NextContent(lines, i) == i
  {
    var x := Written(key) + ":" + tail;
    KeyReadsBack(key, tail);
    HeadTrimmed(key, tail);
    StripIndented(n, x);
    IndentOfPadded(n, x);
  }

  lemma {:induction false} HeadTrimmed(key: Quotable, tail: string)
    requires KeyOk(key)
    requires tail == "" || (Trimmed(tail[1..]) && tail[1..] != "")
    ensures var x := Written(key) + ":" + tail;
      Trimmed(x) && x != "" && x[0] != '#' && x[0] != ' ' && x[0] != '-'
  {
    var x := Written(key) + ":" + tail;
    assert x[|x| - 1] == if tail == "" then ':' else tail[1..][|tail| - 2];
    assert x[0] == Written(key)[0];
  }

  /** A dash line at column `n`. */
  lemma {:induction false} DashIsItemLine(x: string, n: nat, lines: seq<string>, i: nat)
    requires i < |lines| && lines[i] == Spaces(n) + x
    requires x == "-" || ("- " <= x && |x| > 2 && Trimmed(x) && x[2] != ' ')
    ensures IsItemLine(lines, i, n) && Strip(lines[i]) == x && NextContent(lines, i) == i
    ensures x != "-" ==> ItemOffset(lines[i], n) == n + 2 && Drop(lines[i], n + 2) == x[2..]
  {
    StripIndented(n, x);
    IndentOfPadded(n, x);
    if x != "-" {
      var raw := lines[i];
      assert raw[n] == '-' && raw[n + 1] == ' ' && raw[n + 2] == x[2];
      assert SkipBlanks(raw, n + 2) == n + 2;
      assert SkipBlanks(raw, n + 1) == n + 2;
      assert raw[n + 2..] == x[2..];
    }
  }

  // ----- `|` bodies

  lemma {:induction false} PadBlank(n: nat, x: string)
    ensures LStrip(Spaces(n) + x) == LStrip(x) && Indent(Spaces(n) + x) == n + Indent(x)
    decreases n
  {
    if n == 0 { assert Spaces(0) + x == x; }
    else {
      assert (Spaces(n) + x)[1..] == Spaces(n - 1) + x;
      PadBlank(n - 1, x);
    }
  }

  lemma {:induction false} IndentedLine(body: seq<string>, m: nat, k: nat)
    requires LiteralOk(body) && k < |body|
    ensures Blank(Indented(body, m)[k]) == (body[k] == "")
    ensures body[k] != "" ==> Indent(Indented(body, m)[k]) == m + Indent(body[k])
  {
    PadBlank(m, body[k]);
  }

  lemma {:induction false} BlockEndsAt(lines: seq<string>, i: nat, parentIndent: nat, end: nat)
    requires i <= end <= |lines|
    requires forall k :: i <= k < end ==> Blank(lines[k]) || Indent(lines[k]) > parentIndent
    requires end < |lines| ==> !Blank(lines[end]) && Indent(lines[end]) <= parentIndent
    ensures BlockEnd(lines, i, parentIndent) == end
    decreases end - i
  {
    if i < end { BlockEndsAt(lines, i + 1, parentIndent, end); }
  }

  lemma {:induction false} DropTrailingExact(body: seq<string>, keep: nat)
    requires keep <= |body| && (keep == 0 || body[keep - 1] != "")
    requires forall k :: keep <= k < |body| ==> body[k] == ""
    ensures DropTrailingEmpty(body) == body[..keep]
    decreases |body|
  {
    if keep < |body| {
      DropTrailingExact(body[..|body| - 1], keep);
      assert body[..|body| - 1][..keep] == body[..keep];
    } else {
      assert body[..keep] == body;
    }
  }

  lemma {:induction false} MinIndentIs(printed: seq<string>, m: nat, flush: nat)
    requires flush < |printed| && !Blank(printed[flush]) && Indent(printed[flush]) == m
    requires forall k :: 0 <= k < |printed| && !Blank(printed[k]) ==> m <= Indent(printed[k])
    ensures MinIndent(printed) == Some(m)
  {
  }

  lemma {:induction false} MinIndentOfIndented(body: seq<string>, m: nat)
    requires LiteralOk(body) && body != []
    ensures MinIndent(Indented(body, m)) == Some(m)
  {
    var printed := Indented(body, m);
    var flush :| 0 <= flush < |body| && body[flush] != "" && Indent(body[flush]) == 0;
    forall k | 0 <= k < |body|
      ensures Blank(printed[k]) == (body[k] == "")
      ensures body[k] != "" ==> Indent(printed[k]) == m + Indent(body[k])
    {
      IndentedLine(body, m, k);
    }
    MinIndentIs(printed, m, flush);
  }

  lemma {:induction false} DedentOfIndented(body: seq<string>, m: nat)
    requires LiteralOk(body)
    ensures Dedent(Indented(body, m), m) == body
  {
    var printed := Indented(body, m);
    forall k | 0 <= k < |body| ensures Dedent(printed, m)[k] == body[k] {
      IndentedLine(body, m, k);
      if body[k] != "" { assert (Spaces(m) + body[k])[m..] == body[k]; }
    }
  }

  /** The common indentation of a printed body is exactly what the printer added. */
  lemma {:induction false} LiteralReadsBack(body: seq<string>, m: nat)
    requires LiteralOk(body)
    ensures BlockText(Indented(body, m)) == Join(body, "\n")
  {
    if body != [] {
      MinIndentOfIndented(body, m);
      DedentOfIndented(body, m);
    }
  }
}
