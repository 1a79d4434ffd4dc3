/** Inline values with a comment behind them: when the comment is dropped. */
module YamlComment {
  import opened Wrappers
  import opened Text
  import opened YamlLines
  import opened YamlPrint
  import opened YamlInline

  /** The quote the comment scanner takes itself to be in behind a text. */
  function QuoteAfter(text: string, i: nat, quote: Option<char>): Option<char>
    requires i <= |text|
    decreases |text| - i
  {
    if i == |text| then quote
    else if quote.Some? then
      QuoteAfter(text, i + 1, if text[i] == quote.value && !(i > 0 && text[i - 1] == '\\') then None else quote)
    else QuoteAfter(text, i + 1, if IsQuote(text[i]) then Some(text[i]) else None)
  }

  /** A value behind some blanks, and blanks and a comment behind it. */
  function Commented(lead: nat, text: string, gap: nat, note: string): string {
    Spaces(lead) + text + (Spaces(gap) + "#" + note)
  }

  // ----- the scan

  lemma {:induction false} ScanLead(lead: nat, rest: string, i: nat)
    requires i <= lead
    ensures CommentStart(Spaces(lead) + rest, i, None) == CommentStart(Spaces(lead) + rest, lead, None)
    decreases lead - i
  {
    if i < lead { ScanLead(lead, rest, i + 1); }
  }

  /** Where the text alone is not cut, the scan runs through it. */
  lemma {:induction false} ScanText(pre: string, text: string, tail: string, i: nat, quote: Option<char>)
    requires i <= |text| && text != "" && text[0] != '#' && CommentStart(text, i, quote) == |text|
    requires i == 0 ==> quote.None?
    ensures var s := pre + text + tail;
      CommentStart(s, |pre| + i, quote) == CommentStart(s, |pre| + |text|, QuoteAfter(text, i, quote))
    decreases |text| - i
  {
    var s, p := pre + text + tail, |pre| + i;
    if i < |text| {
      assert s[p] == text[i] && (i > 0 ==> s[p - 1] == text[i - 1]);
      if quote.Some? {
        ScanText(pre, text, tail, i + 1, if text[i] == quote.value && text[i - 1] != '\\' then None else quote);
      } else {
        ScanText(pre, text, tail, i + 1, if IsQuote(text[i]) then Some(text[i]) else None);
      }
    }
  }

  lemma {:induction false} ScanGap(s: string, p: nat, gap: nat)
    requires p + gap < |s| && s[p + gap] == '#' && (forall k :: p <= k < p + gap ==> s[k] == ' ')
    requires gap > 0 || (p > 0 && s[p - 1] == ' ')
    ensures CommentStart(s, p, None) == p + gap
    decreases gap
  {
    if gap > 0 { ScanGap(s, p + 1, gap - 1); }
  }

  /** In a quote the `#` is passed over. */
  lemma {:induction false} ScanQuoted(s: string, p: nat, q: char, at: nat)
    requires p <= at < |s| && forall k :: p <= k <= at ==> s[k] != q
    ensures CommentStart(s, p, Some(q)) > at
    decreases at - p
  {
    if p < at { ScanQuoted(s, p + 1, q, at); }
  }

  /** The quote the scanner is in is one of the two quote characters. */
  lemma {:induction false} AfterIsQuote(text: string, i: nat, quote: Option<char>)
    requires i <= |text| && (quote.Some? ==> IsQuote(quote.value))
    ensures QuoteAfter(text, i, quote).Some? ==> IsQuote(QuoteAfter(text, i, quote).value)
    decreases |text| - i
  {
    if i < |text| {
      if quote.Some? {
        AfterIsQuote(text, i + 1, if text[i] == quote.value && !(i > 0 && text[i - 1] == '\\') then None else quote);
      } else {
        AfterIsQuote(text, i + 1, if IsQuote(text[i]) then Some(text[i]) else None);
      }
    }
  }

  /** The cut falls at the `#` where no quote is open, and behind it where one is. */
  lemma {:induction false} CutAt(lead: nat, text: string, gap: nat, note: string)
    requires gap > 0 && text != "" && text[0] != '#' && CommentStart(text, 0, None) == |text|
    ensures var cut := CommentStart(Commented(lead, text, gap, note), 0, None);
      if QuoteAfter(text, 0, None).None? then cut == lead + |text| + gap else cut > lead + |text| + gap
  {
    var pre, tail := Spaces(lead), Spaces(gap) + "#" + note;
    var s, p := pre + text + tail, lead + |text|;
    assert s == pre + (text + tail);
    ScanLead(lead, text + tail, 0);
    ScanText(pre, text, tail, 0, None);
    forall k | p <= k < p + gap ensures s[k] == ' ' { assert s[k] == tail[k - p]; }
    assert s[p + gap] == tail[gap] == '#';
    if QuoteAfter(text, 0, None).None? {
      ScanGap(s, p, gap);
    } else {
      AfterIsQuote(text, 0, None);
      ScanQuoted(s, p, QuoteAfter(text, 0, None).value, p + gap);
    }
  }

  // ----- the text that is left

  lemma {:induction false} RStripSpaces(x: string, gap: nat)
    requires x != "" && !IsSpace(x[|x| - 1])
    ensures RStrip(x + Spaces(gap)) == x
    decreases gap
  {
    if gap == 0 { assert x + Spaces(0) == x; }
    else {
      assert (x + Spaces(gap))[..|x| + gap - 1] == x + Spaces(gap - 1);
      RStripSpaces(x, gap - 1);
    }
  }

  lemma {:induction false} CutStrips(lead: nat, text: string, gap: nat, note: string)
    requires text != "" && Trimmed(text)
    ensures Strip(RStrip(Commented(lead, text, gap, note)[..lead + |text| + gap])) == text
  {
    var x := Spaces(lead) + text;
    assert Commented(lead, text, gap, note)[..lead + |text| + gap] == x + Spaces(gap);
    assert x[|x| - 1] == text[|text| - 1];
    RStripSpaces(x, gap);
    StripIndented(lead, text);
  }

  /** What is cut behind the `#` keeps more than the text. */
  lemma {:induction false} LongerStays(lead: nat, text: string, gap: nat, note: string, cut: nat)
    requires text != "" && Trimmed(text) && gap > 0 && lead + |text| + gap < cut <= |Commented(lead, text, gap, note)|
    ensures Strip(RStrip(Commented(lead, text, gap, note)[..cut])) != text
  {
    var at := lead + |text| + gap;
    var x := Commented(lead, text, gap, note)[..cut];
    var y := RStrip(x);
    assert x[at] == '#';
    RStripTail(x);
    RStripEnds(x);
    assert |y| > at && y <= x;
    var z := y[lead..];
    assert x[lead] == text[0] && z[0] == text[0];
    assert forall k :: 0 <= k < lead ==> x[k] == ' ';
    assert y == Spaces(lead) + z;
    assert Trimmed(z);
    StripIndented(lead, z);
  }

  /** A text the comment scanner leaves whole. */
  predicate Uncut(text: string) {
    text != "" && Trimmed(text) && text[0] != '#' && CommentStart(text, 0, None) == |text|
  }

  lemma {:induction false} InlineUncut(t: Tree)
    requires IsInline(t) && InlineOk(t)
    ensures Uncut(InlineText(t))
  {
    InlineTrimmed(t);
    InlineNoCut(t, "");
    assert "" + InlineText(t) == InlineText(t);
    FirstIsNoHash(t);
  }

  lemma {:induction false} FirstIsNoHash(t: Tree)
    requires IsInline(t) && InlineOk(t)
    ensures InlineText(t) != "" && InlineText(t)[0] != '#'
  {
  }

  lemma {:induction false} CommentDropped(lead: nat, text: string, gap: nat, note: string, raw: string)
    requires Uncut(text) && gap > 0 && raw == Commented(lead, text, gap, note)
    ensures Strip(Uncommented(raw)) == text <==> QuoteAfter(text, 0, None).None?
  {
    CutAt(lead, text, gap, note);
    if QuoteAfter(text, 0, None).None? { CutStrips(lead, text, gap, note); }
    else { LongerStays(lead, text, gap, note, CommentStart(raw, 0, None)); }
  }

  lemma {:induction false} RawReadsBack(raw: string, t: Tree)
    requires IsInline(t) && InlineOk(t) && Strip(Uncommented(raw)) == InlineText(t)
    ensures Erase(Scalar(raw)) == Meaning(t)
  {
    InlineTrimmed(t);
    if t.FlowList? { FlowScalar(raw, t); } else { WordScalar(raw, t); }
  }

  /**
   * Behind an inline value and a blank, a comment is dropped if and only if the
   * value leaves no quote open; then the value is read back as what it says.
   */
  lemma {:induction false} CommentedReadsBack(t: Tree, lead: nat, gap: nat, note: string)
    requires IsInline(t) && InlineOk(t) && gap > 0
    ensures var raw := Commented(lead, InlineText(t), gap, note);
      Strip(Uncommented(raw)) == InlineText(t) <==> QuoteAfter(InlineText(t), 0, None).None?
    ensures QuoteAfter(InlineText(t), 0, None).None? ==>
      Erase(Scalar(Commented(lead, InlineText(t), gap, note))) == Meaning(t)
  {
    var raw := Commented(lead, InlineText(t), gap, note);
    InlineUncut(t);
    CommentDropped(lead, InlineText(t), gap, note, raw);
    if QuoteAfter(InlineText(t), 0, None).None? { RawReadsBack(raw, t); }
  }

  lemma {:induction false} ScanBlanks(s: string, p: nat, quote: Option<char>)
    requires p <= |s| && (forall k :: p <= k < |s| ==> s[k] == ' ') && (quote.Some? ==> quote.value != ' ')
    ensures CommentStart(s, p, quote) == |s|
    decreases |s| - p
  {
    if p < |s| { ScanBlanks(s, p + 1, quote); }
  }

  lemma {:induction false} BlanksUncut(lead: nat, text: string, gap: nat, raw: string)
    requires Uncut(text) && raw == Spaces(lead) + text + Spaces(gap)
    ensures CommentStart(raw, 0, None) == |raw|
  {
    assert raw == Spaces(lead) + (text + Spaces(gap));
    ScanLead(lead, text + Spaces(gap), 0);
    ScanText(Spaces(lead), text, Spaces(gap), 0, None);
    AfterIsQuote(text, 0, None);
    ScanBlanks(raw, lead + |text|, QuoteAfter(text, 0, None));
  }

  lemma {:induction false} BlanksStripped(lead: nat, text: string, gap: nat, raw: string)
    requires Uncut(text) && raw == Spaces(lead) + text + Spaces(gap)
    ensures Strip(Uncommented(raw)) == text
  {
    var x := Spaces(lead) + text;
    BlanksUncut(lead, text, gap, raw);
    assert raw[..|raw|] == raw && x[|x| - 1] == text[|text| - 1];
    RStripSpaces(x, gap);
    StripIndented(lead, text);
  }

  /** Blanks alone around an inline value are always dropped. */
  lemma {:induction false} BlanksDropped(t: Tree, lead: nat, gap: nat)
    requires IsInline(t) && InlineOk(t)
    ensures Erase(Scalar(Spaces(lead) + InlineText(t) + Spaces(gap))) == Meaning(t)
  {
    var raw := Spaces(lead) + InlineText(t) + Spaces(gap);
    InlineUncut(t);
    BlanksStripped(lead, InlineText(t), gap, raw);
    RawReadsBack(raw, t);
  }
}
