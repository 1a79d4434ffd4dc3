/** The list items a printed file must not hold, since the parser takes them for something else. */
module YamlItems {
  import opened Wrappers
  import opened Text
  import opened YamlLines
  import opened YamlParser
  import opened YamlPrint
  import opened YamlInline
  import opened YamlRoundTrip

  lemma {:induction false} KeyedItemIsMapping(lines: seq<string>, i: nat, n: nat, offset: nat)
    requires IsItemLine(lines, i, n) && Strip(lines[i]) != "-" && ItemOffset(lines[i], n) == offset
    requires SplitKey(Drop(lines[i], offset)).Some?
    ensures ParseItem(lines, i, n).node.v.Dict?
  {
    PatchedKeyLine(lines, i, offset);
    NodeAtKey(lines[i := PatchLine(lines[i], offset)], i, offset, offset);
  }

  /**
   * An inline item is read back exactly when its text does not split as a key:
   * one that does becomes a mapping, whatever lines surround it.
   */
  lemma {:induction false} InlineItemExactly(t: Tree, n: nat, lines: seq<string>, i: nat)
    requires IsInline(t) && InlineOk(t)
    requires i < |lines| && lines[i] == Spaces(n) + ("- " + InlineText(t))
    ensures IsItemLine(lines, i, n)
    ensures EraseNode(ParseItem(lines, i, n).node) == Meaning(t) <==> SplitKey(InlineText(t)).None?
    ensures SplitKey(InlineText(t)).Some? ==> ParseItem(lines, i, n).node.v.Dict?
  {
    if SplitKey(InlineText(t)).None? {
      InlineItem(t, n, lines, i);
    } else {
      InlineItemHead(t, n, lines, i);
      KeyedItemIsMapping(lines, i, n, n + 2);
      MappingIsNoInline(ParseItem(lines, i, n).node, t);
    }
  }

  lemma {:induction false} MappingIsNoInline(node: Node, t: Tree)
    requires node.v.Dict? && IsInline(t)
    ensures EraseNode(node) != Meaning(t)
  {
  }

  lemma {:induction false} MarkerIsInline(m: string)
    requires IsBlockMarker(m)
    ensures InlineOk(Plain(m)) && SplitKey(m).None? && Unquote(m) == m
  {
  }

  /**
   * A block text cannot be an item: behind a dash the marker is a word of its
   * own, and the item ends on its line, whatever is indented below it.
   */
  lemma {:induction false} MarkerItemIsWord(m: string, n: nat, lines: seq<string>, i: nat)
    requires IsBlockMarker(m) && i < |lines| && lines[i] == Spaces(n) + ("- " + m)
    ensures IsItemLine(lines, i, n) && ParseItem(lines, i, n) == Found(Node(Str(m), i + 1, i + 1), i + 1)
  {
    var t := Plain(m);
    MarkerIsInline(m);
    InlineItemHead(t, n, lines, i);
    InlineStrips(t, "");
    assert "" + m == m;
  }
}
