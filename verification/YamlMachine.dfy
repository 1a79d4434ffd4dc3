/**
 * The parser as it runs: loops that advance a line index, fill a dict or a
 * list, and re-enter with a patched line. Each is proved to compute the
 * function of `YamlParser` of the same name.
 */
module YamlMachine {
  import opened Wrappers
  import opened Text
  import opened YamlLines
  import opened YamlParser

  method RunNode(lines: seq<string>, start: nat, indent: nat) returns (v: Value, next: nat)
    requires start <= |lines|
    ensures Parsed(v, next) == ParseNode(lines, start, indent)
    decreases |lines| - start, if IsItemNode(lines, start, indent) then 4 else 1
  {
    var i := FindNextContent(lines, start);
    if i >= |lines| {
      return Null, i;
    }
    if Indent(lines[i]) < indent {
      return Null, i;
    }
    var content := Strip(lines[i]);
    if IsDash(content) {
      var items;
      items, next := RunSequence(lines, i, Indent(lines[i]));
      return Items(items), next;
    }
    var entries;
    entries, next := RunMapping(lines, i, Indent(lines[i]));
    v := Dict(entries);
  }

  method RunMapping(lines: seq<string>, start: nat, indent: nat) returns (result: seq<Entry>, i: nat)
    requires start <= |lines|
    ensures Mapped(result, i) == ParseMapping(lines, start, indent, [])
    decreases |lines| - start, 0
  {
    result, i := [], start;
    while true
      invariant start <= i <= |lines|
      invariant ParseMapping(lines, i, indent, result) == ParseMapping(lines, start, indent, [])
      decreases |lines| - i
    {
      i := FindNextContent(lines, i);
      if i >= |lines| {
        break;
      }
      var cur := Indent(lines[i]);
      if cur < indent || cur > indent {
        break;
      }
      var content := Strip(lines[i]);
      if StartsDash(content) {
        break;
      }
      if SplitKey(content).None? {
        break;
      }
      var entry;
      entry, i := RunEntry(lines, i, indent);
      result := Put(result, entry);
    }
  }

  method RunEntry(lines: seq<string>, i: nat, indent: nat) returns (entry: Entry, next: nat)
    requires IsKeyLine(lines, i, indent)
    ensures Assigned(entry, next) == ParseEntry(lines, i, indent)
    decreases |lines| - i - 1, 6
  {
    var KeyRest(key, rest) := SplitKey(Strip(lines[i])).value;
    var restStripped := StripInlineComment(rest);
    restStripped := Strip(restStripped);
    var node;
    if IsBlockMarker(restStripped) {
      var text, end;
      text, next, end := ReadBlockScalar(lines, i + 1, indent);
      node := Node(Str(text), i + 1, end + 1);
      assert Found(node, next) == ParseText(lines, i, indent);
    } else if restStripped != "" {
      node, next := Node(Scalar(rest), i + 1, i + 1), i + 1;
    } else {
      node, next := RunBlock(lines, i, indent);
    }
    assert Found(node, next) == ParseValue(lines, i, indent, rest);
    entry := Entry(key, node);
  }

  /** The block below a key line that ends with its colon, or nothing. */
  method RunBlock(lines: seq<string>, i: nat, indent: nat) returns (node: Node, next: nat)
    requires i < |lines|
    ensures Found(node, next) == ParseBlock(lines, i, indent)
    decreases |lines| - i - 1, 5
  {
    node, next := Node(Null, i + 1, i + 1), i + 1;
    var j := FindNextContent(lines, i + 1);
    if j < |lines| {
      var childIndent := Indent(lines[j]);
      var child := Strip(lines[j]);
      if childIndent > indent || (childIndent == indent && StartsDash(child)) {
        assert HasChild(lines, NextContent(lines, i + 1), indent);
        var value;
        value, next := RunNode(lines, i + 1, childIndent);
        var end := LastContentLine(lines, next, i);
        node := Node(value, i + 1, if end > i + 1 then end else i + 1);
      }
    }
  }

  method RunSequence(lines: seq<string>, start: nat, indent: nat) returns (items: seq<Node>, i: nat)
    requires start <= |lines|
    ensures Listed(items, i) == ParseSequence(lines, start, indent, [])
    decreases |lines| - start, 3
  {
    items, i := [], start;
    while true
      invariant start <= i <= |lines|
      invariant ParseSequence(lines, i, indent, items) == ParseSequence(lines, start, indent, [])
      decreases |lines| - i
    {
      i := FindNextContent(lines, i);
      if i >= |lines| || Indent(lines[i]) != indent {
        break;
      }
      var content := Strip(lines[i]);
      if !IsDash(content) {
        break;
      }
      var item;
      item, i := RunItem(lines, i, indent);
      items := items + [item];
    }
  }

  method RunItem(lines: seq<string>, i: nat, indent: nat) returns (item: Node, next: nat)
    requires IsItemLine(lines, i, indent)
    ensures Found(item, next) == ParseItem(lines, i, indent)
    decreases |lines| - i, 2
  {
    var lineNo, value, end := i + 1, Null, i + 1;
    if Strip(lines[i]) == "-" {
      value, next := RunNode(lines, i + 1, indent + 1);
      end := LastContentLine(lines, next, i);
    } else {
      var raw := lines[i];
      var offset := FindItemOffset(raw, indent);
      if SplitKey(Drop(raw, offset)).None? {
        value, next := Scalar(Drop(raw, offset)), i + 1;
      } else {
        PatchedKeyLine(lines, i, offset);
        var patched := lines[i := PatchLine(raw, offset)];
        value, next := RunNode(patched, i, offset);
        end := LastContentLine(lines, next, i);
      }
    }
    item := Node(value, lineNo, if end > lineNo then end else lineNo);
  }

  method FindItemOffset(raw: string, indent: nat) returns (offset: nat)
    requires indent <= |raw|
    ensures offset == ItemOffset(raw, indent)
  {
    offset := FindChar(raw, '-', indent) + 1;
    while offset < |raw| && raw[offset] == ' '
      invariant ItemOffset(raw, indent) == if offset <= |raw| then SkipBlanks(raw, offset) else offset
    {
      offset := offset + 1;
    }
  }

  method RunYaml(text: string) returns (v: Value)
    ensures v == ParseYaml(text)
  {
    var lines := Split(Untab(text), '\n');
    var next;
    v, next := RunNode(lines, 0, 0);
  }
}
