/** Two spellings of IPv6 addresses share a bucket exactly when their top 64 bits agree. */
module ClientBucketExact {
  import opened Wrappers
  import opened JsText
  import opened Text
  import opened Decimals
  import opened ClientBucket

  // ----- characters

  lemma {:induction false} GroupChars(g: string)
    requires IsGroup(g)
    ensures g != "" && ':' !in g && '.' !in g && '%' !in g
  {
  }

  lemma {:induction false} JoinLacks(parts: seq<string>, sep: string, c: char)
    requires c !in sep && forall i :: 0 <= i < |parts| ==> c !in parts[i]
    ensures c !in Join(parts, sep)
  {
    if |parts| > 1 { JoinLacks(parts[1..], sep, c); }
  }

  function Octets(q: Quad): seq<string> { [Decimal(q.a), Decimal(q.b), Decimal(q.c), Decimal(q.d)] }

  lemma {:induction false} OctetChars(q: Quad)
    ensures forall i :: 0 <= i < 4 ==> forall j :: 0 <= j < |Octets(q)[i]| ==> IsDigit(Octets(q)[i][j])
    ensures forall i :: 0 <= i < 4 ==> Octets(q)[i] != ""
  {
    DecimalChars(q.a);
    DecimalChars(q.b);
    DecimalChars(q.c);
    DecimalChars(q.d);
  }

  lemma {:induction false} QuadChars(q: Quad)
    ensures QuadText(q) != "" && ':' !in QuadText(q) && '%' !in QuadText(q) && '.' in QuadText(q)
    ensures Split(QuadText(q), '.') == Octets(q)
  {
    OctetChars(q);
    JoinLacks(Octets(q), ".", ':');
    JoinLacks(Octets(q), ".", '%');
    SplitJoin(Octets(q), '.');
    JoinFirst(Octets(q), ".");
    assert QuadText(q)[|Decimal(q.a)|] == '.';
  }

  lemma {:induction false} LastPlain(s: Spelling)
    requires Valid(s)
    ensures Plain(s.left) && Plain(Last(s)) && (!s.gap ==> Last(s) != [])
    ensures forall i :: 0 <= i < |s.left| ==> '%' !in s.left[i]
    ensures forall i :: 0 <= i < |Last(s)| ==> '%' !in Last(s)[i]
  {
    forall i | 0 <= i < |s.left| ensures s.left[i] != "" && ':' !in s.left[i] && '%' !in s.left[i] {
      GroupChars(s.left[i]);
    }
    forall i | 0 <= i < |s.right| ensures s.right[i] != "" && ':' !in s.right[i] && '%' !in s.right[i] {
      GroupChars(s.right[i]);
    }
    if s.dotted.Some? { QuadChars(s.dotted.value); }
  }

  /** The zone is dropped. */
  lemma {:induction false} AddressIsBody(s: Spelling)
    requires Valid(s)
    ensures '%' !in Body(s) && Split(Render(s), '%')[0] == Body(s)
  {
    LastPlain(s);
    JoinLacks(s.left, ":", '%');
    JoinLacks(Last(s), ":", '%');
    if s.zone.Some? {
      assert Render(s) == Body(s) + ['%'] + s.zone.value;
      SplitFirst(Body(s), '%', s.zone.value);
    } else {
      assert Render(s) == Body(s);
      SplitNone(Body(s), '%');
    }
  }

  lemma {:induction false} GroupsOfJoin(parts: seq<string>)
    requires Plain(parts)
    ensures Groups(Join(parts, ":")) == parts
  {
    if parts != [] {
      JoinEnds(parts);
      SplitJoin(parts, ':');
    }
  }

  /** `::` is found where it stands, and there is none without a gap. */
  lemma {:induction false} DoubleInBody(s: Spelling)
    requires Valid(s)
    ensures !s.gap ==> FindDouble(Body(s)).None?
    ensures s.gap ==> FindDouble(Body(s)) == Some(|Join(s.left, ":")|)
  {
    LastPlain(s);
    if !s.gap { DoubleAfter(Last(s), ""); }
    else if s.left == [] {
      assert Body(s)[0] == ':' && Body(s)[1] == ':';
    } else {
      DoubleAfter(s.left, Join(Last(s), ":"));
    }
  }

  lemma {:induction false} AfterGap(s: Spelling)
    requires Valid(s) && s.gap
    ensures |Join(s.left, ":")| + 1 < |Body(s)|
    ensures Body(s)[..|Join(s.left, ":")|] == Join(s.left, ":")
    ensures AfterDouble(Body(s), |Join(s.left, ":")|) == Join(Last(s), ":")
  {
    LastPlain(s);
    var n, rest := |Join(s.left, ":")|, Join(Last(s), ":");
    assert Body(s)[n + 2..] == rest;
    if Last(s) != [] { DoubleAfter(Last(s), ""); }
  }

  lemma {:induction false} WidthOfGroups(groups: seq<string>)
    requires forall i :: 0 <= i < |groups| ==> IsGroup(groups[i])
    ensures Width(groups) == |groups|
  {
    if groups != [] {
      GroupChars(groups[0]);
      WidthOfGroups(groups[1..]);
    }
  }

  lemma {:induction false} WidthAppend(groups: seq<string>, last: string)
    ensures Width(groups + [last]) == Width(groups) + if '.' in last then 2 else 1
  {
    if groups != [] {
      assert (groups + [last])[1..] == groups[1..] + [last];
      WidthAppend(groups[1..], last);
    }
  }

  lemma {:induction false} WidthOfLast(s: Spelling)
    requires Valid(s) && s.gap
    ensures Width(Last(s)) == |s.right| + Tail(s)
  {
    WidthOfGroups(s.right);
    if s.dotted.Some? {
      QuadChars(s.dotted.value);
      WidthAppend(s.right, QuadText(s.dotted.value));
    } else {
      assert Last(s) == s.right;
    }
  }

  /** All groups, the gap filled with zeros; a dotted tail is one element. */
  function Filled(s: Spelling): seq<string> {
    if s.gap then s.left + Zeros(8 - |s.left| - |s.right| - Tail(s)) + Last(s) else Last(s)
  }

  lemma {:induction false} HextetsAreFilled(s: Spelling)
    requires Valid(s)
    ensures Hextets(Render(s)) == NormAll(Filled(s))
  {
    AddressIsBody(s);
    DoubleInBody(s);
    LastPlain(s);
    GroupsOfJoin(Last(s));
    if s.gap {
      AfterGap(s);
      GroupsOfJoin(s.left);
      WidthOfGroups(s.left);
      WidthOfLast(s);
    }
  }

  // ----- the first four groups spell the top 64 bits

  lemma {:induction false} FilledSpells(s: Spelling, i: nat)
    requires Valid(s) && i < 4
    ensures 4 < |Filled(s)| && Norm(Filled(s)[i]) == Canon(Value(s)[i])
  {
    var g := Filled(s)[i];
    if i < |s.left| {
      assert g == s.left[i];
      NormIsCanon(g);
    } else {
      var zeros := 8 - |s.left| - |s.right| - Tail(s);
      if i < |s.left| + zeros {
        assert g == "0" && Value(s)[i] == 0;
        assert HexValue("0") == 0;
        NormIsCanon(g);
      } else {
        assert g == s.right[i - |s.left| - zeros];
        NormIsCanon(g);
      }
    }
  }

  function Canons(v: seq<nat>): seq<string> { seq(|v|, i requires 0 <= i < |v| => Canon(v[i])) }

  lemma {:induction false} BucketOfTop(s: Spelling)
    requires Valid(s)
    ensures FirstFour(Hextets(Render(s))) == Join(Canons(Top(s)), ":") + "::/64"
  {
    HextetsAreFilled(s);
    forall i: nat | i < 4 ensures 4 < |Filled(s)| && NormAll(Filled(s))[i] == Canons(Top(s))[i] { FilledSpells(s, i); }
    FilledSpells(s, 0);
    assert NormAll(Filled(s))[..4] == Canons(Top(s));
  }

  lemma {:induction false} CanonsSplit(u: seq<nat>)
    requires u != []
    ensures Split(Join(Canons(u), ":"), ':') == Canons(u)
  {
    var texts := Canons(u);
    forall t | t in texts ensures ':' !in t {
      var i :| 0 <= i < |texts| && texts[i] == t;
      CanonValue(u[i]);
    }
    SplitJoin(texts, ':');
  }

  lemma {:induction false} CanonsInjective(u: seq<nat>, v: seq<nat>)
    requires |u| == |v| == 4 && Join(Canons(u), ":") == Join(Canons(v), ":")
    ensures u == v
  {
    CanonsSplit(u);
    CanonsSplit(v);
    forall i | 0 <= i < 4 ensures u[i] == v[i] {
      assert Canons(u)[i] == Canons(v)[i];
      CanonValue(u[i]);
      CanonValue(v[i]);
    }
  }

  // ----- the mapped spelling

  /** `::ffff:a.b.c.d`, in any case, without a zone. */
  predicate MappedSpelling(s: Spelling) {
    && s.left == [] && s.gap && |s.right| == 1 && Lower(s.right[0]) == "ffff" && s.dotted.Some? && s.zone.None?
  }

  /** The addresses `::ffff:0:0/96`. */
  predicate InMappedRange(s: Spelling)
    requires Valid(s)
  {
    Value(s)[..6] == [0, 0, 0, 0, 0, 0xffff]
  }

  lemma {:induction false} OctetShort(n: nat)
    requires n < 256
    ensures IsOctet(Decimal(n))
  {
    DecimalChars(n);
    if n >= 10 {
      assert |Decimal(n / 10)| <= 2;
    }
  }

  lemma {:induction false} QuadIs(q: Quad)
    requires q.a < 256 && q.b < 256 && q.c < 256 && q.d < 256
    ensures IsQuad(QuadText(q)) && QuadText(q) != ""
  {
    QuadChars(q);
    OctetShort(q.a);
    OctetShort(q.b);
    OctetShort(q.c);
    OctetShort(q.d);
  }

  lemma {:induction false} LowerPrefix(x: string)
    requires Lower(x) == "ffff"
    ensures Lower("::" + x + ":") == PREFIX
  {
    LowerAppend("::" + x, ":");
    LowerAppend("::", x);
  }

  lemma {:induction false} MappedIs(prefix: string, quad: string)
    requires |prefix| == 7 && Lower(prefix) == PREFIX && quad != "" && IsQuad(quad)
    ensures Mapped(prefix + quad) == Some(quad)
  {
    var ip := prefix + quad;
    assert ip[..7] == prefix && ip[7..] == quad;
  }

  lemma {:induction false} MappedRender(s: Spelling)
    requires Valid(s) && MappedSpelling(s)
    ensures Mapped(Render(s)) == Some(QuadText(s.dotted.value))
  {
    var q, x := s.dotted.value, s.right[0];
    MappedBody(s);
    QuadIs(q);
    LowerPrefix(x);
    MappedIs("::" + x + ":", QuadText(q));
    assert Render(s) == "::" + x + ":" + QuadText(q);
  }

  lemma {:induction false} MappedBody(s: Spelling)
    requires Valid(s) && MappedSpelling(s)
    ensures |s.right[0]| == 4 && Body(s) == "::" + s.right[0] + ":" + QuadText(s.dotted.value)
  {
    var parts := [s.right[0], QuadText(s.dotted.value)];
    assert Last(s) == parts;
    JoinFirst(parts, ":");
    assert |Lower(s.right[0])| == 4;
    assert parts[1..] == [QuadText(s.dotted.value)];
    assert Join([], ":") == "";
    assert Body(s) == "" + "::" + (s.right[0] + ":" + QuadText(s.dotted.value));
  }

  /** Every character lies in a part or is the separator. */
  lemma {:induction false} SplitKeeps(s: string, sep: char, c: char)
    requires c in s && c != sep
    ensures exists i :: 0 <= i < |Split(s, sep)| && c in Split(s, sep)[i]
  {
    var parts, rest := Split(s, sep), Split(s[1..], sep);
    if c in s[1..] {
      SplitKeeps(s[1..], sep, c);
      var i :| 0 <= i < |rest| && c in rest[i];
      assert c in parts[if s[0] == sep then i + 1 else i];
    } else {
      assert c == s[0] && c in parts[0];
    }
  }

  lemma {:induction false} QuadShape(s: string)
    requires IsQuad(s)
    ensures '%' !in s && ':' !in s && '.' in s
  {
    if '%' in s { SplitKeeps(s, '.', '%'); }
    if ':' in s { SplitKeeps(s, '.', ':'); }
    if '.' !in s { SplitNone(s, '.'); }
  }

  lemma {:induction false} PrefixShape(t: string)
    requires |t| > 7 && Lower(t[..7]) == PREFIX
    ensures t[0] == ':' && t[1] == ':' && t[6] == ':' && Lower(t[2..6]) == "ffff"
    ensures ':' !in t[2..6] && '%' !in t[..7]
  {
    var low := Lower(t[..7]);
    assert forall i :: 0 <= i < 7 ==> low[i] == Lower([t[i]])[0];
    assert low[0] == ':' && low[1] == ':' && low[6] == ':';
    assert low[2] == 'f' && low[3] == 'f' && low[4] == 'f' && low[5] == 'f';
    assert forall i :: 0 <= i < 4 ==> t[2..6][i] == t[2 + i];
    assert Lower(t[2..6]) == low[2..6];
  }

  lemma {:induction false} ZoneShows(s: Spelling)
    ensures s.zone.Some? ==> '%' in Render(s)
  {
    if s.zone.Some? { assert Render(s)[|Body(s)|] == '%'; }
  }

  /** What the pattern accepts has no zone, starts with the gap, and is two groups after it. */
  lemma {:induction false} MappedParts(s: Spelling)
    requires Valid(s) && Mapped(Render(s)).Some?
    ensures s.zone.None? && s.gap && s.left == [] && Last(s) == [Render(s)[2..6], Render(s)[7..]]
  {
    var t := Render(s);
    ZoneShows(s);
    PrefixShape(t);
    QuadShape(t[7..]);
    assert t == t[..7] + t[7..];
    if s.zone.None? {
      assert Body(s) == t && FindDouble(t) == Some(0);
      DoubleInBody(s);
      LastPlain(s);
      if s.left != [] { JoinEnds(s.left); }
      else { MappedLast(s, t); }
    }
  }

  lemma {:induction false} MappedLast(s: Spelling, t: string)
    requires Valid(s) && s.gap && s.left == [] && Body(s) == t && |t| > 7 && t[6] == ':' && ':' !in t[2..6]
    requires ':' !in t[7..]
    ensures Last(s) == [t[2..6], t[7..]]
  {
    LastPlain(s);
    assert t[2..] == Join(Last(s), ":");
    GroupsOfJoin(Last(s));
    assert t[2..] == t[2..6] + [':'] + t[7..];
    SplitFirst(t[2..6], ':', t[7..]);
    SplitNone(t[7..], ':');
  }

  /** The pattern accepts exactly the mapped spellings. */
  lemma {:induction false} MappedExactly(s: Spelling)
    requires Valid(s)
    ensures Mapped(Render(s)).Some? <==> MappedSpelling(s)
  {
    if Mapped(Render(s)).Some? {
      MappedParts(s);
      PrefixShape(Render(s));
      QuadShape(Render(s)[7..]);
      if s.dotted.None? {
        assert s.right == Last(s);
        GroupChars(s.right[1]);
      } else {
        assert s.right == Last(s)[..|Last(s)| - 1];
      }
    } else if MappedSpelling(s) {
      MappedRender(s);
    }
  }

  lemma {:induction false} FourFs(x: string)
    requires Lower(x) == "ffff" && AllHex(x)
    ensures HexValue(x) == 0xffff
  {
    var low := Lower(x);
    assert |low| == |x| == 4;
    assert low[0] == 'f' && low[1] == 'f' && low[2] == 'f' && low[3] == 'f';
    assert forall i :: 0 <= i < 4 ==> low[i] == if 'A' <= x[i] <= 'Z' then x[i] - 'A' + 'a' else x[i];
    assert HexDigit(x[0]) == 15 && HexDigit(x[1]) == 15 && HexDigit(x[2]) == 15 && HexDigit(x[3]) == 15;
    assert HexValue(x[..0]) == 0;
    assert x[..1][..0] == x[..0] && HexValue(x[..1]) == 15;
    assert x[..2][..1] == x[..1] && HexValue(x[..2]) == 255;
    assert x[..3][..2] == x[..2] && HexValue(x[..3]) == 4095;
    assert x[..3] == x[..|x| - 1];
  }

  lemma {:induction false} MappedInRange(s: Spelling)
    requires Valid(s) && MappedSpelling(s)
    ensures InMappedRange(s)
  {
    FourFs(s.right[0]);
    assert Value(s)[5] == HexValue(s.right[0]);
  }

  lemma {:induction false} QuadInjective(p: Quad, q: Quad)
    requires QuadText(p) == QuadText(q)
    ensures p == q
  {
    QuadChars(p);
    QuadChars(q);
    assert Octets(p)[0] == Octets(q)[0] && Octets(p)[1] == Octets(q)[1];
    assert Octets(p)[2] == Octets(q)[2] && Octets(p)[3] == Octets(q)[3];
    DecimalInjective(p.a, q.a);
    DecimalInjective(p.b, q.b);
    DecimalInjective(p.c, q.c);
    DecimalInjective(p.d, q.d);
  }

  lemma {:induction false} RenderHasColon(s: Spelling)
    requires Valid(s)
    ensures ':' in Render(s)
  {
    if s.gap {
      assert Render(s)[|Join(s.left, ":")|] == ':';
    } else {
      LastPlain(s);
      JoinFirst(Last(s), ":");
      assert Render(s)[|Last(s)[0]|] == ':';
    }
  }

  // ----- buckets

  lemma {:induction false} BucketOf(s: Spelling)
    requires Valid(s)
    ensures ClientBucket.ClientBucket(Render(s))
      == if MappedSpelling(s) then QuadText(s.dotted.value) else Join(Canons(Top(s)), ":") + "::/64"
  {
    RenderHasColon(s);
    MappedExactly(s);
    if MappedSpelling(s) { MappedRender(s); }
    BucketOfTop(s);
  }

  /** Which pairs of IPv6 texts share a bucket. */
  lemma {:induction false} BucketsExactly(s: Spelling, t: Spelling)
    requires Valid(s) && Valid(t)
    ensures ClientBucket.ClientBucket(Render(s)) == ClientBucket.ClientBucket(Render(t))
      <==> if MappedSpelling(s) then MappedSpelling(t) && s.dotted == t.dotted
           else !MappedSpelling(t) && Top(s) == Top(t)
  {
    BucketOf(s);
    BucketOf(t);
    var a, b := Join(Canons(Top(s)), ":"), Join(Canons(Top(t)), ":");
    if MappedSpelling(s) && MappedSpelling(t) {
      if QuadText(s.dotted.value) == QuadText(t.dotted.value) { QuadInjective(s.dotted.value, t.dotted.value); }
    } else if MappedSpelling(s) {
      QuadIsNoPrefix(s.dotted.value, b);
    } else if MappedSpelling(t) {
      QuadIsNoPrefix(t.dotted.value, a);
    } else if a + "::/64" == b + "::/64" {
      assert a == (a + "::/64")[..|a + "::/64"| - 5] == b;
      CanonsInjective(Top(s), Top(t));
    }
  }

  lemma {:induction false} QuadIsNoPrefix(q: Quad, a: string)
    ensures QuadText(q) != a + "::/64"
  {
    QuadChars(q);
    assert (a + "::/64")[|a|] == ':';
  }

  /** Outside the IPv4-mapped range: the same bucket exactly when the top 64 bits agree, whatever the spelling. */
  lemma {:induction false} SameBucketIffSameTop(s: Spelling, t: Spelling)
    requires Valid(s) && Valid(t) && !InMappedRange(s) && !InMappedRange(t)
    ensures ClientBucket.ClientBucket(Render(s)) == ClientBucket.ClientBucket(Render(t)) <==> Top(s) == Top(t)
  {
    if MappedSpelling(s) { MappedInRange(s); }
    if MappedSpelling(t) { MappedInRange(t); }
    BucketsExactly(s, t);
  }

  /** A mapped spelling counts as the IPv4 address it carries. */
  lemma {:induction false} MappedIsItsIPv4(s: Spelling)
    requires Valid(s) && MappedSpelling(s)
    ensures ClientBucket.ClientBucket(Render(s)) == ClientBucket.ClientBucket(QuadText(s.dotted.value))
  {
    var text := QuadText(s.dotted.value);
    BucketOf(s);
    QuadChars(s.dotted.value);
    if IsIPv6(text) {
      var x: Spelling :| Valid(x) && Render(x) == text;
      RenderHasColon(x);
    }
    if Mapped(text).Some? { PrefixShape(text); }
  }

  lemma {:induction false} SameMappedValue(dotted: Spelling, hex: Spelling)
    requires Valid(dotted) && Valid(hex) && dotted.left == [] && hex.left == [] && dotted.gap && hex.gap
    requires |dotted.right| == 1 && |hex.right| == 3 && hex.right[0] == dotted.right[0]
    requires dotted.dotted.Some? && hex.dotted.None?
    requires [HexValue(hex.right[1]), HexValue(hex.right[2])] == QuadValues(dotted.dotted)
    ensures Value(dotted) == Value(hex)
  {
    var v := HexValues(hex.right);
    assert v == [HexValue(hex.right[0])] + QuadValues(dotted.dotted);
    assert HexValues(dotted.right) == [HexValue(dotted.right[0])];
  }

  /** Other spellings of the same mapped address get the shared bucket of the zero prefix. */
  lemma {:induction false} HexSpellingDiffers(dotted: Spelling, high: string, low: string)
    requires Valid(dotted) && MappedSpelling(dotted) && IsGroup(high) && IsGroup(low)
    requires [HexValue(high), HexValue(low)] == QuadValues(dotted.dotted)
    ensures var hex := Spelling([], true, dotted.right + [high, low], None, None);
      && Valid(hex) && Value(hex) == Value(dotted)
      && ClientBucket.ClientBucket(Render(hex)) != ClientBucket.ClientBucket(Render(dotted))
  {
    var hex := Spelling([], true, dotted.right + [high, low], None, None);
    SameMappedValue(dotted, hex);
    BucketsExactly(dotted, hex);
  }
}
