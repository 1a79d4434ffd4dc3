/** Which throttling bucket an address text counts against. */
module ClientBucket {
  import opened Wrappers
  import opened JsText
  import opened Text
  import opened Decimals

  // ----- the code

  function FindDouble(s: string): (r: Option<nat>)
    ensures r.Some? ==> r.value + 1 < |s|
  {
    if |s| < 2 then None
    else if s[0] == ':' && s[1] == ':' then Some(0)
    else
      var rest := FindDouble(s[1..]);
      if rest.Some? then Some(rest.value + 1) else None
  }

  function Groups(s: string): seq<string> { if s == "" then [] else Split(s, ':') }

  function Width(groups: seq<string>): nat {
    if groups == [] then 0 else (if '.' in groups[0] then 2 else 1) + Width(groups[1..])
  }

  function Zeros(n: int): seq<string> { if n <= 0 then [] else seq(n, _ => "0") }

  function DropZeros(s: string): string { if |s| > 1 && s[0] == '0' then DropZeros(s[1..]) else s }

  /** One group: lower case, no leading zeros. */
  function Norm(group: string): string { DropZeros(Lower(group)) }

  function NormAll(groups: seq<string>): (r: seq<string>)
    ensures |r| == |groups| && forall i :: 0 <= i < |groups| ==> r[i] == Norm(groups[i])
  {
    seq(|groups|, i requires 0 <= i < |groups| => Norm(groups[i]))
  }

  /** The text between the first `::` and the next, if any. */
  function AfterDouble(address: string, at: nat): string
    requires at + 1 < |address|
  {
    var rest := address[at + 2..];
    var next := FindDouble(rest);
    if next.Some? then rest[..next.value] else rest
  }

  function Hextets(ip: string): seq<string> {
    var address := Split(ip, '%')[0];
    var double := FindDouble(address);
    if double.None? then NormAll(Groups(address))
    else
      var left, right := Groups(address[..double.value]), Groups(AfterDouble(address, double.value));
      NormAll(left + Zeros(8 - Width(left) - Width(right)) + right)
  }

  predicate IsOctet(s: string) { 1 <= |s| <= 3 && forall i :: 0 <= i < |s| ==> IsDigit(s[i]) }

  predicate IsQuad(s: string) {
    var parts := Split(s, '.');
    |parts| == 4 && forall i :: 0 <= i < 4 ==> IsOctet(parts[i])
  }

  const PREFIX := "::ffff:"

  /** What the mapped-address pattern captures. */
  function Mapped(ip: string): Option<string> {
    if |ip| > 7 && Lower(ip[..7]) == PREFIX && IsQuad(ip[7..]) then Some(ip[7..]) else None
  }

  function FirstFour(groups: seq<string>): string { Join(if |groups| > 4 then groups[..4] else groups, ":") + "::/64" }

  ghost function ClientBucket(ip: string): string {
    if ip == "" then "unknown"
    else if Mapped(ip).Some? then Mapped(ip).value
    else if !IsIPv6(ip) then ip
    else FirstFour(Hextets(ip))
  }

  // ----- the texts of section 2.2 of RFC 4291, with a zone as in section 11 of RFC 4007

  datatype Quad = Quad(a: nat, b: nat, c: nat, d: nat)

  /** Groups before and after a `::` (`gap`), a dotted tail, a zone. */
  datatype Spelling = Spelling(
    left: seq<string>, gap: bool, right: seq<string>, dotted: Option<Quad>, zone: Option<string>)

  predicate IsHex(c: char) { '0' <= c <= '9' || 'a' <= c <= 'f' || 'A' <= c <= 'F' }

  predicate AllHex(g: string) { forall i :: 0 <= i < |g| ==> IsHex(g[i]) }

  predicate IsGroup(g: string) { 1 <= |g| <= 4 && AllHex(g) }

  function Tail(s: Spelling): nat { if s.dotted.Some? then 2 else 0 }

  predicate Valid(s: Spelling) {
    && (forall i :: 0 <= i < |s.left| ==> IsGroup(s.left[i]))
    && (forall i :: 0 <= i < |s.right| ==> IsGroup(s.right[i]))
    && (if s.gap then |s.left| + |s.right| + Tail(s) <= 7 else s.right == [] && |s.left| + Tail(s) == 8)
    && (s.dotted.Some? ==> var q := s.dotted.value; q.a < 256 && q.b < 256 && q.c < 256 && q.d < 256)
  }

  function QuadText(q: Quad): string { Join([Decimal(q.a), Decimal(q.b), Decimal(q.c), Decimal(q.d)], ".") }

  /** The groups after the gap, or all of them when there is none. */
  function Last(s: Spelling): seq<string> {
    (if s.gap then s.right else s.left) + if s.dotted.Some? then [QuadText(s.dotted.value)] else []
  }

  function Body(s: Spelling): string {
    if s.gap then Join(s.left, ":") + "::" + Join(Last(s), ":") else Join(Last(s), ":")
  }

  function Render(s: Spelling): string { Body(s) + if s.zone.Some? then "%" + s.zone.value else "" }

  ghost predicate IsIPv6(ip: string) { exists s: Spelling :: Valid(s) && Render(s) == ip }

  // ----- the address a text means

  function HexDigit(c: char): nat
    requires IsHex(c)
  {
    if c <= '9' then (c - '0') as nat else if c <= 'F' then (c - 'A') as nat + 10 else (c - 'a') as nat + 10
  }

  function HexValue(g: string): nat
    requires AllHex(g)
  {
    if g == "" then 0 else HexValue(g[..|g| - 1]) * 16 + HexDigit(g[|g| - 1])
  }

  function HexValues(groups: seq<string>): seq<nat>
    requires forall i :: 0 <= i < |groups| ==> IsGroup(groups[i])
  {
    seq(|groups|, i requires 0 <= i < |groups| && IsGroup(groups[i]) => HexValue(groups[i]))
  }

  function QuadValues(q: Option<Quad>): seq<nat> {
    if q.Some? then [q.value.a * 256 + q.value.b, q.value.c * 256 + q.value.d] else []
  }

  /** The eight 16-bit pieces. */
  function Value(s: Spelling): (v: seq<nat>)
    requires Valid(s)
    ensures |v| == 8
  {
    HexValues(s.left) + seq(8 - |s.left| - |s.right| - Tail(s), _ => 0) + HexValues(s.right) + QuadValues(s.dotted)
  }

  /** The top 64 bits. */
  function Top(s: Spelling): seq<nat>
    requires Valid(s)
  {
    Value(s)[..4]
  }

  // ----- a normalised group is the canonical text of its value

  function HexChar(n: nat): char
    requires n < 16
  {
    if n < 10 then '0' + n as char else 'a' + (n - 10) as char
  }

  function Canon(n: nat): string { if n < 16 then [HexChar(n)] else Canon(n / 16) + [HexChar(n % 16)] }

  lemma {:induction false} HexCharOfDigit(c: char)
    requires IsHex(c)
    ensures HexDigit(c) < 16 && Lower([c]) == [HexChar(HexDigit(c))]
  {
  }

  lemma {:induction false} LowerAppend(a: string, b: string)
    ensures Lower(a + b) == Lower(a) + Lower(b)
  {
  }

  lemma {:induction false} ZeroGroup(g: string)
    requires g != "" && AllHex(g) && HexValue(g) == 0
    ensures forall i :: 0 <= i < |g| ==> g[i] == '0'
  {
    var n := |g| - 1;
    if n > 0 { ZeroGroup(g[..n]); }
  }

  lemma {:induction false} DropsAllZeros(z: string, c: char)
    requires forall i :: 0 <= i < |z| ==> z[i] == '0'
    ensures DropZeros(z + [c]) == [c]
  {
    if z != "" {
      assert (z + [c])[1..] == z[1..] + [c];
      DropsAllZeros(z[1..], c);
    }
  }

  lemma {:induction false} DropsTheSame(s: string, c: char)
    requires s != "" && DropZeros(s) != "0"
    ensures DropZeros(s + [c]) == DropZeros(s) + [c]
  {
    if |s| > 1 && s[0] == '0' {
      assert (s + [c])[1..] == s[1..] + [c];
      DropsTheSame(s[1..], c);
    }
  }

  lemma {:induction false} NormSnoc(front: string, c: char)
    requires IsHex(c)
    ensures Norm(front + [c]) == DropZeros(Lower(front) + [HexChar(HexDigit(c))])
  {
    LowerAppend(front, [c]);
    HexCharOfDigit(c);
  }

  lemma {:induction false} CanonSnoc(v: nat, d: nat)
    requires v > 0 && d < 16
    ensures Canon(v * 16 + d) == Canon(v) + [HexChar(d)]
  {
  }

  lemma {:induction false} NormOfZeros(front: string, c: char)
    requires AllHex(front) && IsHex(c) && HexValue(front) == 0
    ensures Norm(front + [c]) == [HexChar(HexDigit(c))]
  {
    NormSnoc(front, c);
    if front != "" { ZeroGroup(front); }
    DropsAllZeros(Lower(front), HexChar(HexDigit(c)));
  }

  lemma {:induction false} NormOfMore(front: string, c: char)
    requires front != "" && AllHex(front) && IsHex(c) && HexValue(front) > 0 && Norm(front) == Canon(HexValue(front))
    ensures Norm(front + [c]) == Norm(front) + [HexChar(HexDigit(c))]
  {
    NormSnoc(front, c);
    CanonValue(HexValue(front));
    assert HexValue("0") == 0;
    DropsTheSame(Lower(front), HexChar(HexDigit(c)));
  }

  lemma {:induction false} NormIsCanon(g: string)
    requires g != "" && AllHex(g)
    ensures Norm(g) == Canon(HexValue(g))
  {
    var n := |g| - 1;
    var front, c := g[..n], g[n];
    assert g == front + [c];
    if HexValue(front) == 0 {
      NormOfZeros(front, c);
    } else {
      NormIsCanon(front);
      NormOfMore(front, c);
      CanonSnoc(HexValue(front), HexDigit(c));
    }
  }

  lemma {:induction false} CanonValue(n: nat)
    ensures AllHex(Canon(n)) && HexValue(Canon(n)) == n && Canon(n) != ""
  {
    if n >= 16 {
      CanonValue(n / 16);
      assert Canon(n)[..|Canon(n)| - 1] == Canon(n / 16);
    }
  }

  // ----- taking a text apart

  /** No empty parts and no colons inside them. */
  ghost predicate Plain(parts: seq<string>) { forall i :: 0 <= i < |parts| ==> parts[i] != "" && ':' !in parts[i] }

  lemma {:induction false} JoinFirst(parts: seq<string>, sep: string)
    requires |parts| > 1
    ensures Join(parts, sep) == parts[0] + sep + Join(parts[1..], sep)
  {
  }

  /** A join of plain parts begins and ends with no colon. */
  lemma {:induction false} JoinEnds(parts: seq<string>)
    requires Plain(parts) && parts != []
    ensures Join(parts, ":") != "" && Join(parts, ":")[0] != ':' && Join(parts, ":")[|Join(parts, ":")| - 1] != ':'
  {
    if |parts| == 1 {
      assert parts[0][0] in parts[0] && parts[0][|parts[0]| - 1] in parts[0];
    } else {
      JoinEnds(parts[1..]);
      assert parts[0][0] in parts[0];
    }
  }

  lemma {:induction false} SkipPart(a: string, b: string)
    requires ':' !in a
    ensures var r := FindDouble(b); FindDouble(a + b) == if r.Some? then Some(|a| + r.value) else None
    decreases |a|
  {
    if a == "" {
      assert a + b == b;
    } else {
      assert (a + b)[1..] == a[1..] + b && a[0] in a;
      SkipPart(a[1..], b);
    }
  }

  /** Plain parts joined hold no double colon, and what follows is found where it starts. */
  lemma {:induction false} DoubleAfter(parts: seq<string>, rest: string)
    requires Plain(parts) && parts != []
    ensures FindDouble(Join(parts, ":")).None?
    ensures FindDouble(Join(parts, ":") + "::" + rest) == Some(|Join(parts, ":")|)
  {
    if |parts| == 1 {
      FindAcross(parts[0], "", rest);
    } else {
      var tail := Join(parts[1..], ":");
      DoubleAfter(parts[1..], rest);
      JoinEnds(parts[1..]);
      FindAcross(parts[0], tail, rest);
    }
  }

  lemma {:induction false} FindAcross(a: string, b: string, rest: string)
    requires ':' !in a && a != ""
    ensures FindDouble(a).None? && FindDouble(a + "::" + rest) == Some(|a|)
    ensures b != "" && b[0] != ':' && FindDouble(b).None? ==> FindDouble(a + ":" + b).None?
    ensures b != "" && b[0] != ':' && FindDouble(b + "::" + rest) == Some(|b|) ==>
      FindDouble(a + ":" + b + "::" + rest) == Some(|a| + 1 + |b|)
  {
    SkipPart(a, "");
    assert a + "" == a;
    SkipPart(a, "::" + rest);
    assert a + "::" + rest == a + ("::" + rest);
    if b != "" && b[0] != ':' {
      SkipColon(a, b);
      SkipColon(a, b + "::" + rest);
      assert a + ":" + b + "::" + rest == a + ":" + (b + "::" + rest);
    }
  }

  lemma {:induction false} SkipColon(a: string, b: string)
    requires ':' !in a && b != "" && b[0] != ':'
    ensures var r := FindDouble(b); FindDouble(a + ":" + b) == if r.Some? then Some(|a| + 1 + r.value) else None
  {
    SkipPart(a, ":" + b);
    assert a + ":" + b == a + (":" + b);
    assert (":" + b)[1..] == b;
  }
}
