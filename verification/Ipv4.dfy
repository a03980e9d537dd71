/**
 Address arithmetic: the byte-carry increment, the byte-wise comparison, and the two range
 loops built on them, one in utils/ipam.go and one in pkg/ipam/ipam.go.
 */
module Ipv4 {
  import opened Text

  type Byte = b: int | 0 <= b < 256

  /** A 4-byte address, as net.IP.To4 returns it. */
  type Address = s: seq<Byte> | |s| == 4 witness [0, 0, 0, 0]

  const SPACE := 0x1_0000_0000

  /** The big-endian value of an address. */
  function Value(a: Address): (v: nat)
    ensures v < SPACE
  {
    var b0: int, b1: int, b2: int, b3: int := a[0], a[1], a[2], a[3];
    b0 * 0x100_0000 + b1 * 0x1_0000 + b2 * 0x100 + b3
  }

  lemma ValueInjective(a: Address, b: Address)
    requires Value(a) == Value(b)
    ensures a == b
  {
    assert a[0] == b[0] && a[1] == b[1] && a[2] == b[2] && a[3] == b[3];
  }

  // ---------- Dotted-quad text ----------

  function Dotted(a: Address): string {
    NatToText(a[0]) + "." + NatToText(a[1]) + "." + NatToText(a[2]) + "." + NatToText(a[3])
  }

  predicate IsOctet(s: string) {
    Canonical(s) && DigitsValue(s) < 256
  }

  /** net.ParseIP on text without a colon: exactly four decimal octets, no leading zeros. */
  function ParseDotted(s: string): Option<Address> {
    var p := Split(s, '.');
    if |p| == 4 && IsOctet(p[0]) && IsOctet(p[1]) && IsOctet(p[2]) && IsOctet(p[3])
    then Some([DigitsValue(p[0]), DigitsValue(p[1]), DigitsValue(p[2]), DigitsValue(p[3])])
    else None
  }

  lemma OctetText(b: Byte)
    ensures IsOctet(NatToText(b)) && DigitsValue(NatToText(b)) == b
    ensures '.' !in NatToText(b)
  {
    NatToTextRoundTrip(b);
    assert forall c :: c in NatToText(b) ==> IsDigit(c);
  }

  lemma DottedSplit(t0: string, t1: string, t2: string, t3: string)
    requires '.' !in t0 && '.' !in t1 && '.' !in t2 && '.' !in t3
    ensures Split(t0 + "." + t1 + "." + t2 + "." + t3, '.') == [t0, t1, t2, t3]
  {
    var rest2 := t2 + "." + t3;
    var rest1 := t1 + "." + rest2;
    assert t0 + "." + t1 + "." + t2 + "." + t3 == t0 + "." + rest1;
    SplitAt(t0, '.', rest1);
    SplitAt(t1, '.', rest2);
    SplitAt(t2, '.', t3);
    SplitWithout(t3, '.');
  }

  /** Printing and parsing an address are inverse to each other, in both directions. */
  lemma DottedRoundTrip(a: Address)
    ensures ParseDotted(Dotted(a)) == Some(a)
  {
    var t0, t1, t2, t3 := NatToText(a[0]), NatToText(a[1]), NatToText(a[2]), NatToText(a[3]);
    OctetText(a[0]); OctetText(a[1]); OctetText(a[2]); OctetText(a[3]);
    DottedSplit(t0, t1, t2, t3);
    assert a == [a[0], a[1], a[2], a[3]];
  }

  lemma JoinFour(p0: string, p1: string, p2: string, p3: string, c: char)
    ensures Join([p0, p1, p2, p3], c) == p0 + [c] + p1 + [c] + p2 + [c] + p3
  {
    assert [p0, p1, p2, p3][1..] == [p1, p2, p3];
    assert [p1, p2, p3][1..] == [p2, p3];
    assert [p2, p3][1..] == [p3];
    assert Join([p2, p3], c) == p2 + [c] + p3;
    assert Join([p1, p2, p3], c) == p1 + [c] + p2 + [c] + p3;
  }

  lemma ParsedTextIsDotted(s: string)
    requires ParseDotted(s).Some?
    ensures Dotted(ParseDotted(s).value) == s
  {
    var p := Split(s, '.');
    CanonicalIsPrinted(p[0]);
    CanonicalIsPrinted(p[1]);
    CanonicalIsPrinted(p[2]);
    CanonicalIsPrinted(p[3]);
    JoinSplit(s, '.');
    JoinFour(p[0], p[1], p[2], p[3], '.');
    assert p == [p[0], p[1], p[2], p[3]];
  }

  /** The four parts of the text are the bytes in decimal, the most significant first. */
  lemma DottedParts(a: Address)
    ensures Split(Dotted(a), '.') == [NatToText(a[0]), NatToText(a[1]), NatToText(a[2]), NatToText(a[3])]
  {
    OctetText(a[0]); OctetText(a[1]); OctetText(a[2]); OctetText(a[3]);
    DottedSplit(NatToText(a[0]), NatToText(a[1]), NatToText(a[2]), NatToText(a[3]));
  }

  lemma DottedInjective(a: Address, b: Address)
    requires Dotted(a) == Dotted(b)
    ensures a == b
  {
    DottedRoundTrip(a);
    DottedRoundTrip(b);
  }

  // ---------- nextIP ----------

  /** The address after a, carrying byte by byte. */
  function Next(a: Address): (r: Address)
    ensures Value(r) == if Value(a) == SPACE - 1 then 0 else Value(a) + 1
  {
    if a[3] < 255 then [a[0], a[1], a[2], a[3] + 1]
    else if a[2] < 255 then [a[0], a[1], a[2] + 1, 0]
    else if a[1] < 255 then [a[0], a[1] + 1, 0, 0]
    else if a[0] < 255 then [a[0] + 1, 0, 0, 0]
    else [0, 0, 0, 0]
  }

  function After(a: Address, n: nat): Address {
    if n == 0 then a else Next(After(a, n - 1))
  }

  lemma IncrementModulo(v: nat)
    ensures (v + 1) % SPACE == if v % SPACE == SPACE - 1 then 0 else v % SPACE + 1
    ensures v < SPACE ==> v % SPACE == v
  {
  }

  lemma {:induction false} AfterIsModular(a: Address, n: nat)
    ensures Value(After(a, n)) == (Value(a) + n) % SPACE
  {
    hide Value, Next;
    if n > 0 {
      AfterIsModular(a, n - 1);
      IncrementModulo(Value(a) + n - 1);
    }
  }

  /** The carry loop on the four bytes themselves: +1 modulo 2^32 on the big-endian value. */
  method NextIP(ip: array<Byte>)
    requires ip.Length == 4
    modifies ip
    ensures Value(ip[..]) == (Value(old(ip[..])) + 1) % SPACE
    ensures ip[..] == Next(old(ip[..]))
  {
    hide Value;
    IncrementModulo(Value(ip[..]));
    var j := ip.Length - 1;
    while j >= 0
      invariant -1 <= j < 4
      invariant forall k :: 0 <= k <= j ==> ip[k] == old(ip[k])
      invariant forall k :: j < k < 4 ==> ip[k] == 0 && old(ip[k]) == 255
    {
      var b: int := ip[j];
      ip[j] := (b + 1) % 256;
      if ip[j] > 0 {
        break;
      }
      j := j - 1;
    }
    assert ip[..] == Next(old(ip[..]));
  }

  // ---------- bytesCompare ----------

  function Compare(a: seq<Byte>, b: seq<Byte>): int {
    if a == [] || b == [] then |a| - |b|
    else if a[0] != b[0] then a[0] as int - b[0] as int
    else Compare(a[1..], b[1..])
  }

  method BytesCompare(a: seq<Byte>, b: seq<Byte>) returns (r: int)
    ensures r == Compare(a, b)
  {
    var i := 0;
    while i < |a| && i < |b|
      invariant 0 <= i <= |a| && i <= |b|
      invariant Compare(a, b) == Compare(a[i..], b[i..])
    {
      if a[i] != b[i] {
        return a[i] as int - b[i] as int;
      }
      assert a[i..][1..] == a[i + 1..] && b[i..][1..] == b[i + 1..];
      i := i + 1;
    }
    r := |a| - |b|;
  }

  /** On addresses the byte-wise comparison is the numeric one. */
  lemma CompareIsNumeric(a: Address, b: Address)
    ensures Compare(a, b) > 0 <==> Value(a) > Value(b)
    ensures Compare(a, b) == 0 <==> a == b
    ensures Compare(a, b) < 0 <==> Value(a) < Value(b)
  {
    assert a[1..][1..] == a[2..] && a[2..][1..] == a[3..] && a[3..][1..] == a[4..];
    assert b[1..][1..] == b[2..] && b[2..][1..] == b[3..] && b[3..][1..] == b[4..];
    assert a[4..] == [] && b[4..] == [];
    assert Compare(a, b) == if a[0] != b[0] then a[0] as int - b[0] as int else Compare(a[1..], b[1..]);
    assert Compare(a[1..], b[1..]) == if a[1] != b[1] then a[1] as int - b[1] as int else Compare(a[2..], b[2..]);
    assert Compare(a[2..], b[2..]) == if a[2] != b[2] then a[2] as int - b[2] as int else Compare(a[3..], b[3..]);
    assert Compare(a[3..], b[3..]) == if a[3] != b[3] then a[3] as int - b[3] as int else 0;
    if Value(a) == Value(b) { ValueInjective(a, b); }
  }

  // ---------- The ascending loop (utils/ipam.go) ----------

  function Texts(r: seq<Address>): (t: seq<string>)
    ensures |t| == |r| && forall i :: 0 <= i < |r| ==> t[i] == Dotted(r[i])
  {
    seq(|r|, i requires 0 <= i < |r| => Dotted(r[i]))
  }

  /** start, start+1, ..., end; none when start is after end. */
  function Ascending(start: Address, end: Address): seq<Address>
    requires Value(end) < SPACE - 1
    decreases SPACE - Value(start)
  {
    if Value(start) > Value(end) then [] else [start] + Ascending(Next(start), end)
  }

  lemma {:induction false} AscendingElements(start: Address, end: Address)
    requires Value(end) < SPACE - 1
    ensures |Ascending(start, end)| == if Value(start) > Value(end) then 0 else Value(end) - Value(start) + 1
    ensures forall i :: 0 <= i < |Ascending(start, end)| ==> Value(Ascending(start, end)[i]) == Value(start) + i
    decreases SPACE - Value(start)
  {
    if Value(start) <= Value(end) { AscendingElements(Next(start), end); }
  }

  /** The ascending list is the closed interval, each address once: an address is listed iff it
      lies between start and end, and no text is listed twice. */
  lemma AscendingIsInterval(start: Address, end: Address)
    requires Value(end) < SPACE - 1
    ensures forall a: Address :: a in Ascending(start, end) <==> Value(start) <= Value(a) <= Value(end)
    ensures var t := Texts(Ascending(start, end)); forall i, j :: 0 <= i < j < |t| ==> t[i] != t[j]
  {
    AscendingElements(start, end);
    var r := Ascending(start, end);
    forall a: Address | Value(start) <= Value(a) <= Value(end) ensures a in r {
      ValueInjective(a, r[Value(a) - Value(start)]);
    }
    forall i, j | 0 <= i < j < |r| ensures Texts(r)[i] != Texts(r)[j] {
      if Dotted(r[i]) == Dotted(r[j]) { DottedInjective(r[i], r[j]); }
    }
  }

  /**
   The guard `ipAfter(ip, endIP)` after n rounds of the loop. `start` and `end` are what To4
   returns: four bytes, or nothing for an address that is not IPv4 (nextIP leaves that alone).
   */
  predicate StopsAt(start: seq<Byte>, end: seq<Byte>, n: nat) {
    var cur: seq<Byte> := if |start| == 4 then After(start, n) else start;
    Compare(cur, end) > 0
  }

  /** Exactly when the ascending loop ends: never for a start that is not IPv4, nor when the
      end is 255.255.255.255. */
  predicate RangeEnds(start: seq<Byte>, end: seq<Byte>) {
    |start| == 4 && (|end| == 4 ==> Value(end) < SPACE - 1)
  }

  lemma RangeEndsExactly(start: seq<Byte>, end: seq<Byte>)
    requires |start| == 4 || start == []
    requires |end| == 4 || end == []
    ensures (exists n: nat :: StopsAt(start, end, n)) <==> RangeEnds(start, end)
  {
    if start == [] {
      assert forall n: nat :: !StopsAt(start, end, n);
    } else if end == [] {
      assert StopsAt(start, end, 0);
    } else {
      forall n: nat ensures StopsAt(start, end, n) <==> Value(After(start, n)) > Value(end) {
        CompareIsNumeric(After(start, n), end);
      }
      if Value(end) < SPACE - 1 {
        AfterIsModular(start, SPACE - 1 - Value(start));
        assert StopsAt(start, end, SPACE - 1 - Value(start));
      }
    }
  }

  lemma TextsAppend(r: seq<Address>, a: Address)
    ensures Texts(r + [a]) == Texts(r) + [Dotted(a)]
  {
  }

  /** What the loop lists, given what To4 returns for the end: nothing, if that is not IPv4. */
  function AscendingTo(start: Address, end: seq<Byte>): seq<Address>
    requires RangeEnds(start, end) && (|end| == 4 || end == [])
  {
    if |end| == 4 then Ascending(start, end) else []
  }

  lemma AscendingStep(start: Address, end: seq<Byte>)
    requires RangeEnds(start, end) && (|end| == 4 || end == [])
    ensures Compare(start, end) > 0 ==> AscendingTo(start, end) == []
    ensures Compare(start, end) <= 0 ==>
              |end| == 4 && Value(start) <= Value(end) < SPACE - 1 && Value(Next(start)) == Value(start) + 1
              && AscendingTo(start, end) == [start] + AscendingTo(Next(start), end)
  {
    if |end| == 4 { CompareIsNumeric(start, end); }
    hide Next, Value;
  }

  /**
   The loop of parseIPRange on an IPv4 start. The loop variable is always the same four bytes,
   overwritten in place by NextIP, so each text must be taken before the increment.
   */
  method AscendingLoop(ip: array<Byte>, end: seq<Byte>) returns (ips: seq<string>)
    requires ip.Length == 4 && RangeEnds(ip[..], end) && (|end| == 4 || end == [])
    modifies ip
    ensures ips == Texts(AscendingTo(old(ip[..]), end))
  {
    hide Dotted, Compare, Next, Value, Ascending, AscendingTo;
    ips := [];
    ghost var seen: seq<Address> := [];
    var c := BytesCompare(ip[..], end);
    AscendingStep(ip[..], end);
    while !(c > 0)
      invariant c == Compare(ip[..], end)
      invariant ips == Texts(seen)
      invariant seen + AscendingTo(ip[..], end) == AscendingTo(old(ip[..]), end)
      decreases SPACE - Value(ip[..])
    {
      ghost var cur: Address := ip[..];
      AscendingStep(cur, end);
      TextsAppend(seen, cur);
      assert seen + ([cur] + AscendingTo(Next(cur), end)) == (seen + [cur]) + AscendingTo(Next(cur), end);
      seen := seen + [cur];
      ips := ips + [Dotted(ip[..])];
      NextIP(ip);
      c := BytesCompare(ip[..], end);
    }
    AscendingStep(ip[..], end);
    assert seen + [] == seen;
  }

  // ---------- The loop that runs until it meets the end (pkg/ipam/ipam.go) ----------

  /** The number of steps from start to end going up and around. */
  function Distance(start: Address, end: Address): nat {
    if Value(start) <= Value(end) then Value(end) - Value(start)
    else Value(end) + SPACE - Value(start)
  }

  function Wrapping(start: Address, end: Address): seq<Address>
    decreases Distance(start, end)
  {
    if start == end then [end]
    else
      assert Value(start) != Value(end) by { if Value(start) == Value(end) { ValueInjective(start, end); } }
      [start] + Wrapping(Next(start), end)
  }

  lemma WrappingStep(start: Address, end: Address)
    ensures start == end ==> Wrapping(start, end) == [end]
    ensures start != end ==> Wrapping(start, end) == [start] + Wrapping(Next(start), end)
                             && Distance(Next(start), end) < Distance(start, end)
  {
    if Value(start) == Value(end) { ValueInjective(start, end); }
  }

  /** generateIPRange ends for every pair of IPv4 addresses. */
  method GenerateIPRange(ip: array<Byte>, end: Address) returns (ips: seq<string>)
    requires ip.Length == 4
    modifies ip
    ensures ips == Texts(Wrapping(old(ip[..]), end))
  {
    hide Dotted, Value, Distance, Next, Wrapping;
    ips := [];
    ghost var seen: seq<Address> := [];
    var cur: Address := ip[..];
    while cur != end
      invariant cur == ip[..]
      invariant ips == Texts(seen)
      invariant seen + Wrapping(cur, end) == Wrapping(old(ip[..]), end)
      decreases Distance(cur, end)
    {
      WrappingStep(cur, end);
      TextsAppend(seen, cur);
      assert seen + ([cur] + Wrapping(Next(cur), end)) == (seen + [cur]) + Wrapping(Next(cur), end);
      seen := seen + [cur];
      ips := ips + [Dotted(cur)];
      NextIP(ip);
      cur := ip[..];
    }
    WrappingStep(cur, end);
    TextsAppend(seen, end);
    ips := ips + [Dotted(end)];
  }

  lemma {:induction false} WrappingElements(start: Address, end: Address)
    ensures |Wrapping(start, end)| == Distance(start, end) + 1
    ensures Value(start) <= Value(end) < SPACE - 1 ==> Wrapping(start, end) == Ascending(start, end)
    decreases Distance(start, end)
  {
    if start != end {
      if Value(start) == Value(end) { ValueInjective(start, end); }
      WrappingElements(Next(start), end);
    } else {
      if Value(end) < SPACE - 1 { assert Ascending(Next(start), end) == []; }
    }
  }

  /** Where both loops end they list the same addresses exactly when the range does not run
      downwards; otherwise the second one lists more. */
  lemma LoopsAgreeExactly(start: Address, end: Address)
    requires Value(end) < SPACE - 1
    ensures Wrapping(start, end) == Ascending(start, end) <==> Value(start) <= Value(end)
    ensures Value(start) > Value(end) ==> |Wrapping(start, end)| > |Ascending(start, end)|
  {
    WrappingElements(start, end);
    AscendingElements(start, end);
  }
}
