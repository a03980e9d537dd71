/**
 The two readers of the `ip_pool` text: LoadIPPool in utils/ipam.go and parseIPPool in
 pkg/ipam/ipam.go.
 */
module Pool {
  import opened Text
  import opened Ipv4

  datatype Result<+T> = Ok(value: T) | Err

  /** An address that net.ParseIP returns: an IPv4 one (also when written as an IPv4-mapped IPv6
      one), or another, known by the text that String gives for it. */
  datatype IP = V4(a: Address) | V6(text: V6Text)

  type V6Text = s: string | ':' in s witness "::"

  /** net.ParseIP on text with a colon, which is not modelled further. */
  type ColonParser = string -> Option<IP>

  function ParseIP(six: ColonParser, s: string): Option<IP> {
    if ':' in s then six(s)
    else
      match ParseDotted(s)
      case Some(a) => Some(V4(a))
      case None => None
  }

  function ToText(ip: IP): string {
    match ip
    case V4(a) => Dotted(a)
    case V6(text) => text
  }

  function To4(ip: IP): (bytes: seq<Byte>)
    ensures |bytes| == 4 || bytes == []
  {
    match ip
    case V4(a) => a
    case V6(_) => []
  }

  /** A trimmed line that both readers skip. */
  predicate Skipped(line: string) { line == "" || line[0] == '#' }

  /** The endpoints of a range line, if it has exactly two and both are addresses. */
  function Endpoints(six: ColonParser, line: string): Option<(IP, IP)> {
    var p := Split(line, '-');
    if |p| != 2 then None
    else
      match (ParseIP(six, Trim(p[0])), ParseIP(six, Trim(p[1])))
      case (Some(a), Some(b)) => Some((a, b))
      case _ => None
  }

  predicate Malformed(six: ColonParser, line: string) {
    if '-' in line then Endpoints(six, line).None? else ParseIP(six, line).None?
  }

  // ---------- When the readers come to an end ----------

  /** What Ipv4.RangeEndsExactly says of the loop of parseIPRange. */
  predicate AscendingEnds(start: IP, end: IP) { RangeEnds(To4(start), To4(end)) }

  /** The loop variable of generateIPRange after n rounds is the end. nextIP turns an address that
      is not IPv4 into nil, and leaves that alone. */
  predicate MeetsAt(start: IP, end: IP, n: nat) {
    if start.V4? then V4(After(start.a, n)) == end else n == 0 && start == end
  }

  predicate WrappingEnds(start: IP, end: IP) { (start.V4? && end.V4?) || start == end }

  lemma DistanceLeads(a: Address, b: Address)
    ensures After(a, Distance(a, b)) == b
  {
    hide Value, After;
    AfterIsModular(a, Distance(a, b));
    if Value(a) > Value(b) {
      assert Value(a) + Distance(a, b) == Value(b) + SPACE;
    }
    ValueInjective(After(a, Distance(a, b)), b);
  }

  /** The loop of generateIPRange ends exactly when both addresses are IPv4 or they are the same. */
  lemma WrappingEndsExactly(start: IP, end: IP)
    ensures (exists n: nat :: MeetsAt(start, end, n)) <==> WrappingEnds(start, end)
  {
    hide After, Distance;
    if start.V4? && end.V4? {
      DistanceLeads(start.a, end.a);
      assert MeetsAt(start, end, Distance(start.a, end.a));
    } else if start == end {
      assert MeetsAt(start, end, 0);
    }
  }

  /** LoadIPPool comes to an end: no range it reaches loops forever. */
  predicate LoadEnds(six: ColonParser, lines: seq<string>) {
    lines == []
    || var line := Trim(lines[0]);
       if Skipped(line) then LoadEnds(six, lines[1..])
       else if Malformed(six, line) then true
       else ('-' in line ==> AscendingEnds(Endpoints(six, line).value.0, Endpoints(six, line).value.1))
            && LoadEnds(six, lines[1..])
  }

  /** And so does parseIPPool. */
  predicate ParseEnds(six: ColonParser, lines: seq<string>) {
    lines == []
    || var line := Trim(lines[0]);
       if Skipped(line) then ParseEnds(six, lines[1..])
       else if Malformed(six, line) then true
       else ('-' in line ==> WrappingEnds(Endpoints(six, line).value.0, Endpoints(six, line).value.1))
            && ParseEnds(six, lines[1..])
  }

  function Prepend(ips: seq<string>, r: Result<seq<string>>): Result<seq<string>> {
    match r
    case Ok(more) => Ok(ips + more)
    case Err => Err
  }

  lemma PrependTwice(a: seq<string>, b: seq<string>, r: Result<seq<string>>)
    ensures Prepend(a, Prepend(b, r)) == Prepend(a + b, r)
  {
    if r.Ok? { assert a + (b + r.value) == (a + b) + r.value; }
  }

  lemma PrependNothing(r: Result<seq<string>>, ips: seq<string>)
    ensures Prepend([], r) == r
    ensures Prepend(ips, Ok([])) == Ok(ips)
  {
    if r.Ok? { assert [] + r.value == r.value; }
    assert ips + [] == ips;
  }

  // ---------- utils/ipam.go ----------

  /** The texts parseIPRange lists. */
  function AscendingTexts(start: IP, end: IP): seq<string>
    requires AscendingEnds(start, end)
  {
    Texts(AscendingTo(start.a, To4(end)))
  }

  /** The pool LoadIPPool returns: the lines' addresses in order, or an error at a bad line. */
  function LoadedPool(six: ColonParser, lines: seq<string>): Result<seq<string>>
    requires LoadEnds(six, lines)
  {
    if lines == [] then Ok([])
    else
      var line := Trim(lines[0]);
      if Skipped(line) then LoadedPool(six, lines[1..])
      else if Malformed(six, line) then Err
      else if '-' in line then
        var (a, b) := Endpoints(six, line).value;
        Prepend(AscendingTexts(a, b), LoadedPool(six, lines[1..]))
      else Prepend([ToText(ParseIP(six, line).value)], LoadedPool(six, lines[1..]))
  }

  method ParseIPRange(six: ColonParser, line: string) returns (r: Result<seq<string>>)
    requires Endpoints(six, line).Some? ==> AscendingEnds(Endpoints(six, line).value.0, Endpoints(six, line).value.1)
    ensures r == if Endpoints(six, line).None? then Err
                 else Ok(AscendingTexts(Endpoints(six, line).value.0, Endpoints(six, line).value.1))
  {
    var parts := Split(line, '-');
    if |parts| != 2 {
      return Err;
    }
    var start, end := ParseIP(six, Trim(parts[0])), ParseIP(six, Trim(parts[1]));
    if start.None? || end.None? {
      return Err;
    }
    var bytes := To4(start.value);
    var ip := new Byte[4](i requires 0 <= i < 4 => bytes[i]);
    assert ip[..] == bytes;
    var ips := AscendingLoop(ip, To4(end.value));
    r := Ok(ips);
  }

  method LoadIPPool(six: ColonParser, data: string) returns (r: Result<seq<string>>)
    requires LoadEnds(six, Split(data, '\n'))
    ensures r == LoadedPool(six, Split(data, '\n'))
  {
    var ipPool: seq<string> := [];
    var lines := Split(data, '\n');
    assert lines[0..] == lines;
    PrependNothing(LoadedPool(six, lines), ipPool);
    for i := 0 to |lines|
      invariant LoadEnds(six, lines[i..])
      invariant LoadedPool(six, lines) == Prepend(ipPool, LoadedPool(six, lines[i..]))
    {
      assert lines[i..][1..] == lines[i + 1..];
      var line := Trim(lines[i]);
      if line == "" || line[0] == '#' {
        continue;
      }
      if '-' in line {
        var ips := ParseIPRange(six, line);
        if ips.Err? {
          return Err;
        }
        PrependTwice(ipPool, ips.value, LoadedPool(six, lines[i + 1..]));
        ipPool := ipPool + ips.value;
      } else {
        var ip := ParseIP(six, line);
        if ip.None? {
          return Err;
        }
        PrependTwice(ipPool, [ToText(ip.value)], LoadedPool(six, lines[i + 1..]));
        ipPool := ipPool + [ToText(ip.value)];
      }
    }
    PrependNothing(Err, ipPool);
    r := Ok(ipPool);
  }

  // ---------- pkg/ipam/ipam.go ----------

  /** The texts generateIPRange lists. */
  function WrappingTexts(start: IP, end: IP): seq<string>
    requires WrappingEnds(start, end)
  {
    if start.V4? && end.V4? then Texts(Wrapping(start.a, end.a)) else [ToText(end)]
  }

  /** The pool parseIPPool returns. A single address is kept as the text of its line. */
  function ParsedPool(six: ColonParser, lines: seq<string>): Result<seq<string>>
    requires ParseEnds(six, lines)
  {
    if lines == [] then Ok([])
    else
      var line := Trim(lines[0]);
      if Skipped(line) then ParsedPool(six, lines[1..])
      else if Malformed(six, line) then Err
      else if '-' in line then
        var (a, b) := Endpoints(six, line).value;
        Prepend(WrappingTexts(a, b), ParsedPool(six, lines[1..]))
      else Prepend([line], ParsedPool(six, lines[1..]))
  }

  method ExpandIPRange(six: ColonParser, line: string) returns (r: Result<seq<string>>)
    requires Endpoints(six, line).Some? ==> WrappingEnds(Endpoints(six, line).value.0, Endpoints(six, line).value.1)
    ensures r == if Endpoints(six, line).None? then Err
                 else Ok(WrappingTexts(Endpoints(six, line).value.0, Endpoints(six, line).value.1))
  {
    var parts := Split(line, '-');
    if |parts| != 2 {
      return Err;
    }
    var start, end := ParseIP(six, Trim(parts[0])), ParseIP(six, Trim(parts[1]));
    if start.None? || end.None? {
      return Err;
    }
    if start.value.V6? {
      // The loop is not entered.
      return Ok([ToText(end.value)]);
    }
    var ip := new Byte[4](i requires 0 <= i < 4 => start.value.a[i]);
    assert ip[..] == start.value.a;
    var ips := GenerateIPRange(ip, end.value.a);
    r := Ok(ips);
  }

  method ParseIPPool(six: ColonParser, data: string) returns (r: Result<seq<string>>)
    requires ParseEnds(six, Split(data, '\n'))
    ensures r == ParsedPool(six, Split(data, '\n'))
  {
    var ips: seq<string> := [];
    var lines := Split(data, '\n');
    assert lines[0..] == lines;
    PrependNothing(ParsedPool(six, lines), ips);
    for i := 0 to |lines|
      invariant ParseEnds(six, lines[i..])
      invariant ParsedPool(six, lines) == Prepend(ips, ParsedPool(six, lines[i..]))
    {
      assert lines[i..][1..] == lines[i + 1..];
      var ipRange := Trim(lines[i]);
      if ipRange == "" || ipRange[0] == '#' {
        continue;
      }
      if '-' in ipRange {
        var rangeIps := ExpandIPRange(six, ipRange);
        if rangeIps.Err? {
          return Err;
        }
        PrependTwice(ips, rangeIps.value, ParsedPool(six, lines[i + 1..]));
        ips := ips + rangeIps.value;
      } else {
        if ParseIP(six, ipRange).None? {
          return Err;
        }
        PrependTwice(ips, [ipRange], ParsedPool(six, lines[i + 1..]));
        ips := ips + [ipRange];
      }
    }
    PrependNothing(Err, ips);
    r := Ok(ips);
  }

  // ---------- What the pools contain, and when they agree ----------

  /** The address is written on the line, or lies in the range written there. */
  predicate Covers(six: ColonParser, line: string, ip: IP) {
    var t := Trim(line);
    && !Skipped(t) && !Malformed(six, t)
    && if '-' in t
       then
         var (a, b) := Endpoints(six, t).value;
         ip.V4? && a.V4? && b.V4? && Value(a.a) <= Value(ip.a) <= Value(b.a)
       else ParseIP(six, t) == Some(ip)
  }

  lemma TextsMember(r: seq<Address>, a: Address)
    ensures Dotted(a) in Texts(r) <==> a in r
  {
    if Dotted(a) in Texts(r) {
      var i :| 0 <= i < |r| && Texts(r)[i] == Dotted(a);
      DottedInjective(a, r[i]);
    }
    if a in r {
      var i :| 0 <= i < |r| && r[i] == a;
      assert Texts(r)[i] == Dotted(a);
    }
  }

  lemma DottedNoColon(a: Address)
    ensures ':' !in Dotted(a)
  {
    OctetText(a[0]);
    OctetText(a[1]);
    OctetText(a[2]);
    OctetText(a[3]);
    forall b: Byte ensures ':' !in NatToText(b) {
      OctetText(b);
      assert forall c :: c in NatToText(b) ==> IsDigit(c);
    }
  }

  lemma ToTextInjective(x: IP, y: IP)
    requires ToText(x) == ToText(y)
    ensures x == y
  {
    if x.V4? { DottedNoColon(x.a); }
    if y.V4? { DottedNoColon(y.a); }
    if x.V4? && y.V4? { DottedInjective(x.a, y.a); }
  }

  lemma AscendingTextsMember(start: IP, end: IP, ip: IP)
    requires AscendingEnds(start, end)
    ensures ToText(ip) in AscendingTexts(start, end)
            <==> ip.V4? && end.V4? && Value(start.a) <= Value(ip.a) <= Value(end.a)
  {
    var r := AscendingTo(start.a, To4(end));
    if ip.V4? { TextsMember(r, ip.a); }
    if end.V4? { AscendingIsInterval(start.a, end.a); }
    if ToText(ip) in Texts(r) {
      var i :| 0 <= i < |r| && Texts(r)[i] == ToText(ip);
      ToTextInjective(ip, V4(r[i]));
    }
  }

  /** A pool that loads holds exactly the addresses its lines cover. */
  lemma {:induction false} LoadedPoolMembers(six: ColonParser, lines: seq<string>, ip: IP)
    requires LoadEnds(six, lines) && LoadedPool(six, lines).Ok?
    ensures ToText(ip) in LoadedPool(six, lines).value <==> exists i :: 0 <= i < |lines| && Covers(six, lines[i], ip)
  {
    if lines != [] {
      LoadedPoolMembers(six, lines[1..], ip);
      var line := Trim(lines[0]);
      assert (exists i :: 0 <= i < |lines| && Covers(six, lines[i], ip))
        <==> Covers(six, lines[0], ip) || (exists i :: 0 <= i < |lines[1..]| && Covers(six, lines[1..][i], ip)) by {
        forall i | 1 <= i < |lines| ensures lines[i] == lines[1..][i - 1] {}
      }
      if !Skipped(line) {
        if '-' in line {
          var (x, y) := Endpoints(six, line).value;
          AscendingTextsMember(x, y, ip);
        } else {
          var other := ParseIP(six, line).value;
          if ToText(ip) == ToText(other) { ToTextInjective(ip, other); }
        }
      }
    }
  }

  predicate PlainLine(six: ColonParser, line: string)
    requires !Malformed(six, line)
  {
    if '-' in line then
      var (a, b) := Endpoints(six, line).value;
      a.V4? && b.V4? ==> Value(a.a) <= Value(b.a)
    else ':' in line ==> ToText(ParseIP(six, line).value) == line
  }

  /** Up to the first bad line: no range runs downwards, and each single address is written the way
      it is printed, as every IPv4 address without a colon is. */
  predicate Plain(six: ColonParser, lines: seq<string>) {
    lines == []
    || var line := Trim(lines[0]);
       if Skipped(line) then Plain(six, lines[1..])
       else if Malformed(six, line) then true
       else PlainLine(six, line) && Plain(six, lines[1..])
  }

  /** One line on which both readers come to an end: the texts the two of them take from it. */
  lemma LinesCompare(six: ColonParser, line: string)
    requires !Malformed(six, line)
    requires '-' in line ==> AscendingEnds(Endpoints(six, line).value.0, Endpoints(six, line).value.1)
                             && WrappingEnds(Endpoints(six, line).value.0, Endpoints(six, line).value.1)
    ensures var loaded := if '-' in line then AscendingTexts(Endpoints(six, line).value.0, Endpoints(six, line).value.1)
                          else [ToText(ParseIP(six, line).value)];
            var parsed := if '-' in line then WrappingTexts(Endpoints(six, line).value.0, Endpoints(six, line).value.1)
                          else [line];
            |loaded| <= |parsed| && (loaded == parsed <==> PlainLine(six, line))
  {
    if '-' in line {
      var (x, y) := Endpoints(six, line).value;
      LoopsAgreeExactly(x.a, y.a);
      WrappingElements(x.a, y.a);
      AscendingElements(x.a, y.a);
    } else if ':' !in line {
      ParsedTextIsDotted(line);
    }
  }

  lemma PrependCompare(a: seq<string>, b: seq<string>, r: Result<seq<string>>, q: Result<seq<string>>)
    requires |a| <= |b| && r.Ok? && q.Ok? && |r.value| <= |q.value|
    ensures Prepend(a, r) == Prepend(b, q) <==> a == b && r == q
    ensures |Prepend(a, r).value| <= |Prepend(b, q).value|
  {
    if a + r.value == b + q.value {
      assert |a| == |b|;
      assert (a + r.value)[..|a|] == a && (b + q.value)[..|a|] == b;
      assert (a + r.value)[|a|..] == r.value && (b + q.value)[|a|..] == q.value;
    }
  }

  lemma {:induction false} PoolsCompare(six: ColonParser, lines: seq<string>)
    requires LoadEnds(six, lines) && ParseEnds(six, lines)
    ensures LoadedPool(six, lines).Err? <==> ParsedPool(six, lines).Err?
    ensures LoadedPool(six, lines).Ok? ==>
              |LoadedPool(six, lines).value| <= |ParsedPool(six, lines).value|
              && (LoadedPool(six, lines) == ParsedPool(six, lines) <==> Plain(six, lines))
  {
    if lines != [] {
      var line := Trim(lines[0]);
      if Skipped(line) {
        PoolsCompare(six, lines[1..]);
      } else if !Malformed(six, line) {
        PoolsCompare(six, lines[1..]);
        LinesCompare(six, line);
        hide Endpoints, ParseIP, PlainLine, AscendingTexts, WrappingTexts, ToText, Trim;
        var loaded := if '-' in line then AscendingTexts(Endpoints(six, line).value.0, Endpoints(six, line).value.1)
                      else [ToText(ParseIP(six, line).value)];
        var parsed := if '-' in line then WrappingTexts(Endpoints(six, line).value.0, Endpoints(six, line).value.1)
                      else [line];
        if LoadedPool(six, lines[1..]).Ok? {
          PrependCompare(loaded, parsed, LoadedPool(six, lines[1..]), ParsedPool(six, lines[1..]));
        }
      }
    }
  }

  /** On every text that both readers finish, they return the same result exactly when both reject
      it, or no range runs downwards and every single address is written as it is printed. */
  lemma PoolsAgreeExactly(six: ColonParser, data: string)
    requires LoadEnds(six, Split(data, '\n')) && ParseEnds(six, Split(data, '\n'))
    ensures LoadedPool(six, Split(data, '\n')) == ParsedPool(six, Split(data, '\n'))
            <==> LoadedPool(six, Split(data, '\n')).Err? || Plain(six, Split(data, '\n'))
  {
    PoolsCompare(six, Split(data, '\n'));
  }
}
