/**
 The pool text as an administrator writes it: comments, blank lines, single IPv4 addresses and
 ranges, with white space wherever it may stand. Both readers return what is written.
 */
module PoolText {
  import opened Text
  import opened Ipv4
  import opened Pool

  datatype Item =
    | RangeLine(l: string, a: Address, m: string, m': string, b: Address, r: string)
    | SingleLine(l: string, a: Address, r: string)
    | CommentLine(l: string, text: string)
    | BlankLine(l: string)

  function Write(item: Item): string {
    match item
    case RangeLine(l, a, m, m', b, r) => l + (Dotted(a) + m + "-" + (m' + Dotted(b))) + r
    case SingleLine(l, a, r) => l + Dotted(a) + r
    case CommentLine(l, text) => l + "#" + text
    case BlankLine(l) => l
  }

  /** White space within a line. */
  predicate Gap(s: string) { Blank(s) && '\n' !in s }

  predicate Proper(item: Item) {
    match item
    case RangeLine(l, _, m, m', _, r) => Gap(l) && Gap(m) && Gap(m') && Gap(r)
    case SingleLine(l, _, r) => Gap(l) && Gap(r)
    case CommentLine(l, text) => Gap(l) && '\n' !in text
    case BlankLine(l) => Gap(l)
  }

  // ---------- The addresses that are meant ----------

  function AddressOf(v: nat): (a: Address)
    requires v < SPACE
    ensures Value(a) == v
  {
    var hi, lo := v / 0x1_0000, v % 0x1_0000;
    assert hi < 0x1_0000;
    [hi / 0x100, hi % 0x100, lo / 0x100, lo % 0x100]
  }

  /** The text of the address with the value v. */
  function TextAt(v: nat): string { if v < SPACE then Dotted(AddressOf(v)) else "" }

  /** From a up to b, each address once, in order; none if a is after b. */
  function Upto(a: Address, b: Address): (texts: seq<string>)
    ensures |texts| == if Value(a) > Value(b) then 0 else Value(b) - Value(a) + 1
    ensures forall i :: 0 <= i < |texts| ==> texts[i] == TextAt(Value(a) + i)
  {
    if Value(a) > Value(b) then [] else seq(Value(b) - Value(a) + 1, i requires 0 <= i => TextAt(Value(a) + i))
  }

  function Meant(item: Item): seq<string> {
    match item
    case RangeLine(_, a, _, _, b, _) => Upto(a, b)
    case SingleLine(_, a, _) => [Dotted(a)]
    case _ => []
  }

  function AllMeant(items: seq<Item>): seq<string> {
    if items == [] then [] else Meant(items[0]) + AllMeant(items[1..])
  }

  lemma SameText(a: Address, v: nat)
    requires Value(a) == v
    ensures Dotted(a) == TextAt(v)
  {
    hide Dotted, AddressOf;
    ValueInjective(a, AddressOf(v));
  }

  lemma SameTexts(r: seq<Address>, u: seq<string>, v: nat)
    requires |u| == |r| && forall i :: 0 <= i < |r| ==> Value(r[i]) == v + i && u[i] == TextAt(v + i)
    ensures Texts(r) == u
  {
    hide *;
    forall i | 0 <= i < |r| ensures Texts(r)[i] == u[i] { SameText(r[i], v + i); }
  }

  lemma AscendingIsUpto(a: Address, b: Address)
    requires Value(b) < SPACE - 1
    ensures Texts(Ascending(a, b)) == Upto(a, b)
  {
    hide *;
    AscendingElements(a, b);
    SameTexts(Ascending(a, b), Upto(a, b), Value(a));
  }

  lemma {:induction false} WrappingIsUpto(a: Address, b: Address)
    requires Value(a) <= Value(b)
    ensures |Wrapping(a, b)| == Value(b) - Value(a) + 1
    ensures forall i :: 0 <= i < |Wrapping(a, b)| ==> Value(Wrapping(a, b)[i]) == Value(a) + i
    decreases Value(b) - Value(a)
  {
    WrappingStep(a, b);
    hide Value, Wrapping;
    if a != b {
      if Value(a) == Value(b) { ValueInjective(a, b); }
      WrappingIsUpto(Next(a), b);
    }
  }

  lemma WrappingTextsUpto(a: Address, b: Address)
    requires Value(a) <= Value(b)
    ensures Texts(Wrapping(a, b)) == Upto(a, b)
  {
    hide *;
    WrappingIsUpto(a, b);
    SameTexts(Wrapping(a, b), Upto(a, b), Value(a));
  }

  // ---------- One line ----------

  lemma DottedChars(a: Address)
    ensures Dotted(a) != "" && forall c :: c in Dotted(a) ==> IsDigit(c) || c == '.'
  {
    OctetText(a[0]); OctetText(a[1]); OctetText(a[2]); OctetText(a[3]);
    forall b: Byte ensures NatToText(b) != "" && forall c :: c in NatToText(b) ==> IsDigit(c) {
      OctetText(b);
      assert forall c :: c in NatToText(b) ==> IsDigit(c);
    }
  }

  lemma DottedPlain(a: Address)
    ensures Trimmed(Dotted(a)) && Dotted(a) != "" && Dotted(a)[0] != '#'
    ensures '-' !in Dotted(a) && ':' !in Dotted(a) && '\n' !in Dotted(a)
  {
    DottedChars(a);
    var t := Dotted(a);
    assert t[0] in t && t[|t| - 1] in t;
    hide Dotted;
  }

  /** A single address is read as it is written. */
  lemma SingleRead(six: ColonParser, l: string, a: Address, r: string)
    requires Gap(l) && Gap(r)
    ensures var line := Trim(Write(SingleLine(l, a, r)));
            line == Dotted(a) && !Skipped(line) && '-' !in line && ParseIP(six, line) == Some(V4(a))
  {
    DottedPlain(a);
    TrimBetween(l, Dotted(a), r);
    DottedRoundTrip(a);
    hide Dotted, Trim, ParseDotted;
  }

  lemma BlankNoDash(m: string)
    requires Blank(m)
    ensures '-' !in m
  {
    SpaceMeaning('-');
  }

  lemma EndpointsOf(six: ColonParser, p: string, q: string, a: Address, b: Address)
    requires '-' !in p && '-' !in q
    requires ParseIP(six, Trim(p)) == Some(V4(a)) && ParseIP(six, Trim(q)) == Some(V4(b))
    ensures Endpoints(six, p + "-" + q) == Some((V4(a), V4(b)))
  {
    hide Split, Trim, ParseIP;
    SplitAt(p, '-', q);
    SplitWithout(q, '-');
  }

  lemma DottedRead(six: ColonParser, l: string, a: Address, r: string)
    requires Gap(l) && Gap(r)
    ensures ParseIP(six, Trim(l + Dotted(a) + r)) == Some(V4(a)) && '-' !in l + Dotted(a) + r
  {
    DottedPlain(a);
    DottedRoundTrip(a);
    BlankNoDash(l);
    BlankNoDash(r);
    hide Dotted, Trim, ParseDotted;
    TrimBetween(l, Dotted(a), r);
  }

  /** A range line has the start in front of the dash and the end behind it. */
  lemma RangeEndpoints(six: ColonParser, a: Address, m: string, m': string, b: Address)
    requires Gap(m) && Gap(m')
    ensures Endpoints(six, Dotted(a) + m + "-" + (m' + Dotted(b))) == Some((V4(a), V4(b)))
  {
    hide Dotted, Trim, ParseIP, Endpoints;
    DottedRead(six, "", a, m);
    DottedRead(six, m', b, "");
    assert "" + Dotted(a) + m == Dotted(a) + m && m' + Dotted(b) + "" == m' + Dotted(b);
    EndpointsOf(six, Dotted(a) + m, m' + Dotted(b), a, b);
  }

  lemma RangeRead(six: ColonParser, l: string, a: Address, m: string, m': string, b: Address, r: string)
    requires Gap(l) && Gap(m) && Gap(m') && Gap(r)
    ensures var line := Trim(Write(RangeLine(l, a, m, m', b, r)));
            !Skipped(line) && '-' in line && Endpoints(six, line) == Some((V4(a), V4(b)))
  {
    DottedPlain(a);
    DottedPlain(b);
    RangeEndpoints(six, a, m, m', b);
    hide Dotted, Trim, Endpoints;
    var line := Dotted(a) + m + "-" + (m' + Dotted(b));
    assert line[0] == Dotted(a)[0] && line[|line| - 1] == Dotted(b)[|Dotted(b)| - 1];
    assert line[|Dotted(a) + m|] == '-';
    TrimBetween(l, line, r);
  }

  lemma {:induction false} FirstStays(s: string)
    requires s != "" && !IsSpace(s[0])
    ensures TrimRight(s) != "" && TrimRight(s)[0] == s[0]
  {
    if IsSpace(s[|s| - 1]) { FirstStays(s[..|s| - 1]); }
  }

  /** Comments and blank lines are skipped. */
  lemma SkippedRead(item: Item)
    requires Proper(item) && (item.CommentLine? || item.BlankLine?)
    ensures Skipped(Trim(Write(item)))
  {
    if item.BlankLine? {
      TrimBetween(item.l, "", "");
      assert item.l + "" + "" == item.l;
    } else {
      var rest := "#" + item.text;
      assert item.l + "#" + item.text == item.l + rest;
      SpaceMeaning('#');
      TrimLeftBlank(item.l, rest);
      TrimRightPrefix(rest);
      FirstStays(rest);
      hide TrimLeft, TrimRight;
    }
  }

  // ---------- Whole texts ----------

  function Lines(items: seq<Item>): (lines: seq<string>)
    ensures |lines| == |items|
  {
    if items == [] then [] else [Write(items[0])] + Lines(items[1..])
  }

  ghost predicate AllProper(items: seq<Item>) { forall i :: 0 <= i < |items| ==> Proper(items[i]) }

  /** No range has the end 255.255.255.255. */
  ghost predicate RangesEnd(items: seq<Item>) {
    forall i :: 0 <= i < |items| && items[i].RangeLine? ==> Value(items[i].b) < SPACE - 1
  }

  ghost predicate RangesUpwards(items: seq<Item>) {
    forall i :: 0 <= i < |items| && items[i].RangeLine? ==> Value(items[i].a) <= Value(items[i].b)
  }

  lemma PrependOk(ips: seq<string>, more: seq<string>)
    ensures Prepend(ips, Ok(more)) == Ok(ips + more)
  {
  }

  /** LoadIPPool returns the addresses that are meant. */
  lemma {:induction false} WrittenIsLoaded(six: ColonParser, items: seq<Item>)
    requires AllProper(items) && RangesEnd(items)
    ensures LoadEnds(six, Lines(items)) && LoadedPool(six, Lines(items)) == Ok(AllMeant(items))
  {
    if items != [] {
      var item, rest := items[0], items[1..];
      WrittenIsLoaded(six, rest);
      var lines := Lines(items);
      assert lines[0] == Write(item) && lines[1..] == Lines(rest);
      hide Write, Lines, Trim, Endpoints, ParseIP, Dotted, Value, Upto, Ascending;
      match item {
        case SingleLine(l, a, r) => SingleRead(six, l, a, r);
        case RangeLine(l, a, m, m', b, r) =>
          RangeRead(six, l, a, m, m', b, r);
          AscendingIsUpto(a, b);
        case _ =>
          SkippedRead(item);
          assert [] + AllMeant(rest) == AllMeant(rest);
      }
    }
  }

  lemma LineParsed(six: ColonParser, item: Item, rest: seq<string>)
    requires Proper(item) && ParseEnds(six, rest) && (item.RangeLine? ==> Value(item.a) <= Value(item.b))
    ensures ParseEnds(six, [Write(item)] + rest)
    ensures ParsedPool(six, [Write(item)] + rest) == Prepend(Meant(item), ParsedPool(six, rest))
  {
    var lines := [Write(item)] + rest;
    assert lines[0] == Write(item) && lines[1..] == rest;
    PrependNothing(ParsedPool(six, rest), []);
    hide Write, Trim, Endpoints, ParseIP, Dotted, Value, Wrapping, Upto, Texts, Prepend;
    match item {
      case SingleLine(l, a, r) => SingleRead(six, l, a, r);
      case RangeLine(l, a, m, m', b, r) =>
        RangeRead(six, l, a, m, m', b, r);
        WrappingTextsUpto(a, b);
      case _ => SkippedRead(item);
    }
  }

  /** So does parseIPPool, if no range runs downwards. */
  lemma {:induction false} WrittenIsParsed(six: ColonParser, items: seq<Item>)
    requires AllProper(items) && RangesUpwards(items)
    ensures ParseEnds(six, Lines(items)) && ParsedPool(six, Lines(items)) == Ok(AllMeant(items))
  {
    if items != [] {
      WrittenIsParsed(six, items[1..]);
      hide Write, Meant, ParsedPool, ParseEnds, Value;
      LineParsed(six, items[0], Lines(items[1..]));
    }
  }

  // ---------- Nothing else loads ----------

  lemma GapsOf(s: string) returns (l: string, r: string)
    requires '\n' !in s
    ensures Gap(l) && Gap(r) && s == l + Trim(s) + r
  {
    l, r := TrimParts(s);
    assert forall c :: c in l ==> c in s;
    assert forall c :: c in r ==> c in s;
  }

  lemma RangeTexts(line: string, l: string, t: string, r: string, p: string, q: string,
                   l0: string, x: string, m: string, m': string, y: string, r1: string)
    requires line == l + t + r && t == p + ['-'] + q && p == l0 + x + m && q == m' + y + r1
    ensures line == (l + l0) + (x + m + "-" + (m' + y)) + (r1 + r)
  {
  }

  lemma RangeParts(t: string) returns (p: string, q: string)
    requires |Split(t, '-')| == 2
    ensures Split(t, '-') == [p, q] && t == p + ['-'] + q
    ensures forall c :: c in p || c in q ==> c in t
  {
    var parts := Split(t, '-');
    p, q := parts[0], parts[1];
    JoinSplit(t, '-');
    assert parts == [p, q] && parts[1..] == [q];
  }

  lemma EndpointTexts(six: ColonParser, t: string, p: string, q: string)
    requires Split(t, '-') == [p, q] && Endpoints(six, t).Some? && ':' !in p && ':' !in q
    ensures ParseDotted(Trim(p)).Some? && Dotted(ParseDotted(Trim(p)).value) == Trim(p)
    ensures ParseDotted(Trim(q)).Some? && Dotted(ParseDotted(Trim(q)).value) == Trim(q)
  {
    TrimResult(p);
    TrimResult(q);
    hide Trim, Dotted, ParseDotted, Split;
    ParsedTextIsDotted(Trim(p));
    ParsedTextIsDotted(Trim(q));
  }

  lemma TwoParts(six: ColonParser, t: string)
    requires Endpoints(six, t).Some?
    ensures |Split(t, '-')| == 2
  {
  }

  lemma GapsJoin(a: string, b: string)
    requires Gap(a) && Gap(b)
    ensures Gap(a + b)
  {
  }

  lemma RangeItem(six: ColonParser, line: string) returns (item: Item)
    requires '\n' !in line && ':' !in line && '-' in Trim(line) && Endpoints(six, Trim(line)).Some?
    ensures Proper(item) && Write(item) == line
  {
    hide Trim, Dotted, ParseDotted, Split, Endpoints, ParseIP;
    var t := Trim(line);
    TrimResult(line);
    assert |Split(t, '-')| == 2 by { TwoParts(six, t); }
    var p, q := RangeParts(t);
    EndpointTexts(six, t, p, q);
    var l, r := GapsOf(line);
    var l0, m := GapsOf(p);
    var m', r1 := GapsOf(q);
    var a, b := ParseDotted(Trim(p)).value, ParseDotted(Trim(q)).value;
    RangeTexts(line, l, t, r, p, q, l0, Dotted(a), m, m', Dotted(b), r1);
    GapsJoin(l, l0);
    GapsJoin(r1, r);
    item := RangeLine(l + l0, a, m, m', b, r1 + r);
  }

  lemma CommentItem(line: string, l: string, t: string, r: string) returns (item: Item)
    requires line == l + t + r && t != "" && t[0] == '#' && Gap(l) && '\n' !in t && '\n' !in r
    ensures Proper(item) && Write(item) == line
  {
    item := CommentLine(l, t[1..] + r);
    assert t == "#" + t[1..];
    assert forall c :: c in t[1..] + r ==> c in t || c in r;
    assert l + "#" + (t[1..] + r) == l + ("#" + t[1..]) + r;
  }

  lemma ItemOf(six: ColonParser, line: string) returns (item: Item)
    requires '\n' !in line && ':' !in line
    requires Skipped(Trim(line)) || !Malformed(six, Trim(line))
    ensures Proper(item) && Write(item) == line
  {
    var t := Trim(line);
    TrimResult(line);
    var l, r := GapsOf(line);
    hide Trim, Dotted, Endpoints, ParseDotted;
    if t == "" {
      item := BlankLine(l + r);
      assert l + "" + r == l + r;
    } else if t[0] == '#' {
      item := CommentItem(line, l, t, r);
    } else if '-' in t {
      item := RangeItem(six, line);
    } else {
      ParsedTextIsDotted(t);
      item := SingleLine(l, ParseDotted(t).value, r);
    }
  }

  lemma LoadedTail(six: ColonParser, lines: seq<string>)
    requires lines != [] && LoadEnds(six, lines) && LoadedPool(six, lines).Ok?
    ensures Skipped(Trim(lines[0])) || !Malformed(six, Trim(lines[0]))
    ensures LoadEnds(six, lines[1..]) && LoadedPool(six, lines[1..]).Ok?
  {
    hide Trim, Endpoints, ParseIP, Skipped;
  }

  lemma OneMoreItem(item: Item, rest: seq<Item>, line: string, lines: seq<string>)
    requires Proper(item) && Write(item) == line && AllProper(rest) && Lines(rest) == lines
    ensures AllProper([item] + rest) && Lines([item] + rest) == [line] + lines
  {
    hide Proper, Write;
    assert ([item] + rest)[1..] == rest;
  }

  lemma {:induction false} ItemsOf(six: ColonParser, lines: seq<string>) returns (items: seq<Item>)
    requires LoadEnds(six, lines) && LoadedPool(six, lines).Ok?
    requires forall i :: 0 <= i < |lines| ==> '\n' !in lines[i] && ':' !in lines[i]
    ensures AllProper(items) && Lines(items) == lines
  {
    if lines == [] {
      items := [];
    } else {
      hide *;
      LoadedTail(six, lines);
      var item := ItemOf(six, lines[0]);
      var rest := ItemsOf(six, lines[1..]);
      items := [item] + rest;
      OneMoreItem(item, rest, lines[0], lines[1..]);
      assert lines == [lines[0]] + lines[1..];
    }
  }


  lemma {:induction false} EndsInItems(six: ColonParser, items: seq<Item>)
    requires AllProper(items) && LoadEnds(six, Lines(items)) && LoadedPool(six, Lines(items)).Ok?
    ensures RangesEnd(items)
  {
    if items != [] {
      var item, rest := items[0], items[1..];
      var lines := Lines(items);
      assert lines[0] == Write(item) && lines[1..] == Lines(rest);
      hide Write, Lines, Trim, Endpoints, ParseIP, Dotted, Value;
      match item {
        case SingleLine(l, a, r) => SingleRead(six, l, a, r);
        case RangeLine(l, a, m, m', b, r) => RangeRead(six, l, a, m, m', b, r);
        case _ => SkippedRead(item);
      }
      EndsInItems(six, rest);
    }
  }

  /** Lines without a colon are accepted exactly if each is a comment, a blank line, an address or
      a range, with white space around the parts. */
  lemma AcceptedExactly(six: ColonParser, lines: seq<string>)
    requires LoadEnds(six, lines) && forall i :: 0 <= i < |lines| ==> '\n' !in lines[i] && ':' !in lines[i]
    ensures LoadedPool(six, lines).Ok? <==> exists items :: AllProper(items) && RangesEnd(items) && Lines(items) == lines
  {
    if LoadedPool(six, lines).Ok? {
      var items := ItemsOf(six, lines);
      EndsInItems(six, items);
    }
    if items :| AllProper(items) && RangesEnd(items) && Lines(items) == lines {
      WrittenIsLoaded(six, items);
    }
  }

  // ---------- The text ----------

  lemma WrittenNoBreak(item: Item)
    requires Proper(item)
    ensures '\n' !in Write(item)
  {
    if item.RangeLine? { DottedPlain(item.a); DottedPlain(item.b); }
    if item.SingleLine? { DottedPlain(item.a); }
    hide Dotted;
  }

  lemma {:induction false} SplitLines(items: seq<Item>)
    requires items != [] && AllProper(items)
    ensures Split(Join(Lines(items), '\n'), '\n') == Lines(items)
  {
    var lines, rest := Lines(items), items[1..];
    WrittenNoBreak(items[0]);
    assert lines[0] == Write(items[0]) && lines[1..] == Lines(rest);
    hide Write, Lines, Split;
    if rest == [] {
      assert lines == [lines[0]];
      SplitWithout(lines[0], '\n');
    } else {
      SplitLines(rest);
      SplitAt(lines[0], '\n', Join(lines[1..], '\n'));
    }
  }

  /** Both readers return the addresses that are meant by a text, in order. */
  lemma BothReadWhatIsWritten(six: ColonParser, items: seq<Item>)
    requires items != [] && AllProper(items) && RangesEnd(items) && RangesUpwards(items)
    ensures var lines := Split(Join(Lines(items), '\n'), '\n');
            && LoadEnds(six, lines) && LoadedPool(six, lines) == Ok(AllMeant(items))
            && ParseEnds(six, lines) && ParsedPool(six, lines) == Ok(AllMeant(items))
  {
    SplitLines(items);
    WrittenIsLoaded(six, items);
    WrittenIsParsed(six, items);
  }

  lemma ShippedTexts()
    ensures Dotted([10, 1, 1, 200]) == "10.1.1.200" && Dotted([10, 1, 1, 219]) == "10.1.1.219"
  {
    NatToTextMeaning(1);
    NatToTextMeaning(2);
    NatToTextMeaning(10);
    NatToTextMeaning(20);
    NatToTextMeaning(200);
    NatToTextMeaning(21);
    NatToTextMeaning(219);
    assert NatToText(1) == "1" && NatToText(2) == "2";
    assert NatToText(10) == "1" + "0" == "10" && NatToText(20) == "2" + "0" == "20" && NatToText(21) == "2" + "1" == "21";
    assert NatToText(200) == "20" + "0" == "200" && NatToText(219) == "21" + "9" == "219";
  }

  function Shipped(): (items: seq<Item>)
    ensures |items| == 3
  {
    [CommentLine("", " IP Range"), RangeLine("", [10, 1, 1, 200], " ", " ", [10, 1, 1, 219], ""), BlankLine("")]
  }

  lemma LinesOfThree(x: Item, y: Item, z: Item)
    ensures Lines([x, y, z]) == [Write(x), Write(y), Write(z)]
    ensures Join(Lines([x, y, z]), '\n') == Write(x) + ['\n'] + (Write(y) + ['\n'] + Write(z))
    ensures AllMeant([x, y, z]) == Meant(x) + (Meant(y) + Meant(z))
  {
    hide Write, Meant;
    var items := [x, y, z];
    assert items[1..] == [y, z] && [y, z][1..] == [z] && [z][1..] == [];
    var lines := [Write(x), Write(y), Write(z)];
    assert lines[1..] == [Write(y), Write(z)] && [Write(y), Write(z)][1..] == [Write(z)];
    assert Lines([z]) == [Write(z)] + Lines([]);
    assert Lines([y, z]) == [Write(y)] + Lines([z]);
    assert Join([Write(z)], '\n') == Write(z);
    assert Join([Write(y), Write(z)], '\n') == Write(y) + ['\n'] + Join([Write(z)], '\n');
    assert AllMeant([]) == [] && Meant(z) + [] == Meant(z);
    assert AllMeant([z]) == Meant(z) + AllMeant([]);
    assert AllMeant([y, z]) == Meant(y) + AllMeant([z]);
  }

  lemma PlainRange(a: Address, b: Address)
    ensures Write(RangeLine("", a, " ", " ", b, "")) == Dotted(a) + " - " + Dotted(b)
  {
    hide Dotted;
  }

  lemma ShippedRange()
    ensures "10.1.1.200" + " - " + "10.1.1.219" == "10.1.1.200 - 10.1.1.219"
    ensures "" + "#" + " IP Range" == "# IP Range"
  {
  }

  lemma ShippedItems()
    ensures var items := Shipped();
            && items == [items[0], items[1], items[2]]
            && items[0] == CommentLine("", " IP Range") && items[2] == BlankLine("")
            && items[1] == RangeLine("", [10, 1, 1, 200], " ", " ", [10, 1, 1, 219], "")
  {
  }

  lemma ShippedLines()
    ensures var items := Shipped();
            Write(items[0]) == "# IP Range" && Write(items[1]) == "10.1.1.200 - 10.1.1.219" && Write(items[2]) == ""
  {
    ShippedTexts();
    ShippedItems();
    ShippedRange();
    PlainRange([10, 1, 1, 200], [10, 1, 1, 219]);
    hide Dotted, Shipped;
  }

  lemma ShippedText()
    ensures Join(Lines(Shipped()), '\n') == "# IP Range\n10.1.1.200 - 10.1.1.219\n"
  {
    hide *;
    ShippedLines();
    ShippedItems();
    LinesOfThree(Shipped()[0], Shipped()[1], Shipped()[2]);
    assert "# IP Range" + ['\n'] + ("10.1.1.200 - 10.1.1.219" + ['\n'] + "") == "# IP Range\n10.1.1.200 - 10.1.1.219\n";
  }

  lemma ShippedMeant()
    ensures var pool := AllMeant(Shipped());
            |pool| == 20 && pool[0] == "10.1.1.200" && pool[19] == "10.1.1.219"
  {
    ShippedTexts();
    var items := Shipped();
    LinesOfThree(items[0], items[1], items[2]);
    var a, b := items[1].a, items[1].b;
    assert Value(b) == Value(a) + 19;
    hide Dotted, AllMeant, Lines, Value, TextAt;
    SameText(a, Value(a));
    SameText(b, Value(b));
    assert [] + (Upto(a, b) + []) == Upto(a, b);
  }

  /** The pool that is shipped (config/ip-pool-config.yaml) has twenty addresses, in order. */
  lemma ShippedPool(six: ColonParser)
    ensures var lines := Split("# IP Range\n10.1.1.200 - 10.1.1.219\n", '\n');
            && LoadEnds(six, lines) && LoadedPool(six, lines).Ok?
            && var pool := LoadedPool(six, lines).value;
               |pool| == 20 && pool[0] == "10.1.1.200" && pool[19] == "10.1.1.219"
  {
    var items := Shipped();
    assert AllProper(items) && RangesEnd(items);
    hide *;
    ShippedText();
    ShippedMeant();
    SplitLines(items);
    WrittenIsLoaded(six, items);
  }
}
