/**
 VRID pairs (utils/vrid.go): the pair format, the search for an unused pair, and the text of
 VRID_allocations.conf with its printer and parser.
 */
module Vrid {
  import opened Text

  // ---------- The "a,b" format ----------

  function FormatPair(a: int, b: int): string { Itoa(a) + "," + Itoa(b) }

  function ParsePair(s: string): Option<(int, int)> {
    var p := Split(s, ',');
    if |p| != 2 then None
    else
      match (Atoi(p[0]), Atoi(p[1]))
      case (Some(a), Some(b)) => Some((a, b))
      case _ => None
  }

  lemma PairRoundTrip(a: int, b: int)
    requires MIN_INT <= a <= MAX_INT && MIN_INT <= b <= MAX_INT
    ensures ParsePair(FormatPair(a, b)) == Some((a, b))
  {
    AtoiItoa(a);
    AtoiItoa(b);
    SplitAt(Itoa(a), ',', Itoa(b));
    SplitWithout(Itoa(b), ',');
  }

  // ---------- findUnusedVRIDPair ----------

  const MAX_VRID := 255

  predicate FreePair(used: set<int>, i: int) { i !in used && i + 1 !in used }

  function FirstFreePair(used: set<int>, i: int): (int, int)
    decreases MAX_VRID - i
  {
    if i > MAX_VRID - 1 then (0, 0)
    else if FreePair(used, i) then (i, i + 1)
    else FirstFreePair(used, i + 2)
  }

  method FindUnusedVRIDPair(used: set<int>) returns (vrid1: int, vrid2: int)
    ensures (vrid1, vrid2) == FirstFreePair(used, 1)
  {
    var i := 1;
    while i <= MAX_VRID - 1
      invariant FirstFreePair(used, 1) == FirstFreePair(used, i)
      decreases MAX_VRID - i
    {
      if i !in used && i + 1 !in used {
        return i, i + 1;
      }
      i := i + 2;
    }
    return 0, 0;
  }

  predicate Aligned(i: int) { 1 <= i <= 253 && i % 2 == 1 }

  /** The smallest aligned pair that is free, or (0, 0) when there is none. */
  lemma {:induction false} FirstFreeMeaning(used: set<int>, i: int)
    requires 1 <= i && i % 2 == 1
    ensures var r := FirstFreePair(used, i);
            if r == (0, 0) then forall j :: i <= j && Aligned(j) ==> !FreePair(used, j)
            else i <= r.0 && Aligned(r.0) && r.1 == r.0 + 1 && FreePair(used, r.0)
                 && forall j :: i <= j < r.0 && Aligned(j) ==> !FreePair(used, j)
    decreases MAX_VRID - i
  {
    if i <= MAX_VRID - 1 && !FreePair(used, i) {
      FirstFreeMeaning(used, i + 2);
      forall j | i <= j && Aligned(j) ensures j == i || i + 2 <= j {}
    }
  }

  // ---------- The pairs in a file ----------

  /** The numbers taken by the entries of a file; entries that are no pair take none. */
  function UsedVRIDs(data: map<string, string>): set<int> {
    (set n | n in data && ParsePair(data[n]).Some? :: ParsePair(data[n]).value.0)
    + (set n | n in data && ParsePair(data[n]).Some? :: ParsePair(data[n]).value.1)
  }

  lemma UsedStep(data: map<string, string>, n: string, v: string)
    requires n !in data
    ensures UsedVRIDs(data[n := v])
            == match ParsePair(v) case Some(p) => UsedVRIDs(data) + {p.0} + {p.1} case None => UsedVRIDs(data)
  {
    var more := data[n := v];
    assert forall m :: m in more <==> m in data || m == n;
    assert forall m :: m in data ==> more[m] == data[m];
    forall x | x in UsedVRIDs(data) ensures x in UsedVRIDs(more) {
      var m :| m in data && ParsePair(data[m]).Some? && (ParsePair(data[m]).value.0 == x || ParsePair(data[m]).value.1 == x);
      assert m in more && more[m] == data[m];
    }
    if ParsePair(v).Some? {
      assert n in more && ParsePair(more[n]).Some?;
    }
  }

  method ParseAllocatedVRIDs(data: map<string, string>) returns (used: set<int>)
    ensures used == UsedVRIDs(data)
  {
    used := {};
    var left := data.Keys;
    while left != {}
      invariant left <= data.Keys
      invariant used == UsedVRIDs(data - left)
      decreases |left|
    {
      var n :| n in left;
      assert data - (left - {n}) == (data - left)[n := data[n]];
      UsedStep(data - left, n, data[n]);
      var vrids := ParsePair(data[n]);
      if vrids.Some? {
        used := used + {vrids.value.0} + {vrids.value.1};
      }
      left := left - {n};
    }
    assert data - {} == data;
  }

  function First(v: string): int {
    match ParsePair(v)
    case Some(p) => p.0
    case None => 0
  }

  /** Every entry is an aligned pair i,i+1 within 1..254, and no two entries share a number. */
  ghost predicate GoodData(data: map<string, string>) {
    && (forall n :: n in data ==> Aligned(First(data[n])) && data[n] == FormatPair(First(data[n]), First(data[n]) + 1))
    && (forall n, m :: n in data && m in data && n != m ==> First(data[n]) != First(data[m]))
  }

  lemma GoodEntry(data: map<string, string>, n: string)
    requires GoodData(data) && n in data
    ensures var i := First(data[n]); Aligned(i) && ParsePair(data[n]) == Some((i, i + 1))
  {
    PairRoundTrip(First(data[n]), First(data[n]) + 1);
  }

  lemma AlignedApart(i: int, j: int)
    requires Aligned(i) && Aligned(j) && i != j
    ensures i + 1 != j && j + 1 != i && i + 1 <= 254 && j + 1 <= 254
  {
  }

  /** Two clusters of a good file have no VRID in common, and all four are legal VRIDs
      (1..255, section 6.1 of RFC 5798). */
  lemma GoodDataDisjoint(data: map<string, string>, n: string, m: string)
    requires GoodData(data) && n in data && m in data && n != m
    ensures ParsePair(data[n]).Some? && ParsePair(data[m]).Some?
    ensures var p, q := ParsePair(data[n]).value, ParsePair(data[m]).value;
            && p.0 != p.1 && q.0 != q.1 && p.0 != q.0 && p.0 != q.1 && p.1 != q.0 && p.1 != q.1
            && 1 <= p.0 <= 254 && 1 <= p.1 <= 254 && 1 <= q.0 <= 254 && 1 <= q.1 <= 254
  {
    GoodEntry(data, n);
    GoodEntry(data, m);
    AlignedApart(First(data[n]), First(data[m]));
  }

  lemma GoodEntries(data: map<string, string>)
    requires GoodData(data)
    ensures forall n :: n in data ==>
              Aligned(First(data[n])) && ParsePair(data[n]) == Some((First(data[n]), First(data[n]) + 1))
  {
    hide ParsePair, GoodData, FormatPair, First;
    forall n | n in data
      ensures Aligned(First(data[n])) && ParsePair(data[n]) == Some((First(data[n]), First(data[n]) + 1))
    {
      GoodEntry(data, n);
    }
  }

  lemma UsedInGood(data: map<string, string>, i: int)
    requires GoodData(data) && Aligned(i)
    ensures !FreePair(UsedVRIDs(data), i) <==> exists n :: n in data && First(data[n]) == i
  {
    hide ParsePair, GoodData, FormatPair, First;
    GoodEntries(data);
    if !FreePair(UsedVRIDs(data), i) {
      var x :| x in UsedVRIDs(data) && (x == i || x == i + 1);
      var n :| n in data && (ParsePair(data[n]).value.0 == x || ParsePair(data[n]).value.1 == x);
      assert First(data[n]) == i;
    }
    if n :| n in data && First(data[n]) == i {
      assert ParsePair(data[n]).value.0 in UsedVRIDs(data);
    }
  }

  // ---------- Capacity, by pigeonhole ----------

  function FirstOf(data: map<string, string>): (f: map<string, int>)
    ensures f.Keys == data.Keys && forall n :: n in data ==> f[n] == First(data[n])
  {
    map n | n in data :: First(data[n])
  }

  lemma {:induction false} ImageSize(f: map<string, int>)
    requires forall n, m :: n in f && m in f && n != m ==> f[n] != f[m]
    ensures |f.Values| == |f|
    decreases |f|
  {
    if f == map[] {
      assert f.Values == {};
    } else {
      var n :| n in f;
      var rest := f - {n};
      ImageSize(rest);
      assert f.Values == rest.Values + {f[n]} by {
        forall x ensures x in f.Values <==> x in rest.Values + {f[n]} {
          if x in f.Values && x != f[n] {
            var m :| m in f && f[m] == x;
            assert m in rest;
          }
        }
      }
      assert f[n] !in rest.Values;
    }
  }

  ghost function AlignedBelow(k: nat): set<int> { set j | 0 <= j < k :: 2 * j + 1 }

  lemma {:induction false} AlignedBelowSize(k: nat)
    ensures |AlignedBelow(k)| == k
  {
    if k > 0 {
      AlignedBelowSize(k - 1);
      assert AlignedBelow(k) == AlignedBelow(k - 1) + {2 * (k - 1) + 1};
      assert 2 * (k - 1) + 1 !in AlignedBelow(k - 1);
    }
  }

  lemma SubsetSize(a: set<int>, b: set<int>)
    requires a <= b
    ensures |a| <= |b|
    ensures |a| == |b| ==> a == b
  {
    assert b == a + (b - a);
    assert |b| == |a| + |b - a|;
  }

  const CAPACITY := 127

  /** Exactly 127 clusters fit: the search fails iff that many are registered. */
  lemma ExactCapacity(data: map<string, string>)
    requires GoodData(data)
    ensures |data| <= CAPACITY
    ensures FirstFreePair(UsedVRIDs(data), 1) == (0, 0) <==> |data| == CAPACITY
  {
    var all := AlignedBelow(CAPACITY);
    AlignedBelowSize(CAPACITY);
    var firsts := FirstOf(data).Values;
    ImageSize(FirstOf(data));
    assert |FirstOf(data)| == |FirstOf(data).Keys| == |data.Keys| == |data|;
    forall x ensures x in all <==> Aligned(x) {
      if Aligned(x) { assert x == 2 * ((x - 1) / 2) + 1; }
    }
    assert firsts <= all;
    SubsetSize(firsts, all);
    FirstFreeMeaning(UsedVRIDs(data), 1);
    var r := FirstFreePair(UsedVRIDs(data), 1);
    if r == (0, 0) {
      forall x | x in all ensures x in firsts {
        UsedInGood(data, x);
        var n :| n in data && First(data[n]) == x;
        assert FirstOf(data)[n] == x;
      }
      SubsetSize(all, firsts);
    } else {
      UsedInGood(data, r.0);
      assert r.0 in all && r.0 !in firsts;
    }
  }

  lemma PairFound(used: set<int>)
    requires FirstFreePair(used, 1) != (0, 0)
    ensures var r := FirstFreePair(used, 1); Aligned(r.0) && r.1 == r.0 + 1 && FreePair(used, r.0)
  {
    FirstFreeMeaning(used, 1);
  }

  lemma AddPair(data: map<string, string>, name: string, i: int)
    requires GoodData(data) && name !in data && Aligned(i)
    requires forall n :: n in data ==> First(data[n]) != i
    ensures GoodData(data[name := FormatPair(i, i + 1)])
  {
    PairRoundTrip(i, i + 1);
    assert First(FormatPair(i, i + 1)) == i;
    hide First, FormatPair, ParsePair;
  }

  /** Adding the pair the search finds keeps the file good; no existing entry changes. */
  lemma ExtendGood(data: map<string, string>, name: string)
    requires GoodData(data) && name !in data
    requires FirstFreePair(UsedVRIDs(data), 1) != (0, 0)
    ensures var r := FirstFreePair(UsedVRIDs(data), 1);
            GoodData(data[name := FormatPair(r.0, r.1)]) && r.1 == r.0 + 1 && Aligned(r.0)
  {
    hide *;
    var i := FirstFreePair(UsedVRIDs(data), 1).0;
    PairFound(UsedVRIDs(data));
    UsedInGood(data, i);
    AddPair(data, name, i);
  }

  /** The pair the empty-file branch writes is the one the search would find. */
  lemma EmptyBranchAgrees()
    ensures UsedVRIDs(map[]) == {} && FirstFreePair({}, 1) == (1, 2)
  {
  }

  // ---------- The file: printing ----------

  function Line(name: string, v: string): string { name + ": " + v }

  /** The lines for the names in the given order, each ended by a newline. */
  function Print(order: seq<string>, data: map<string, string>): string
    requires forall n :: n in order ==> n in data
  {
    if order == [] then "" else Line(order[0], data[order[0]]) + "\n" + Print(order[1..], data)
  }

  /** An order in which Go may enumerate the map. */
  ghost predicate IsOrder(order: seq<string>, data: map<string, string>) {
    (forall i, j :: 0 <= i < j < |order| ==> order[i] != order[j]) && (forall n :: n in order <==> n in data)
  }

  lemma {:induction false} PrintAppend(order: seq<string>, n: string, data: map<string, string>)
    requires (forall m :: m in order ==> m in data) && n in data
    ensures forall m :: m in order + [n] ==> m in data
    ensures Print(order + [n], data) == Print(order, data) + Line(n, data[n]) + "\n"
  {
    if order == [] {
      assert [] + [n] == [n];
      assert Print([n], data) == Line(n, data[n]) + "\n" + Print([n][1..], data);
    } else {
      PrintAppend(order[1..], n, data);
      assert (order + [n])[1..] == order[1..] + [n];
    }
  }

  /** createVRIDFileContent, and the same loop in UpdateVRIDAllocationsFile. */
  method CreateVRIDFileContent(data: map<string, string>) returns (content: string, ghost order: seq<string>)
    ensures IsOrder(order, data) && content == Print(order, data)
  {
    content, order := "", [];
    var left := data.Keys;
    while left != {}
      invariant left <= data.Keys
      invariant forall i, j :: 0 <= i < j < |order| ==> order[i] != order[j]
      invariant forall n :: n in order <==> n in data.Keys - left
      invariant content == Print(order, data)
      decreases |left|
    {
      var n :| n in left;
      assert n !in order;
      PrintAppend(order, n, data);
      content := content + Line(n, data[n]) + "\n";
      order := order + [n];
      left := left - {n};
    }
  }

  // ---------- The file: parsing ----------

  function ParseLine(raw: string): Option<(string, string)> {
    var line := Trim(raw);
    if line == "" || line[0] == '#' then None
    else
      var parts := Split(line, ':');
      if |parts| == 2 then Some((Trim(parts[0]), Trim(parts[1]))) else None
  }

  /** Later lines overwrite earlier ones. */
  function ParseLines(lines: seq<string>): map<string, string> {
    if lines == [] then map[]
    else
      var data := ParseLines(lines[..|lines| - 1]);
      match ParseLine(lines[|lines| - 1])
      case Some(e) => data[e.0 := e.1]
      case None => data
  }

  function ParseContent(content: string): map<string, string> { ParseLines(Split(content, '\n')) }

  method ParseFile(content: string) returns (data: map<string, string>)
    ensures data == ParseContent(content)
  {
    data := map[];
    var lines := Split(content, '\n');
    for i := 0 to |lines|
      invariant data == ParseLines(lines[..i])
    {
      assert lines[..i + 1][..i] == lines[..i];
      var line := Trim(lines[i]);
      if line == "" || line[0] == '#' {
        continue;
      }
      var parts := Split(line, ':');
      if |parts| == 2 {
        data := data[Trim(parts[0]) := Trim(parts[1])];
      }
    }
    assert lines[..|lines|] == lines;
  }

  predicate ValueOk(v: string) { Trimmed(v) && ':' !in v && '\n' !in v }

  /** Names and values that survive the file format. */
  predicate NameOk(n: string) { ValueOk(n) && (n == "" || n[0] != '#') }

  /** Trimming a line only ever takes the blank after the colon, when the value is empty. */
  lemma LineTrims(n: string, v: string)
    requires ValueOk(n) && ValueOk(v)
    ensures Trim(Line(n, v)) == n + [':'] + if v == "" then "" else " " + v
  {
    var l := Line(n, v);
    assert l[0] == if n == "" then ':' else n[0];
    assert TrimLeft(l) == l;
    if v == "" {
      assert l == (n + [':']) + " ";
      assert l[..|l| - 1] == n + [':'];
      assert TrimRight(n + [':']) == n + [':'];
    } else {
      assert l[|l| - 1] == v[|v| - 1];
      assert l == n + [':'] + (" " + v);
    }
  }

  lemma LineParses(n: string, v: string)
    requires NameOk(n) && ValueOk(v)
    ensures ParseLine(Line(n, v)) == Some((n, v))
    ensures '\n' !in Line(n, v)
  {
    LineTrims(n, v);
    var tail := if v == "" then "" else " " + v;
    var t := n + [':'] + tail;
    assert t[0] == if n == "" then ':' else n[0];
    SplitAt(n, ':', tail);
    SplitWithout(tail, ':');
    TrimResult(n);
    TrimAfterSpace(v);
    assert Trim(tail) == v;
    hide Split, Trim, Trimmed;
  }

  /** A line with a colon too many is skipped, and so is everything on it. */
  lemma SecondColonDropsLine(n: string, v: string)
    requires ':' in n
    ensures ParseLine(Line(n, v)) == None
  {
    var l := Line(n, v);
    assert l == n + (": " + v);
    assert multiset(l) == multiset(n) + multiset(": " + v);
    assert multiset(n)[':'] >= 1 && multiset(": " + v)[':'] >= 1;
    TrimLeftKeeps(l, ':');
    TrimRightKeeps(TrimLeft(l), ':');
    SplitCount(Trim(l), ':');
  }

  lemma {:induction false} PrintedLines(order: seq<string>, data: map<string, string>)
    requires forall n :: n in order ==> n in data && '\n' !in Line(n, data[n])
    ensures var lines := Split(Print(order, data) + "\n", '\n');
            && |lines| == |order| + 2 && lines[|order|] == "" && lines[|order| + 1] == ""
            && forall i :: 0 <= i < |order| ==> lines[i] == Line(order[i], data[order[i]])
  {
    if order == [] {
      assert Split("\n", '\n') == ["", ""];
    } else {
      var l, rest := Line(order[0], data[order[0]]), Print(order[1..], data) + "\n";
      PrintedLines(order[1..], data);
      SplitAt(l, '\n', rest);
      assert Print(order, data) + "\n" == l + ['\n'] + rest;
    }
  }

  lemma BlankLinesIgnored(lines: seq<string>)
    ensures ParseLines(lines + ["", ""]) == ParseLines(lines)
  {
    assert ParseLine("") == None;
    assert (lines + ["", ""])[..|lines| + 1] == lines + [""];
    assert (lines + [""])[..|lines|] == lines;
  }

  lemma {:induction false} AllSkipped(lines: seq<string>)
    requires forall i :: 0 <= i < |lines| ==> ParseLine(lines[i]) == None
    ensures ParseLines(lines) == map[]
  {
    if lines != [] { AllSkipped(lines[..|lines| - 1]); }
  }

  function Listed(order: seq<string>, data: map<string, string>): map<string, string>
    requires forall i :: 0 <= i < |order| ==> order[i] in data
  {
    map n | n in order :: data[n]
  }

  lemma ListedStep(order: seq<string>, data: map<string, string>, k: nat)
    requires |order| == k + 1 && forall i :: 0 <= i < |order| ==> order[i] in data
    ensures Listed(order, data) == Listed(order[..k], data)[order[k] := data[order[k]]]
  {
    assert order == order[..k] + [order[k]];
  }

  lemma {:induction false} ParsePrinted(lines: seq<string>, order: seq<string>, data: map<string, string>)
    requires |lines| == |order| && forall i, j :: 0 <= i < j < |order| ==> order[i] != order[j]
    requires forall i :: 0 <= i < |order| ==> order[i] in data && lines[i] == Line(order[i], data[order[i]])
    requires forall n :: n in order ==> NameOk(n) && ValueOk(data[n])
    ensures ParseLines(lines) == Listed(order, data)
  {
    if order == [] {
      assert Listed(order, data) == map[];
    }
    hide ParseLine, Line, NameOk, ValueOk, Listed;
    if order != [] {
      var k := |order| - 1;
      assert forall n :: n in order[..k] ==> n in order;
      ParsePrinted(lines[..k], order[..k], data);
      LineParses(order[k], data[order[k]]);
      ListedStep(order, data, k);
    }
  }

  lemma ParsedLineOk(raw: string)
    requires '\n' !in raw && ParseLine(raw).Some?
    ensures NameOk(ParseLine(raw).value.0) && ValueOk(ParseLine(raw).value.1)
  {
    var line := Trim(raw);
    TrimResult(raw);
    SplitParts(line, ':');
    var p := Split(line, ':');
    assert p[0] in p && p[1] in p;
    TrimResult(p[0]);
    TrimResult(p[1]);
    JoinSplit(line, ':');
    assert Join(p, ':') == p[0] + [':'] + Join(p[1..], ':');
    if p[0] != "" {
      assert p[0][0] == line[0];
      assert TrimLeft(p[0]) == p[0];
      TrimRightPrefix(p[0]);
    }
  }

  lemma {:induction false} ParsedEntriesOk(lines: seq<string>)
    requires forall i :: 0 <= i < |lines| ==> '\n' !in lines[i]
    ensures forall n :: n in ParseLines(lines) ==> NameOk(n) && ValueOk(ParseLines(lines)[n])
  {
    if lines != [] {
      ParsedEntriesOk(lines[..|lines| - 1]);
      var raw := lines[|lines| - 1];
      if ParseLine(raw).Some? { ParsedLineOk(raw); }
    }
  }

  lemma FileRoundTrip(order: seq<string>, data: map<string, string>)
    requires IsOrder(order, data) && forall n :: n in data ==> NameOk(n) && ValueOk(data[n])
    ensures ParseContent(Print(order, data) + "\n") == data
  {
    hide Print, Split, ParseLine, ParseLines, Line, NameOk, ValueOk;
    forall n | n in order ensures '\n' !in Line(n, data[n]) { LineParses(n, data[n]); }
    PrintedLines(order, data);
    var lines, k := Split(Print(order, data) + "\n", '\n'), |order|;
    ParsePrinted(lines[..k], order, data);
    assert lines == lines[..k] + ["", ""];
    BlankLinesIgnored(lines[..k]);
    assert Listed(order, data) == data;
  }

  /** Printing in any order, letting echo add its newline, and parsing gives the map back exactly
      when every name and value is one the format can carry. */
  lemma FileRoundTripExactly(order: seq<string>, data: map<string, string>)
    requires IsOrder(order, data)
    ensures ParseContent(Print(order, data) + "\n") == data
            <==> forall n :: n in data ==> NameOk(n) && ValueOk(data[n])
  {
    var content := Print(order, data) + "\n";
    SplitParts(content, '\n');
    ParsedEntriesOk(Split(content, '\n'));
    if forall n :: n in data ==> NameOk(n) && ValueOk(data[n]) {
      FileRoundTrip(order, data);
    }
  }

  lemma PairTextOk(a: int, b: int)
    requires MIN_INT <= a <= MAX_INT && MIN_INT <= b <= MAX_INT
    ensures ValueOk(FormatPair(a, b)) && FormatPair(a, b) != ""
  {
    AtoiItoa(a);
    AtoiItoa(b);
    var v := FormatPair(a, b);
    forall c | c in v ensures !IsSpace(c) && c != ':' && c != '\n' {
      assert c in Itoa(a) || c in Itoa(b) || c == ',';
    }
    assert v[0] in v && v[|v| - 1] in v;
  }

  /** The pair as it stands in the file: both numbers in decimal, a comma between them. */
  lemma PairText(a: int, b: int)
    requires MIN_INT <= a <= MAX_INT && MIN_INT <= b <= MAX_INT
    ensures Split(FormatPair(a, b), ',') == [Itoa(a), Itoa(b)]
    ensures FormatPair(1, 2) == "1,2"
  {
    AtoiItoa(a);
    AtoiItoa(b);
    SplitAt(Itoa(a), ',', Itoa(b));
    SplitWithout(Itoa(b), ',');
  }

  /** The line of a cluster: its name, a colon, and the pair after a blank. */
  lemma LineText(n: string, v: string)
    requires ':' !in n && ':' !in v
    ensures Split(Line(n, v), ':') == [n, " " + v]
  {
    SplitAt(n, ':', " " + v);
    SplitWithout(" " + v, ':');
    assert Line(n, v) == n + [':'] + (" " + v);
  }

  /** Every name of letters, digits and '-', '_' and '.' is one the file carries. */
  lemma PlainNameOk(n: string)
    requires forall c :: c in n ==> 'a' <= c <= 'z' || 'A' <= c <= 'Z' || '0' <= c <= '9' || c in "-_."
    ensures NameOk(n)
  {
    if n != "" { assert n[0] in n && n[|n| - 1] in n; }
  }
}
