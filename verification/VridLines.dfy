/**
 What the parser makes of the line written for a cluster, whatever the cluster's name: the lines of
 VRID_allocations.conf are read one after the other, and a name may bring in lines of its own.
 */
module VridLines {
  import opened Text
  import opened Vrid

  // ---------- Texts put together ----------

  /** One character more in front of the parts. */
  function Attach(x: char, c: char, parts: seq<string>): (r: seq<string>)
    requires |parts| >= 1
    ensures |r| >= 1
  {
    if x == c then [""] + parts else [[x] + parts[0]] + parts[1..]
  }

  lemma SplitStep(s: string, c: char)
    requires s != ""
    ensures Split(s, c) == Attach(s[0], c, Split(s[1..], c))
  {
  }

  lemma AttachAppend(x: char, c: char, p: seq<string>, q: seq<string>)
    requires |p| >= 1
    ensures Attach(x, c, p + q) == Attach(x, c, p) + q
  {
    if x != c { assert (p + q)[1..] == p[1..] + q; }
  }

  /** The text goes to the last part. */
  function ToLast(p: seq<string>, b: string): (r: seq<string>)
    requires |p| >= 1
    ensures |r| >= 1
  {
    p[..|p| - 1] + [p[|p| - 1] + b]
  }

  lemma AttachToLast(x: char, c: char, p: seq<string>, b: string)
    requires |p| >= 1
    ensures Attach(x, c, ToLast(p, b)) == ToLast(Attach(x, c, p), b)
  {
    if |p| == 1 {
      assert [x] + (p[0] + b) == [x] + p[0] + b;
    }
  }

  lemma {:induction false} SplitAppend(a: string, c: char, b: string)
    ensures Split(a + [c] + b, c) == Split(a, c) + Split(b, c)
  {
    var s := a + [c] + b;
    SplitStep(s, c);
    if a == "" {
      assert s[1..] == b;
    } else {
      hide Split, Attach;
      SplitStep(a, c);
      SplitAppend(a[1..], c, b);
      assert s[1..] == a[1..] + [c] + b;
      AttachAppend(a[0], c, Split(a[1..], c), Split(b, c));
    }
  }

  lemma {:induction false} SplitSuffix(a: string, c: char, b: string)
    requires c !in b
    ensures Split(a + b, c) == ToLast(Split(a, c), b)
  {
    if a == "" {
      SplitWithout(b, c);
      assert a + b == b;
    } else {
      hide Split, Attach, ToLast;
      SplitStep(a, c);
      SplitStep(a + b, c);
      SplitSuffix(a[1..], c, b);
      assert (a + b)[1..] == a[1..] + b;
      AttachToLast(a[0], c, Split(a[1..], c), b);
    }
  }

  function Overlay(data: map<string, string>, e: Option<(string, string)>): map<string, string> {
    match e
    case Some(e) => data[e.0 := e.1]
    case None => data
  }

  lemma ParseLinesStep(lines: seq<string>, l: string)
    ensures ParseLines(lines + [l]) == Overlay(ParseLines(lines), ParseLine(l))
  {
    assert (lines + [l])[..|lines|] == lines;
    hide ParseLine;
  }

  lemma OverlayMerge(a: map<string, string>, b: map<string, string>, e: Option<(string, string)>)
    ensures Overlay(a + b, e) == a + Overlay(b, e)
  {
  }

  lemma {:induction false} ParseLinesAppend(xs: seq<string>, ys: seq<string>)
    ensures ParseLines(xs + ys) == ParseLines(xs) + ParseLines(ys)
    decreases |ys|
  {
    if ys == [] {
      assert xs + ys == xs;
    } else {
      hide ParseLines, ParseLine, Overlay;
      var k := |ys| - 1;
      ParseLinesAppend(xs, ys[..k]);
      assert ys == ys[..k] + [ys[k]] && xs + ys == (xs + ys[..k]) + [ys[k]];
      ParseLinesStep(xs + ys[..k], ys[k]);
      ParseLinesStep(ys[..k], ys[k]);
      OverlayMerge(ParseLines(xs), ParseLines(ys[..k]), ParseLine(ys[k]));
    }
  }

  lemma ParseContentAppend(a: string, b: string)
    ensures ParseContent(a + "\n" + b) == ParseContent(a) + ParseContent(b)
  {
    SplitAppend(a, '\n', b);
    ParseLinesAppend(Split(a, '\n'), Split(b, '\n'));
    hide Split, ParseLines;
    assert a + "\n" + b == a + ['\n'] + b;
  }

  // ---------- One line ----------

  /** The last line of a name gives an entry: it has no colon and does not read as a comment. */
  predicate LineRead(q: string) { ':' !in q && (TrimLeft(q) == "" || TrimLeft(q)[0] != '#') }

  lemma {:induction false} TrimLeftAppend(q: string, rest: string)
    requires rest != "" && !IsSpace(rest[0])
    ensures TrimLeft(q + rest) == TrimLeft(q) + rest
  {
    if q == "" {
      assert q + rest == rest;
    } else if IsSpace(q[0]) {
      TrimLeftAppend(q[1..], rest);
      assert (q + rest)[1..] == q[1..] + rest;
    }
  }

  lemma TrimRightStays(s: string)
    requires s != "" && !IsSpace(s[|s| - 1])
    ensures TrimRight(s) == s
  {
  }

  lemma LineEnds(a: string, v: string)
    requires ValueOk(v) && v != ""
    ensures var l := a + (": " + v); l != "" && !IsSpace(l[|l| - 1]) && l == a + [':'] + (" " + v)
  {
    var l := a + (": " + v);
    assert l[|l| - 1] == v[|v| - 1];
  }

  lemma LineIs(q: string, v: string)
    ensures Line(q, v) == q + (": " + v) && !IsSpace((": " + v)[0])
  {
  }

  lemma TrimIs(s: string)
    ensures Trim(s) == TrimRight(TrimLeft(s))
  {
  }

  lemma TrimLine(q: string, v: string)
    requires ValueOk(v) && v != ""
    ensures Trim(Line(q, v)) == TrimLeft(q) + [':'] + (" " + v)
  {
    hide *;
    LineIs(q, v);
    TrimIs(Line(q, v));
    TrimLeftAppend(q, ": " + v);
    LineEnds(TrimLeft(q), v);
    TrimRightStays(TrimLeft(q) + (": " + v));
  }

  lemma TrimTwice(q: string)
    ensures Trim(TrimLeft(q)) == Trim(q)
  {
    TrimLeftSuffix(q);
    assert TrimLeft(TrimLeft(q)) == TrimLeft(q);
  }

  /** The line written for a name without line breaks, with a value: an entry for the trimmed name,
      or nothing. */
  lemma LineParsesExactly(q: string, v: string)
    requires ValueOk(v) && v != ""
    ensures ParseLine(Line(q, v)) == if LineRead(q) then Some((Trim(q), v)) else None
  {
    if ':' in q {
      SecondColonDropsLine(q, v);
    } else {
      TrimLine(q, v);
      TrimLeftSuffix(q);
      var q' := TrimLeft(q);
      assert ':' !in q';
      var line := q' + [':'] + (" " + v);
      assert line[0] == if q' == "" then ':' else q'[0];
      SplitAt(q', ':', " " + v);
      SplitWithout(" " + v, ':');
      TrimTwice(q);
      TrimAfterSpace(v);
      hide Split, Trim, TrimLeft, Trimmed, Line;
    }
  }

  // ---------- Any name ----------

  /** What is read from the line written for a cluster. */
  function Entries(n: string, v: string): map<string, string> { ParseContent(Line(n, v)) }

  function LastLine(n: string): string { Split(n, '\n')[|Split(n, '\n')| - 1] }

  /** The entries that a name with line breaks brings in by itself. */
  function OwnEntries(n: string): map<string, string> { ParseLines(Split(n, '\n')[..|Split(n, '\n')| - 1]) }

  /** Those, and then possibly one with the value. */
  lemma EntriesExactly(n: string, v: string)
    requires ValueOk(v) && v != ""
    ensures Entries(n, v) == if LineRead(LastLine(n)) then OwnEntries(n)[Trim(LastLine(n)) := v] else OwnEntries(n)
  {
    var p := Split(n, '\n');
    var k := |p| - 1;
    assert Line(n, v) == n + (": " + v);
    SplitSuffix(n, '\n', ": " + v);
    assert p[k] + (": " + v) == Line(p[k], v);
    LineParsesExactly(p[k], v);
    ParseLinesStep(p[..k], Line(p[k], v));
    hide Split, ParseLine, ParseLines, Trim, Line, LineRead;
  }

  /** A name the file can carry gives its own entry and no other. */
  lemma CarriedEntries(n: string, v: string)
    requires NameOk(n) && ValueOk(v)
    ensures Entries(n, v) == map[n := v]
  {
    LineParses(n, v);
    SplitWithout(Line(n, v), '\n');
    ParseLinesStep([], Line(n, v));
    assert [] + [Line(n, v)] == [Line(n, v)];
    hide ParseLine, Line;
  }

  /** The name leaves other clusters alone: the file carries it, or drops all of its line. Any
      value tells: the entries differ in the value only. */
  predicate Harmless(n: string) { NameOk(n) || Entries(n, FormatPair(1, 2)) == map[] }

  lemma EntriesOfHarmless(n: string, v: string)
    requires ValueOk(v) && v != ""
    ensures Harmless(n) ==> Entries(n, v) == if NameOk(n) then map[n := v] else map[]
    ensures Entries(n, v).Keys == Entries(n, FormatPair(1, 2)).Keys
  {
    PairTextOk(1, 2);
    assert FormatPair(1, 2) != "";
    EntriesExactly(n, v);
    EntriesExactly(n, FormatPair(1, 2));
    if NameOk(n) { CarriedEntries(n, v); }
    hide Entries, OwnEntries, LastLine, LineRead, Trim, FormatPair, ValueOk, NameOk;
  }

  // ---------- The whole file ----------

  /** What is read from a printed map: the entries of its lines, later ones winning. */
  function ReadBack(order: seq<string>, data: map<string, string>): map<string, string>
    requires forall n :: n in order ==> n in data
  {
    if order == [] then map[] else Entries(order[0], data[order[0]]) + ReadBack(order[1..], data)
  }

  lemma NothingRead()
    ensures ParseContent("\n") == map[]
  {
    assert Split("\n", '\n') == ["", ""];
    assert ParseLine("") == None;
    assert ["", ""][..1] == [""] && [""][..0] == [];
    hide ParseLine;
  }

  lemma {:induction false} PrintedIsReadBack(order: seq<string>, data: map<string, string>)
    requires forall n :: n in order ==> n in data
    ensures ParseContent(Print(order, data) + "\n") == ReadBack(order, data)
  {
    if order == [] {
      NothingRead();
      assert Print(order, data) + "\n" == "\n";
    } else {
      var l, rest := Line(order[0], data[order[0]]), Print(order[1..], data) + "\n";
      assert Print(order, data) + "\n" == l + "\n" + rest;
      ParseContentAppend(l, rest);
      PrintedIsReadBack(order[1..], data);
      hide ParseContent, Print, Line;
    }
  }

  lemma MergeAssociates(a: map<string, string>, b: map<string, string>, c: map<string, string>)
    ensures (a + b) + c == a + (b + c)
  {
  }

  lemma {:induction false} ReadBackAppend(order: seq<string>, n: string, data: map<string, string>)
    requires (forall m :: m in order ==> m in data) && n in data
    ensures forall m :: m in order + [n] ==> m in data
    ensures ReadBack(order + [n], data) == ReadBack(order, data) + Entries(n, data[n])
  {
    hide Entries;
    if order == [] {
      assert [] + [n] == [n];
      assert ReadBack([n], data) == Entries(n, data[n]) + ReadBack([n][1..], data);
    } else {
      ReadBackAppend(order[1..], n, data);
      assert (order + [n])[1..] == order[1..] + [n];
      MergeAssociates(Entries(order[0], data[order[0]]), ReadBack(order[1..], data), Entries(n, data[n]));
    }
  }

  /** Every entry read is one of some line, and every line's entries are there in some form. */
  lemma {:induction false} ReadBackEntries(order: seq<string>, data: map<string, string>, x: string)
    requires forall n :: n in order ==> n in data
    ensures x in ReadBack(order, data) ==>
              exists n :: n in order && x in Entries(n, data[n]) && Entries(n, data[n])[x] == ReadBack(order, data)[x]
    ensures forall n :: n in order && x in Entries(n, data[n]) ==> x in ReadBack(order, data)
  {
    hide Entries;
    if order != [] {
      ReadBackEntries(order[1..], data, x);
      assert order[0] in order && forall n :: n in order <==> n == order[0] || n in order[1..];
      if x in ReadBack(order, data) && x in ReadBack(order[1..], data) {
        var n :| n in order[1..] && x in Entries(n, data[n]) && Entries(n, data[n])[x] == ReadBack(order[1..], data)[x];
        assert n in order;
      }
    }
  }

  /** An entry as it was before, or as e has it. */
  predicate MixedAt(before: map<string, string>, e: map<string, string>, after: map<string, string>, x: string) {
    && (x in after <==> x in before || x in e)
    && (x in after ==> (x in before && after[x] == before[x]) || (x in e && after[x] == e[x]))
  }

  /** Each old entry as it was or as e has it, the entries of e, and nothing else. */
  ghost predicate Mixed(before: map<string, string>, e: map<string, string>, after: map<string, string>) {
    forall x :: MixedAt(before, e, after, x)
  }

  lemma AddedReadBackAt(order: seq<string>, data: map<string, string>, n: string, v: string, x: string)
    requires n !in data && ValueOk(v) && forall m :: m in data ==> NameOk(m) && ValueOk(data[m])
    requires IsOrder(order, data[n := v])
    ensures MixedAt(data, Entries(n, v), ReadBack(order, data[n := v]), x)
  {
    var more := data[n := v];
    forall m | m in data ensures Entries(m, more[m]) == map[m := data[m]] { CarriedEntries(m, data[m]); }
    ReadBackEntries(order, more, x);
    hide Entries, ReadBack, NameOk, ValueOk;
    if x in data { assert x in order && x in Entries(x, more[x]); }
    if x in Entries(n, v) { assert n in order && more[n] == v; }
  }

  /** What is read from a file with carried entries to which one for any name is added. */
  lemma AddedReadBack(order: seq<string>, data: map<string, string>, n: string, v: string)
    requires n !in data && ValueOk(v) && forall m :: m in data ==> NameOk(m) && ValueOk(data[m])
    requires IsOrder(order, data[n := v])
    ensures Mixed(data, Entries(n, v), ReadBack(order, data[n := v]))
  {
    hide MixedAt, Entries, ReadBack, NameOk, ValueOk;
    var e, after := Entries(n, v), ReadBack(order, data[n := v]);
    forall x ensures MixedAt(data, e, after, x) {
      AddedReadBackAt(order, data, n, v, x);
    }
  }

  lemma MixedOne(before: map<string, string>, c: string, v: string, after: map<string, string>)
    requires Mixed(before, map[c := v], after) && c !in before
    ensures after == before[c := v]
  {
    forall x ensures x in after <==> x in before[c := v] { assert MixedAt(before, map[c := v], after, x); }
    forall x | x in after ensures after[x] == before[c := v][x] { assert MixedAt(before, map[c := v], after, x); }
  }

  lemma MixedNone(before: map<string, string>, after: map<string, string>)
    requires Mixed(before, map[], after)
    ensures after == before
  {
    forall x ensures x in after <==> x in before { assert MixedAt(before, map[], after, x); }
    forall x | x in after ensures after[x] == before[x] { assert MixedAt(before, map[], after, x); }
  }

  lemma {:induction false} SameReadBack(order: seq<string>, data: map<string, string>, more: map<string, string>)
    requires forall n :: n in order ==> n in data && n in more && more[n] == data[n]
    ensures ReadBack(order, more) == ReadBack(order, data)
  {
    hide Entries;
    if order != [] { SameReadBack(order[1..], data, more); }
  }

  lemma LastInOrder(order: seq<string>, data: map<string, string>, n: string, v: string)
    requires n !in data && IsOrder(order, data)
    ensures IsOrder(order + [n], data[n := v])
  {
  }

  /** When the new line comes last, its entries win. */
  lemma AddedLast(order: seq<string>, data: map<string, string>, n: string, v: string)
    requires n !in data && ValueOk(v) && forall m :: m in data ==> NameOk(m) && ValueOk(data[m])
    requires IsOrder(order, data)
    ensures IsOrder(order + [n], data[n := v])
    ensures ReadBack(order + [n], data[n := v]) == data + Entries(n, v)
  {
    var more := data[n := v];
    LastInOrder(order, data, n, v);
    assert forall m :: m in order ==> m in data && m in more && more[m] == data[m];
    hide *;
    ReadBackAppend(order, n, more);
    SameReadBack(order, data, more);
    PrintedIsReadBack(order, data);
    FileRoundTrip(order, data);
  }
}
