/** The string primitives the operator leans on: splitting, trimming and decimal numbers. */
module Text {

  datatype Option<+T> = None | Some(value: T)

  // ---------- strings.Split with a one-character separator ----------

  function Split(s: string, c: char): (parts: seq<string>)
    ensures |parts| >= 1
  {
    if s == "" then [""]
    else
      var rest := Split(s[1..], c);
      if s[0] == c then [""] + rest else [[s[0]] + rest[0]] + rest[1..]
  }

  function Join(parts: seq<string>, c: char): string
    requires |parts| >= 1
  {
    if |parts| == 1 then parts[0] else parts[0] + [c] + Join(parts[1..], c)
  }

  /** Splitting loses nothing: joining the parts again gives the text back. */
  lemma {:induction false} JoinSplit(s: string, c: char)
    ensures Join(Split(s, c), c) == s
  {
    if s == "" {
    } else {
      JoinSplit(s[1..], c);
      var rest := Split(s[1..], c);
      if s[0] == c {
        assert ([""] + rest)[1..] == rest;
      } else {
        assert ([[s[0]] + rest[0]] + rest[1..])[1..] == rest[1..];
      }
    }
  }

  /** No part contains the separator, and parts bring in no new characters. */
  lemma {:induction false} SplitParts(s: string, c: char)
    ensures forall p :: p in Split(s, c) ==> c !in p && forall x :: x in p ==> x in s
  {
    if s != "" {
      SplitParts(s[1..], c);
      var rest := Split(s[1..], c);
      assert forall x :: x in s[1..] ==> x in s;
      assert forall p :: p in rest[1..] ==> p in rest;
      assert rest[0] in rest;
    }
  }

  lemma {:induction false} SplitWithout(s: string, c: char)
    requires c !in s
    ensures Split(s, c) == [s]
  {
    if s != "" {
      SplitWithout(s[1..], c);
      assert [s[0]] + s[1..] == s;
    }
  }

  lemma {:induction false} SplitAt(a: string, c: char, b: string)
    requires c !in a
    ensures Split(a + [c] + b, c) == [a] + Split(b, c)
  {
    if a == "" {
      assert (a + [c] + b)[1..] == b;
    } else {
      SplitAt(a[1..], c, b);
      assert (a + [c] + b)[1..] == a[1..] + [c] + b;
      assert [a[0]] + a[1..] == a;
    }
  }

  /** One more part than there are separators. */
  lemma {:induction false} SplitCount(s: string, c: char)
    ensures |Split(s, c)| == 1 + multiset(s)[c]
  {
    if s != "" {
      SplitCount(s[1..], c);
      assert s == [s[0]] + s[1..];
    }
  }

  // ---------- strings.TrimSpace ----------

  predicate IsSpace(c: char) {
    || c == ' ' || '\t' <= c <= '\r' || c == '\U{0085}' || c == '\U{00A0}'
    || c == '\U{1680}' || '\U{2000}' <= c <= '\U{200a}' || c == '\U{2028}' || c == '\U{2029}'
    || c == '\U{202f}' || c == '\U{205f}' || c == '\U{3000}'
  }

  function TrimLeft(s: string): string {
    if s != "" && IsSpace(s[0]) then TrimLeft(s[1..]) else s
  }

  function TrimRight(s: string): string {
    if s != "" && IsSpace(s[|s| - 1]) then TrimRight(s[..|s| - 1]) else s
  }

  function Trim(s: string): string { TrimRight(TrimLeft(s)) }

  /** Neither end of the text is white space. */
  predicate Trimmed(s: string) {
    s == "" || (!IsSpace(s[0]) && !IsSpace(s[|s| - 1]))
  }

  lemma {:induction false} TrimLeftSuffix(s: string)
    ensures |TrimLeft(s)| <= |s| && TrimLeft(s) == s[|s| - |TrimLeft(s)|..]
    ensures TrimLeft(s) == "" || !IsSpace(TrimLeft(s)[0])
  {
    if s != "" && IsSpace(s[0]) { TrimLeftSuffix(s[1..]); }
  }

  lemma {:induction false} TrimRightPrefix(s: string)
    ensures TrimRight(s) <= s
    ensures TrimRight(s) == "" || !IsSpace(TrimRight(s)[|TrimRight(s)| - 1])
  {
    if s != "" && IsSpace(s[|s| - 1]) { TrimRightPrefix(s[..|s| - 1]); }
  }

  /** The result is trimmed, brings in no new characters, and trimmed text is left alone. */
  lemma TrimResult(s: string)
    ensures Trimmed(Trim(s))
    ensures forall x :: x in Trim(s) ==> x in s
    ensures Trimmed(s) ==> Trim(s) == s
  {
    TrimLeftSuffix(s);
    TrimRightPrefix(TrimLeft(s));
    assert forall x :: x in TrimLeft(s) ==> x in s;
    if Trim(s) != "" {
      assert Trim(s)[0] == TrimLeft(s)[0];
    }
  }

  lemma {:induction false} TrimLeftKeeps(s: string, c: char)
    requires !IsSpace(c)
    ensures multiset(TrimLeft(s))[c] == multiset(s)[c]
  {
    if s != "" && IsSpace(s[0]) {
      TrimLeftKeeps(s[1..], c);
      assert s == [s[0]] + s[1..];
    }
  }

  lemma {:induction false} TrimRightKeeps(s: string, c: char)
    requires !IsSpace(c)
    ensures multiset(TrimRight(s))[c] == multiset(s)[c]
  {
    if s != "" && IsSpace(s[|s| - 1]) {
      TrimRightKeeps(s[..|s| - 1], c);
      assert s == s[..|s| - 1] + [s[|s| - 1]];
    }
  }

  lemma TrimAfterSpace(s: string)
    requires Trimmed(s)
    ensures Trim(" " + s) == s
  {
    assert (" " + s)[1..] == s;
    TrimResult(s);
    assert TrimLeft(" " + s) == TrimLeft(s);
  }

  predicate Blank(s: string) { forall c :: c in s ==> IsSpace(c) }

  /** Blanks, tabs and line ends are white space; no visible ASCII character is. */
  lemma SpaceMeaning(c: char)
    ensures c in " \t\r\n" ==> IsSpace(c)
    ensures '!' <= c <= '~' ==> !IsSpace(c)
  {
  }

  lemma {:induction false} TrimLeftBlank(l: string, s: string)
    requires Blank(l) && (s == "" || !IsSpace(s[0]))
    ensures TrimLeft(l + s) == s
  {
    if l == "" {
      assert l + s == s;
    } else {
      assert l[0] in l && forall c :: c in l[1..] ==> c in l;
      TrimLeftBlank(l[1..], s);
      assert (l + s)[1..] == l[1..] + s;
    }
  }

  lemma {:induction false} TrimRightBlank(s: string, r: string)
    requires Blank(r) && (s == "" || !IsSpace(s[|s| - 1]))
    ensures TrimRight(s + r) == s
  {
    if r == "" {
      assert s + r == s;
    } else {
      var k := |r| - 1;
      assert r[k] in r && forall c :: c in r[..k] ==> c in r;
      TrimRightBlank(s, r[..k]);
      assert (s + r)[..|s + r| - 1] == s + r[..k];
    }
  }

  /** White space around a text is trimmed away, and nothing else. */
  lemma TrimBetween(l: string, s: string, r: string)
    requires Blank(l) && Blank(r) && Trimmed(s)
    ensures Trim(l + s + r) == s
  {
    if s == "" {
      assert forall c :: c in l + r ==> c in l || c in r;
      TrimLeftBlank(l + r, "");
      assert l + s + r == (l + r) + "";
    } else {
      TrimLeftBlank(l, s + r);
      assert l + s + r == l + (s + r);
      TrimRightBlank(s, r);
    }
  }

  lemma {:induction false} TrimLeftParts(s: string) returns (l: string)
    ensures Blank(l) && s == l + TrimLeft(s)
  {
    if s != "" && IsSpace(s[0]) {
      var rest := TrimLeftParts(s[1..]);
      l := [s[0]] + rest;
    } else {
      l := "";
    }
  }

  lemma {:induction false} TrimRightParts(s: string) returns (r: string)
    ensures Blank(r) && s == TrimRight(s) + r
  {
    if s != "" && IsSpace(s[|s| - 1]) {
      var rest := TrimRightParts(s[..|s| - 1]);
      r := rest + [s[|s| - 1]];
    } else {
      r := "";
    }
  }

  /** Every text is its trimmed form with white space around it. */
  lemma TrimParts(s: string) returns (l: string, r: string)
    ensures Blank(l) && Blank(r) && s == l + Trim(s) + r
  {
    l := TrimLeftParts(s);
    r := TrimRightParts(TrimLeft(s));
  }

  // ---------- strconv.Itoa, the %d verb and strconv.Atoi ----------

  function DigitChar(d: nat): char
    requires d < 10
  {
    '0' + d as char
  }

  predicate IsDigit(c: char) { '0' <= c <= '9' }

  function DigitValue(c: char): nat
    requires IsDigit(c)
  {
    c as int - '0' as int
  }

  predicate AllDigits(s: string) { forall i :: 0 <= i < |s| ==> IsDigit(s[i]) }

  function NatToText(n: nat): string {
    if n < 10 then [DigitChar(n)] else NatToText(n / 10) + [DigitChar(n % 10)]
  }

  function DigitsValue(s: string): nat
    requires AllDigits(s)
  {
    if s == "" then 0 else 10 * DigitsValue(s[..|s| - 1]) + DigitValue(s[|s| - 1])
  }

  /** Digits with no superfluous leading zero. */
  predicate Canonical(s: string) {
    s != "" && AllDigits(s) && (|s| == 1 || s[0] != '0')
  }

  lemma {:induction false} NatToTextRoundTrip(n: nat)
    ensures Canonical(NatToText(n)) && DigitsValue(NatToText(n)) == n
    ensures n > 0 ==> NatToText(n)[0] != '0'
    ensures n < 10 ==> |NatToText(n)| == 1
  {
    if n >= 10 {
      NatToTextRoundTrip(n / 10);
      var t := NatToText(n);
      assert t[..|t| - 1] == NatToText(n / 10);
    } else {
      assert [DigitChar(n)][..0] == "";
    }
  }

  lemma AppendDigit(v: nat, c: char)
    requires IsDigit(c) && v > 0
    ensures NatToText(10 * v + DigitValue(c)) == NatToText(v) + [c]
  {
  }

  lemma {:induction false} CanonicalIsPrinted(s: string)
    requires Canonical(s)
    ensures NatToText(DigitsValue(s)) == s
    ensures s[0] != '0' ==> DigitsValue(s) > 0
  {
    if |s| > 1 {
      var front, last := s[..|s| - 1], s[|s| - 1];
      assert front[0] == s[0] && AllDigits(front);
      CanonicalIsPrinted(front);
      AppendDigit(DigitsValue(front), last);
      assert s == front + [last];
    } else {
      assert s[..0] == "";
      assert DigitsValue(s) == DigitValue(s[0]);
      assert DigitChar(DigitValue(s[0])) == s[0];
    }
  }

  function Itoa(n: int): string {
    if n < 0 then "-" + NatToText(-n) else NatToText(n)
  }

  const MIN_INT := -0x8000_0000_0000_0000
  const MAX_INT := 0x7fff_ffff_ffff_ffff

  /** strconv.Atoi on a 64-bit platform: optional sign, at least one digit, no overflow. */
  function Atoi(s: string): Option<int> {
    var signed := s != "" && (s[0] == '-' || s[0] == '+');
    var digits := if signed then s[1..] else s;
    if digits == "" || !AllDigits(digits) then None
    else
      var magnitude: int := DigitsValue(digits);
      var n := if signed && s[0] == '-' then -magnitude else magnitude;
      if MIN_INT <= n <= MAX_INT then Some(n) else None
  }

  lemma AtoiOfNat(t: string)
    requires Canonical(t) && DigitsValue(t) <= -MIN_INT
    ensures var v: int := DigitsValue(t); (v <= MAX_INT ==> Atoi(t) == Some(v)) && Atoi("-" + t) == Some(-v)
  {
    hide DigitsValue;
    assert ("-" + t)[1..] == t;
    assert IsDigit(t[0]);
  }

  lemma AtoiItoa(n: int)
    requires MIN_INT <= n <= MAX_INT
    ensures Atoi(Itoa(n)) == Some(n)
    ensures forall c :: c in Itoa(n) ==> IsDigit(c) || c == '-'
    ensures Itoa(n) != ""
  {
    var a := if n < 0 then -n else n;
    NatToTextRoundTrip(a);
    AtoiOfNat(NatToText(a));
    hide NatToText, DigitsValue, Atoi;
    assert forall c :: c in NatToText(a) ==> IsDigit(c);
  }

  lemma {:induction false} LeadingZero(digits: string)
    requires AllDigits(digits)
    ensures AllDigits("0" + digits) && DigitsValue("0" + digits) == DigitsValue(digits)
  {
    var k := |digits| - 1;
    if digits == "" {
      assert "0" + digits == "0" && "0"[..0] == "";
    } else {
      LeadingZero(digits[..k]);
      assert ("0" + digits)[..k + 1] == "0" + digits[..k];
    }
  }

  /** What Atoi reads: an optional sign and decimal digits, leading zeros allowed, the value
      limited to 64 bits. */
  lemma AtoiMeaning(digits: string)
    requires digits != "" && AllDigits(digits)
    ensures var n: int := DigitsValue(digits);
            && Atoi(digits) == Atoi("+" + digits) == (if n <= MAX_INT then Some(n) else None)
            && Atoi("-" + digits) == (if -n >= MIN_INT then Some(-n) else None)
    ensures DigitsValue("0" + digits) == DigitsValue(digits)
  {
    assert ("+" + digits)[1..] == digits && ("-" + digits)[1..] == digits;
    assert IsDigit(digits[0]);
    LeadingZero(digits);
  }

  /** Nothing else is read. */
  lemma AtoiOnly(s: string)
    requires Atoi(s).Some?
    ensures exists digits: string :: digits != "" && AllDigits(digits) && (s == digits || s == "+" + digits || s == "-" + digits)
  {
    var digits := if s[0] == '-' || s[0] == '+' then s[1..] else s;
    assert digits != "" && AllDigits(digits);
    assert s == digits || s == [s[0]] + digits;
  }

  /** Decimal notation: the last digit counts ones, the rest tens. */
  lemma NatToTextMeaning(n: nat)
    ensures n < 10 ==> NatToText(n) == ["0123456789"[n]]
    ensures n >= 10 ==> NatToText(n) == NatToText(n / 10) + ["0123456789"[n % 10]]
  {
  }
}
