/**
 Keepalived configuration (utils/keepalived.go): the allocated addresses are sorted and dealt
 alternately into two VRRP groups whose roles are mirrored between the two rendered files.
 */
module Vips {

  // ---------- The order of sort.Strings ----------

  predicate Leq(a: string, b: string) {
    a == "" || (b != "" && (a[0] < b[0] || (a[0] == b[0] && Leq(a[1..], b[1..]))))
  }

  lemma {:induction false} LeqTotal(a: string, b: string)
    ensures Leq(a, b) || Leq(b, a)
    ensures Leq(a, b) && Leq(b, a) ==> a == b
  {
    if a != "" && b != "" && a[0] == b[0] {
      LeqTotal(a[1..], b[1..]);
      assert a == [a[0]] + a[1..] && b == [b[0]] + b[1..];
    }
  }

  lemma {:induction false} LeqTransitive(a: string, b: string, c: string)
    requires Leq(a, b) && Leq(b, c)
    ensures Leq(a, c)
  {
    if a != "" && a[0] == b[0] == c[0] { LeqTransitive(a[1..], b[1..], c[1..]); }
  }

  /** The order is that of the first character in which two texts differ; a text comes before
      those that it begins. */
  lemma {:induction false} LeqMeaning(p: string, x: char, y: char, a: string, b: string)
    requires x < y
    ensures Leq(p + [x] + a, p + [y] + b) && !Leq(p + [y] + b, p + [x] + a)
    ensures Leq(p, p + a)
  {
    if p == "" {
      assert (p + [x] + a)[0] == x && (p + [y] + b)[0] == y;
    } else {
      LeqMeaning(p[1..], x, y, a, b);
      assert (p + [x] + a)[1..] == p[1..] + [x] + a && (p + [y] + b)[1..] == p[1..] + [y] + b;
      assert (p + a)[1..] == p[1..] + a;
    }
  }

  predicate Sorted(q: seq<string>) {
    forall i, j :: 0 <= i < j < |q| ==> Leq(q[i], q[j])
  }

  predicate Distinct(q: seq<string>) {
    forall i, j :: 0 <= i < j < |q| ==> q[i] != q[j]
  }

  function Insert(q: seq<string>, x: string): (r: seq<string>)
    ensures multiset(r) == multiset(q) + multiset{x}
  {
    if q == [] || Leq(x, q[0]) then [x] + q
    else
      assert q == [q[0]] + q[1..];
      [q[0]] + Insert(q[1..], x)
  }

  lemma {:induction false} InsertSorted(q: seq<string>, x: string)
    requires Sorted(q)
    ensures Sorted(Insert(q, x))
  {
    if q == [] {
    } else if Leq(x, q[0]) {
      forall k | 0 <= k < |q| ensures Leq(x, q[k]) {
        if k > 0 { LeqTransitive(x, q[0], q[k]); }
      }
    } else {
      InsertSorted(q[1..], x);
      LeqTotal(x, q[0]);
      var r := Insert(q[1..], x);
      forall k | 0 <= k < |r| ensures Leq(q[0], r[k]) {
        assert r[k] in multiset(r);
        assert r[k] in multiset(q[1..]) || r[k] == x;
      }
    }
  }

  /** sort.Strings: the same strings, in order. */
  function SortStrings(q: seq<string>): (r: seq<string>)
    ensures Sorted(r) && multiset(r) == multiset(q)
  {
    if q == [] then []
    else
      assert q == [q[0]] + q[1..];
      InsertSorted(SortStrings(q[1..]), q[0]);
      Insert(SortStrings(q[1..]), q[0])
  }

  // ---------- The sorted listing of a set ----------

  ghost predicate IsListing(q: seq<string>, ips: set<string>) {
    Sorted(q) && Distinct(q) && (forall x :: x in q <==> x in ips)
  }

  lemma TailListing(q: seq<string>, ips: set<string>)
    requires IsListing(q, ips) && q != []
    ensures IsListing(q[1..], ips - {q[0]})
  {
  }

  /** A set has only one sorted listing, so sorting forgets the order of map iteration. */
  lemma {:induction false} ListingUnique(p: seq<string>, q: seq<string>, ips: set<string>)
    requires IsListing(p, ips) && IsListing(q, ips)
    ensures p == q
  {
    assert q != [] ==> q[0] in q && q[0] in p;
    if p != [] {
      assert p[0] in q && q != [];
      assert q[0] in p;
      var i :| 0 <= i < |p| && p[i] == q[0];
      var j :| 0 <= j < |q| && q[j] == p[0];
      assert Leq(p[0], q[0]) by { LeqTotal(p[0], p[0]); }
      assert Leq(q[0], p[0]) by { LeqTotal(q[0], q[0]); }
      LeqTotal(p[0], q[0]);
      var rest := ips - {p[0]};
      TailListing(p, ips);
      TailListing(q, ips);
      ListingUnique(p[1..], q[1..], rest);
      assert p == [p[0]] + p[1..] && q == [q[0]] + q[1..];
    }
  }

  lemma DistinctStep(x: string, rest: seq<string>)
    ensures Distinct([x] + rest) <==> x !in rest && Distinct(rest)
  {
    var q := [x] + rest;
    if Distinct(q) {
      forall i | 0 <= i < |rest| ensures x != rest[i] { assert q[0] != q[i + 1]; }
      forall i, j | 0 <= i < j < |rest| ensures rest[i] != rest[j] { assert q[i + 1] != q[j + 1]; }
    }
  }

  lemma {:induction false} OnceEach(q: seq<string>)
    ensures Distinct(q) <==> forall x :: multiset(q)[x] <= 1
  {
    if q != [] {
      var x, rest := q[0], q[1..];
      assert q == [x] + rest;
      OnceEach(rest);
      DistinctStep(x, rest);
      assert x in rest <==> multiset(rest)[x] > 0;
      assert forall y :: multiset(q)[y] == multiset(rest)[y] + if y == x then 1 else 0;
    }
  }

  lemma SameMultisetDistinct(q: seq<string>, r: seq<string>)
    requires Distinct(q) && multiset(q) == multiset(r)
    ensures Distinct(r)
  {
    OnceEach(q);
    OnceEach(r);
  }

  lemma SortedIsListing(q: seq<string>, ips: set<string>)
    requires Distinct(q) && forall x :: x in q <==> x in ips
    ensures IsListing(SortStrings(q), ips)
  {
    var r := SortStrings(q);
    forall x ensures x in r <==> x in ips {
      assert x in r <==> x in multiset(r);
      assert x in q <==> x in multiset(q);
    }
    SameMultisetDistinct(q, r);
  }

  ghost function Listing(ips: set<string>): (q: seq<string>)
    ensures IsListing(q, ips)
  {
    if ips == {} then []
    else
      var x :| x in ips;
      var rest := Listing(ips - {x});
      assert x !in rest;
      assert Distinct([x] + rest);
      SortedIsListing([x] + rest, ips);
      SortStrings([x] + rest)
  }

  // ---------- distributeIPsIntoGroups ----------

  /** Every other element, starting with the first. */
  function Alternate(q: seq<string>): seq<string> {
    if |q| <= 1 then q else [q[0]] + Alternate(q[2..])
  }

  function Group1(q: seq<string>): seq<string> { Alternate(q) }

  function Group2(q: seq<string>): seq<string> { if q == [] then [] else Alternate(q[1..]) }

  lemma {:induction false} AlternateAppend(q: seq<string>, x: string)
    ensures Alternate(q + [x]) == if |q| % 2 == 0 then Alternate(q) + [x] else Alternate(q)
  {
    if |q| >= 2 {
      assert (q + [x])[2..] == q[2..] + [x];
      AlternateAppend(q[2..], x);
    } else if |q| == 1 {
      assert (q + [x])[2..] == [];
      assert Alternate(q + [x]) == [q[0]] + Alternate([]);
    }
  }

  lemma GroupsAppend(q: seq<string>, x: string)
    ensures Group1(q + [x]) == if |q| % 2 == 0 then Group1(q) + [x] else Group1(q)
    ensures Group2(q + [x]) == if |q| % 2 == 0 then Group2(q) else Group2(q) + [x]
  {
    AlternateAppend(q, x);
    if q == [] {
      assert (q + [x])[1..] == [];
    } else {
      assert (q + [x])[1..] == q[1..] + [x];
      AlternateAppend(q[1..], x);
    }
  }

  method DistributeIPsIntoGroups(ips: seq<string>) returns (group1: seq<string>, group2: seq<string>)
    ensures group1 == Group1(ips) && group2 == Group2(ips)
  {
    group1, group2 := [], [];
    for i := 0 to |ips|
      invariant group1 == Group1(ips[..i]) && group2 == Group2(ips[..i])
    {
      assert ips[..i + 1] == ips[..i] + [ips[i]];
      GroupsAppend(ips[..i], ips[i]);
      if i % 2 == 0 {
        group1 := group1 + [ips[i]];
      } else {
        group2 := group2 + [ips[i]];
      }
    }
    assert ips[..|ips|] == ips;
  }

  function Interleave(p: seq<string>, q: seq<string>): seq<string>
    decreases |p| + |q|
  {
    if p == [] then q else [p[0]] + Interleave(q, p[1..])
  }

  /** Dealing is fair and loses nothing: the groups interleave back to the list, and the first
      is as long as the second or longer by one. */
  lemma {:induction false} DealingIsFair(q: seq<string>)
    ensures Interleave(Group1(q), Group2(q)) == q
    ensures |Group2(q)| <= |Group1(q)| <= |Group2(q)| + 1
  {
    if q != [] {
      DealingIsFair(q[1..]);
      if |q| >= 2 {
        assert q[1..][1..] == q[2..];
        assert Group1(q)[1..] == Group2(q[1..]);
      }
      assert q == [q[0]] + q[1..];
    }
  }

  lemma {:induction false} DealingPartitions(q: seq<string>)
    ensures multiset(q) == multiset(Group1(q)) + multiset(Group2(q))
  {
    if q != [] {
      DealingPartitions(q[1..]);
      assert q == [q[0]] + q[1..];
      if |q| >= 2 {
        assert q[1..][1..] == q[2..];
        assert Group1(q) == [q[0]] + Group2(q[1..]);
      }
    }
  }

  /** Of a list without repetition, each element is in one group and in one only. */
  lemma GroupsDisjoint(q: seq<string>, x: string)
    requires Distinct(q)
    ensures x in q <==> x in Group1(q) || x in Group2(q)
    ensures !(x in Group1(q) && x in Group2(q))
  {
    DealingPartitions(q);
    OnceEach(q);
    assert x in q <==> x in multiset(q);
    assert x in Group1(q) <==> x in multiset(Group1(q));
    assert x in Group2(q) <==> x in multiset(Group2(q));
    assert multiset(q)[x] == multiset(Group1(q))[x] + multiset(Group2(q))[x];
  }

  // ---------- The rendered files ----------

  datatype Role = Master | Backup

  datatype Instance = Instance(role: Role, iface: string, vrid: int, priority: int, authPass: string, vips: seq<string>)

  datatype KeepalivedConf = KeepalivedConf(cluster: string, group1: Instance, group2: Instance) {
    /** Every address the file hands to Keepalived. */
    function Addresses(): set<string> {
      (set x | x in group1.vips) + (set x | x in group2.vips)
    }

    predicate MasterFor(ip: string) {
      (ip in group1.vips && group1.role.Master?) || (ip in group2.vips && group2.role.Master?)
    }
  }

  datatype Settings = Settings(cluster: string, iface: string, authPass: string)

  /** The two templates: roles and priorities are mirrored, everything else is shared. */
  function Generate(s: Settings, vrid1: int, vrid2: int, group1: seq<string>, group2: seq<string>, isPrimary: bool): KeepalivedConf {
    if isPrimary then
      KeepalivedConf(s.cluster,
                     Instance(Master, s.iface, vrid1, 101, s.authPass, group1),
                     Instance(Backup, s.iface, vrid2, 100, s.authPass, group2))
    else
      KeepalivedConf(s.cluster,
                     Instance(Backup, s.iface, vrid1, 100, s.authPass, group1),
                     Instance(Master, s.iface, vrid2, 101, s.authPass, group2))
  }

  /** The file for a set of addresses. It depends on nothing but the set. */
  ghost function Conf(s: Settings, vrids: (int, int), ips: set<string>, isPrimary: bool): KeepalivedConf {
    var q := Listing(ips);
    Generate(s, vrids.0, vrids.1, Group1(q), Group2(q), isPrimary)
  }

  /** The part of ConfigureKeepalived that computes both files. The map is enumerated in an
      arbitrary order. */
  method GenerateBoth(s: Settings, vrid1: int, vrid2: int, allocations: map<string, string>)
    returns (primary: KeepalivedConf, secondary: KeepalivedConf)
    ensures primary == Conf(s, (vrid1, vrid2), allocations.Keys, true)
    ensures secondary == Conf(s, (vrid1, vrid2), allocations.Keys, false)
  {
    var ips: seq<string> := [];
    var left := allocations.Keys;
    while left != {}
      invariant left <= allocations.Keys
      invariant Distinct(ips) && forall x :: x in ips <==> x in allocations.Keys - left
      decreases |left|
    {
      var ip :| ip in left;
      assert ip !in ips;
      ips := ips + [ip];
      left := left - {ip};
    }
    SortedIsListing(ips, allocations.Keys);
    ips := SortStrings(ips);
    ListingUnique(ips, Listing(allocations.Keys), allocations.Keys);
    var group1, group2 := DistributeIPsIntoGroups(ips);
    primary := Generate(s, vrid1, vrid2, group1, group2, true);
    secondary := Generate(s, vrid1, vrid2, group1, group2, false);
  }

  /** Each file carries exactly the allocated addresses. */
  lemma ConfAddresses(s: Settings, vrids: (int, int), ips: set<string>, isPrimary: bool)
    ensures Conf(s, vrids, ips, isPrimary).Addresses() == ips
  {
    var q := Listing(ips);
    forall x ensures x in Conf(s, vrids, ips, isPrimary).Addresses() <==> x in ips {
      GroupsDisjoint(q, x);
    }
  }

  /** The two files between them: every address has MASTER on exactly one server, is announced
      under the same VRID by both, and the master's priority is the higher one. */
  lemma OneMasterEach(s: Settings, vrids: (int, int), ips: set<string>, ip: string)
    requires ip in ips
    ensures var p, b := Conf(s, vrids, ips, true), Conf(s, vrids, ips, false);
            && (p.MasterFor(ip) <==> !b.MasterFor(ip))
            && (ip in p.group1.vips <==> ip in b.group1.vips)
            && (ip in p.group2.vips <==> ip in b.group2.vips)
            && (ip in p.group1.vips <==> ip !in p.group2.vips)
            && p.group1.vrid == b.group1.vrid && p.group2.vrid == b.group2.vrid
            && (ip in p.group1.vips ==> (p.MasterFor(ip) <==> p.group1.priority > b.group1.priority))
            && (ip in p.group2.vips ==> (p.MasterFor(ip) <==> p.group2.priority > b.group2.priority))
  {
    GroupsDisjoint(Listing(ips), ip);
  }

  /** What the templates put into each file: the settings, the first VRID for the first group and
      the second for the second, and MASTER for the first group on the primary server and for the
      second on the secondary. */
  lemma ConfMeaning(s: Settings, vrids: (int, int), ips: set<string>, isPrimary: bool)
    ensures var c := Conf(s, vrids, ips, isPrimary);
            && c.group1.vrid == vrids.0 && c.group2.vrid == vrids.1
            && c.cluster == s.cluster
            && c.group1.iface == c.group2.iface == s.iface
            && c.group1.authPass == c.group2.authPass == s.authPass
            && (c.group1.role.Master? <==> isPrimary) && (c.group2.role.Master? <==> !isPrimary)
            && (c.group1.priority, c.group2.priority) == (if isPrimary then (101, 100) else (100, 101))
            && Interleave(c.group1.vips, c.group2.vips) == Listing(ips)
  {
    DealingIsFair(Listing(ips));
  }
}
