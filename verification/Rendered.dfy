/**
 From the VRID file to the rendered Keepalived files: whatever clusters have started, no two of
 them ever render VRRP instances with the same virtual router id.
 */
module Rendered {
  import opened Text
  import opened Faults
  import opened Vrid
  import opened VridLines
  import opened VridStartup
  import opened Vips

  /** The ids of a file's two groups. */
  function Ids(c: KeepalivedConf): set<int> { {c.group1.vrid, c.group2.vrid} }

  lemma GoodFile(s: State)
    requires Inv(s)
    ensures GoodData(Data(s.file))
  {
  }

  lemma FourIds(a: int, b: int, c: int, d: int)
    requires a != b && a != c && a != d && b != c && b != d && c != d
    ensures |{a, b} + {c, d}| == 4
  {
    assert {a, b} + {c, d} == {a, b, c, d};
    assert |{a}| == 1 && |{a, b}| == 2 && |{a, b, c}| == 3 && |{a, b, c, d}| == 4;
  }

  predicate Legal(id: int) { 1 <= id <= 254 }

  lemma KnownPairs(t: State, n: string, m: string)
    requires Inv(t) && NameOk(n) && NameOk(m) && n != m
    requires GetOrAllocateVRIDs(t, n).Some? && GetOrAllocateVRIDs(t, m).Some?
    ensures var p, q := GetOrAllocateVRIDs(t, n).value, GetOrAllocateVRIDs(t, m).value;
            && Legal(p.0) && Legal(p.1) && Legal(q.0) && Legal(q.1)
            && |{p.0, p.1} + {q.0, q.1}| == 4
  {
    assert n in t.configMaps && m in t.configMaps;
    GoodFile(t);
    hide Data, GoodData, Inv, NameOk, ParsePair, GetOrAllocateVRIDs;
    ConfigMapMirrorsFile(t, n);
    ConfigMapMirrorsFile(t, m);
    GoodDataDisjoint(Data(t.file), n, m);
    var p, q := GetOrAllocateVRIDs(t, n).value, GetOrAllocateVRIDs(t, m).value;
    FourIds(p.0, p.1, q.0, q.1);
  }

  lemma IdsOf(s: Settings, p: (int, int), ips: set<string>, primary: bool)
    ensures Ids(Conf(s, p, ips, primary)) == {p.0, p.1}
  {
    ConfMeaning(s, p, ips, primary);
    hide Conf;
  }

  /** After any startups, failed or not, of clusters with carried or dropped names: the files of two
      clusters with carried names, whichever server they are for and whatever addresses they carry,
      have four different VRIDs, all of them legal (1..255, section 6.1 of RFC 5798). */
  lemma InstancesNeverShare(events: seq<Event>, n: string, m: string, s: Settings, s': Settings,
                            ips: set<string>, ips': set<string>, primary: bool, primary': bool)
    requires NamesHarmless(events) && NameOk(n) && NameOk(m) && n != m
    requires GetOrAllocateVRIDs(Run(INITIAL, events), n).Some? && GetOrAllocateVRIDs(Run(INITIAL, events), m).Some?
    ensures var c := Conf(s, GetOrAllocateVRIDs(Run(INITIAL, events), n).value, ips, primary);
            var d := Conf(s', GetOrAllocateVRIDs(Run(INITIAL, events), m).value, ips', primary');
            |Ids(c) + Ids(d)| == 4 && forall id :: id in Ids(c) + Ids(d) ==> Legal(id)
  {
    hide *;
    InitialInv();
    PairsNeverChange(INITIAL, events);
    var t := Run(INITIAL, events);
    KnownPairs(t, n, m);
    IdsOf(s, GetOrAllocateVRIDs(t, n).value, ips, primary);
    IdsOf(s', GetOrAllocateVRIDs(t, m).value, ips', primary');
  }
}
