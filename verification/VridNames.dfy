/**
 Cluster names that VRID_allocations.conf cannot carry. Such a cluster does not find its entry
 again and may come to share a VRID with another one; and unless the file drops its line whole, it
 overwrites the entries of others, so that these come to share VRIDs among themselves.
 */
module VridNames {
  import opened Text
  import opened Faults
  import opened Vrid
  import opened VridLines
  import opened VridStartup
  import Vips

  // ---------- Remembered or not ----------

  lemma InitialPair()
    ensures NextPair(INITIAL.file) == (1, 2) && Data(INITIAL.file) == map[] && INITIAL.configMaps == map[]
  {
    InitialInv();
    EmptyBranchAgrees();
  }

  /** In every state: a cluster that starts without an entry, and succeeds, finds its entry again
      exactly when its name is one the file can carry. */
  lemma RememberedExactly(s: State, cluster: string, fs: StartupFaults, order: seq<string>)
    requires cluster !in Data(s.file)
    ensures var t, r := Startup(s, cluster, fs, order).0, Startup(s, cluster, fs, order).1;
            && (s == INITIAL && fs == NO_FAULTS ==> r.Done?)
            && (r.Done? ==> (cluster in Data(t.file) <==> NameOk(cluster)))
  {
    hide *;
    NewMeaning(s, cluster, fs, order);
    InitialPair();
    if NextPair(s.file) != (0, 0) { WrittenForName(s.file, cluster, order); }
  }

  // ---------- Overwritten or not ----------

  ghost predicate Agree(data: map<string, string>, e: map<string, string>) {
    forall m :: m in data && m in e ==> e[m] == data[m]
  }

  /** When the new cluster's line is printed last, its entries win. */
  lemma WrittenLast(file: Option<string>, n: string, order: seq<string>)
    requires n !in Data(file) && NextPair(file) != (0, 0) && IsOrder(order, Data(file))
    ensures Data(Written(file, n, order + [n])) == Data(file) + Entries(n, NextValue(file))
  {
    var data := Data(file)[n := NextValue(file)];
    LastInOrder(order, Data(file), n, NextValue(file));
    assert forall m :: m in order + [n] ==> m in data;
    hide IsOrder, Print, Entries, ReadBack, NameOk, ValueOk, NextValue, NextPair, ParseContent;
    EntriesOk(file);
    NextPairOk(file);
    AddedLast(order, Data(file), n, NextValue(file));
    PrintedIsReadBack(order + [n], data);
  }

  ghost function Listed(file: Option<string>): (order: seq<string>)
    ensures IsOrder(order, Data(file))
  {
    Vips.Listing(Data(file).Keys)
  }

  lemma MergeKeeps(data: map<string, string>, e: map<string, string>)
    ensures Kept(data, data + e) <==> Agree(data, e)
  {
    if Kept(data, data + e) {
      forall m | m in data && m in e ensures e[m] == data[m] { assert (data + e)[m] == e[m]; }
    }
  }

  lemma MixedKeeps(data: map<string, string>, e: map<string, string>, after: map<string, string>)
    requires Mixed(data, e, after) && Agree(data, e)
    ensures Kept(data, after)
  {
    forall m | m in data ensures m in after && after[m] == data[m] { assert MixedAt(data, e, after, m); }
  }

  /** A new cluster of any name writes the file: in whatever order the entries are printed, all
      the old ones are kept, exactly if what is read from its line does not contradict them. */
  lemma KeptExactly(s: State, n: string, fs: StartupFaults)
    requires n !in Data(s.file) && NextPair(s.file) != (0, 0) && !fs.fetchFails && fs.write != LostBefore
    ensures (forall order :: Kept(Data(s.file), Data(Startup(s, n, fs, order).0.file)))
            <==> Agree(Data(s.file), Entries(n, NextValue(s.file)))
  {
    hide *;
    var data, e := Data(s.file), Entries(n, NextValue(s.file));
    NewMeaning(s, n, fs, Listed(s.file) + [n]);
    WrittenLast(s.file, n, Listed(s.file));
    MergeKeeps(data, e);
    if Agree(data, e) {
      forall order ensures Kept(data, Data(Startup(s, n, fs, order).0.file)) {
        NewMeaning(s, n, fs, order);
        WrittenIsRead(s.file, n, order);
        MixedKeeps(data, e, Data(Written(s.file, n, order)));
      }
    }
  }

  // ---------- Collisions ----------

  predicate Share(p: Option<(int, int)>, q: Option<(int, int)>) {
    p.Some? && q.Some?
    && (p.value.0 == q.value.0 || p.value.0 == q.value.1 || p.value.1 == q.value.0 || p.value.1 == q.value.1)
  }

  lemma LengthBound(names: set<string>) returns (bound: nat)
    ensures forall n :: n in names ==> |n| < bound
    decreases |names|
  {
    if names == {} {
      bound := 0;
    } else {
      var n :| n in names;
      var rest := LengthBound(names - {n});
      bound := if rest > |n| then rest else |n| + 1;
    }
  }

  lemma FreshName(names: set<string>) returns (c: string)
    ensures c !in names && NameOk(c)
  {
    var bound := LengthBound(names);
    c := seq(bound, _ => 'a');
  }

  /** No ConfigMap was left without data. */
  ghost predicate NoneEmpty(s: State) { forall c :: c in s.configMaps ==> s.configMaps[c] != map[] }

  /** A registered cluster starts: its ConfigMap gets the entry of the file. */
  lemma RegisteredStartup(s: State, m: string)
    requires m in Data(s.file) && NoneEmpty(s)
    ensures var t := Startup(s, m, NO_FAULTS, []).0;
            GetOrAllocateVRIDs(t, m) == ParsePair(Data(s.file)[m])
            && forall n :: n != m ==> GetOrAllocateVRIDs(t, n) == GetOrAllocateVRIDs(s, n)
  {
    hide Data, ParsePair, Register, FirstFreePair, UsedVRIDs, FormatPair;
    assert |Data(s.file)| != 0;
  }

  lemma MirrorAnswers(s: State, t: State, c: string, v: string)
    requires NoneEmpty(s) && t.configMaps == Mirrored(s, c, v)
    ensures NoneEmpty(t) && GetOrAllocateVRIDs(t, c) == ParsePair(v)
  {
    hide ParsePair;
    assert c in map[c := v];
    assert t.configMaps[c][c] == v;
    assert c in t.configMaps[c];
  }

  lemma MirrorOthers(s: State, t: State, c: string, v: string, n: string)
    requires t.configMaps == Mirrored(s, c, v) && n != c
    ensures GetOrAllocateVRIDs(t, n) == GetOrAllocateVRIDs(s, n)
  {
    hide ParsePair;
  }

  /** A new cluster with a name the file can carry starts. */
  lemma FreshStartup(s: State, c: string, n: string)
    requires c !in Data(s.file) && c !in s.configMaps && NameOk(c) && NoneEmpty(s) && NextPair(s.file) != (0, 0) && n != c
    ensures var t := Startup(s, c, NO_FAULTS, []).0;
            && Data(t.file) == Data(s.file)[c := NextValue(s.file)] && NoneEmpty(t)
            && GetOrAllocateVRIDs(t, c) == Some(NextPair(s.file))
            && GetOrAllocateVRIDs(t, n) == GetOrAllocateVRIDs(s, n)
  {
    hide *;
    NewMeaning(s, c, NO_FAULTS, []);
    WrittenForName(s.file, c, []);
    NextPairOk(s.file);
    var t := Startup(s, c, NO_FAULTS, []).0;
    MirrorAnswers(s, t, c, NextValue(s.file));
    MirrorOthers(s, t, c, NextValue(s.file), n);
  }

  /** How many pairs may still be handed out before i,i+1 is. */
  function Distance(file: Option<string>, i: int): nat {
    if FreePair(UsedVRIDs(Data(file)), i) && NextPair(file).0 <= i then i - NextPair(file).0 + 1 else 0
  }

  lemma FreeIsNextOrLater(file: Option<string>, i: int)
    requires Aligned(i) && FreePair(UsedVRIDs(Data(file)), i)
    ensures NextPair(file) != (0, 0) && NextPair(file).0 <= i && NextPair(file).1 == NextPair(file).0 + 1
  {
    FirstFreeMeaning(UsedVRIDs(Data(file)), 1);
    hide Data, UsedVRIDs, FirstFreePair;
  }

  lemma NextRises(used: set<int>, used': set<int>, i: int)
    requires used <= used' && FirstFreePair(used, 1) != (0, 0) && FirstFreePair(used', 1) != (0, 0)
    requires FirstFreePair(used, 1).0 in used'
    ensures FirstFreePair(used, 1).0 < FirstFreePair(used', 1).0
  {
    FirstFreeMeaning(used, 1);
    FirstFreeMeaning(used', 1);
    hide FirstFreePair;
  }

  lemma DistanceFalls(file: Option<string>, file': Option<string>, c: string, i: int)
    requires Aligned(i) && FreePair(UsedVRIDs(Data(file)), i) && NextPair(file).0 != i && c !in Data(file)
    requires Data(file') == Data(file)[c := NextValue(file)]
    ensures Distance(file', i) < Distance(file, i)
  {
    var used, used' := UsedVRIDs(Data(file)), UsedVRIDs(Data(file'));
    FreeIsNextOrLater(file, i);
    NextPairOk(file);
    UsedStep(Data(file), c, NextValue(file));
    hide Data, UsedVRIDs, FirstFreePair, ParsePair, ValueOk, NextValue, FreePair, Aligned;
    assert used' == used + {NextPair(file).0} + {NextPair(file).1};
    if FreePair(used', i) {
      FreeIsNextOrLater(file', i);
      NextRises(used, used', i);
    }
  }

  lemma HolderOf(data: map<string, string>, i: int) returns (m: string)
    requires !FreePair(UsedVRIDs(data), i)
    ensures m in data && Share(ParsePair(data[m]), Some((i, i + 1)))
  {
    hide ParsePair;
    var x :| x in UsedVRIDs(data) && (x == i || x == i + 1);
    m :| m in data && ParsePair(data[m]).Some? && (ParsePair(data[m]).value.0 == x || ParsePair(data[m]).value.1 == x);
  }

  lemma {:induction false} RunAppend(s: State, xs: seq<Event>, ys: seq<Event>)
    ensures Run(s, xs + ys) == Run(Run(s, xs), ys)
    decreases |xs|
  {
    hide Startup;
    if xs == [] {
      assert xs + ys == ys;
    } else {
      assert (xs + ys)[0] == xs[0] && (xs + ys)[1..] == xs[1..] + ys;
      RunAppend(Startup(s, xs[0].cluster, xs[0].fs, xs[0].order).0, xs[1..], ys);
    }
  }

  lemma RunOne(s: State, e: Event)
    ensures Run(s, [e]) == Startup(s, e.cluster, e.fs, e.order).0
  {
    hide Startup;
    assert [e][1..] == [];
  }

  lemma MoreEvents(s: State, c: string, rest: seq<Event>) returns (events: seq<Event>)
    requires NameOk(c) && NamesOk(rest)
    ensures NamesOk(events) && Run(s, events) == Run(Startup(s, c, NO_FAULTS, []).0, rest)
  {
    hide Startup, NameOk;
    events := [Event(c, NO_FAULTS, [])] + rest;
    assert events[1..] == rest;
  }

  lemma OneEvent(s: State, c: string) returns (events: seq<Event>)
    requires NameOk(c)
    ensures NamesOk(events) && Run(s, events) == Startup(s, c, NO_FAULTS, []).0
  {
    hide Startup, NameOk;
    events := MoreEvents(s, c, []);
  }

  /** A cluster that knows the pair i,i+1 while the file does not record it for that cluster. */
  ghost predicate Unrecorded(s: State, n: string, i: int) {
    && NoneEmpty(s) && Aligned(i) && GetOrAllocateVRIDs(s, n) == Some((i, i + 1))
    && (n in Data(s.file) ==> !Share(ParsePair(Data(s.file)[n]), Some((i, i + 1))))
  }

  /** An entry of the file has one of the two numbers: its cluster need only start. */
  lemma HolderCollides(s: State, n: string, i: int) returns (after: seq<Event>, c: string)
    requires Unrecorded(s, n, i) && !FreePair(UsedVRIDs(Data(s.file)), i)
    ensures NamesOk(after) && c != n && NameOk(c)
    ensures Share(GetOrAllocateVRIDs(Run(s, after), n), GetOrAllocateVRIDs(Run(s, after), c))
  {
    hide Startup, GetOrAllocateVRIDs, Data, ParsePair, NameOk, ValueOk, FreePair, UsedVRIDs, NoneEmpty, Run, NamesOk, Aligned;
    c := HolderOf(Data(s.file), i);
    EntriesOk(s.file);
    RegisteredStartup(s, c);
    after := OneEvent(s, c);
  }

  lemma StillUnrecorded(s: State, n: string, i: int, c: string)
    requires Unrecorded(s, n, i) && c != n && NameOk(c) && c !in Data(s.file) && c !in s.configMaps && NextPair(s.file) != (0, 0)
    ensures Unrecorded(Startup(s, c, NO_FAULTS, []).0, n, i)
  {
    FreshStartup(s, c, n);
    hide Startup, GetOrAllocateVRIDs, Data, ParsePair, NameOk, NoneEmpty, NextPair, NextValue, Share, Aligned;
  }

  /** Then enough others need only start for one of them to share a VRID with it. */
  lemma UnrecordedCollides(s: State, n: string, i: int) returns (after: seq<Event>, c: string)
    requires Unrecorded(s, n, i)
    ensures NamesOk(after) && c != n && NameOk(c)
    ensures Share(GetOrAllocateVRIDs(Run(s, after), n), GetOrAllocateVRIDs(Run(s, after), c))
    decreases Distance(s.file, i)
  {
    assert Share(Some((i, i + 1)), Some((i, i + 1)));
    assert NoneEmpty(s) && Aligned(i) && GetOrAllocateVRIDs(s, n) == Some((i, i + 1));
    hide Startup, GetOrAllocateVRIDs, Data, ParsePair, NameOk, ValueOk, FreePair, UsedVRIDs, NoneEmpty,
         Distance, NextPair, NextValue, Share, Aligned, Run, NamesOk, Unrecorded;
    if !FreePair(UsedVRIDs(Data(s.file)), i) {
      after, c := HolderCollides(s, n, i);
    } else {
      FreeIsNextOrLater(s.file, i);
      c := FreshName(Data(s.file).Keys + s.configMaps.Keys + {n});
      FreshStartup(s, c, n);
      if NextPair(s.file).0 == i {
        after := OneEvent(s, c);
      } else {
        var t := Startup(s, c, NO_FAULTS, []).0;
        DistanceFalls(s.file, t.file, c, i);
        StillUnrecorded(s, n, i, c);
        var rest, d := UnrecordedCollides(t, n, i);
        after := MoreEvents(s, c, rest);
        c := d;
      }
    }
  }

  /** In good states no two clusters with carried names share a VRID. */
  lemma GoodNeverShare(s: State, n: string, c: string)
    requires Inv(s) && n != c && NameOk(n) && NameOk(c)
    ensures !Share(GetOrAllocateVRIDs(s, n), GetOrAllocateVRIDs(s, c))
  {
    if n in s.configMaps && c in s.configMaps {
      ConfigMapMirrorsFile(s, n);
      ConfigMapMirrorsFile(s, c);
      GoodDataDisjoint(Data(s.file), n, c);
    }
    hide ParsePair, Data, NameOk, Inv, GoodData;
  }

  lemma InvNoneEmpty(s: State)
    requires Inv(s)
    ensures NoneEmpty(s)
  {
    hide Data, GoodData, NameOk, ParsePair;
    forall c | c in s.configMaps ensures s.configMaps[c] != map[] { assert c in s.configMaps[c].Keys; }
  }

  lemma NextUnused(file: Option<string>)
    requires NextPair(file) != (0, 0)
    ensures var r, used := NextPair(file), UsedVRIDs(Data(file));
            Aligned(r.0) && r == (r.0, r.0 + 1) && r.0 !in used && r.1 !in used
  {
    NextPairOk(file);
    hide Data, UsedVRIDs, NextPair, NextValue, ParsePair, ValueOk, Aligned;
  }

  lemma IsUnrecorded(s: State, n: string, i: int)
    requires NoneEmpty(s) && Aligned(i) && GetOrAllocateVRIDs(s, n) == Some((i, i + 1))
    requires n in Data(s.file) ==> !Share(ParsePair(Data(s.file)[n]), Some((i, i + 1)))
    ensures Unrecorded(s, n, i)
  {
    hide Data, ParsePair, GetOrAllocateVRIDs, NoneEmpty, Share, Aligned;
  }

  lemma ForgottenUnrecorded(s: State, n: string, order: seq<string>) returns (i: int)
    requires Inv(s) && !NameOk(n) && Startup(s, n, NO_FAULTS, order).1.Done?
    ensures Unrecorded(Startup(s, n, NO_FAULTS, order).0, n, i)
  {
    hide *;
    InvNoneEmpty(s);
    EntriesOk(s.file);
    NewMeaning(s, n, NO_FAULTS, order);
    NextPairOk(s.file);
    NextUnused(s.file);
    WrittenForName(s.file, n, order);
    MirrorAnswers(s, Startup(s, n, NO_FAULTS, order).0, n, NextValue(s.file));
    i := NextPair(s.file).0;
    IsUnrecorded(Startup(s, n, NO_FAULTS, order).0, n, i);
  }

  lemma OkIsHarmless(events: seq<Event>)
    requires NamesOk(events)
    ensures NamesHarmless(events)
  {
    hide NameOk, Entries;
    forall i | 0 <= i < |events| ensures Harmless(events[i].cluster) { assert NameOk(events[i].cluster); }
  }

  // ---------- Which names are safe, over all runs ----------

  /** Clusters with carried names start, and some others. */
  ghost predicate From(events: seq<Event>, names: set<string>) {
    forall i :: 0 <= i < |events| ==> NameOk(events[i].cluster) || events[i].cluster in names
  }

  /** No two clusters with carried names share a VRID. */
  ghost predicate CarriedApart(s: State) {
    forall n, c :: NameOk(n) && NameOk(c) && n != c ==> !Share(GetOrAllocateVRIDs(s, n), GetOrAllocateVRIDs(s, c))
  }

  ghost predicate AllApart(s: State) {
    forall n, c :: n != c ==> !Share(GetOrAllocateVRIDs(s, n), GetOrAllocateVRIDs(s, c))
  }

  lemma NextIsThere(s: State)
    requires Inv(s) && |Data(s.file)| < CAPACITY
    ensures NextPair(s.file) != (0, 0)
  {
    ExactCapacity(Data(s.file));
    hide Data, UsedVRIDs, FirstFreePair, GoodData, NameOk, ParsePair;
  }

  lemma AbsentFromBoth(s: State, x: string)
    requires Inv(s) && NameOk(x) && x !in Data(s.file)
    ensures x !in s.configMaps
  {
    hide Data, GoodData, NameOk, ParsePair;
  }

  lemma OneMore(data: map<string, string>, c: string, v: string)
    requires c !in data
    ensures |data[c := v]| == |data| + 1
  {
    var more := data[c := v];
    assert more.Keys == data.Keys + {c};
    assert |more| == |more.Keys| && |data| == |data.Keys|;
  }

  lemma FreshKeeps(s: State, c: string)
    requires Inv(s) && NameOk(c) && c !in Data(s.file) && NextPair(s.file) != (0, 0)
    ensures Inv(Startup(s, c, NO_FAULTS, []).0)
    ensures |Data(Startup(s, c, NO_FAULTS, []).0.file)| == |Data(s.file)| + 1
  {
    assert Harmless(c);
    InvNoneEmpty(s);
    hide *;
    StartupMeaning(s, c, NO_FAULTS, []);
    AbsentFromBoth(s, c);
    var other := FreshName({c});
    FreshStartup(s, c, other);
    OneMore(Data(s.file), c, NextValue(s.file));
  }

  lemma FewerLeft(avoid: set<int>, used: set<int>, a: int, b: int)
    requires a !in used && b !in used && (a in avoid || b in avoid)
    ensures |avoid - (used + {a} + {b})| < |avoid - used|
  {
    var c := if a in avoid then a else b;
    var rest := avoid - (used + {a} + {b});
    SubsetSize(rest, avoid - used - {c});
    assert c in avoid - used;
  }

  lemma UsedAfterNext(file: Option<string>, c: string)
    requires c !in Data(file) && NextPair(file) != (0, 0)
    ensures UsedVRIDs(Data(file)[c := NextValue(file)]) == UsedVRIDs(Data(file)) + {NextPair(file).0} + {NextPair(file).1}
  {
    NextPairOk(file);
    UsedStep(Data(file), c, NextValue(file));
    hide Data, UsedVRIDs, NextPair, NextValue, ParsePair, ValueOk;
  }

  lemma RegisterNow(s: State, x: string) returns (events: seq<Event>)
    requires Inv(s) && NameOk(x) && x !in Data(s.file) && NextPair(s.file) != (0, 0)
    ensures NamesOk(events) && Inv(Run(s, events)) && x in Data(Run(s, events).file)
    ensures GetOrAllocateVRIDs(Run(s, events), x) == Some(NextPair(s.file))
    ensures |Data(Run(s, events).file)| == |Data(s.file)| + 1
  {
    hide *;
    InvNoneEmpty(s);
    AbsentFromBoth(s, x);
    var other := FreshName({x});
    FreshStartup(s, x, other);
    FreshKeeps(s, x);
    events := OneEvent(s, x);
  }

  /** Another cluster takes the next pair. */
  lemma TakeNext(s: State, x: string, avoid: set<int>) returns (d: string)
    requires Inv(s) && NameOk(x) && x !in Data(s.file) && NextPair(s.file) != (0, 0)
    requires NextPair(s.file).0 in avoid || NextPair(s.file).1 in avoid
    ensures NameOk(d)
    ensures var t := Startup(s, d, NO_FAULTS, []).0;
            && Inv(t) && x !in Data(t.file) && |Data(t.file)| == |Data(s.file)| + 1
            && |avoid - UsedVRIDs(Data(t.file))| < |avoid - UsedVRIDs(Data(s.file))|
  {
    hide *;
    InvNoneEmpty(s);
    NextUnused(s.file);
    d := FreshName(Data(s.file).Keys + s.configMaps.Keys + {x});
    FreshStartup(s, d, x);
    FreshKeeps(s, d);
    UsedAfterNext(s.file, d);
    FewerLeft(avoid, UsedVRIDs(Data(s.file)), NextPair(s.file).0, NextPair(s.file).1);
  }

  /** A cluster registers with a pair that has none of the given numbers; others start before it
      until such a pair is next. */
  lemma RegisterApart(s: State, x: string, avoid: set<int>) returns (events: seq<Event>, i: int)
    requires Inv(s) && NameOk(x) && x !in Data(s.file)
    requires |Data(s.file)| + |avoid - UsedVRIDs(Data(s.file))| < CAPACITY
    ensures NamesOk(events) && Inv(Run(s, events)) && x in Data(Run(s, events).file)
    ensures Aligned(i) && i !in avoid && i + 1 !in avoid && GetOrAllocateVRIDs(Run(s, events), x) == Some((i, i + 1))
    ensures |Data(Run(s, events).file)| <= |Data(s.file)| + |avoid - UsedVRIDs(Data(s.file))| + 1
    decreases |avoid - UsedVRIDs(Data(s.file))|
  {
    hide *;
    NextIsThere(s);
    NextUnused(s.file);
    var r := NextPair(s.file);
    i := r.0;
    if r.0 !in avoid && r.1 !in avoid {
      events := RegisterNow(s, x);
    } else {
      var d := TakeNext(s, x, avoid);
      var rest;
      rest, i := RegisterApart(Startup(s, d, NO_FAULTS, []).0, x, avoid);
      events := MoreEvents(s, d, rest);
    }
  }

  function Numbers(v: string): set<int> {
    match ParsePair(v)
    case Some(p) => {p.0, p.1}
    case None => {}
  }

  /** A harmful name has an entry for some cluster with a carried name. Unless that has the value
      written, it is one of the name's own. */
  lemma HarmfulEntry(n: string) returns (x: string, avoid: set<int>)
    requires !Harmless(n)
    ensures NameOk(x) && |avoid| <= 2
    ensures forall v :: ValueOk(v) && v != "" ==>
              x in Entries(n, v) && (Entries(n, v)[x] == v || Numbers(Entries(n, v)[x]) == avoid)
  {
    PairTextOk(1, 2);
    var v0 := FormatPair(1, 2);
    EntriesExactly(n, v0);
    forall v | ValueOk(v) && v != ""
      ensures Entries(n, v) == if LineRead(LastLine(n)) then OwnEntries(n)[Trim(LastLine(n)) := v] else OwnEntries(n)
    {
      EntriesExactly(n, v);
    }
    EntriesOk(Some(Line(n, v0)));
    assert Data(Some(Line(n, v0))) == Entries(n, v0);
    hide ParsePair, LineRead, LastLine, OwnEntries, Trim, FormatPair, NameOk, ValueOk, Entries;
    if LineRead(LastLine(n)) {
      x, avoid := Trim(LastLine(n)), {};
      assert x in Entries(n, v0);
    } else {
      assert OwnEntries(n) != map[] by { assert Entries(n, v0) == OwnEntries(n); assert !(Entries(n, v0) == map[]); }
      x :| x in OwnEntries(n);
      assert x in Entries(n, v0);
      avoid := Numbers(OwnEntries(n)[x]);
    }
  }

  const UPDATE_LOST := StartupFaults(false, Fine, false, LostBefore)

  /** A startup of a cluster with any name that the file cannot carry, its line printed last, and
      its ConfigMap not written. */
  lemma OverwritingStartup(s: State, n: string, order: seq<string>)
    requires n !in Data(s.file) && NextPair(s.file) != (0, 0) && IsOrder(order, Data(s.file))
    ensures var t := Startup(s, n, UPDATE_LOST, order + [n]).0;
            Data(t.file) == Data(s.file) + Entries(n, NextValue(s.file)) && t.configMaps == s.configMaps
  {
    assert !UPDATE_LOST.fetchFails && UPDATE_LOST.write != LostBefore && UPDATE_LOST.update == LostBefore;
    hide *;
    NewMeaning(s, n, UPDATE_LOST, order + [n]);
    WrittenLast(s.file, n, order);
  }

  lemma EntryUsed(data: map<string, string>, x: string)
    requires x in data && ParsePair(data[x]).Some?
    ensures ParsePair(data[x]).value.0 in UsedVRIDs(data) && ParsePair(data[x]).value.1 in UsedVRIDs(data)
  {
    hide ParsePair;
  }

  lemma NumbersApart(u: string, avoid: set<int>, i: int)
    requires Numbers(u) == avoid && i !in avoid && i + 1 !in avoid
    ensures !Share(ParsePair(u), Some((i, i + 1)))
  {
    hide ParsePair;
  }

  lemma NextApart(file: Option<string>, i: int)
    requires NextPair(file) != (0, 0) && i in UsedVRIDs(Data(file)) && i + 1 in UsedVRIDs(Data(file))
    ensures !Share(ParsePair(NextValue(file)), Some((i, i + 1)))
  {
    NextPairOk(file);
    NextUnused(file);
    hide Data, UsedVRIDs, NextPair, NextValue, ParsePair, ValueOk;
  }

  lemma KnownEntry(s: State, x: string, i: int)
    requires Inv(s) && x in Data(s.file) && NameOk(x) && GetOrAllocateVRIDs(s, x) == Some((i, i + 1))
    ensures ParsePair(Data(s.file)[x]) == Some((i, i + 1))
  {
    ConfigMapMirrorsFile(s, x);
    hide Data, Inv, ParsePair, NameOk;
  }

  lemma OverwrittenApart(s: State, n: string, x: string, avoid: set<int>, i: int)
    requires Inv(s) && x in Data(s.file) && NextPair(s.file) != (0, 0) && i !in avoid && i + 1 !in avoid
    requires NameOk(x) && GetOrAllocateVRIDs(s, x) == Some((i, i + 1))
    requires x in Entries(n, NextValue(s.file))
    requires var u := Entries(n, NextValue(s.file))[x]; u == NextValue(s.file) || Numbers(u) == avoid
    ensures ParsePair(Data(s.file)[x]) == Some((i, i + 1))
    ensures !Share(ParsePair(Entries(n, NextValue(s.file))[x]), Some((i, i + 1)))
  {
    hide *;
    KnownEntry(s, x, i);
    EntryUsed(Data(s.file), x);
    NextApart(s.file, i);
    if Numbers(Entries(n, NextValue(s.file))[x]) == avoid {
      NumbersApart(Entries(n, NextValue(s.file))[x], avoid, i);
    }
  }

  lemma SameAnswers(s: State, t: State, x: string)
    requires t.configMaps == s.configMaps && NoneEmpty(s)
    ensures NoneEmpty(t) && GetOrAllocateVRIDs(t, x) == GetOrAllocateVRIDs(s, x)
  {
    hide ParsePair;
  }

  /** A run that ends with the entry of a carried name overwritten by n, and its cluster unaware. */
  lemma HarmfulRun(n: string) returns (events: seq<Event>, e: Event, x: string, i: int)
    requires !Harmless(n)
    ensures NamesOk(events) && e.cluster == n && NameOk(x)
    ensures var s := Run(INITIAL, events);
            var t := Startup(s, n, e.fs, e.order).0;
            Unrecorded(t, x, i) && !Kept(Data(s.file), Data(t.file))
  {
    var avoid;
    x, avoid := HarmfulEntry(n);
    InitialPair();
    InitialInv();
    assert !NameOk(n);
    hide Inv, Startup, GetOrAllocateVRIDs, NameOk, ValueOk, NextPair, NextValue, UsedVRIDs, Run, NamesOk, FreePair, Aligned, Harmless, Data, Entries, Numbers, ParsePair;
    SubsetSize(avoid - UsedVRIDs(Data(INITIAL.file)), avoid);
    events, i := RegisterApart(INITIAL, x, avoid);
    var s := Run(INITIAL, events);
    EntriesOk(s.file);
    NextIsThere(s);
    NextPairOk(s.file);
    OverwritingStartup(s, n, Listed(s.file));
    OverwrittenApart(s, n, x, avoid, i);
    e := Event(n, UPDATE_LOST, Listed(s.file) + [n]);
    InvNoneEmpty(s);
    SameAnswers(s, Startup(s, n, e.fs, e.order).0, x);
    assert Share(Some((i, i + 1)), Some((i, i + 1)));
    hide Share;
  }

  lemma FromHarmless(events: seq<Event>, names: set<string>)
    requires From(events, names) && forall n :: n in names ==> Harmless(n)
    ensures NamesHarmless(events)
  {
    hide NameOk, Entries;
    forall i | 0 <= i < |events| ensures Harmless(events[i].cluster) {
      assert NameOk(events[i].cluster) || events[i].cluster in names;
    }
  }

  lemma FromOk(events: seq<Event>, names: set<string>)
    requires NamesOk(events)
    ensures From(events, names)
  {
    hide NameOk;
  }

  lemma FromAppend(xs: seq<Event>, ys: seq<Event>, names: set<string>)
    requires From(xs, names) && From(ys, names)
    ensures From(xs + ys, names)
  {
    hide NameOk;
  }

  lemma OneFrom(e: Event, names: set<string>)
    requires e.cluster in names
    ensures From([e], names)
  {
  }

  lemma HarmfulBreaks(n: string, names: set<string>)
    requires n in names && !Harmless(n)
    ensures exists events :: From(events, names) && !CarriedApart(Run(INITIAL, events))
    ensures exists before, after :: From(before, names) && From(after, names) &&
              !Kept(Data(Run(INITIAL, before).file), Data(Run(Run(INITIAL, before), after).file))
  {
    hide Startup, Data, Harmless, NameOk, Share, GetOrAllocateVRIDs, Run, Kept, From, NamesOk, Unrecorded;
    var before, e, x, i := HarmfulRun(n);
    var s := Run(INITIAL, before);
    FromOk(before, names);
    OneFrom(e, names);
    RunOne(s, e);
    var t := Run(s, [e]);
    var after, c := UnrecordedCollides(t, x, i);
    FromOk(after, names);
    FromAppend(before, [e], names);
    FromAppend(before + [e], after, names);
    RunAppend(INITIAL, before, [e]);
    RunAppend(INITIAL, before + [e], after);
    assert !CarriedApart(Run(INITIAL, before + [e] + after));
  }

  /** Over all runs from an empty server in which clusters with carried names start, and clusters
      from a given set: written pairs never change, and no two clusters with carried names ever
      share a VRID, exactly if the file carries each name of the set or drops its line whole. */
  lemma HarmlessExactly(names: set<string>)
    ensures (forall n :: n in names ==> Harmless(n))
            <==> forall events :: From(events, names) ==> CarriedApart(Run(INITIAL, events))
    ensures (forall n :: n in names ==> Harmless(n))
            <==> forall before, after :: From(before, names) && From(after, names) ==>
                   Kept(Data(Run(INITIAL, before).file), Data(Run(Run(INITIAL, before), after).file))
  {
    hide Startup, Data, Harmless, NameOk, Share, GetOrAllocateVRIDs, Run, Kept, Inv, From, NamesOk, NamesHarmless;
    if forall n :: n in names ==> Harmless(n) {
      InitialInv();
      forall events | From(events, names) ensures CarriedApart(Run(INITIAL, events)) {
        FromHarmless(events, names);
        PairsNeverChange(INITIAL, events);
        forall n, c | NameOk(n) && NameOk(c) && n != c
          ensures !Share(GetOrAllocateVRIDs(Run(INITIAL, events), n), GetOrAllocateVRIDs(Run(INITIAL, events), c))
        {
          GoodNeverShare(Run(INITIAL, events), n, c);
        }
      }
      forall before, after | From(before, names) && From(after, names)
        ensures Kept(Data(Run(INITIAL, before).file), Data(Run(Run(INITIAL, before), after).file))
      {
        FromHarmless(before, names);
        FromHarmless(after, names);
        PairsNeverChange(INITIAL, before);
        PairsNeverChange(Run(INITIAL, before), after);
      }
    } else {
      var n :| n in names && !Harmless(n);
      HarmfulBreaks(n, names);
    }
  }

  lemma MirroredKeys(s: State, c: string, v: string)
    ensures Mirrored(s, c, v).Keys == s.configMaps.Keys + {c}
  {
  }

  lemma StartupOnlyOwn(s: State, c: string, fs: StartupFaults, order: seq<string>)
    ensures Startup(s, c, fs, order).0.configMaps.Keys <= s.configMaps.Keys + {c}
  {
    hide *;
    if c in Data(s.file) {
      RegisteredMeaning(s, c, fs, order);
      MirroredKeys(s, c, Data(s.file)[c]);
    } else {
      NewMeaning(s, c, fs, order);
      MirroredKeys(s, c, NextValue(s.file));
    }
  }

  /** A ConfigMap belongs to a cluster that has started. */
  lemma {:induction false} OnlyStarted(s: State, events: seq<Event>, names: set<string>)
    requires From(events, names) && forall n :: n in names ==> NameOk(n)
    requires forall c :: c in s.configMaps ==> NameOk(c)
    ensures forall c :: c in Run(s, events).configMaps ==> NameOk(c)
    decreases |events|
  {
    hide Startup, NameOk;
    if events != [] {
      StartupOnlyOwn(s, events[0].cluster, events[0].fs, events[0].order);
      OnlyStarted(Startup(s, events[0].cluster, events[0].fs, events[0].order).0, events[1..], names);
    }
  }

  lemma Unheard(s: State, n: string, c: string)
    requires n !in s.configMaps || c !in s.configMaps
    ensures !Share(GetOrAllocateVRIDs(s, n), GetOrAllocateVRIDs(s, c))
  {
    hide ParsePair;
  }

  lemma CarriedRunApart(events: seq<Event>, names: set<string>)
    requires From(events, names) && forall n :: n in names ==> NameOk(n)
    ensures AllApart(Run(INITIAL, events))
  {
    InitialInv();
    assert forall n :: n in names ==> Harmless(n);
    FromHarmless(events, names);
    PairsNeverChange(INITIAL, events);
    var s := Run(INITIAL, events);
    OnlyStarted(INITIAL, events, names);
    hide Startup, Data, NameOk, Share, GetOrAllocateVRIDs, Run, Inv, From;
    forall n, c | n != c ensures !Share(GetOrAllocateVRIDs(s, n), GetOrAllocateVRIDs(s, c)) {
      if NameOk(n) && NameOk(c) { GoodNeverShare(s, n, c); } else { Unheard(s, n, c); }
    }
  }

  lemma ForgottenBreaks(n: string, names: set<string>)
    requires n in names && !NameOk(n)
    ensures exists events :: From(events, names) && !AllApart(Run(INITIAL, events))
  {
    InitialInv();
    InitialPair();
    hide Startup, Data, NameOk, Share, GetOrAllocateVRIDs, Run, Inv, From, NamesOk, Unrecorded;
    RememberedExactly(INITIAL, n, NO_FAULTS, []);
    var e := Event(n, NO_FAULTS, []);
    var i := ForgottenUnrecorded(INITIAL, n, []);
    RunOne(INITIAL, e);
    OneFrom(e, names);
    var t := Run(INITIAL, [e]);
    var after, c := UnrecordedCollides(t, n, i);
    FromOk(after, names);
    FromAppend([e], after, names);
    RunAppend(INITIAL, [e], after);
    assert !AllApart(Run(INITIAL, [e] + after));
  }

  /** And no two clusters at all ever share a VRID, exactly if each name of the set is carried. */
  lemma CarriedExactly(names: set<string>)
    ensures (forall n :: n in names ==> NameOk(n))
            <==> forall events :: From(events, names) ==> AllApart(Run(INITIAL, events))
  {
    InitialInv();
    if forall n :: n in names ==> NameOk(n) {
      forall events | From(events, names) ensures AllApart(Run(INITIAL, events)) { CarriedRunApart(events, names); }
    } else {
      var n :| n in names && !NameOk(n);
      ForgottenBreaks(n, names);
    }
  }

  /** Among clusters whose names the file can carry, a new cluster starts: whatever startups of
      such clusters follow, it never comes to share a VRID with another one, exactly if its own
      name is one the file can carry. */
  lemma NeverSharesExactly(before: seq<Event>, n: string, order: seq<string>)
    requires NamesOk(before) && n !in Data(Run(INITIAL, before).file)
    requires Startup(Run(INITIAL, before), n, NO_FAULTS, order).1.Done?
    ensures var t := Startup(Run(INITIAL, before), n, NO_FAULTS, order).0;
            NameOk(n) <==> forall after, c :: NamesOk(after) && c != n ==>
              !Share(GetOrAllocateVRIDs(Run(t, after), n), GetOrAllocateVRIDs(Run(t, after), c))
  {
    InitialInv();
    OkIsHarmless(before);
    PairsNeverChange(INITIAL, before);
    var s := Run(INITIAL, before);
    var t := Startup(s, n, NO_FAULTS, order).0;
    hide Data, GetOrAllocateVRIDs, NameOk, Share, Inv, NoneEmpty, Startup, Run, NamesOk, NamesHarmless, Harmless, Unrecorded, From;
    if NameOk(n) {
      forall after, c | NamesOk(after) && c != n
        ensures !Share(GetOrAllocateVRIDs(Run(t, after), n), GetOrAllocateVRIDs(Run(t, after), c))
      {
        var e := Event(n, NO_FAULTS, order);
        RunOne(s, e);
        RunAppend(INITIAL, before, [e]);
        RunAppend(INITIAL, before + [e], after);
        FromOk(before, {n});
        OneFrom(e, {n});
        FromOk(after, {n});
        FromAppend(before, [e], {n});
        FromAppend(before + [e], after, {n});
        CarriedRunApart(before + [e] + after, {n});
      }
    } else {
      var i := ForgottenUnrecorded(s, n, order);
      var after, c := UnrecordedCollides(t, n, i);
    }
  }

  // ---------- Names with blanks around them ----------

  lemma OneLine(n: string, v: string)
    requires '\n' !in n && LineRead(n) && ValueOk(v) && v != ""
    ensures Entries(n, v) == map[Trim(n) := v] && NameOk(Trim(n))
  {
    SplitWithout(n, '\n');
    EntriesExactly(n, v);
    EntriesOk(Some(Line(n, v)));
    assert Data(Some(Line(n, v))) == Entries(n, v);
    assert [n][..0] == [];
    assert ParseLines([]) == map[];
    hide LineRead, Trim, NameOk, ValueOk, Entries, ParseContent, Line;
    assert Trim(n) in Entries(n, v);
  }

  lemma NextIsOneTwo(file: Option<string>, x: string, v: string)
    requires Data(file) == map[x := v] && Numbers(v) !! {1, 2}
    ensures NextPair(file) == (1, 2)
  {
    hide ParsePair, Data;
    var used := UsedVRIDs(map[x := v]);
    UsedStep(map[], x, v);
    EmptyBranchAgrees();
    assert map[][x := v] == map[x := v];
    assert used == Numbers(v);
    assert FreePair(used, 1);
  }

  lemma RoomForTwo(s: State)
    requires Inv(s) && |Data(s.file)| == 1
    ensures NextPair(s.file) != (0, 0)
  {
    NextIsThere(s);
  }

  lemma NumbersOf(v: string, p: (int, int))
    requires ParsePair(v) == Some(p)
    ensures Numbers(v) == {p.0, p.1}
  {
    hide ParsePair;
  }

  lemma OnlyEntry(x: string, a: string, b: string, n: string)
    ensures IsOrder([x], map[x := a]) && [x] + [n] == [x, n] && |map[x := a]| == 1
    ensures map[x := a] + map[x := b] == map[x := b]
    ensures map[x := a].Keys == {x}
  {
  }

  lemma NextOfOther(file: Option<string>)
    requires NextPair(file) != (0, 0) && 1 in UsedVRIDs(Data(file)) && 2 in UsedVRIDs(Data(file))
    ensures Numbers(NextValue(file)) !! {1, 2}
  {
    NextPairOk(file);
    NextUnused(file);
    NumbersOf(NextValue(file), NextPair(file));
    hide Data, UsedVRIDs, NextPair, NextValue, ParsePair, ValueOk, Numbers;
  }

  /** The line with the blanks replaces the only entry of the file. */
  lemma BlankOverwrites(s: State, n: string)
    requires '\n' !in n && LineRead(n) && !NameOk(n)
    requires Inv(s) && Data(s.file) == map[Trim(n) := NextValue(INITIAL.file)]
    ensures var t := Startup(s, n, UPDATE_LOST, [Trim(n), n]).0;
            Data(t.file) == map[Trim(n) := NextValue(s.file)] && NextPair(t.file) == (1, 2) && t.configMaps == s.configMaps
  {
    hide *;
    var x, one, v := Trim(n), NextValue(INITIAL.file), NextValue(s.file);
    OnlyEntry(x, one, v, n);
    InitialPair();
    NextPairOk(INITIAL.file);
    EntriesOk(s.file);
    RoomForTwo(s);
    NextPairOk(s.file);
    EntryUsed(Data(s.file), x);
    NextOfOther(s.file);
    OneLine(n, v);
    OverwritingStartup(s, n, [x]);
    NextIsOneTwo(Startup(s, n, UPDATE_LOST, [x, n]).0.file, x, v);
  }

  lemma FirstOnly(s: State, c: string, x: string)
    requires Inv(s) && Data(s.file).Keys == {x} && c != x && NameOk(c)
    ensures c !in s.configMaps
  {
    hide Data, GoodData, ParsePair, NameOk;
  }

  lemma FirstStartup(x: string, c: string) returns (s: State)
    requires NameOk(x) && NameOk(c) && c != x
    ensures s == Startup(INITIAL, x, NO_FAULTS, []).0 && Inv(s)
    ensures Data(s.file) == map[x := NextValue(INITIAL.file)] && c !in s.configMaps
    ensures GetOrAllocateVRIDs(s, x) == Some((1, 2))
  {
    hide *;
    InitialPair();
    InitialInv();
    InvNoneEmpty(INITIAL);
    FreshStartup(INITIAL, x, c);
    FreshKeeps(INITIAL, x);
    s := Startup(INITIAL, x, NO_FAULTS, []).0;
    OnlyEntry(x, NextValue(INITIAL.file), "", c);
    assert map[][x := NextValue(INITIAL.file)] == map[x := NextValue(INITIAL.file)];
    FirstOnly(s, c, x);
  }

  /** Three startups, the second of a cluster whose name is the first one's with blanks around it:
      the first and the third come to share the pair 1,2, although the file carries both names. */
  lemma BlankNamesCollide(n: string, c: string)
    requires '\n' !in n && LineRead(n) && !NameOk(n) && NameOk(c) && c != Trim(n)
    ensures var s := Startup(INITIAL, Trim(n), NO_FAULTS, []).0;
            var t := Startup(s, n, UPDATE_LOST, [Trim(n), n]).0;
            var u := Startup(t, c, NO_FAULTS, []).0;
            GetOrAllocateVRIDs(u, Trim(n)) == GetOrAllocateVRIDs(u, c) == Some((1, 2))
  {
    PairTextOk(1, 2);
    hide *;
    OneLine(n, FormatPair(1, 2));
    var s := FirstStartup(Trim(n), c);
    BlankOverwrites(s, n);
    var t := Startup(s, n, UPDATE_LOST, [Trim(n), n]).0;
    InvNoneEmpty(s);
    SameAnswers(s, t, Trim(n));
    OnlyEntry(Trim(n), NextValue(s.file), "", n);
    FreshStartup(t, c, Trim(n));
  }

  // ---------- Names with a colon ----------

  lemma ColonNameForgotten(n: string, v: string, order: seq<string>)
    requires ':' in n && '\n' !in n && '\n' !in v
    requires IsOrder(order, map[n := v])
    ensures Data(Some(Print(order, map[n := v]) + "\n")) == map[]
  {
    var data := map[n := v];
    SecondColonDropsLine(n, v);
    assert forall m :: m in order ==> Line(m, data[m]) == Line(n, v);
    PrintedLines(order, data);
    hide ParseLine, Split, Print, Line;
    var lines := Split(Print(order, data) + "\n", '\n');
    assert lines == lines[..|order|] + ["", ""];
    forall i | 0 <= i < |order| ensures ParseLine(lines[..|order|][i]) == None { assert order[i] in order; }
    AllSkipped(lines[..|order|]);
    BlankLinesIgnored(lines[..|order|]);
  }

  lemma EmptyFileStartup(s: State, c: string, order: seq<string>)
    requires Data(s.file) == map[] && c !in s.configMaps
    ensures var entry := map[c := FormatPair(1, 2)];
            Startup(s, c, NO_FAULTS, order).0
            == State(Some(Print(Enumeration(order, entry), entry) + "\n"), s.configMaps[c := entry])
  {
    hide Data, Print, FormatPair, FirstFreePair, UsedVRIDs;
    assert |Data(s.file)| == 0;
  }

  /** At once so for every name with a colon: after such a cluster has started on an empty server,
      the next one is given the same pair. */
  lemma ColonNamesCollide(n: string, c: string, orderN: seq<string>, orderC: seq<string>)
    requires ':' in n && '\n' !in n && n != c
    ensures var s := Startup(INITIAL, n, NO_FAULTS, orderN).0;
            var t := Startup(s, c, NO_FAULTS, orderC).0;
            GetOrAllocateVRIDs(t, n) == GetOrAllocateVRIDs(t, c) == Some((1, 2))
  {
    InitialInv();
    PairTextOk(1, 2);
    PairRoundTrip(1, 2);
    hide FormatPair, ParseContent, Print, ParsePair, UsedVRIDs, FirstFreePair, Inv, ValueOk;
    ColonNameForgotten(n, FormatPair(1, 2), Enumeration(orderN, map[n := FormatPair(1, 2)]));
    var s := Startup(INITIAL, n, NO_FAULTS, orderN).0;
    EmptyFileStartup(INITIAL, n, orderN);
    EmptyFileStartup(s, c, orderC);
  }
}
