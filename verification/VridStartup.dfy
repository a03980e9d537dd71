/**
 VRID allocation at startup (utils/vrid.go). Clusters share VRID_allocations.conf on one server
 and each mirrors its own entry in its ConfigMap; a startup writes the file first and the
 ConfigMap second, and may fail or crash around either write. Startups of different clusters
 do not overlap, and a cluster is known by its name.
 */
module VridStartup {
  import opened Text
  import opened Faults
  import opened Vrid
  import opened VridLines
  import Vips

  /** The file, and the vrid-allocations ConfigMap of each cluster that has one. */
  datatype State = State(file: Option<string>, configMaps: map<string, map<string, string>>)

  const INITIAL := State(None, map[])

  /** Which calls of one startup go wrong. */
  datatype StartupFaults = StartupFaults(fetchFails: bool, write: Fault, getFails: bool, update: Fault)

  const NO_FAULTS := StartupFaults(false, Fine, false, Fine)

  datatype Result = Done | Failed | Panicked

  /** FetchVRIDAllocationsFromNGINX: a missing file reads as empty text. */
  function Data(file: Option<string>): map<string, string> {
    ParseContent(match file case Some(text) => text case None => "")
  }

  /** updateConfigMapWithClusterVRID. An error other than NotFound, or a ConfigMap without data,
      leaves a nil map behind, and assigning to it panics. */
  function UpdateConfigMap(s: State, cluster: string, v: string, getFails: bool, update: Fault): (State, Result) {
    if getFails then (s, Panicked)
    else if cluster in s.configMaps && s.configMaps[cluster] == map[] then (s, Panicked)
    else
      var data := if cluster in s.configMaps then s.configMaps[cluster][cluster := v] else map[cluster := v];
      (if update == LostBefore then s else s.(configMaps := s.configMaps[cluster := data]),
       if update.Fine? then Done else Failed)
  }

  /** The order the map is enumerated in: `order` if it is one, else some other. */
  ghost function Enumeration(order: seq<string>, data: map<string, string>): (r: seq<string>)
    ensures IsOrder(r, data)
  {
    if IsOrder(order, data) then order else Vips.Listing(data.Keys)
  }

  /** Register the cluster's new entry: file first, ConfigMap second. */
  ghost function Register(s: State, cluster: string, data: map<string, string>, fs: StartupFaults, order: seq<string>): (State, Result)
    requires cluster in data
  {
    var written := s.(file := Some(Print(Enumeration(order, data), data) + "\n"));
    if fs.write == LostBefore then (s, Failed)
    else if fs.write == LostAfter then (written, Failed)
    else UpdateConfigMap(written, cluster, data[cluster], fs.getFails, fs.update)
  }

  /** GetOrAllocateVRIDsOnStartup. */
  ghost function Startup(s: State, cluster: string, fs: StartupFaults, order: seq<string>): (State, Result) {
    var data := Data(s.file);
    if fs.fetchFails then (s, Failed)
    else if |data| == 0 then Register(s, cluster, map[cluster := FormatPair(1, 2)], fs, order)
    else if cluster in data then UpdateConfigMap(s, cluster, data[cluster], fs.getFails, fs.update)
    else
      var r := FirstFreePair(UsedVRIDs(data), 1);
      if r.0 == 0 || r.1 == 0 then (s, Failed)
      else Register(s, cluster, data[cluster := FormatPair(r.0, r.1)], fs, order)
  }

  /** GetOrAllocateVRIDs, which reads the ConfigMap only. */
  function GetOrAllocateVRIDs(s: State, cluster: string): Option<(int, int)> {
    if cluster in s.configMaps && cluster in s.configMaps[cluster]
    then ParsePair(s.configMaps[cluster][cluster])
    else None
  }

  // ---------- A cluster that is not in the file ----------

  /** Whatever the file holds, what is read from it are names and values the format can carry. */
  lemma EntriesOk(file: Option<string>)
    ensures forall n :: n in Data(file) ==> NameOk(n) && ValueOk(Data(file)[n])
  {
    hide ParseLines, Split, NameOk, ValueOk;
    var text := match file case Some(text) => text case None => "";
    SplitParts(text, '\n');
    ParsedEntriesOk(Split(text, '\n'));
  }

  /** The pair that the next new cluster is given, if there is one. */
  function NextPair(file: Option<string>): (int, int) { FirstFreePair(UsedVRIDs(Data(file)), 1) }

  function NextValue(file: Option<string>): string { FormatPair(NextPair(file).0, NextPair(file).1) }

  lemma NextPairOk(file: Option<string>)
    requires NextPair(file) != (0, 0)
    ensures var r := NextPair(file); Aligned(r.0) && r.1 == r.0 + 1 && FreePair(UsedVRIDs(Data(file)), r.0)
    ensures ValueOk(NextValue(file)) && NextValue(file) != "" && ParsePair(NextValue(file)) == Some(NextPair(file))
  {
    hide UsedVRIDs, FirstFreePair, Data, ParsePair, ValueOk, FormatPair;
    PairFound(UsedVRIDs(Data(file)));
    PairTextOk(NextPair(file).0, NextPair(file).1);
    PairRoundTrip(NextPair(file).0, NextPair(file).1);
  }

  /** Both branches for a new cluster do the same. */
  lemma NewStartup(s: State, cluster: string, fs: StartupFaults, order: seq<string>)
    requires cluster !in Data(s.file)
    ensures var r := NextPair(s.file);
            Startup(s, cluster, fs, order)
            == if fs.fetchFails || r == (0, 0) then (s, Failed)
               else Register(s, cluster, Data(s.file)[cluster := NextValue(s.file)], fs, order)
  {
    var data := Data(s.file);
    if |data| == 0 {
      assert data == map[];
      EmptyBranchAgrees();
      assert data[cluster := FormatPair(1, 2)] == map[cluster := FormatPair(1, 2)];
    } else if NextPair(s.file) != (0, 0) {
      NextPairOk(s.file);
    }
    hide Data, Register, FormatPair, UsedVRIDs, FirstFreePair;
  }

  /** The cluster's ConfigMap with its entry set. */
  function Mirrored(s: State, cluster: string, v: string): map<string, map<string, string>> {
    s.configMaps[cluster := if cluster in s.configMaps then s.configMaps[cluster][cluster := v] else map[cluster := v]]
  }

  /** The file with the new cluster's line in it. */
  ghost function Written(file: Option<string>, cluster: string, order: seq<string>): Option<string> {
    var data := Data(file)[cluster := NextValue(file)];
    Some(Print(Enumeration(order, data), data) + "\n")
  }

  /** What the next startup reads. */
  lemma WrittenIsRead(file: Option<string>, cluster: string, order: seq<string>)
    requires cluster !in Data(file) && NextPair(file) != (0, 0)
    ensures Mixed(Data(file), Entries(cluster, NextValue(file)), Data(Written(file, cluster, order)))
  {
    EntriesOk(file);
    NextPairOk(file);
    var data := Data(file)[cluster := NextValue(file)];
    var e := Enumeration(order, data);
    hide Print, Enumeration, Entries, ReadBack, NameOk, ValueOk, NextValue, NextPair, ParseContent, Mixed;
    PrintedIsReadBack(e, data);
    AddedReadBack(e, Data(file), cluster, NextValue(file));
  }

  /** When the name is one the file carries, that is its own entry; otherwise it is not among them. */
  lemma WrittenForName(file: Option<string>, cluster: string, order: seq<string>)
    requires cluster !in Data(file) && NextPair(file) != (0, 0)
    ensures var after := Data(Written(file, cluster, order));
            && (NameOk(cluster) ==> after == Data(file)[cluster := NextValue(file)])
            && (!NameOk(cluster) ==> cluster !in after)
            && (!NameOk(cluster) && Harmless(cluster) ==> after == Data(file))
  {
    hide *;
    NextPairOk(file);
    EntriesOk(Written(file, cluster, order));
    EntriesOfHarmless(cluster, NextValue(file));
    WrittenIsRead(file, cluster, order);
    var after := Data(Written(file, cluster, order));
    if NameOk(cluster) {
      CarriedEntries(cluster, NextValue(file));
      MixedOne(Data(file), cluster, NextValue(file), after);
    } else if Harmless(cluster) {
      MixedNone(Data(file), after);
    }
  }

  /** The writes of a new cluster's startup: file first, ConfigMap second. */
  lemma RegisterMeaning(s: State, cluster: string, fs: StartupFaults, order: seq<string>)
    requires cluster !in Data(s.file)
    ensures var data := Data(s.file)[cluster := NextValue(s.file)];
            var t, r := Register(s, cluster, data, fs, order).0, Register(s, cluster, data, fs, order).1;
            var w, m := Written(s.file, cluster, order), Mirrored(s, cluster, NextValue(s.file));
            && t in {s, State(w, s.configMaps), State(w, m)}
            && (r.Done? ==> t == State(w, m))
            && (r.Panicked? ==> fs.getFails || (cluster in s.configMaps && s.configMaps[cluster] == map[]))
            && (fs == NO_FAULTS && (cluster in s.configMaps ==> s.configMaps[cluster] != map[]) ==> r.Done?)
            && (!fs.fetchFails && fs.write != LostBefore ==> t.file == w)
            && (fs.update == LostBefore ==> t.configMaps == s.configMaps)
  {
    hide Print, Enumeration, Data, NextValue;
  }

  /** The same of the whole startup. */
  lemma NewMeaning(s: State, cluster: string, fs: StartupFaults, order: seq<string>)
    requires cluster !in Data(s.file)
    ensures var t, r := Startup(s, cluster, fs, order).0, Startup(s, cluster, fs, order).1;
            var w, m := Written(s.file, cluster, order), Mirrored(s, cluster, NextValue(s.file));
            && (t == s || (NextPair(s.file) != (0, 0) && (t == State(w, s.configMaps) || t == State(w, m))))
            && (r.Done? ==> NextPair(s.file) != (0, 0) && t == State(w, m))
            && (r.Panicked? ==> fs.getFails || (cluster in s.configMaps && s.configMaps[cluster] == map[]))
            && (fs == NO_FAULTS && (cluster in s.configMaps ==> s.configMaps[cluster] != map[])
                ==> (r.Done? <==> NextPair(s.file) != (0, 0)))
            && (NextPair(s.file) != (0, 0) && !fs.fetchFails && fs.write != LostBefore ==> t.file == w)
            && (fs.update == LostBefore ==> t.configMaps == s.configMaps)
  {
    assert !NO_FAULTS.fetchFails;
    hide *;
    NewStartup(s, cluster, fs, order);
    RegisterMeaning(s, cluster, fs, order);
  }

  // ---------- What every startup keeps ----------

  /** Each ConfigMap has its cluster's pair and nothing else. */
  ghost predicate EachOwn(configMaps: map<string, map<string, string>>) {
    forall c :: c in configMaps ==> configMaps[c].Keys == {c} && ParsePair(configMaps[c][c]).Some?
  }

  /** For a cluster whose name the file can carry, that is the pair in the file. */
  ghost predicate Mirrors(configMaps: map<string, map<string, string>>, data: map<string, string>) {
    forall c :: c in configMaps && NameOk(c) ==> c in data && c in configMaps[c] && configMaps[c][c] == data[c]
  }

  ghost predicate Inv(s: State) {
    && GoodData(Data(s.file)) && (forall n :: n in Data(s.file) ==> NameOk(n))
    && EachOwn(s.configMaps) && Mirrors(s.configMaps, Data(s.file))
  }

  lemma InitialInv()
    ensures Inv(INITIAL) && Data(INITIAL.file) == map[]
  {
    assert Split("", '\n') == [""];
    assert ParseLine("") == None;
    assert ParseLines([""]) == ParseLines([""][..0]);
  }

  /** No entry is lost or changed, and at most the cluster's own is added. */
  ghost predicate Extends(before: map<string, string>, after: map<string, string>, cluster: string) {
    && (forall n :: n in before ==> n in after && after[n] == before[n])
    && (forall n :: n in after ==> n in before || n == cluster)
  }

  lemma NextGood(file: Option<string>, cluster: string)
    requires GoodData(Data(file)) && cluster !in Data(file) && NextPair(file) != (0, 0)
    ensures GoodData(Data(file)[cluster := NextValue(file)])
  {
    hide Data, UsedVRIDs, FirstFreePair, FormatPair, GoodData;
    ExtendGood(Data(file), cluster);
  }

  lemma ExtendsOne(data: map<string, string>, c: string, v: string)
    requires c !in data
    ensures Extends(data, data[c := v], c) && Extends(data, data, c)
  {
  }

  lemma FileKept(file: Option<string>, cluster: string, order: seq<string>)
    requires GoodData(Data(file)) && Harmless(cluster) && cluster !in Data(file) && NextPair(file) != (0, 0)
    ensures var after := Data(Written(file, cluster, order));
            && GoodData(after) && Extends(Data(file), after, cluster)
            && if NameOk(cluster) then cluster in after && after[cluster] == NextValue(file) else after == Data(file)
  {
    hide *;
    WrittenForName(file, cluster, order);
    NextGood(file, cluster);
    ExtendsOne(Data(file), cluster, NextValue(file));
  }

  lemma MirroredIs(s: State, cluster: string, v: string)
    requires EachOwn(s.configMaps)
    ensures Mirrored(s, cluster, v) == s.configMaps[cluster := map[cluster := v]]
  {
    hide ParsePair;
    if cluster in s.configMaps {
      assert s.configMaps[cluster][cluster := v] == map[cluster := v];
    }
  }

  lemma OwnAdded(configMaps: map<string, map<string, string>>, c: string, v: string)
    requires EachOwn(configMaps) && ParsePair(v).Some?
    ensures EachOwn(configMaps[c := map[c := v]])
  {
    hide ParsePair;
    var one := map[c := v];
    assert one.Keys == {c} && one[c] == v;
  }

  lemma MirrorAdded(configMaps: map<string, map<string, string>>, before: map<string, string>, after: map<string, string>,
                    c: string, v: string)
    requires Mirrors(configMaps, before) && Extends(before, after, c) && (NameOk(c) ==> c in after && after[c] == v)
    ensures Mirrors(configMaps[c := map[c := v]], after) && Mirrors(configMaps, after)
  {
    hide NameOk;
    var one := map[c := v];
    assert c in one && one[c] == v;
  }

  lemma MirroredKeeps(s: State, file: Option<string>, cluster: string, v: string)
    requires Inv(s) && GoodData(Data(file)) && ParsePair(v).Some?
    requires Extends(Data(s.file), Data(file), cluster) && (NameOk(cluster) ==> cluster in Data(file) && Data(file)[cluster] == v)
    ensures Inv(State(file, Mirrored(s, cluster, v))) && Inv(State(file, s.configMaps))
    ensures Mirrored(s, cluster, v) == s.configMaps[cluster := map[cluster := v]]
  {
    EntriesOk(file);
    MirroredIs(s, cluster, v);
    OwnAdded(s.configMaps, cluster, v);
    MirrorAdded(s.configMaps, Data(s.file), Data(file), cluster, v);
    hide Data, GoodData, ParsePair, NameOk, ValueOk, Mirrored, EachOwn, Mirrors, Extends;
  }

  /** A startup of a cluster that is in the file writes the ConfigMap only. */
  lemma RegisteredMeaning(s: State, cluster: string, fs: StartupFaults, order: seq<string>)
    requires cluster in Data(s.file)
    ensures var t, r := Startup(s, cluster, fs, order).0, Startup(s, cluster, fs, order).1;
            var m := Mirrored(s, cluster, Data(s.file)[cluster]);
            && (t == s || t == State(s.file, m))
            && (r.Done? ==> t == State(s.file, m))
            && (r.Panicked? ==> fs.getFails || (cluster in s.configMaps && s.configMaps[cluster] == map[]))
            && (fs == NO_FAULTS && (cluster in s.configMaps ==> s.configMaps[cluster] != map[]) ==> r.Done?)
  {
    hide Data, Register, FirstFreePair, UsedVRIDs, FormatPair;
    assert |Data(s.file)| != 0;
  }

  /** Without faults, a startup of a cluster of any name succeeds iff the cluster is registered or
      fewer than 127 others are. */
  lemma FaultlessExactly(s: State, cluster: string, order: seq<string>)
    requires Inv(s)
    ensures Startup(s, cluster, NO_FAULTS, order).1.Done? <==> cluster in Data(s.file) || |Data(s.file)| < CAPACITY
  {
    ExactCapacity(Data(s.file));
    assert cluster in s.configMaps ==> cluster in s.configMaps[cluster];
    hide Data, GoodData, NameOk, ParsePair, Startup, UsedVRIDs, FirstFreePair, Written, Mirrored, NextValue;
    if cluster in Data(s.file) {
      RegisteredMeaning(s, cluster, NO_FAULTS, order);
    } else {
      NewMeaning(s, cluster, NO_FAULTS, order);
    }
  }

  lemma NewKeeps(s: State, cluster: string, fs: StartupFaults, order: seq<string>)
    requires Inv(s) && Harmless(cluster) && cluster !in Data(s.file)
    ensures var t, r := Startup(s, cluster, fs, order).0, Startup(s, cluster, fs, order).1;
            && Inv(t) && Extends(Data(s.file), Data(t.file), cluster)
            && (r.Done? ==> (cluster in Data(t.file) <==> NameOk(cluster)))
            && (r.Done? && NameOk(cluster) ==> t.configMaps == s.configMaps[cluster := map[cluster := Data(t.file)[cluster]]])
            && (r.Panicked? ==> fs.getFails)
  {
    assert cluster in s.configMaps ==> cluster in s.configMaps[cluster];
    NewMeaning(s, cluster, fs, order);
    if NextPair(s.file) != (0, 0) {
      NextPairOk(s.file);
      FileKept(s.file, cluster, order);
      MirroredKeeps(s, Written(s.file, cluster, order), cluster, NextValue(s.file));
      WrittenForName(s.file, cluster, order);
    }
    hide Data, GoodData, NameOk, ParsePair, Startup, NextPair, Written, Mirrored, NextValue, Harmless, Inv;
  }

  lemma RegisteredKeeps(s: State, cluster: string, fs: StartupFaults, order: seq<string>)
    requires Inv(s) && cluster in Data(s.file)
    ensures var t, r := Startup(s, cluster, fs, order).0, Startup(s, cluster, fs, order).1;
            && Inv(t) && t.file == s.file
            && (r.Done? ==> t.configMaps == s.configMaps[cluster := map[cluster := Data(s.file)[cluster]]])
            && (r.Panicked? ==> fs.getFails)
  {
    assert cluster in s.configMaps ==> cluster in s.configMaps[cluster];
    RegisteredMeaning(s, cluster, fs, order);
    GoodEntry(Data(s.file), cluster);
    MirroredKeeps(s, s.file, cluster, Data(s.file)[cluster]);
    hide Data, GoodData, NameOk, ParsePair, Startup, Mirrored, Inv, First;
  }

  /** One startup, whatever fails in it, of a cluster whose name the file carries or drops whole:
      the file stays good and no entry is lost or changed. On success the cluster is in the file
      exactly if its name is carried, and then its ConfigMap has the file's entry. */
  lemma StartupMeaning(s: State, cluster: string, fs: StartupFaults, order: seq<string>)
    requires Inv(s) && Harmless(cluster)
    ensures var t, r := Startup(s, cluster, fs, order).0, Startup(s, cluster, fs, order).1;
            && Inv(t)
            && Extends(Data(s.file), Data(t.file), cluster)
            && (r.Done? ==> (cluster in Data(t.file) <==> NameOk(cluster)))
            && (r.Done? && NameOk(cluster) ==>
                  t.configMaps == s.configMaps[cluster := map[cluster := Data(t.file)[cluster]]])
            && (fs == NO_FAULTS ==> (r.Done? <==> cluster in Data(s.file) || |Data(s.file)| < CAPACITY))
            && (r.Panicked? ==> fs.getFails)
  {
    EntriesOk(s.file);
    FaultlessExactly(s, cluster, order);
    hide Startup, Data, NameOk, ValueOk, Inv, Harmless;
    if cluster in Data(s.file) {
      RegisteredKeeps(s, cluster, fs, order);
    } else {
      NewKeeps(s, cluster, fs, order);
    }
  }

  // ---------- Every outcome ----------

  /** The startup comes to writing the file: the cluster is not in it, and there is a free pair. */
  predicate WritesFile(s: State, cluster: string, fs: StartupFaults) {
    !fs.fetchFails && cluster !in Data(s.file) && NextPair(s.file) != (0, 0)
  }

  /** It comes to the ConfigMap. */
  predicate ReachesUpdate(s: State, cluster: string, fs: StartupFaults) {
    !fs.fetchFails && (cluster in Data(s.file) || (WritesFile(s, cluster, fs) && fs.write.Fine?))
  }

  /** Assigning to the nil map: the ConfigMap could not be read, or is there without data. */
  predicate NilMap(s: State, cluster: string, fs: StartupFaults) {
    fs.getFails || (cluster in s.configMaps && s.configMaps[cluster] == map[])
  }

  /** What a startup does under every schedule of failures, in every state and for every name:
      when it panics, when it succeeds, and what it writes. */
  ghost predicate Outcome(s: State, cluster: string, fs: StartupFaults, order: seq<string>, t: State, r: Result) {
    var updates := ReachesUpdate(s, cluster, fs) && !NilMap(s, cluster, fs);
    var v := if cluster in Data(s.file) then Data(s.file)[cluster] else NextValue(s.file);
    && (r.Panicked? <==> ReachesUpdate(s, cluster, fs) && NilMap(s, cluster, fs))
    && (r.Done? <==> updates && fs.update.Fine?)
    && t.file == (if WritesFile(s, cluster, fs) && fs.write != LostBefore then Written(s.file, cluster, order) else s.file)
    && t.configMaps == (if updates && fs.update != LostBefore then Mirrored(s, cluster, v) else s.configMaps)
  }

  lemma RegisterOutcome(s: State, cluster: string, fs: StartupFaults, order: seq<string>)
    requires cluster !in Data(s.file) && NextPair(s.file) != (0, 0) && !fs.fetchFails
    ensures var data := Data(s.file)[cluster := NextValue(s.file)];
            var r := Register(s, cluster, data, fs, order);
            Outcome(s, cluster, fs, order, r.0, r.1)
  {
    hide Print, Enumeration, Data, NextValue, NextPair;
  }

  lemma StartupExactly(s: State, cluster: string, fs: StartupFaults, order: seq<string>)
    ensures Outcome(s, cluster, fs, order, Startup(s, cluster, fs, order).0, Startup(s, cluster, fs, order).1)
  {
    hide Data, Register, FirstFreePair, UsedVRIDs, FormatPair, NextValue, NextPair, Written;
    if cluster in Data(s.file) {
      assert |Data(s.file)| != 0;
    } else {
      NewStartup(s, cluster, fs, order);
      hide Startup;
      if !fs.fetchFails && NextPair(s.file) != (0, 0) {
        RegisterOutcome(s, cluster, fs, order);
      }
    }
  }

  // ---------- Any sequence of startups ----------

  datatype Event = Event(cluster: string, fs: StartupFaults, order: seq<string>)

  ghost function Run(s: State, events: seq<Event>): State
    decreases |events|
  {
    if events == [] then s
    else Run(Startup(s, events[0].cluster, events[0].fs, events[0].order).0, events[1..])
  }

  /** Every cluster that starts has a name the file can carry. */
  ghost predicate NamesOk(events: seq<Event>) {
    forall i :: 0 <= i < |events| ==> NameOk(events[i].cluster)
  }

  /** ... or one it drops whole. */
  ghost predicate NamesHarmless(events: seq<Event>) {
    forall i :: 0 <= i < |events| ==> Harmless(events[i].cluster)
  }

  ghost predicate Kept(before: map<string, string>, after: map<string, string>) {
    forall n :: n in before ==> n in after && after[n] == before[n]
  }

  /** Over any startups of clusters with harmless names, failed or not, the file stays good and
      written pairs never change. */
  lemma {:induction false} PairsNeverChange(s: State, events: seq<Event>)
    requires Inv(s) && NamesHarmless(events)
    ensures Inv(Run(s, events)) && Kept(Data(s.file), Data(Run(s, events).file))
    decreases |events|
  {
    if events != [] {
      hide Startup, Data, Harmless, Inv;
      StartupMeaning(s, events[0].cluster, events[0].fs, events[0].order);
      PairsNeverChange(Startup(s, events[0].cluster, events[0].fs, events[0].order).0, events[1..]);
    }
  }

  /** From an empty server, after any startups of clusters with harmless names: two registered
      clusters share no VRID, all VRIDs are legal, and at most 127 clusters are registered. */
  lemma PairsAlwaysDisjoint(events: seq<Event>, n: string, m: string)
    requires NamesHarmless(events)
    requires n in Data(Run(INITIAL, events).file) && m in Data(Run(INITIAL, events).file) && n != m
    ensures var data := Data(Run(INITIAL, events).file);
            && |data| <= CAPACITY
            && ParsePair(data[n]).Some? && ParsePair(data[m]).Some?
            && var p, q := ParsePair(data[n]).value, ParsePair(data[m]).value;
               && p.0 != p.1 && q.0 != q.1 && p.0 != q.0 && p.0 != q.1 && p.1 != q.0 && p.1 != q.1
               && 1 <= p.0 <= 254 && 1 <= p.1 <= 254 && 1 <= q.0 <= 254 && 1 <= q.1 <= 254
  {
    InitialInv();
    PairsNeverChange(INITIAL, events);
    ExactCapacity(Data(Run(INITIAL, events).file));
    GoodDataDisjoint(Data(Run(INITIAL, events).file), n, m);
    hide Run, Data, GoodData, ParsePair, FirstFreePair, UsedVRIDs;
  }

  /** A cluster that has a ConfigMap is in the file exactly if its name is carried, and then the
      ConfigMap answers the legal pair in the file. */
  lemma ConfigMapMirrorsFile(s: State, cluster: string)
    requires Inv(s) && cluster in s.configMaps
    ensures GetOrAllocateVRIDs(s, cluster).Some?
    ensures cluster in Data(s.file) <==> NameOk(cluster)
    ensures NameOk(cluster) ==> GetOrAllocateVRIDs(s, cluster) == ParsePair(Data(s.file)[cluster])
  {
    EntriesOk(s.file);
    assert cluster in s.configMaps[cluster].Keys;
    hide Data, GoodData, ParsePair, NameOk, ValueOk;
  }

  /** Crash recovery: whatever happened before, a startup that succeeds leaves every written pair
      as it was, and GetOrAllocateVRIDs then returns exactly the pair in the file, if the name is
      one the file carries. */
  lemma CrashRecovery(events: seq<Event>, cluster: string, fs: StartupFaults, order: seq<string>)
    requires NamesHarmless(events) && Harmless(cluster)
    requires Startup(Run(INITIAL, events), cluster, fs, order).1.Done?
    ensures var s := Run(INITIAL, events);
            var t := Startup(s, cluster, fs, order).0;
            && Extends(Data(s.file), Data(t.file), cluster)
            && (cluster in Data(t.file) <==> NameOk(cluster))
            && (NameOk(cluster) ==> GetOrAllocateVRIDs(t, cluster).Some?
                                    && GetOrAllocateVRIDs(t, cluster) == ParsePair(Data(t.file)[cluster]))
  {
    InitialInv();
    PairsNeverChange(INITIAL, events);
    hide Startup, Run, Data, ParsePair, NameOk, Harmless, Inv, Extends, GetOrAllocateVRIDs;
    var s := Run(INITIAL, events);
    StartupMeaning(s, cluster, fs, order);
    if NameOk(cluster) { ConfigMapMirrorsFile(Startup(s, cluster, fs, order).0, cluster); }
  }

  /** Retrying never stops helping: after any startups of clusters with harmless names, a faultless
      one of any cluster succeeds exactly when it is registered already or there is room. */
  lemma FaultlessStartupExactly(events: seq<Event>, cluster: string, order: seq<string>)
    requires NamesHarmless(events)
    ensures var s := Run(INITIAL, events);
            Startup(s, cluster, NO_FAULTS, order).1.Done?
            <==> cluster in Data(s.file) || |Data(s.file)| < CAPACITY
  {
    InitialInv();
    PairsNeverChange(INITIAL, events);
    hide Startup, Run, Data, Inv;
    FaultlessExactly(Run(INITIAL, events), cluster, order);
  }

  // ---------- The startup procedure ----------

  class Server {
    var file: Option<string>
    var configMaps: map<string, map<string, string>>

    function Contents(): State
      reads this
    {
      State(file, configMaps)
    }

    method FetchVRIDAllocations() returns (data: map<string, string>)
      ensures data == Data(file)
    {
      data := ParseFile(match file case Some(text) => text case None => "");
    }

    /** `echo` ends the content with a newline of its own. */
    method CopyFile(content: string, fault: Fault) returns (ok: bool)
      modifies this`file
      ensures ok <==> fault.Fine?
      ensures file == if fault == LostBefore then old(file) else Some(content + "\n")
    {
      if fault != LostBefore {
        file := Some(content + "\n");
      }
      ok := fault.Fine?;
    }

    method UpdateConfigMapWithClusterVRID(cluster: string, v: string, getFails: bool, fault: Fault) returns (r: Result)
      modifies this`configMaps
      ensures (Contents(), r) == UpdateConfigMap(old(Contents()), cluster, v, getFails, fault)
    {
      if getFails {
        return Panicked;
      }
      if cluster !in configMaps {
        if fault != LostBefore {
          configMaps := configMaps[cluster := map[cluster := v]];
        }
        return if fault.Fine? then Done else Failed;
      }
      if configMaps[cluster] == map[] {
        return Panicked;
      }
      if fault != LostBefore {
        configMaps := configMaps[cluster := configMaps[cluster][cluster := v]];
      }
      r := if fault.Fine? then Done else Failed;
    }

    method GetOrAllocateVRIDsOnStartup(cluster: string, fs: StartupFaults) returns (r: Result, ghost order: seq<string>)
      modifies this
      ensures (Contents(), r) == Startup(old(Contents()), cluster, fs, order)
    {
      order := [];
      if fs.fetchFails {
        return Failed, order;
      }
      var data := FetchVRIDAllocations();
      if |data| == 0 {
        var pair := FormatPair(1, 2);
        data := map[cluster := pair];
        var content;
        content, order := CreateVRIDFileContent(data);
        var ok := CopyFile(content, fs.write);
        if !ok {
          return Failed, order;
        }
        r := UpdateConfigMapWithClusterVRID(cluster, pair, fs.getFails, fs.update);
        return;
      }
      if cluster !in data {
        var used := ParseAllocatedVRIDs(data);
        var vrid1, vrid2 := FindUnusedVRIDPair(used);
        if vrid1 == 0 || vrid2 == 0 {
          return Failed, order;
        }
        data := data[cluster := FormatPair(vrid1, vrid2)];
        var content;
        content, order := CreateVRIDFileContent(data);
        var ok := CopyFile(content, fs.write);
        if !ok {
          return Failed, order;
        }
        r := UpdateConfigMapWithClusterVRID(cluster, FormatPair(vrid1, vrid2), fs.getFails, fs.update);
      } else {
        r := UpdateConfigMapWithClusterVRID(cluster, data[cluster], fs.getFails, fs.update);
      }
    }
  }
}
