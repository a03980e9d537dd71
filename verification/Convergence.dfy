/**
 Convergence: after whatever happened, one pass without failures for every live service, in any
 order, settles all of them at once, exactly if there are enough addresses and no two of them
 share a path.
 */
module Convergence {
  import opened Text
  import opened Faults
  import opened Names
  import opened Vips
  import opened Protocol
  import opened Safety
  import opened Reachable
  import opened Recovery
  import opened Serving

  /** One undisturbed pass without failures for each service, in the given order. */
  ghost function Passes(w: World, order: seq<Key>): World
    decreases |order|
  {
    if order == [] then w else Passes(Pass(w, order[0], NO_FAULTS).0, order[1..])
  }

  ghost predicate AllLive(w: World, order: seq<Key>) {
    (forall i, j :: 0 <= i < j < |order| ==> order[i] != order[j]) && forall k :: k in order ==> Live(w, k)
  }

  lemma HeadOnce(w: World, order: seq<Key>)
    requires order != [] && AllLive(w, order)
    ensures order[0] !in order[1..] && Live(w, order[0])
    ensures forall l :: l in order <==> l == order[0] || l in order[1..]
  {
    hide Live;
    var rest := order[1..];
    forall l | l in rest ensures l != order[0] { var i :| 0 <= i < |rest| && rest[i] == l; }
  }

  ghost predicate AllSettled(w: World, order: seq<Key>) {
    forall k :: k in order ==> exists ip :: Settled(w, k, ip)
  }

  /** The services that own no address yet, and the addresses nobody owns. */
  ghost function Needy(w: World, order: seq<Key>): set<Key> { set k | k in order && !OwnsSome(w.allocs, k) }

  function Free(w: World): set<string> {
    match w.pool
    case Some(pool) => set ip | ip in pool && ip !in w.allocs
    case None => {}
  }

  function Members(order: seq<Key>): set<Key> { set k | k in order }

  // ---------- One pass among others ----------

  lemma CandidateMeaning(w: World, k: Key)
    ensures var c := Candidate(w, k);
            && (c.None? <==> !OwnsSome(w.allocs, k) && Free(w) == {})
            && (c.Some? && OwnsSome(w.allocs, k) ==> Owns(w.allocs, k, c.value))
            && (c.Some? && !OwnsSome(w.allocs, k) ==> c.value in Free(w))
  {
    hide Identifier, Owns;
    if !OwnsSome(w.allocs, k) && w.pool.Some? && FirstFree(w.pool.value, w.allocs).Some? {
      assert FirstFree(w.pool.value, w.allocs).value in Free(w);
    }
  }

  /** What a pass of a live service does to the allocations, and to the service if all is there. */
  lemma PassCases(w: World, k: Key)
    requires WorldInv(w) && Live(w, k)
    ensures var v, c := Pass(w, k, NO_FAULTS).0, Candidate(w, k);
            && v.allocs == (if c.Some? then w.allocs[c.value := Identifier(k)] else w.allocs)
            && (w.vrids.Some? && c.Some? ==> Settled(v, k, c.value))
  {
    LivePass(w, k);
    FinalizerPart(w, k);
    var u, c := WithFinalizer(w, k), Candidate(w, k);
    hide Pass, WithFinalizer, Candidate, WorldInv, Conf, Path, Identifier, WithNginx, WithKeepalived, Published;
    if c.Some? && w.vrids.Some? {
      SettledAtEnd(u, k, c.value, w.vrids.value);
      AllocsAtEnd(u, k, c.value, w.vrids.value);
    }
  }

  lemma AllocatedOwns(allocs: map<string, string>, k: Key, c: string, l: Key, ip: string)
    requires c in allocs ==> allocs[c] == Identifier(k)
    ensures l != k ==> (Owns(allocs[c := Identifier(k)], l, ip) <==> Owns(allocs, l, ip))
    ensures Owns(allocs[c := Identifier(k)], k, c)
  {
    if l != k && Identifier(l) == Identifier(k) { IdentifierInjective(k, l); }
    hide Identifier;
  }

  lemma PassOwns(w: World, k: Key, l: Key, ip: string)
    requires WorldInv(w) && Live(w, k) && l != k
    ensures Owns(Pass(w, k, NO_FAULTS).0.allocs, l, ip) <==> Owns(w.allocs, l, ip)
  {
    PassCases(w, k);
    CandidateMeaning(w, k);
    var c := Candidate(w, k);
    hide Pass, Candidate, WorldInv, Settled, Identifier, OwnsSome;
    if c.Some? { AllocatedOwns(w.allocs, k, c.value, l, ip); }
  }

  lemma PassOwnsSome(w: World, k: Key, l: Key)
    requires WorldInv(w) && Live(w, k) && l != k
    ensures OwnsSome(Pass(w, k, NO_FAULTS).0.allocs, l) <==> OwnsSome(w.allocs, l)
  {
    hide Pass, WorldInv, Owns;
    forall ip ensures Owns(Pass(w, k, NO_FAULTS).0.allocs, l, ip) <==> Owns(w.allocs, l, ip) { PassOwns(w, k, l, ip); }
  }

  lemma PassOwnsSelf(w: World, k: Key)
    requires WorldInv(w) && Live(w, k)
    ensures OwnsSome(Pass(w, k, NO_FAULTS).0.allocs, k) <==> Candidate(w, k).Some?
  {
    PassCases(w, k);
    CandidateMeaning(w, k);
    var c := Candidate(w, k);
    hide Pass, Candidate, WorldInv, Settled, Identifier;
    if c.Some? { AllocatedOwns(w.allocs, k, c.value, k, c.value); }
  }

  lemma KeptTwice(w: World, v: World, u: World, p: string)
    requires KeptAt(w, v, p) && KeptAt(v, u, p)
    ensures KeptAt(w, u, p)
  {
  }

  lemma {:induction false} DriveKeepsPaths(w: World, k: Key, pc: PC, sch: Schedule, p: string)
    requires p != Path(w.settings.cluster, k)
    ensures KeptAt(w, Drive(w, k, pc, sch).0, p)
    decreases Rank(pc)
  {
    if pc.Done? {
      DriveDone(w, k, pc.failed, sch);
    } else {
      var f := sch(SiteOf(pc));
      var r := Call(w, k, pc, f, "");
      RankFalls(w, k, pc, f, "");
      DriveOne(w, k, pc, sch);
      CallKeepsOtherPaths(w, k, pc, f, "", p);
      hide Call, Drive, SiteOf, Rank, Path;
      DriveKeepsPaths(r.0, k, r.1, sch, p);
      KeptTwice(w, r.0, Drive(r.0, k, r.1, sch).0, p);
    }
  }

  lemma PassKeepsPaths(w: World, k: Key, p: string)
    requires p != Path(w.settings.cluster, k)
    ensures KeptAt(w, Pass(w, k, NO_FAULTS).0, p)
  {
    DriveKeepsPaths(w, k, Start(w, k, NO_FAULTS(GetService)), NO_FAULTS, p);
    hide Drive, Start, KeptAt, Path;
  }

  // ---------- A settled service, and the server ----------

  /** What a pass of another service leaves alone. */
  predicate SettledHere(w: World, k: Key, ip: string) {
    && Held(w.services, k) && !w.services[k].deleting && w.services[k].isLoadBalancer
    && w.services[k].statusIP == Some(ip) && Owns(w.allocs, k, ip)
    && FileThere(w.files, Path(w.settings.cluster, k), k, ip)
  }

  /** What it brings up to date. */
  ghost predicate ServerSettled(w: World) {
    && w.live == w.files
    && w.vrids.Some?
    && w.primary == Some(Conf(w.settings, w.vrids.value, w.allocs.Keys, true))
    && w.secondary == Some(Conf(w.settings, w.vrids.value, w.allocs.Keys, false))
    && w.running == w.primary
  }

  lemma SettledIsBoth(w: World, k: Key, ip: string)
    ensures Settled(w, k, ip) <==> SettledHere(w, k, ip) && ServerSettled(w)
  {
    hide Conf, Path, Owns;
  }

  lemma PassKeepsSettled(w: World, k: Key, l: Key, ip: string)
    requires WorldInv(w) && Live(w, k) && l != k && SettledHere(w, l, ip)
    requires Path(w.settings.cluster, l) != Path(w.settings.cluster, k)
    ensures SettledHere(Pass(w, k, NO_FAULTS).0, l, ip)
  {
    PassUntouched(w, k, NO_FAULTS);
    PassKeepsPaths(w, k, Path(w.settings.cluster, l));
    PassOwns(w, k, l, ip);
    hide Pass, WorldInv, Path, Owns;
  }

  lemma PassKeepsLive(w: World, k: Key, l: Key)
    requires Live(w, l) && l != k
    ensures Live(Pass(w, k, NO_FAULTS).0, l)
  {
    PassUntouched(w, k, NO_FAULTS);
    hide Pass;
  }

  // ---------- Counting ----------

  lemma FreeAfter(w: World, k: Key)
    requires WorldInv(w) && Live(w, k)
    ensures var v := Pass(w, k, NO_FAULTS).0;
            && (OwnsSome(w.allocs, k) ==> Free(v) == Free(w))
            && (!OwnsSome(w.allocs, k) && Free(w) == {} ==> Free(v) == {})
            && (!OwnsSome(w.allocs, k) && Free(w) != {} ==> |Free(w)| == |Free(v)| + 1)
  {
    PassCases(w, k);
    PassUntouched(w, k, NO_FAULTS);
    CandidateMeaning(w, k);
    var v, c := Pass(w, k, NO_FAULTS).0, Candidate(w, k);
    hide Pass, Candidate, WorldInv, Settled, Identifier, OwnsSome;
    if OwnsSome(w.allocs, k) {
      assert forall ip :: ip in v.allocs <==> ip in w.allocs;
      assert Free(v) == Free(w);
    } else if Free(w) != {} {
      assert Free(v) == Free(w) - {c.value};
    }
  }

  lemma NeedyStep(w: World, v: World, k: Key, order: seq<Key>, rest: seq<Key>)
    requires k !in rest && forall l :: l in order <==> l == k || l in rest
    requires forall l :: l in rest ==> (OwnsSome(v.allocs, l) <==> OwnsSome(w.allocs, l))
    ensures |Needy(w, order)| == |Needy(v, rest)| + if OwnsSome(w.allocs, k) then 0 else 1
  {
    hide OwnsSome;
    if OwnsSome(w.allocs, k) {
      assert Needy(w, order) == Needy(v, rest);
    } else {
      assert Needy(w, order) == Needy(v, rest) + {k};
    }
  }

  lemma NeedyAfter(w: World, order: seq<Key>)
    requires WorldInv(w) && order != [] && AllLive(w, order)
    ensures var k, v := order[0], Pass(w, order[0], NO_FAULTS).0;
            |Needy(w, order)| == |Needy(v, order[1..])| + if OwnsSome(w.allocs, k) then 0 else 1
  {
    var k, rest := order[0], order[1..];
    var v := Pass(w, k, NO_FAULTS).0;
    HeadOnce(w, order);
    hide Pass, WorldInv, OwnsSome, Live, Needy, AllLive;
    forall l | l in rest ensures OwnsSome(v.allocs, l) <==> OwnsSome(w.allocs, l) { PassOwnsSome(w, k, l); }
    NeedyStep(w, v, k, order, rest);
  }

  /** Enough addresses stay enough, and too few stay too few. */
  lemma CountsAfter(w: World, order: seq<Key>)
    requires WorldInv(w) && order != [] && AllLive(w, order)
    ensures var v := Pass(w, order[0], NO_FAULTS).0;
            |Needy(w, order)| <= |Free(w)|
            <==> Candidate(w, order[0]).Some? && |Needy(v, order[1..])| <= |Free(v)|
  {
    assert Live(w, order[0]);
    FreeAfter(w, order[0]);
    NeedyAfter(w, order);
    CandidateMeaning(w, order[0]);
    hide Pass, WorldInv, OwnsSome, Live, Needy, Free, Candidate, AllLive;
  }

  lemma RestLive(w: World, order: seq<Key>)
    requires WorldInv(w) && order != [] && AllLive(w, order)
    ensures AllLive(Pass(w, order[0], NO_FAULTS).0, order[1..]) && order[0] !in order[1..] && Live(w, order[0])
  {
    var k, rest := order[0], order[1..];
    HeadOnce(w, order);
    hide Pass, WorldInv, Live;
    forall l | l in rest ensures Live(Pass(w, k, NO_FAULTS).0, l) {
      assert l in order;
      PassKeepsLive(w, k, l);
    }
  }

  // ---------- All passes ----------

  ghost predicate Here(w: World, k: Key) { exists ip :: SettledHere(w, k, ip) }

  ghost predicate AllHere(w: World, keys: set<Key>) {
    forall k :: k in keys ==> Here(w, k)
  }

  lemma StaysHere(w: World, k: Key, l: Key, keys: set<Key>)
    requires WorldInv(w) && Live(w, k) && l != k && Here(w, l)
    requires k in keys && l in keys && DistinctPaths(w.settings.cluster, keys)
    ensures Here(Pass(w, k, NO_FAULTS).0, l)
  {
    var ip :| SettledHere(w, l, ip);
    hide Pass, WorldInv, SettledHere, Live, Path;
    PassKeepsSettled(w, k, l, ip);
  }

  lemma GetsHere(w: World, k: Key)
    requires WorldInv(w) && Live(w, k) && w.vrids.Some? && Candidate(w, k).Some?
    ensures var v := Pass(w, k, NO_FAULTS).0;
            Here(v, k) && ServerSettled(v) && WorldInv(v) && v.vrids == w.vrids && v.settings == w.settings
  {
    var v, c := Pass(w, k, NO_FAULTS).0, Candidate(w, k).value;
    PassUntouched(w, k, NO_FAULTS);
    hide Pass, WorldInv, SettledHere, Settled, ServerSettled, Live, Candidate;
    PassCases(w, k);
    PassKeeps(w, k, NO_FAULTS);
    SettledIsBoth(v, k, c);
    assert SettledHere(v, k, c);
  }

  lemma PassSettles(w: World, order: seq<Key>, done: set<Key>)
    requires WorldInv(w) && order != [] && AllLive(w, order) && w.vrids.Some? && Candidate(w, order[0]).Some?
    requires AllHere(w, done) && order[0] !in done && DistinctPaths(w.settings.cluster, done + {order[0]})
    ensures var v := Pass(w, order[0], NO_FAULTS).0;
            WorldInv(v) && v.vrids.Some? && v.settings == w.settings && ServerSettled(v) && AllHere(v, done + {order[0]})
  {
    var k := order[0];
    HeadOnce(w, order);
    hide Pass, WorldInv, Here, ServerSettled, Candidate, DistinctPaths, Live, AllLive;
    GetsHere(w, k);
    forall l | l in done ensures Here(Pass(w, k, NO_FAULTS).0, l) { StaysHere(w, k, l, done + {k}); }
  }

  lemma DoneStep(done: set<Key>, order: seq<Key>)
    requires order != []
    ensures done + Members(order) == (done + {order[0]}) + Members(order[1..])
    ensures done + {order[0]} <= done + Members(order)
  {
    assert forall l :: l in order <==> l == order[0] || l in order[1..];
  }

  lemma FewerDistinct(cluster: string, a: set<Key>, b: set<Key>)
    requires a <= b && DistinctPaths(cluster, b)
    ensures DistinctPaths(cluster, a)
  {
    hide Path;
  }

  lemma {:induction false} PassesSettle(w: World, order: seq<Key>, done: set<Key>)
    requires WorldInv(w) && AllLive(w, order) && w.vrids.Some? && |Needy(w, order)| <= |Free(w)|
    requires AllHere(w, done) && (forall k :: k in order ==> k !in done) && (order == [] ==> ServerSettled(w))
    requires DistinctPaths(w.settings.cluster, done + Members(order))
    ensures ServerSettled(Passes(w, order)) && AllHere(Passes(w, order), done + Members(order))
    decreases |order|
  {
    if order == [] {
      assert done + Members(order) == done;
    } else {
      var k, rest := order[0], order[1..];
      HeadOnce(w, order);
      DoneStep(done, order);
      hide *;
      RestLive(w, order);
      CountsAfter(w, order);
      FewerDistinct(w.settings.cluster, done + {k}, done + Members(order));
      PassSettles(w, order, done);
      PassesSettle(Pass(w, k, NO_FAULTS).0, rest, done + {k});
    }
  }

  lemma {:induction false} PassesOwns(w: World, order: seq<Key>, l: Key)
    requires WorldInv(w) && AllLive(w, order) && l !in order
    ensures OwnsSome(Passes(w, order).allocs, l) <==> OwnsSome(w.allocs, l)
    decreases |order|
  {
    if order != [] {
      RestLive(w, order);
      PassOwnsSome(w, order[0], l);
      PassKeeps(w, order[0], NO_FAULTS);
      hide Pass, WorldInv, AllLive, OwnsSome, Live;
      PassesOwns(Pass(w, order[0], NO_FAULTS).0, order[1..], l);
    }
  }

  lemma {:induction false} PassesCount(w: World, order: seq<Key>)
    requires WorldInv(w) && AllLive(w, order)
    requires forall k :: k in order ==> OwnsSome(Passes(w, order).allocs, k)
    ensures |Needy(w, order)| <= |Free(w)|
    decreases |order|
  {
    if order == [] {
      assert Needy(w, order) == {};
    } else {
      var k, rest := order[0], order[1..];
      var v := Pass(w, k, NO_FAULTS).0;
      RestLive(w, order);
      PassKeeps(w, k, NO_FAULTS);
      PassOwnsSelf(w, k);
      CountsAfter(w, order);
      assert forall l :: l in rest ==> l in order;
      hide Pass, WorldInv, AllLive, OwnsSome, Live, Needy, Free, Candidate;
      PassesOwns(v, rest, k);
      PassesCount(v, rest);
    }
  }

  lemma {:induction false} PassesConfig(w: World, order: seq<Key>)
    ensures Passes(w, order).vrids == w.vrids && Passes(w, order).settings == w.settings
    decreases |order|
  {
    if order != [] {
      PassUntouched(w, order[0], NO_FAULTS);
      hide Pass;
      PassesConfig(Pass(w, order[0], NO_FAULTS).0, order[1..]);
    }
  }

  lemma SettledOwns(w: World, k: Key, ip: string)
    requires Settled(w, k, ip)
    ensures OwnsSome(w.allocs, k) && w.vrids.Some? && FileThere(w.files, Path(w.settings.cluster, k), k, ip)
  {
    hide Conf, Path, Owns;
  }

  lemma SettledApart(v: World, order: seq<Key>)
    requires AllSettled(v, order)
    ensures DistinctPaths(v.settings.cluster, Members(order))
  {
    forall k, l | k in order && l in order && k != l ensures Path(v.settings.cluster, k) != Path(v.settings.cluster, l) {
      var ip :| Settled(v, k, ip);
      var ip' :| Settled(v, l, ip');
      SettledOwns(v, k, ip);
      SettledOwns(v, l, ip');
      hide Settled, Path;
    }
  }

  lemma SettledImplies(w: World, order: seq<Key>)
    requires WorldInv(w) && order != [] && AllLive(w, order) && AllSettled(Passes(w, order), order)
    ensures w.vrids.Some? && |Needy(w, order)| <= |Free(w)| && DistinctPaths(w.settings.cluster, Members(order))
  {
    var v := Passes(w, order);
    PassesConfig(w, order);
    SettledApart(v, order);
    hide Settled, Passes, WorldInv, AllLive, DistinctPaths, OwnsSome, FileThere;
    forall k | k in order ensures OwnsSome(v.allocs, k) && v.vrids.Some? {
      var ip :| Settled(v, k, ip);
      SettledOwns(v, k, ip);
    }
    assert order[0] in order;
    PassesCount(w, order);
  }

  lemma HereSettled(v: World, order: seq<Key>)
    requires ServerSettled(v) && AllHere(v, Members(order))
    ensures AllSettled(v, order)
  {
    hide Settled, SettledHere, ServerSettled;
    forall k | k in order ensures exists ip :: Settled(v, k, ip) {
      assert k in Members(order) && Here(v, k);
      var ip :| SettledHere(v, k, ip);
      SettledIsBoth(v, k, ip);
    }
  }

  /** After any run, whatever failed or crashed in it: when each of some live services gets one
      pass without failures, in any order, then all of them are settled at the end exactly if the
      VRIDs are there, there are as many unowned pool addresses as services without one, and no
      two of the services share a path. */
  lemma ConvergenceExactly(settings: Settings, actions: seq<Action>, order: seq<Key>)
    requires order != [] && AllLive(Run(Initial(settings), actions).w, order)
    ensures var w := Run(Initial(settings), actions).w;
            AllSettled(Passes(w, order), order)
            <==> w.vrids.Some? && |Needy(w, order)| <= |Free(w)| && DistinctPaths(w.settings.cluster, Members(order))
  {
    var w := Run(Initial(settings), actions).w;
    InitialInv(settings);
    RunKeeps(Initial(settings), actions);
    hide Run, Initial, AllSettled, AllLive, DistinctPaths, Passes, Needy, Free, WorldInv, PcOk, ServerSettled, Members;
    if AllSettled(Passes(w, order), order) { SettledImplies(w, order); }
    if w.vrids.Some? && |Needy(w, order)| <= |Free(w)| && DistinctPaths(w.settings.cluster, Members(order)) {
      assert {} + Members(order) == Members(order);
      PassesSettle(w, order, {});
      HereSettled(Passes(w, order), order);
    }
  }

  /** The passes are one of the runs of the state machine. */
  lemma {:induction false} PassesAreRun(s: State, t: State, order: seq<Key>)
    requires Reaches(s, t) && forall k :: k in order ==> k !in t.pcs
    ensures Reaches(s, State(Passes(t.w, order), t.pcs))
    decreases |order|
  {
    hide Pass, Reaches;
    if order != [] {
      PassIsRun(s, t, order[0], NO_FAULTS);
      PassesAreRun(s, State(Pass(t.w, order[0], NO_FAULTS).0, t.pcs), order[1..]);
    }
  }
}
