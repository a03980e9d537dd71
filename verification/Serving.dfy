/**
 Whether a published address is served. Two services can share the path of their NGINX file; the
 file of a service that publishes an address is there in every reachable state exactly if no two
 services do.
 */
module Serving {
  import opened Text
  import opened Faults
  import opened Names
  import opened Vips
  import opened Protocol
  import opened Safety
  import opened Reachable
  import opened Recovery
  import opened Finalization

  ghost predicate DistinctPaths(cluster: string, keys: set<Key>) {
    forall k, l :: k in keys && l in keys && k != l ==> Path(cluster, k) != Path(cluster, l)
  }

  function CreatedKeys(actions: seq<Action>): set<Key> {
    set i | 0 <= i < |actions| && actions[i].Create? :: actions[i].k
  }

  predicate FileThere(files: map<string, NginxConf>, path: string, k: Key, ip: string) {
    path in files && files[path] == NginxConf(k, ip)
  }

  predicate Serves(w: World, k: Key, ip: string) {
    FileThere(w.files, Path(w.settings.cluster, k), k, ip) && FileThere(w.live, Path(w.settings.cluster, k), k, ip)
  }

  predicate Publishes(w: World, k: Key, ip: string) {
    k in w.services && !w.services[k].deleting && w.services[k].statusIP == Some(ip)
  }

  /** What is published is served: the service's own file is written and loaded. */
  ghost predicate PublishedServed(w: World) {
    forall k, ip :: Publishes(w, k, ip) ==> Serves(w, k, ip)
  }

  // ---------- With distinct paths ----------

  /** What a pass of k has on the server when it comes to its next call. */
  predicate ServePc(w: World, k: Key, pc: PC) {
    match pc
    case Reloading(ip) => FileThere(w.files, Path(w.settings.cluster, k), k, ip)
    case Refetching(ip) => Serves(w, k, ip)
    case Publishing(ip, _) => Serves(w, k, ip)
    case _ => true
  }

  ghost predicate ServeInv(s: State, keys: set<Key>) {
    && Inv(s) && DistinctPaths(s.w.settings.cluster, keys) && s.w.services.Keys <= keys && s.pcs.Keys <= keys
    && PublishedServed(s.w)
    && (forall k :: k in s.pcs ==> ServePc(s.w, k, s.pcs[k]))
  }

  /** Nothing happens on the server at p: what is there stays, and stays loaded. */
  predicate KeptAt(w: World, v: World, p: string) {
    && v.settings == w.settings
    && (p in w.files ==> p in v.files && v.files[p] == w.files[p])
    && (p in w.files && p in w.live && w.live[p] == w.files[p] ==> p in v.live && v.live[p] == w.live[p])
  }

  lemma CallKeepsOtherPaths(w: World, k: Key, pc: PC, f: Fault, pick: string, p: string)
    requires p != Path(w.settings.cluster, k)
    ensures KeptAt(w, Call(w, k, pc, f, pick).0, p)
  {
    hide Conf, Path, Identifier, FirstFree, OwnsSome, Owns;
  }

  lemma SurroundingsKeepPaths(w: World, a: Action, p: string)
    ensures KeptAt(w, Surroundings(w, a), p)
  {
  }

  lemma KeptServes(w: World, v: World, k: Key, ip: string)
    requires KeptAt(w, v, Path(w.settings.cluster, k))
    ensures FileThere(w.files, Path(w.settings.cluster, k), k, ip) ==> FileThere(v.files, Path(v.settings.cluster, k), k, ip)
    ensures Serves(w, k, ip) ==> Serves(v, k, ip)
  {
    hide Path;
  }

  lemma KeptPc(w: World, v: World, k: Key, pc: PC)
    requires KeptAt(w, v, Path(w.settings.cluster, k)) && ServePc(w, k, pc)
    ensures ServePc(v, k, pc)
  {
    match pc {
      case Reloading(ip) => KeptServes(w, v, k, ip);
      case Refetching(ip) => KeptServes(w, v, k, ip);
      case Publishing(ip, _) => KeptServes(w, v, k, ip);
      case _ =>
    }
    hide KeptAt, Serves, Path;
  }

  /** The service being reconciled publishes the address it owns, and no other. */
  lemma PublishesOwn(w: World, k: Key, ip: string, ip': string)
    requires WorldInv(w) && Owns(w.allocs, k, ip) && Publishes(w, k, ip')
    ensures ip' == ip
  {
    PublishedHere(w, k);
    hide OwnersHeld, FilesOwned, PublishedOwned, VersionsUsed;
  }

  lemma WriteServes(w: World, k: Key, pc: PC, f: Fault, pick: string, ip: string)
    requires WorldInv(w) && PcOk(w, k, pc) && ServePc(w, k, pc) && (pc.WritingNginx? || pc.Reloading?)
    requires Publishes(w, k, ip) ==> Serves(w, k, ip)
    ensures var r := Call(w, k, pc, f, pick);
            ServePc(r.0, k, r.1) && (Publishes(r.0, k, ip) ==> Serves(r.0, k, ip))
  {
    if Publishes(w, k, ip) { PublishesOwn(w, k, pc.ip, ip); }
    hide WorldInv, PcOk, Path, Conf;
  }

  lemma RemoveServes(w: World, k: Key, pc: PC, f: Fault, pick: string, ip: string)
    requires PcOk(w, k, pc) && (pc.Removing? || pc.Unloading?)
    ensures var r := Call(w, k, pc, f, pick);
            ServePc(r.0, k, r.1) && !Publishes(r.0, k, ip)
  {
    assert Held(w.services, k) && w.services[k].deleting;
    hide PcOk, Path, Conf, Serves;
  }

  lemma FinalizerCallServes(w: World, k: Key, pc: PC, f: Fault, pick: string, ip: string)
    requires PcOk(w, k, pc) && (pc.Adding? || pc.Dropping?)
    requires Publishes(w, k, ip) ==> Serves(w, k, ip)
    ensures var r := Call(w, k, pc, f, pick);
            ServePc(r.0, k, r.1) && (Publishes(r.0, k, ip) ==> Serves(r.0, k, ip))
  {
    hide Path, OwnsSome;
  }

  lemma PublishCallServes(w: World, k: Key, pc: PC, f: Fault, pick: string, ip: string)
    requires ServePc(w, k, pc) && pc.Publishing?
    requires Publishes(w, k, ip) ==> Serves(w, k, ip)
    ensures var r := Call(w, k, pc, f, pick);
            ServePc(r.0, k, r.1) && (Publishes(r.0, k, ip) ==> Serves(r.0, k, ip))
  {
    hide Path;
  }

  lemma OtherCallServes(w: World, k: Key, pc: PC, f: Fault, pick: string, ip: string)
    requires ServePc(w, k, pc)
    requires !(pc.WritingNginx? || pc.Reloading? || pc.Removing? || pc.Unloading?)
    requires !(pc.Adding? || pc.Dropping? || pc.Publishing?)
    requires Publishes(w, k, ip) ==> Serves(w, k, ip)
    ensures var r := Call(w, k, pc, f, pick);
            ServePc(r.0, k, r.1) && (Publishes(r.0, k, ip) ==> Serves(r.0, k, ip))
  {
    OtherCallsKeepServices(w, k, pc, f, pick);
    hide Path, Conf, OwnsSome, Identifier, FirstFree, Owns, FileThere;
  }

  lemma OwnCallServes(w: World, k: Key, pc: PC, f: Fault, pick: string, ip: string)
    requires WorldInv(w) && PcOk(w, k, pc) && ServePc(w, k, pc)
    requires Publishes(w, k, ip) ==> Serves(w, k, ip)
    ensures var r := Call(w, k, pc, f, pick);
            ServePc(r.0, k, r.1) && (Publishes(r.0, k, ip) ==> Serves(r.0, k, ip))
  {
    hide *;
    if pc.WritingNginx? || pc.Reloading? {
      WriteServes(w, k, pc, f, pick, ip);
    } else if pc.Removing? || pc.Unloading? {
      RemoveServes(w, k, pc, f, pick, ip);
    } else if pc.Adding? || pc.Dropping? {
      FinalizerCallServes(w, k, pc, f, pick, ip);
    } else if pc.Publishing? {
      PublishCallServes(w, k, pc, f, pick, ip);
    } else {
      OtherCallServes(w, k, pc, f, pick, ip);
    }
  }

  lemma FramedPublishes(w: World, v: World, k: Key, l: Key, ip: string)
    requires Frame(w, v, k) && l != k
    ensures Publishes(v, l, ip) <==> Publishes(w, l, ip)
  {
    hide FilesFrom, SameOwnership;
  }

  lemma NotPublished(w: World, l: Key, ip: string)
    requires l !in w.services
    ensures !Publishes(w, l, ip)
  {
  }

  /** After a step of k, for k and for every other service. */
  lemma CallServes(s: State, k: Key, f: Fault, pick: string, keys: set<Key>, l: Key, ip: string)
    requires ServeInv(s, keys) && k in s.pcs
    ensures var r := Call(s.w, k, s.pcs[k], f, pick);
            && (Publishes(r.0, l, ip) ==> Serves(r.0, l, ip))
            && (l == k ==> ServePc(r.0, k, r.1))
            && (l != k && l in s.pcs ==> ServePc(r.0, l, s.pcs[l]))
  {
    var pc := s.pcs[k];
    var v := Call(s.w, k, pc, f, pick).0;
    hide Call, Frame, WorldInv, PcOk, Publishes, Serves, ServePc, KeptAt, Path;
    if l == k {
      OwnCallServes(s.w, k, pc, f, pick, ip);
    } else {
      CallKeeps(s.w, k, pc, f, pick);
      FramedPublishes(s.w, v, k, l, ip);
      if l in keys {
        CallKeepsOtherPaths(s.w, k, pc, f, pick, Path(s.w.settings.cluster, l));
        KeptServes(s.w, v, l, ip);
        if l in s.pcs { KeptPc(s.w, v, l, s.pcs[l]); }
      } else {
        NotPublished(s.w, l, ip);
      }
    }
  }

  lemma CallKeys(s: State, k: Key, f: Fault, pick: string)
    requires Inv(s) && k in s.pcs
    ensures var v := Call(s.w, k, s.pcs[k], f, pick).0;
            v.settings == s.w.settings && v.services.Keys <= s.w.services.Keys + {k}
  {
    CallKeeps(s.w, k, s.pcs[k], f, pick);
    hide Call, WorldInv, PcOk, FilesFrom, SameOwnership;
  }

  lemma StepServes(s: State, k: Key, f: Fault, pick: string, keys: set<Key>)
    requires ServeInv(s, keys)
    ensures ServeInv(Next(s, Step(k, f, pick)), keys)
  {
    NextKeeps(s, Step(k, f, pick));
    if k in s.pcs {
      var r := Call(s.w, k, s.pcs[k], f, pick);
      CallKeys(s, k, f, pick);
      hide Inv, Call, Publishes, Serves, ServePc, DistinctPaths;
      forall l, ip | Publishes(r.0, l, ip) ensures Serves(r.0, l, ip) { CallServes(s, k, f, pick, keys, l, ip); }
      forall l | l in s.pcs && l != k ensures ServePc(r.0, l, s.pcs[l]) { CallServes(s, k, f, pick, keys, l, ""); }
      CallServes(s, k, f, pick, keys, k, "");
    }
  }

  lemma SurroundingsPublish(w: World, a: Action, l: Key, ip: string)
    ensures Publishes(Surroundings(w, a), l, ip) ==> Publishes(w, l, ip)
  {
  }

  lemma SurroundingsKeys(w: World, a: Action)
    ensures Surroundings(w, a).services.Keys <= w.services.Keys + if a.Create? then {a.k} else {}
    ensures Surroundings(w, a).settings == w.settings
  {
  }

  lemma SurroundingsServe(s: State, a: Action, keys: set<Key>)
    requires ServeInv(s, keys) && !a.Step? && !a.Begin? && !a.Crash?
    requires a.Create? ==> a.k in keys
    ensures ServeInv(Next(s, a), keys)
  {
    NextKeeps(s, a);
    SurroundingsKeys(s.w, a);
    var v := Surroundings(s.w, a);
    hide Inv, Surroundings, Publishes, Serves, ServePc, DistinctPaths, KeptAt, Path;
    forall l, ip | Publishes(v, l, ip) ensures Serves(v, l, ip) {
      SurroundingsPublish(s.w, a, l, ip);
      SurroundingsKeepPaths(s.w, a, Path(s.w.settings.cluster, l));
      KeptServes(s.w, v, l, ip);
    }
    forall l | l in s.pcs ensures ServePc(v, l, s.pcs[l]) {
      SurroundingsKeepPaths(s.w, a, Path(s.w.settings.cluster, l));
      KeptPc(s.w, v, l, s.pcs[l]);
    }
  }

  lemma StartServes(w: World, k: Key, f: Fault)
    ensures ServePc(w, k, Start(w, k, f)) && (!Start(w, k, f).Done? ==> k in w.services)
  {
  }

  lemma BeginOrCrashServes(s: State, a: Action, keys: set<Key>)
    requires ServeInv(s, keys) && (a.Begin? || a.Crash?)
    ensures ServeInv(Next(s, a), keys)
  {
    NextKeeps(s, a);
    if a.Begin? { StartServes(s.w, a.k, a.f); }
    hide Inv, Publishes, Serves, ServePc, DistinctPaths, PublishedServed, Start, Call, Surroundings;
  }

  lemma {:induction false} RunServes(s: State, actions: seq<Action>, keys: set<Key>)
    requires ServeInv(s, keys) && CreatedKeys(actions) <= keys
    ensures ServeInv(Run(s, actions), keys)
    decreases |actions|
  {
    if actions != [] {
      var a, rest := actions[0], actions[1..];
      assert a.Create? ==> a.k in CreatedKeys(actions);
      assert CreatedKeys(rest) <= CreatedKeys(actions) by {
        forall k | k in CreatedKeys(rest) ensures k in CreatedKeys(actions) {
          var i :| 0 <= i < |rest| && rest[i].Create? && rest[i].k == k;
          assert actions[i + 1] == rest[i];
        }
      }
      hide ServeInv, Next, CreatedKeys;
      if a.Step? {
        StepServes(s, a.k, a.f, a.pick, keys);
      } else if a.Begin? || a.Crash? {
        BeginOrCrashServes(s, a, keys);
      } else {
        SurroundingsServe(s, a, keys);
      }
      RunServes(Next(s, a), rest, keys);
    }
  }

  lemma InitialServes(settings: Settings, keys: set<Key>)
    requires DistinctPaths(settings.cluster, keys)
    ensures ServeInv(Initial(settings), keys)
  {
    InitialInv(settings);
    hide Inv;
  }

  // ---------- With a shared path ----------

  ghost predicate Untouched(w: World, v: World, k: Key) {
    v.settings == w.settings && v.pool == w.pool && v.vrids == w.vrids
    && forall l: Key :: l != k && l in w.services ==> l in v.services && v.services[l] == w.services[l]
  }

  lemma ConfigUnchanged(w: World, k: Key, pc: PC, f: Fault, pick: string)
    ensures var v := Call(w, k, pc, f, pick).0;
            v.settings == w.settings && v.pool == w.pool && v.vrids == w.vrids
  {
    hide Conf, Path, Identifier, FirstFree, OwnsSome, Owns;
  }

  lemma ObjectCallUntouched(w: World, k: Key, pc: PC, f: Fault, pick: string, l: Key)
    requires (pc.Adding? || pc.Dropping? || pc.Publishing?) && l != k && l in w.services
    ensures var v := Call(w, k, pc, f, pick).0; l in v.services && v.services[l] == w.services[l]
  {
    hide Conf, Path, AllocateCall, FetchCall, ReleaseCall;
  }

  lemma CallUntouched(w: World, k: Key, pc: PC, f: Fault, pick: string)
    ensures Untouched(w, Call(w, k, pc, f, pick).0, k)
  {
    ConfigUnchanged(w, k, pc, f, pick);
    hide Call;
    if pc.Adding? || pc.Dropping? || pc.Publishing? {
      forall l: Key | l != k && l in w.services
        ensures var v := Call(w, k, pc, f, pick).0; l in v.services && v.services[l] == w.services[l]
      {
        ObjectCallUntouched(w, k, pc, f, pick, l);
      }
    } else {
      OtherCallsKeepServices(w, k, pc, f, pick);
    }
  }

  lemma {:induction false} DriveUntouched(w: World, k: Key, pc: PC, sch: Schedule)
    ensures Untouched(w, Drive(w, k, pc, sch).0, k)
    decreases Rank(pc)
  {
    if pc.Done? {
      DriveDone(w, k, pc.failed, sch);
    } else {
      var f := sch(SiteOf(pc));
      var r := Call(w, k, pc, f, "");
      RankFalls(w, k, pc, f, "");
      DriveOne(w, k, pc, sch);
      CallUntouched(w, k, pc, f, "");
      DriveUntouched(r.0, k, r.1, sch);
      hide Call, Drive, SiteOf, Rank;
    }
  }

  /** A pass of k changes no other service's object. */
  lemma PassUntouched(w: World, k: Key, sch: Schedule)
    ensures Untouched(w, Pass(w, k, sch).0, k)
  {
    DriveUntouched(w, k, Start(w, k, sch(GetService)), sch);
    hide Drive, Start;
  }

  /** When k shares the path of l, a successful pass of k takes the file over, with no call failing
      and no other pass in flight: l goes on publishing an address that nothing serves. */
  lemma TakeoverLoses(w: World, k: Key, l: Key, ip: string)
    requires WorldInv(w) && Publishes(w, l, ip) && k != l
    requires Path(w.settings.cluster, k) == Path(w.settings.cluster, l)
    requires k in w.services && w.services[k].isLoadBalancer && !w.services[k].deleting
    requires !Pass(w, k, NO_FAULTS).1
    ensures var v := Pass(w, k, NO_FAULTS).0;
            Publishes(v, l, ip) && !FileThere(v.files, Path(v.settings.cluster, l), l, ip)
            && !FileThere(v.live, Path(v.settings.cluster, l), l, ip)
  {
    Recovers(w, k);
    PassUntouched(w, k, NO_FAULTS);
    hide Pass, WorldInv, Conf, Path, Owns, FirstFree, Identifier, OwnsSome;
  }

  /** Likewise a finalization of k removes it. */
  lemma FinalizationLoses(w: World, k: Key, l: Key, ip: string)
    requires WorldInv(w) && Publishes(w, l, ip) && k != l
    requires Path(w.settings.cluster, k) == Path(w.settings.cluster, l)
    requires Held(w.services, k) && w.services[k].deleting && w.services[k].isLoadBalancer
    requires OwnsSome(w.allocs, k) && w.vrids.Some?
    ensures var v := Pass(w, k, NO_FAULTS).0;
            Publishes(v, l, ip) && Path(v.settings.cluster, l) !in v.files && Path(v.settings.cluster, l) !in v.live
  {
    FinalizationExactly(w, k);
    PassUntouched(w, k, NO_FAULTS);
    hide Pass, WorldInv, Conf, Path, Owns, OwnsSome, Held;
  }

  lemma CreatedAppend(xs: seq<Action>, ys: seq<Action>)
    ensures CreatedKeys(xs + ys) == CreatedKeys(xs) + CreatedKeys(ys)
  {
    forall k | k in CreatedKeys(ys) ensures k in CreatedKeys(xs + ys) {
      var i :| 0 <= i < |ys| && ys[i].Create? && ys[i].k == k;
      assert (xs + ys)[|xs| + i] == ys[i];
    }
    forall k | k in CreatedKeys(xs) ensures k in CreatedKeys(xs + ys) {
      var i :| 0 <= i < |xs| && xs[i].Create? && xs[i].k == k;
      assert (xs + ys)[i] == xs[i];
    }
  }

  const FIRST := "10.0.0.1"
  const SECOND := "10.0.0.2"

  /** Two services, two addresses and a VRID pair. */
  function Setup(k: Key, l: Key): seq<Action> {
    [SetPool(Some([FIRST, SECOND])), SetVrids(Some((1, 2))), Create(k, true, {}), Create(l, true, {})]
  }

  predicate Live(w: World, k: Key) {
    k in w.services && w.services[k].isLoadBalancer && !w.services[k].deleting
  }

  lemma SetupWorld(settings: Settings, k: Key, l: Key)
    requires k != l
    ensures var s := Run(Initial(settings), Setup(k, l));
            && s.pcs == map[] && s.w.settings == settings && s.w.allocs == map[]
            && s.w.pool == Some([FIRST, SECOND]) && s.w.vrids.Some?
            && Live(s.w, k) && Live(s.w, l)
    ensures CreatedKeys(Setup(k, l)) <= {k, l}
  {
    var s, q := Initial(settings), Setup(k, l);
    var s1 := Next(s, q[0]);
    var s2 := Next(s1, q[1]);
    var s3 := Next(s2, q[2]);
    assert q[1..][1..] == q[2..] && q[2..][1..] == q[3..] && q[3..][1..] == [];
    assert Run(s3, q[3..]) == Next(s3, q[3]);
    assert Run(s2, q[2..]) == Run(s3, q[3..]);
    assert Run(s1, q[1..]) == Run(s2, q[2..]);
    hide Call, Start;
  }

  /** Two passes, one after the other. */
  lemma TwoPasses(s: State, k: Key, l: Key) returns (actions: seq<Action>)
    requires s.pcs == map[]
    ensures Run(s, actions) == State(Pass(Pass(s.w, l, NO_FAULTS).0, k, NO_FAULTS).0, map[])
    ensures CreatedKeys(actions) == {}
  {
    hide Pass;
    var xs := PassActions(s, l, NO_FAULTS);
    var ys := PassActions(Run(s, xs), k, NO_FAULTS);
    hide Run;
    RunAppend(s, xs, ys);
    actions := xs + ys;
    forall i | 0 <= i < |actions| ensures !actions[i].Create? { assert actions[i] in xs || actions[i] in ys; }
  }

  lemma FirstPublishes(w: World, l: Key)
    requires WorldInv(w) && Live(w, l) && w.vrids.Some? && w.allocs == map[] && w.pool == Some([FIRST, SECOND])
    ensures var v := Pass(w, l, NO_FAULTS).0;
            exists ip :: Publishes(v, l, ip) && v.allocs == map[ip := Identifier(l)]
  {
    assert FirstFree([FIRST, SECOND], w.allocs) == Some(FIRST);
    Recovers(w, l);
    hide Pass, WorldInv, Conf, Path, Owns, OwnsSome, FirstFree, Identifier;
    var v := Pass(w, l, NO_FAULTS).0;
    var ip :| Settled(v, l, ip) && v.allocs == w.allocs[ip := Identifier(l)];
    assert Publishes(v, l, ip) && v.allocs == map[ip := Identifier(l)];
  }

  lemma SecondSucceeds(w: World, k: Key, l: Key, ip: string)
    requires WorldInv(w) && Live(w, k) && w.vrids.Some? && w.pool == Some([FIRST, SECOND])
    requires w.allocs == map[ip := Identifier(l)]
    ensures !Pass(w, k, NO_FAULTS).1
  {
    assert FIRST[7] != SECOND[7];
    assert FirstFree([FIRST, SECOND], w.allocs).Some?;
    Recovers(w, k);
    hide Pass, WorldInv, Conf, Path, Owns, OwnsSome, FirstFree, Identifier;
  }

  lemma SharedPathRun(settings: Settings, k: Key, l: Key) returns (actions: seq<Action>)
    requires k != l && Path(settings.cluster, k) == Path(settings.cluster, l)
    ensures CreatedKeys(actions) <= {k, l}
    ensures !PublishedServed(Run(Initial(settings), actions).w)
  {
    SetupWorld(settings, k, l);
    InitialInv(settings);
    var q := Setup(k, l);
    RunKeeps(Initial(settings), q);
    var s := Run(Initial(settings), q);
    InvWorld(s);
    var passes := TwoPasses(s, k, l);
    hide Run, Pass, WorldInv, Inv, Initial, Setup, Path, CreatedKeys;
    RunAppend(Initial(settings), q, passes);
    CreatedAppend(q, passes);
    actions := q + passes;
    var w := Pass(s.w, l, NO_FAULTS).0;
    PassKeeps(s.w, l, NO_FAULTS);
    PassUntouched(s.w, l, NO_FAULTS);
    FirstPublishes(s.w, l);
    var ip :| Publishes(w, l, ip) && w.allocs == map[ip := Identifier(l)];
    SecondSucceeds(w, k, l, ip);
    TakeoverLoses(w, k, l, ip);
  }

  /** Over all runs that create only services of a given set: whatever is published is served, in
      every reachable state, exactly if no two services of the set share a path. */
  lemma PublishedServedExactly(settings: Settings, keys: set<Key>)
    ensures DistinctPaths(settings.cluster, keys)
            <==> forall actions :: CreatedKeys(actions) <= keys ==> PublishedServed(Run(Initial(settings), actions).w)
  {
    hide PublishedServed, CreatedKeys, Run, Initial, Inv;
    if DistinctPaths(settings.cluster, keys) {
      InitialServes(settings, keys);
      forall actions | CreatedKeys(actions) <= keys ensures PublishedServed(Run(Initial(settings), actions).w) {
        RunServes(Initial(settings), actions, keys);
      }
    } else {
      var k, l :| k in keys && l in keys && k != l && Path(settings.cluster, k) == Path(settings.cluster, l);
      var actions := SharedPathRun(settings, k, l);
      assert CreatedKeys(actions) <= keys;
    }
  }
}
