/**
 Recovery: from any reachable state, one undisturbed pass without failures brings a live service
 and the server into agreement.
 */
module Recovery {
  import opened Text
  import opened Faults
  import opened Names
  import opened Vips
  import opened Protocol
  import opened Safety
  import opened Reachable

  const NO_FAULTS: Schedule := site => Fine

  lemma DriveOne(w: World, k: Key, pc: PC, sch: Schedule)
    requires !pc.Done?
    ensures var r := Call(w, k, pc, sch(SiteOf(pc)), ""); Drive(w, k, pc, sch) == Drive(r.0, k, r.1, sch)
  {
    hide Call, SiteOf, Rank;
  }

  lemma DriveDone(w: World, k: Key, failed: bool, sch: Schedule)
    ensures Drive(w, k, Done(failed), sch) == (w, failed)
  {
  }

  /** One call with the usual three outcomes. */
  lemma DriveOutcome(w: World, k: Key, pc: PC, sch: Schedule, v: World, next: PC)
    requires !pc.Done? && Call(w, k, pc, sch(SiteOf(pc)), "") == Outcome(sch(SiteOf(pc)), w, v, next)
    ensures Drive(w, k, pc, sch)
            == match sch(SiteOf(pc))
               case Fine => Drive(v, k, next, sch)
               case LostBefore => (w, true)
               case LostAfter => (v, true)
  {
    DriveOne(w, k, pc, sch);
    DriveDone(w, k, true, sch);
    DriveDone(v, k, true, sch);
    hide Call, Drive, SiteOf;
  }

  // ---------- A pass is a run ----------

  lemma {:induction false} DriveIsRun(t: State, k: Key, sch: Schedule) returns (actions: seq<Action>)
    requires k in t.pcs && !t.pcs[k].Done?
    ensures Run(t, actions) == State(Drive(t.w, k, t.pcs[k], sch).0, t.pcs - {k})
    ensures forall a :: a in actions ==> a.Step?
    decreases Rank(t.pcs[k])
  {
    var pc := t.pcs[k];
    var f := sch(SiteOf(pc));
    var r := Call(t.w, k, pc, f, "");
    RankFalls(t.w, k, pc, f, "");
    DriveOne(t.w, k, pc, sch);
    var u := Next(t, Step(k, f, ""));
    hide Call, Rank, SiteOf;
    var rest := [];
    if r.1.Done? {
      DriveDone(r.0, k, r.1.failed, sch);
      assert u == State(r.0, t.pcs - {k});
      assert Run(u, []) == u;
    } else {
      assert u == State(r.0, t.pcs[k := r.1]);
      rest := DriveIsRun(u, k, sch);
      assert u.pcs - {k} == t.pcs - {k};
    }
    actions := [Step(k, f, "")] + rest;
    assert actions[1..] == rest;
  }

  /** The actions of an undisturbed pass. */
  lemma PassActions(t: State, k: Key, sch: Schedule) returns (actions: seq<Action>)
    requires k !in t.pcs
    ensures Run(t, actions) == State(Pass(t.w, k, sch).0, t.pcs)
    ensures forall a :: a in actions ==> a.Step? || a.Begin?
  {
    hide Call, Rank, SiteOf, Drive;
    var pc := Start(t.w, k, sch(GetService));
    if pc.Done? {
      DriveDone(t.w, k, pc.failed, sch);
      actions := [];
    } else {
      var u := Next(t, Begin(k, sch(GetService)));
      assert u == State(t.w, t.pcs[k := pc]);
      var rest := DriveIsRun(u, k, sch);
      assert u.pcs - {k} == t.pcs;
      actions := [Begin(k, sch(GetService))] + rest;
      assert actions[1..] == rest;
    }
  }

  /** An undisturbed pass is one of the runs of the state machine, whatever else is in flight. */
  lemma PassIsRun(s: State, t: State, k: Key, sch: Schedule)
    requires Reaches(s, t) && k !in t.pcs
    ensures Reaches(s, State(Pass(t.w, k, sch).0, t.pcs))
  {
    var actions := PassActions(t, k, sch);
    hide Run, Pass;
    var before :| Run(s, before) == t;
    RunAppend(s, before, actions);
  }

  /** So it keeps the invariant of the stores. */
  lemma PassKeeps(w: World, k: Key, sch: Schedule)
    requires WorldInv(w)
    ensures WorldInv(Pass(w, k, sch).0)
  {
    var s := State(w, map[]);
    assert Run(s, []) == s;
    assert Reaches(s, s);
    PassIsRun(s, s, k, sch);
    hide Pass, WorldInv, PcOk;
    var actions :| Run(s, actions) == State(Pass(w, k, sch).0, map[]);
    RunKeeps(s, actions);
  }

  // ---------- The parts of a pass ----------

  /** Both files rendered from the ConfigMap, and the first of them loaded. */
  ghost function WithKeepalived(w: World, vrids: (int, int)): World {
    var primary := Some(Conf(w.settings, vrids, w.allocs.Keys, true));
    w.(primary := primary, secondary := Some(Conf(w.settings, vrids, w.allocs.Keys, false)), running := primary)
  }

  function AfterRestart(mode: Mode): PC {
    match mode
    case Reconciling(ip) => WritingNginx(ip)
    case Finalizing(snap) => Dropping(snap)
  }

  lemma KeepalivedPart(w: World, k: Key, mode: Mode)
    ensures Drive(w, k, ReadingVrids(mode), NO_FAULTS)
            == if w.vrids.None? then (w, true)
               else Drive(WithKeepalived(w, w.vrids.value), k, AfterRestart(mode), NO_FAULTS)
  {
    hide Conf, Drive;
    DriveOne(w, k, ReadingVrids(mode), NO_FAULTS);
    if w.vrids.None? {
      DriveDone(w, k, true, NO_FAULTS);
    } else {
      var v, ips := w.vrids.value, w.allocs.Keys;
      var w1 := w.(primary := Some(Conf(w.settings, v, ips, true)));
      var w2 := w1.(secondary := Some(Conf(w.settings, v, ips, false)));
      DriveOne(w, k, LoadingAllocs(mode, v), NO_FAULTS);
      DriveOne(w, k, WritingPrimary(mode, v, ips), NO_FAULTS);
      DriveOne(w1, k, WritingSecondary(mode, v, ips), NO_FAULTS);
      DriveOne(w2, k, Restarting(mode), NO_FAULTS);
    }
  }

  /** The service's file written and loaded, and its address published. */
  function WithNginx(w: World, k: Key, ip: string): World {
    var files := w.files[Path(w.settings.cluster, k) := NginxConf(k, ip)];
    w.(files := files, live := files)
  }

  function Published(w: World, k: Key, ip: string): World
    requires k in w.services
  {
    UpdateStatus(w, k, w.services[k], ip).value
  }

  lemma PublishPart(w: World, k: Key, ip: string)
    requires k in w.services
    ensures Drive(w, k, Refetching(ip), NO_FAULTS) == (Published(w, k, ip), false)
  {
    hide Drive;
    DriveOne(w, k, Refetching(ip), NO_FAULTS);
    DriveOne(w, k, Publishing(ip, w.services[k]), NO_FAULTS);
    DriveDone(Published(w, k, ip), k, false, NO_FAULTS);
  }

  function Written(w: World, k: Key, ip: string): World {
    w.(files := w.files[Path(w.settings.cluster, k) := NginxConf(k, ip)])
  }

  lemma NginxCalls(w: World, k: Key, ip: string)
    ensures Call(w, k, WritingNginx(ip), Fine, "") == (Written(w, k, ip), Reloading(ip))
    ensures Call(Written(w, k, ip), k, Reloading(ip), Fine, "") == (WithNginx(w, k, ip), Refetching(ip))
  {
    hide Path, Conf, AddFinalizerCall, AllocateCall, FetchCall, ReleaseCall, PublishCall, DropFinalizerCall;
  }

  lemma NginxPart(w: World, k: Key, ip: string)
    requires k in w.services
    ensures Drive(w, k, WritingNginx(ip), NO_FAULTS) == (Published(WithNginx(w, k, ip), k, ip), false)
  {
    NginxCalls(w, k, ip);
    hide Path, Drive, Published, Conf, Call, Written;
    DriveOne(w, k, WritingNginx(ip), NO_FAULTS);
    DriveOne(Written(w, k, ip), k, Reloading(ip), NO_FAULTS);
    PublishPart(WithNginx(w, k, ip), k, ip);
  }

  /** Once the service has its address, the rest of the pass. */
  lemma ReconcileTail(w: World, k: Key, ip: string)
    requires k in w.services
    ensures Drive(w, k, ReadingVrids(Reconciling(ip)), NO_FAULTS)
            == if w.vrids.None? then (w, true)
               else (Published(WithNginx(WithKeepalived(w, w.vrids.value), k, ip), k, ip), false)
  {
    hide Conf, Drive, Path, Published, WithNginx;
    KeepalivedPart(w, k, Reconciling(ip));
    if w.vrids.Some? { NginxPart(WithKeepalived(w, w.vrids.value), k, ip); }
  }

  // ---------- A live service ----------

  /** Everything about the service and the server agrees with the ConfigMap. */
  ghost predicate Settled(w: World, k: Key, ip: string) {
    && Held(w.services, k) && !w.services[k].deleting && w.services[k].isLoadBalancer
    && w.services[k].statusIP == Some(ip) && Owns(w.allocs, k, ip)
    && Path(w.settings.cluster, k) in w.files && w.files[Path(w.settings.cluster, k)] == NginxConf(k, ip)
    && w.live == w.files
    && w.vrids.Some?
    && w.primary == Some(Conf(w.settings, w.vrids.value, w.allocs.Keys, true))
    && w.secondary == Some(Conf(w.settings, w.vrids.value, w.allocs.Keys, false))
    && w.running == w.primary
  }

  /** The address a pass works with: the one owned, or else the first free one of the pool. */
  ghost function Candidate(w: World, k: Key): Option<string> {
    if OwnsSome(w.allocs, k) then Scan(w.allocs, k, "")
    else if w.pool.Some? then FirstFree(w.pool.value, w.allocs)
    else None
  }

  ghost function Allocated(w: World, k: Key, ip: string): World { w.(allocs := w.allocs[ip := Identifier(k)]) }

  lemma AddressPart(w: World, k: Key)
    ensures var c := Candidate(w, k);
            Drive(w, k, Checking, NO_FAULTS)
            == if c.None? then (w, true)
               else Drive(Allocated(w, k, c.value), k, ReadingVrids(Reconciling(c.value)), NO_FAULTS)
  {
    hide Drive, FirstFree, Identifier;
    DriveOne(w, k, Checking, NO_FAULTS);
    if OwnsSome(w.allocs, k) {
      DriveOne(w, k, Fetching, NO_FAULTS);
      assert Allocated(w, k, Candidate(w, k).value) == w;
    } else {
      DriveOne(w, k, Allocating, NO_FAULTS);
      if Candidate(w, k).None? { DriveDone(w, k, true, NO_FAULTS); }
    }
  }

  /** The object with the operator's finalizer on it. */
  function WithFinalizer(w: World, k: Key): World
    requires k in w.services && !w.services[k].deleting
  {
    if Operator in w.services[k].finalizers then w
    else Store(w, k, w.services[k].(finalizers := w.services[k].finalizers + {Operator}))
  }

  lemma FinalizerPart(w: World, k: Key)
    requires k in w.services && w.services[k].isLoadBalancer && !w.services[k].deleting
    ensures Pass(w, k, NO_FAULTS) == Drive(WithFinalizer(w, k), k, Checking, NO_FAULTS)
    ensures var v := WithFinalizer(w, k);
            Held(v.services, k) && !v.services[k].deleting && v.services[k].isLoadBalancer
            && v == w.(services := v.services, next := v.next) && v.services[k].statusIP == w.services[k].statusIP
  {
    hide Drive;
    if Operator !in w.services[k].finalizers { DriveOne(w, k, Adding(w.services[k]), NO_FAULTS); }
  }

  lemma SameCandidate(w: World, v: World, k: Key)
    requires v.allocs == w.allocs && v.pool == w.pool
    ensures Candidate(v, k) == Candidate(w, k)
  {
  }

  /** The whole pass of a live LoadBalancer service, in one equation. */
  lemma LivePass(w: World, k: Key)
    requires k in w.services && w.services[k].isLoadBalancer && !w.services[k].deleting
    ensures var v, c := WithFinalizer(w, k), Candidate(w, k);
            k in v.services &&
            Pass(w, k, NO_FAULTS)
            == if c.None? then (v, true)
               else
                 var u := Allocated(v, k, c.value);
                 if w.vrids.None? then (u, true)
                 else (Published(WithNginx(WithKeepalived(u, w.vrids.value), k, c.value), k, c.value), false)
  {
    FinalizerPart(w, k);
    var v := WithFinalizer(w, k);
    hide Drive, Published, WithNginx, WithKeepalived, Candidate, WithFinalizer;
    AddressPart(v, k);
    SameCandidate(w, v, k);
    var c := Candidate(w, k);
    if c.Some? { ReconcileTail(Allocated(v, k, c.value), k, c.value); }
  }

  lemma SettledAtEnd(v: World, k: Key, ip: string, vrids: (int, int))
    requires Held(v.services, k) && !v.services[k].deleting && v.services[k].isLoadBalancer && v.vrids == Some(vrids)
    ensures Settled(Published(WithNginx(WithKeepalived(Allocated(v, k, ip), vrids), k, ip), k, ip), k, ip)
  {
    hide Conf, Path, Identifier;
  }

  lemma AllocsAtEnd(v: World, k: Key, ip: string, vrids: (int, int))
    requires k in v.services
    ensures Published(WithNginx(WithKeepalived(Allocated(v, k, ip), vrids), k, ip), k, ip).allocs == v.allocs[ip := Identifier(k)]
  {
    hide Conf, Path, Identifier;
  }

  lemma OnlyCandidate(w: World, k: Key)
    requires WorldInv(w)
    ensures forall ip :: Owns(w.allocs, k, ip) ==> Candidate(w, k) == Some(ip)
  {
    hide Identifier, OwnersHeld, FilesOwned, PublishedOwned, VersionsUsed;
  }

  lemma Recovers(w: World, k: Key)
    requires WorldInv(w) && k in w.services && w.services[k].isLoadBalancer && !w.services[k].deleting
    ensures var v, failed := Pass(w, k, NO_FAULTS).0, Pass(w, k, NO_FAULTS).1;
            && (!failed <==> w.vrids.Some? && (OwnsSome(w.allocs, k) || (w.pool.Some? && FirstFree(w.pool.value, w.allocs).Some?)))
            && (!failed ==> exists ip :: Settled(v, k, ip) && v.allocs == w.allocs[ip := Identifier(k)])
            && (!failed ==> forall ip :: Owns(w.allocs, k, ip) ==> Owns(v.allocs, k, ip) && v.services[k].statusIP == Some(ip))
  {
    LivePass(w, k);
    FinalizerPart(w, k);
    var v, c := WithFinalizer(w, k), Candidate(w, k);
    assert c.Some? <==> OwnsSome(w.allocs, k) || (w.pool.Some? && FirstFree(w.pool.value, w.allocs).Some?);
    if c.Some? && w.vrids.Some? {
      SettledAtEnd(v, k, c.value, w.vrids.value);
      AllocsAtEnd(v, k, c.value, w.vrids.value);
      OnlyCandidate(w, k);
    }
    hide Pass, WithFinalizer, Candidate, WorldInv, FirstFree, OwnsSome, WithNginx, WithKeepalived, Published, Identifier, Path, Conf;
  }

  /**
   Recovery. From every reachable state, a pass without failures of a live LoadBalancer service
   succeeds exactly when it has an address or can get one and the VRIDs are there. It ends with
   the published address, the owned address and the address in the NGINX file the same, NGINX
   reloaded, and both Keepalived files and the running Keepalived made from exactly the allocated
   addresses. An address owned before is kept, and no other allocation changes.
   */
  lemma PassRecovers(settings: Settings, actions: seq<Action>, k: Key)
    ensures var w := Run(Initial(settings), actions).w;
            k in w.services && w.services[k].isLoadBalancer && !w.services[k].deleting ==>
            var v, failed := Pass(w, k, NO_FAULTS).0, Pass(w, k, NO_FAULTS).1;
            && (!failed <==> w.vrids.Some? && (OwnsSome(w.allocs, k) || (w.pool.Some? && FirstFree(w.pool.value, w.allocs).Some?)))
            && (!failed ==> exists ip :: Settled(v, k, ip) && v.allocs == w.allocs[ip := Identifier(k)])
            && (!failed ==> forall ip :: Owns(w.allocs, k, ip) ==> Owns(v.allocs, k, ip) && v.services[k].statusIP == Some(ip))
  {
    var w := Run(Initial(settings), actions).w;
    if k in w.services && w.services[k].isLoadBalancer && !w.services[k].deleting {
      InitialInv(settings);
      RunKeeps(Initial(settings), actions);
      hide Run, Initial;
      Recovers(w, k);
    }
  }

  lemma SettledParts(w: World, k: Key, ip: string)
    requires Settled(w, k, ip)
    ensures WithFinalizer(w, k) == w && Allocated(w, k, ip) == w && WithKeepalived(w, w.vrids.value) == w
    ensures WithNginx(w, k, ip) == w && Published(w, k, ip) == w
  {
    hide Conf, Path, Identifier;
    assert w.allocs[ip := Identifier(k)] == w.allocs;
    var path := Path(w.settings.cluster, k);
    assert w.files[path := NginxConf(k, ip)] == w.files;
  }

  /** A settled service stays exactly as it is: the next pass without failures changes nothing. */
  lemma PassIdempotent(w: World, k: Key, ip: string)
    requires WorldInv(w) && Settled(w, k, ip)
    ensures Pass(w, k, NO_FAULTS) == (w, false)
  {
    LivePass(w, k);
    OnlyCandidate(w, k);
    SettledParts(w, k, ip);
    hide Pass, Candidate, WorldInv, Identifier, Path, Conf, WithFinalizer, Allocated, WithKeepalived, WithNginx, Published;
    assert Candidate(w, k) == Some(ip);
  }
}
