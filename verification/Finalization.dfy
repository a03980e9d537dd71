/**
 What happens to a service that is being deleted: which passes complete its deletion, for every
 schedule of failures, and from which states no further run ever completes it.
 */
module Finalization {
  import opened Text
  import opened Faults
  import opened Names
  import opened Vips
  import opened Protocol
  import opened Safety
  import opened Reachable
  import opened Recovery

  /** A pass that finds no address to release fails, whatever else fails in it, and changes
      neither the object nor any allocation. */
  lemma NothingToReleaseFails(w: World, k: Key, sch: Schedule)
    requires Held(w.services, k) && w.services[k].isLoadBalancer && w.services[k].deleting && !OwnsSome(w.allocs, k)
    ensures var v, failed := Pass(w, k, sch).0, Pass(w, k, sch).1;
            failed && v.services == w.services && v.allocs == w.allocs
  {
    hide Drive, Path, Owns, OwnsSome;
    var snap := w.services[k];
    if sch(GetService).Fine? {
      var path := Path(w.settings.cluster, k);
      var w1 := w.(files := w.files - {path});
      var w2 := w1.(live := w1.files);
      DriveOne(w, k, Removing(snap), sch);
      DriveOne(w1, k, Unloading(snap), sch);
      DriveOne(w2, k, Releasing(snap), sch);
      DriveDone(w2, k, true, sch);
      DriveDone(w1, k, true, sch);
      DriveDone(w, k, true, sch);
    }
    DriveDone(w, k, true, sch);
  }

  ghost function Unloaded(w: World, k: Key): World {
    var files := w.files - {Path(w.settings.cluster, k)};
    w.(files := files, live := files)
  }

  lemma RemovalPart(w: World, k: Key, snap: Service)
    requires OwnsSome(w.allocs, k)
    ensures var ip := Scan(w.allocs, k, "").value;
            Drive(w, k, Removing(snap), NO_FAULTS)
            == Drive(Unloaded(w, k).(allocs := w.allocs - {ip}), k, ReadingVrids(Finalizing(snap)), NO_FAULTS)
  {
    hide Drive, Path, Owns, OwnsSome, Identifier;
    var w1 := w.(files := w.files - {Path(w.settings.cluster, k)});
    DriveOne(w, k, Removing(snap), NO_FAULTS);
    DriveOne(w1, k, Unloading(snap), NO_FAULTS);
    DriveOne(Unloaded(w, k), k, Releasing(snap), NO_FAULTS);
  }

  /** What a completed finalization leaves behind: no file, no address, no finalizer; Keepalived
      without the address; and nobody else's allocation touched. */
  ghost predicate CleanedUp(w: World, v: World, k: Key) {
    && !Held(v.services, k) && !OwnsSome(v.allocs, k)
    && v.files == w.files - {Path(w.settings.cluster, k)} && v.live == v.files
    && (forall ip :: ip in w.allocs && !Owns(w.allocs, k, ip) ==> ip in v.allocs && v.allocs[ip] == w.allocs[ip])
    && (forall ip :: ip in v.allocs ==> ip in w.allocs)
    && w.vrids.Some?
    && v.primary == Some(Conf(w.settings, w.vrids.value, v.allocs.Keys, true))
    && v.secondary == Some(Conf(w.settings, w.vrids.value, v.allocs.Keys, false))
    && v.running == v.primary
  }

  ghost function Dropped(w: World, k: Key): World
    requires k in w.services
  {
    Store(w, k, w.services[k].(finalizers := w.services[k].finalizers - {Operator}))
  }

  lemma DropPart(w: World, k: Key)
    requires Held(w.services, k)
    ensures Drive(w, k, Dropping(w.services[k]), NO_FAULTS) == (Dropped(w, k), false)
    ensures !Held(Dropped(w, k).services, k)
  {
    hide Drive;
    DriveOne(w, k, Dropping(w.services[k]), NO_FAULTS);
    DriveDone(Dropped(w, k), k, false, NO_FAULTS);
  }

  lemma ReleaseLeavesNone(w: World, k: Key)
    requires WorldInv(w) && OwnsSome(w.allocs, k)
    ensures var ip := Scan(w.allocs, k, "").value;
            !OwnsSome(w.allocs - {ip}, k)
            && (forall x :: x in w.allocs && !Owns(w.allocs, k, x) ==> x in w.allocs - {ip})
  {
    hide Identifier, OwnersHeld, FilesOwned, PublishedOwned, VersionsUsed;
  }

  /** The whole pass when there is an address to release, in one equation. */
  lemma LeavingPass(w: World, k: Key)
    requires Held(w.services, k) && w.services[k].isLoadBalancer && w.services[k].deleting && OwnsSome(w.allocs, k)
    ensures var u := Unloaded(w, k).(allocs := w.allocs - {Scan(w.allocs, k, "").value});
            Pass(w, k, NO_FAULTS)
            == if w.vrids.None? then (u, true) else (Dropped(WithKeepalived(u, w.vrids.value), k), false)
  {
    var snap := w.services[k];
    RemovalPart(w, k, snap);
    hide Drive, Conf, Path, Identifier, Owns, OwnsSome, Dropped;
    var u := Unloaded(w, k).(allocs := w.allocs - {Scan(w.allocs, k, "").value});
    KeepalivedPart(u, k, Finalizing(snap));
    if w.vrids.Some? { DropPart(WithKeepalived(u, w.vrids.value), k); }
  }

  lemma CleanAtEnd(w: World, k: Key, allocs: map<string, string>, vrids: (int, int))
    requires Held(w.services, k) && w.services[k].deleting && w.vrids == Some(vrids)
    requires !OwnsSome(allocs, k)
    requires forall ip :: ip in allocs ==> ip in w.allocs && allocs[ip] == w.allocs[ip]
    requires forall ip :: ip in w.allocs && !Owns(w.allocs, k, ip) ==> ip in allocs
    ensures CleanedUp(w, Dropped(WithKeepalived(Unloaded(w, k).(allocs := allocs), vrids), k), k)
  {
    hide Conf, Path, Identifier, Owns, OwnsSome;
  }

  lemma CleanedNotHeld(w: World, v: World, k: Key)
    requires CleanedUp(w, v, k)
    ensures !Held(v.services, k)
  {
  }

  /** A pass without failures over a service that is being deleted removes the finalizer exactly
      when the service is still of type LoadBalancer, has an address to release, and the VRIDs are
      there; then it cleans up completely. When the type was changed it succeeds and does nothing. */
  lemma FinalizationExactly(w: World, k: Key)
    requires WorldInv(w) && Held(w.services, k) && w.services[k].deleting
    ensures var v, failed := Pass(w, k, NO_FAULTS).0, Pass(w, k, NO_FAULTS).1;
            && (!Held(v.services, k) <==> w.services[k].isLoadBalancer && OwnsSome(w.allocs, k) && w.vrids.Some?)
            && (!Held(v.services, k) ==> !failed && CleanedUp(w, v, k))
            && (Held(v.services, k) ==> if w.services[k].isLoadBalancer then failed else v == w && !failed)
  {
    if !w.services[k].isLoadBalancer {
      hide Path, Owns, OwnsSome, WorldInv;
    } else if !OwnsSome(w.allocs, k) {
      NothingToReleaseFails(w, k, NO_FAULTS);
      hide Pass;
    } else {
      LeavingPass(w, k);
      ReleaseLeavesNone(w, k);
      hide Pass, Dropped, WithKeepalived, OwnsSome, Owns, WorldInv, CleanedUp;
      if w.vrids.Some? {
        CleanAtEnd(w, k, w.allocs - {Scan(w.allocs, k, "").value}, w.vrids.value);
        assert CleanedUp(w, Pass(w, k, NO_FAULTS).0, k);
        CleanedNotHeld(w, Pass(w, k, NO_FAULTS).0, k);
      }
    }
  }

  // ---------- Objects that wait for their finalizer to go ----------

  predicate PastRelease(pc: PC) {
    match pc
    case ReadingVrids(mode) => mode.Finalizing?
    case LoadingAllocs(mode, _) => mode.Finalizing?
    case WritingPrimary(mode, _, _) => mode.Finalizing?
    case WritingSecondary(mode, _, _) => mode.Finalizing?
    case Restarting(mode) => mode.Finalizing?
    case Dropping(_) => true
    case _ => false
  }

  /** The object as such a pass has read it. */
  function SnapOf(pc: PC): Service
    requires PastRelease(pc)
  {
    match pc
    case ReadingVrids(mode) => mode.snap
    case LoadingAllocs(mode, _) => mode.snap
    case WritingPrimary(mode, _, _) => mode.snap
    case WritingSecondary(mode, _, _) => mode.snap
    case Restarting(mode) => mode.snap
    case Dropping(snap) => snap
  }

  /** A pass that began before the deletion may still allocate; one past the release may still
      remove the finalizer, unless the object has changed since it was read. */
  predicate Hopeful(w: World, k: Key, pc: PC) {
    pc.Checking? || pc.Allocating? || (PastRelease(pc) && Current(w, k, SnapOf(pc)))
  }

  /** The object waits for its finalizer to go, there is nothing left to release, and no pass is
      in a position to change that. */
  ghost predicate Stuck(s: State, k: Key) {
    && Held(s.w.services, k) && s.w.services[k].deleting && !OwnsSome(s.w.allocs, k)
    && (k in s.pcs ==> !Hopeful(s.w, k, s.pcs[k]))
  }

  // ---------- Any schedule of failures ----------

  /** The address gets released, if there is one. */
  predicate Releases(sch: Schedule) {
    sch(GetService).Fine? && sch(RemoveNginx).Fine? && sch(ReloadAfterRemove).Fine? && sch(ReleaseIP) != LostBefore
  }

  predicate KeepalivedFine(sch: Schedule) {
    && sch(GetVRIDs).Fine? && sch(LoadAllocations).Fine?
    && sch(CopyPrimary).Fine? && sch(CopySecondary).Fine? && sch(RestartKeepalived).Fine?
  }

  /** No call fails, except that the last one may be lost after it took effect. */
  predicate Completes(sch: Schedule) {
    Releases(sch) && sch(ReleaseIP).Fine? && KeepalivedFine(sch) && sch(DropFinalizer) != LostBefore
  }

  lemma WritingDrive(w: World, k: Key, snap: Service, vrids: (int, int), ips: set<string>, sch: Schedule) returns (v: World)
    ensures v == w.(primary := v.primary, secondary := v.secondary, running := v.running)
    ensures Drive(w, k, WritingPrimary(Finalizing(snap), vrids, ips), sch)
            == if sch(CopyPrimary).Fine? && sch(CopySecondary).Fine? && sch(RestartKeepalived).Fine?
               then Drive(v, k, Dropping(snap), sch) else (v, true)
  {
    hide Drive, Conf, Path;
    var w1 := w.(primary := Some(Conf(w.settings, vrids, ips, true)));
    var w2 := w1.(secondary := Some(Conf(w.settings, vrids, ips, false)));
    var w3 := w2.(running := w2.primary);
    var mode := Finalizing(snap);
    DriveOutcome(w, k, WritingPrimary(mode, vrids, ips), sch, w1, WritingSecondary(mode, vrids, ips));
    DriveOutcome(w1, k, WritingSecondary(mode, vrids, ips), sch, w2, Restarting(mode));
    DriveOutcome(w2, k, Restarting(mode), sch, w3, Dropping(snap));
    hide Call;
    v := if sch(CopyPrimary).LostBefore? then w
         else if sch(CopyPrimary).LostAfter? || sch(CopySecondary).LostBefore? then w1
         else if sch(CopySecondary).LostAfter? || sch(RestartKeepalived).LostBefore? then w2
         else w3;
  }

  lemma KeepalivedDrive(w: World, k: Key, snap: Service, sch: Schedule) returns (v: World)
    ensures v == w.(primary := v.primary, secondary := v.secondary, running := v.running)
    ensures Drive(w, k, ReadingVrids(Finalizing(snap)), sch)
            == if w.vrids.Some? && KeepalivedFine(sch) then Drive(v, k, Dropping(snap), sch) else (v, true)
  {
    hide Drive, Conf, Path;
    v := w;
    DriveOne(w, k, ReadingVrids(Finalizing(snap)), sch);
    DriveDone(w, k, true, sch);
    if w.vrids.Some? && sch(GetVRIDs).Fine? {
      DriveOne(w, k, LoadingAllocs(Finalizing(snap), w.vrids.value), sch);
      if sch(LoadAllocations).Fine? { v := WritingDrive(w, k, snap, w.vrids.value, w.allocs.Keys, sch); }
    }
  }

  lemma DropDrive(w: World, k: Key, sch: Schedule)
    requires Held(w.services, k)
    ensures var v := Drive(w, k, Dropping(w.services[k]), sch).0;
            v.allocs == w.allocs
            && if sch(DropFinalizer).LostBefore? then v == w else !Held(v.services, k)
  {
    DriveOutcome(w, k, Dropping(w.services[k]), sch, Dropped(w, k), Done(false));
    DriveDone(Dropped(w, k), k, false, sch);
    hide Drive, Call;
  }

  lemma ReleaseDrive(w: World, k: Key, snap: Service, sch: Schedule)
    requires OwnsSome(w.allocs, k)
    ensures var u := w.(allocs := w.allocs - {Scan(w.allocs, k, "").value});
            Drive(w, k, Releasing(snap), sch)
            == match sch(ReleaseIP)
               case Fine => Drive(u, k, ReadingVrids(Finalizing(snap)), sch)
               case LostBefore => (w, true)
               case LostAfter => (u, true)
  {
    hide Drive, Path, Owns, OwnsSome;
    var u := w.(allocs := w.allocs - {Scan(w.allocs, k, "").value});
    DriveOutcome(w, k, Releasing(snap), sch, u, ReadingVrids(Finalizing(snap)));
  }

  lemma RemoveDrive(w: World, k: Key, snap: Service, sch: Schedule) returns (v: World)
    ensures v == w.(files := v.files, live := v.live)
    ensures Drive(w, k, Removing(snap), sch)
            == if sch(RemoveNginx).Fine? && sch(ReloadAfterRemove).Fine? then Drive(v, k, Releasing(snap), sch) else (v, true)
  {
    hide Drive, Path;
    var w1 := w.(files := w.files - {Path(w.settings.cluster, k)});
    var w2 := w1.(live := w1.files);
    DriveOutcome(w, k, Removing(snap), sch, w1, Unloading(snap));
    DriveOutcome(w1, k, Unloading(snap), sch, w2, Releasing(snap));
    hide Call;
    v := if sch(RemoveNginx).LostBefore? then w
         else if sch(RemoveNginx).LostAfter? || sch(ReloadAfterRemove).LostBefore? then w1
         else w2;
  }

  /** From the release on. */
  lemma ReleasingExactly(w: World, k: Key, sch: Schedule)
    requires Held(w.services, k) && OwnsSome(w.allocs, k)
    requires !OwnsSome(w.allocs - {Scan(w.allocs, k, "").value}, k)
    ensures var v := Drive(w, k, Releasing(w.services[k]), sch).0;
            && (!Held(v.services, k) <==> w.vrids.Some? && sch(ReleaseIP).Fine? && KeepalivedFine(sch) && sch(DropFinalizer) != LostBefore)
            && (Held(v.services, k) ==> v.services == w.services)
            && (!OwnsSome(v.allocs, k) <==> sch(ReleaseIP) != LostBefore)
  {
    var snap := w.services[k];
    hide Drive, Owns, OwnsSome, KeepalivedFine, Held;
    ReleaseDrive(w, k, snap, sch);
    if sch(ReleaseIP).Fine? {
      var u := w.(allocs := w.allocs - {Scan(w.allocs, k, "").value});
      var v := KeepalivedDrive(u, k, snap, sch);
      DropDrive(v, k, sch);
    }
  }

  /** Which schedules complete the deletion, and which leave the object with its finalizer and
      nothing to release. */
  lemma ScheduleExactly(w: World, k: Key, sch: Schedule)
    requires WorldInv(w) && Held(w.services, k) && w.services[k].deleting
    ensures var v := Pass(w, k, sch).0;
            var lb, owns := w.services[k].isLoadBalancer, OwnsSome(w.allocs, k);
            && (!Held(v.services, k) <==> lb && owns && w.vrids.Some? && Completes(sch))
            && (Held(v.services, k) ==> v.services == w.services)
            && (!OwnsSome(v.allocs, k) <==> !owns || (lb && Releases(sch)))
            && (Stuck(State(v, map[]), k) <==> Held(v.services, k) && (!owns || (lb && Releases(sch))))
  {
    if OwnsSome(w.allocs, k) { ReleaseLeavesNone(w, k); }
    if !sch(GetService).Fine? || !w.services[k].isLoadBalancer {
      DriveDone(w, k, !sch(GetService).Fine?, sch);
      hide Drive, OwnsSome, WorldInv, KeepalivedFine;
    } else if !OwnsSome(w.allocs, k) {
      NothingToReleaseFails(w, k, sch);
      hide Pass, OwnsSome, WorldInv, KeepalivedFine;
    } else {
      var snap := w.services[k];
      assert Pass(w, k, sch) == Drive(w, k, Removing(snap), sch);
      var u := RemoveDrive(w, k, snap, sch);
      hide Drive, Pass, Owns, OwnsSome, WorldInv, KeepalivedFine, Held;
      if sch(RemoveNginx).Fine? && sch(ReloadAfterRemove).Fine? { ReleasingExactly(u, k, sch); }
    }
  }

  // ---------- Deletions that can never complete ----------

  /** The passes that a stuck object can still have. */
  lemma StuckPc(s: State, k: Key)
    requires Inv(s) && Stuck(s, k) && k in s.pcs
    ensures var pc := s.pcs[k];
            || (pc.Adding? && !Current(s.w, k, pc.snap)) || pc.Removing? || pc.Unloading? || pc.Releasing? || pc.Done?
            || (PastRelease(pc) && !Current(s.w, k, SnapOf(pc)))
  {
    assert PcOk(s.w, k, s.pcs[k]);
    hide WorldInv, NoFile;
  }

  lemma StuckCall(w: World, k: Key, pc: PC, f: Fault, pick: string)
    requires !OwnsSome(w.allocs, k)
    requires (pc.Adding? && !Current(w, k, pc.snap)) || pc.Removing? || pc.Unloading? || pc.Releasing? || pc.Done?
             || (PastRelease(pc) && !Current(w, k, SnapOf(pc)))
    ensures var r := Call(w, k, pc, f, pick);
            && r.0.services == w.services && r.0.allocs == w.allocs
            && (r.1.Done? || r.1.Unloading? || r.1.Releasing? || (PastRelease(r.1) && !Current(w, k, SnapOf(r.1))))
  {
    hide OwnsSome, Path, Conf, AllocateCall, FetchCall, PublishCall;
  }

  lemma StuckOwnPass(s: State, k: Key, f: Fault, pick: string)
    requires Inv(s) && Stuck(s, k) && k in s.pcs
    ensures Stuck(Next(s, Step(k, f, pick)), k)
  {
    StuckPc(s, k);
    StuckCall(s.w, k, s.pcs[k], f, pick);
    hide OwnsSome, Call, Inv;
  }

  lemma StuckOtherPass(s: State, k: Key, l: Key, f: Fault, pick: string)
    requires Inv(s) && Stuck(s, k) && l in s.pcs && l != k
    ensures Stuck(Next(s, Step(l, f, pick)), k)
  {
    CallKeeps(s.w, l, s.pcs[l], f, pick);
    FramedFacts(s.w, Call(s.w, l, s.pcs[l], f, pick).0, l, k);
    hide WorldInv, PcOk, Frame, Call, OwnsSome, PastRelease, SnapOf;
  }

  /** A change gives the object a new version and takes nothing from it that matters here. */
  ghost predicate StillLeaving(w: World, v: World, k: Key) {
    && v.allocs == w.allocs && Held(v.services, k) && v.services[k].deleting
    && ((k in w.services && v.services[k] == w.services[k]) || v.services[k].version == w.next)
  }

  lemma StoreStillLeaving(w: World, l: Key, svc: Service, k: Key)
    requires Held(w.services, k) && w.services[k].deleting && l in w.services
    requires l == k ==> svc.deleting && Operator in svc.finalizers
    ensures StillLeaving(w, Store(w, l, svc), k)
  {
  }

  lemma SurroundingsKeepLeaving(w: World, a: Action, k: Key)
    requires Held(w.services, k) && w.services[k].deleting
    ensures StillLeaving(w, Surroundings(w, a), k)
  {
    if (a.Edit? || a.Delete?) && a.k in w.services {
      var svc := w.services[a.k];
      var edited := if a.Edit? then svc.(isLoadBalancer := a.isLoadBalancer, finalizers := (a.finalizers - {Operator}) + svc.finalizers * {Operator})
                    else svc.(deleting := true);
      StoreStillLeaving(w, a.k, edited, k);
      hide Store;
    }
  }

  /** A change gives the object a version that no pass has read. */
  lemma StuckAfterChange(s: State, v: World, k: Key)
    requires Inv(s) && Stuck(s, k)
    requires StillLeaving(s.w, v, k)
    ensures Stuck(State(v, s.pcs), k)
  {
    if k in s.pcs {
      StuckPc(s, k);
      assert PcOk(s.w, k, s.pcs[k]);
    }
    hide OwnsSome, WorldInv, NoFile;
  }

  lemma StuckSurroundings(s: State, a: Action, k: Key)
    requires Inv(s) && Stuck(s, k) && !a.Step?
    ensures Stuck(Next(s, a), k)
  {
    if !a.Begin? && !a.Crash? {
      SurroundingsKeepLeaving(s.w, a, k);
      StuckAfterChange(s, Surroundings(s.w, a), k);
    }
    hide OwnsSome, Inv, Surroundings;
  }

  lemma {:induction false} StuckForever(s: State, actions: seq<Action>, k: Key)
    requires Inv(s) && Stuck(s, k)
    ensures Stuck(Run(s, actions), k)
    decreases |actions|
  {
    if actions != [] {
      var a := actions[0];
      NextKeeps(s, a);
      hide Inv, Next;
      if !a.Step? {
        StuckSurroundings(s, a, k);
      } else if a.k !in s.pcs {
        NoPassNoStep(s, a);
      } else if a.k == k {
        StuckOwnPass(s, k, a.f, a.pick);
      } else {
        StuckOtherPass(s, k, a.k, a.f, a.pick);
      }
      hide Stuck;
      StuckForever(Next(s, a), actions[1..], k);
    }
  }

  // ---------- ... and those that can ----------

  ghost predicate CanGo(s: State, k: Key) { exists t :: Reaches(s, t) && !Held(t.w.services, k) }

  lemma InvWorld(s: State)
    requires Inv(s)
    ensures WorldInv(s.w)
  {
  }

  /** With an address to release, a change of type back and a pass without failures suffice. */
  lemma OwnerCanGo(s: State, t: State, k: Key)
    requires Inv(s) && Reaches(s, t) && Inv(t) && Held(t.w.services, k) && t.w.services[k].deleting && OwnsSome(t.w.allocs, k)
    ensures CanGo(s, k)
  {
    hide Inv, Reaches, Call, OwnsSome, Start;
    var a1, a2, a3 := Crash, Edit(k, true, {}), SetVrids(Some((1, 2)));
    var t1 := Next(t, a1);
    var t2 := Next(t1, a2);
    var t3 := Next(t2, a3);
    ReachesNext(s, t, a1);
    ReachesNext(s, t1, a2);
    ReachesNext(s, t2, a3);
    NextKeeps(t, a1);
    NextKeeps(t1, a2);
    NextKeeps(t2, a3);
    PassIsRun(s, t3, k, NO_FAULTS);
    assert WorldInv(t3.w) by { InvWorld(t3); }
    hide Next, Pass, WorldInv;
    FinalizationExactly(t3.w, k);
  }

  lemma PastReleaseStep(w: World, k: Key, pc: PC)
    requires PastRelease(pc) && Current(w, k, SnapOf(pc)) && w.vrids.Some?
    ensures var r := Call(w, k, pc, Fine, "");
            && Rank(r.1) < Rank(pc)
            && (if pc.Dropping? then !Held(r.0.services, k)
                else r.0.vrids.Some? && PastRelease(r.1) && Current(r.0, k, SnapOf(r.1)))
  {
    hide Conf, Path, AddFinalizerCall, AllocateCall, FetchCall, ReleaseCall, PublishCall;
  }

  /** A pass past the release whose object is unchanged needs only the rest of its calls to succeed. */
  lemma {:induction false} PastReleaseCanGo(s: State, t: State, k: Key)
    requires Reaches(s, t) && k in t.pcs && PastRelease(t.pcs[k]) && Current(t.w, k, SnapOf(t.pcs[k])) && t.w.vrids.Some?
    ensures CanGo(s, k)
    decreases Rank(t.pcs[k])
  {
    var pc := t.pcs[k];
    var a := Step(k, Fine, "");
    PastReleaseStep(t.w, k, pc);
    ReachesNext(s, t, a);
    hide Reaches, Call, Current, SnapOf, Rank, Held;
    if !pc.Dropping? { PastReleaseCanGo(s, Next(t, a), k); }
  }

  /** A pass that is about to allocate needs an unowned address. */
  lemma AllocatingCanGo(s: State, t: State, k: Key, spare: string)
    requires Inv(s) && Reaches(s, t) && Inv(t) && Held(t.w.services, k) && t.w.services[k].deleting
    requires k in t.pcs && t.pcs[k] == Allocating && spare !in t.w.allocs
    ensures CanGo(s, k)
  {
    hide Inv, Reaches, Start;
    var a1, a2 := SetPool(Some([spare])), Step(k, Fine, "");
    var t1 := Next(t, a1);
    var t2 := Next(t1, a2);
    ReachesNext(s, t, a1);
    ReachesNext(s, t1, a2);
    NextKeeps(t, a1);
    NextKeeps(t1, a2);
    assert FirstFree([spare], t.w.allocs) == Some(spare);
    assert Owns(t2.w.allocs, k, spare);
    OwnerCanGo(s, t2, k);
  }

  lemma CheckingCanGo(s: State, t: State, k: Key, spare: string)
    requires Inv(s) && Reaches(s, t) && Inv(t) && Held(t.w.services, k) && t.w.services[k].deleting && !OwnsSome(t.w.allocs, k)
    requires k in t.pcs && t.pcs[k] == Checking && spare !in t.w.allocs
    ensures CanGo(s, k)
  {
    hide Inv, Reaches, Start, OwnsSome;
    var a := Step(k, Fine, "");
    ReachesNext(s, t, a);
    NextKeeps(t, a);
    AllocatingCanGo(s, Next(t, a), k, spare);
  }

  lemma HopefulCanGo(s: State, k: Key, spare: string)
    requires Inv(s) && Held(s.w.services, k) && s.w.services[k].deleting && !OwnsSome(s.w.allocs, k)
    requires k in s.pcs && Hopeful(s.w, k, s.pcs[k]) && spare !in s.w.allocs
    ensures CanGo(s, k)
  {
    assert Run(s, []) == s;
    assert Reaches(s, s);
    hide Inv, Reaches, OwnsSome, Held, Run;
    if s.pcs[k].Checking? {
      CheckingCanGo(s, s, k, spare);
    } else if s.pcs[k].Allocating? {
      AllocatingCanGo(s, s, k, spare);
    } else {
      var a := SetVrids(Some((1, 2)));
      ReachesNext(s, s, a);
      PastReleaseCanGo(s, Next(s, a), k);
    }
  }

  /** In every state, as long as some address is unowned: the finalizer of an object that is being
      deleted stays through every further run exactly if the object is stuck. */
  lemma StuckExactly(s: State, k: Key, spare: string)
    requires Inv(s) && Held(s.w.services, k) && s.w.services[k].deleting && spare !in s.w.allocs
    ensures Stuck(s, k) <==> forall t :: Reaches(s, t) ==> Held(t.w.services, k)
  {
    assert Run(s, []) == s;
    assert Reaches(s, s);
    if Stuck(s, k) {
      forall t | Reaches(s, t) ensures Held(t.w.services, k) {
        var actions :| Run(s, actions) == t;
        StuckForever(s, actions, k);
      }
    } else {
      hide Inv, Reaches, OwnsSome, Held, Run, Hopeful;
      if OwnsSome(s.w.allocs, k) { OwnerCanGo(s, s, k); } else { HopefulCanGo(s, k, spare); }
    }
  }

  lemma EndingCall(w: World, k: Key, pc: PC, f: Fault, pick: string)
    requires Held(w.services, k) && w.services[k].deleting && (pc.Releasing? || PastRelease(pc))
    requires PastRelease(pc) ==> SnapOf(pc).deleting
    ensures var v := Call(w, k, pc, f, pick).0;
            (PastRelease(pc) ==> v.allocs == w.allocs) && (Held(v.services, k) ==> v.services[k].deleting)
  {
    hide Conf, Path, OwnsSome, AddFinalizerCall, AllocateCall, FetchCall, PublishCall;
  }

  lemma EndedDeleting(s: State, a: Action, k: Key)
    requires Inv(s) && k in s.pcs && (s.pcs[k].Releasing? || PastRelease(s.pcs[k])) && k !in Next(s, a).pcs
    ensures var t := Next(s, a);
            && (PastRelease(s.pcs[k]) ==> !OwnsSome(t.w.allocs, k))
            && (Held(t.w.services, k) ==> t.w.services[k].deleting)
  {
    assert PcOk(s.w, k, s.pcs[k]);
    if a.Step? && a.k == k {
      EndingCall(s.w, k, s.pcs[k], a.f, a.pick);
      hide Call;
    }
    hide WorldInv, NoFile, OwnsSome, Call, Surroundings, Start;
  }

  /** However a finalization ends (a crash, a failed call, a conflict with a change): if its
      address was released by then and the finalizer is still there, then the object stays with
      its finalizer in every later state of every run. */
  lemma EndAfterReleaseSticks(settings: Settings, before: seq<Action>, a: Action, after: seq<Action>, k: Key)
    ensures var s := Run(Initial(settings), before);
            var t := Next(s, a);
            k in s.pcs && (s.pcs[k].Releasing? || PastRelease(s.pcs[k])) && k !in t.pcs ==>
              && (PastRelease(s.pcs[k]) ==> !OwnsSome(t.w.allocs, k))
              && (Held(t.w.services, k) && !OwnsSome(t.w.allocs, k) ==>
                  var w := Run(t, after).w;
                  k in w.services && w.services[k].deleting && Operator in w.services[k].finalizers)
  {
    var s := Run(Initial(settings), before);
    InitialInv(settings);
    RunKeeps(Initial(settings), before);
    hide Run, Initial;
    if k in s.pcs && (s.pcs[k].Releasing? || PastRelease(s.pcs[k])) && k !in Next(s, a).pcs {
      NextKeeps(s, a);
      EndedDeleting(s, a, k);
      hide Inv, Next;
      if Held(Next(s, a).w.services, k) && !OwnsSome(Next(s, a).w.allocs, k) { StuckForever(Next(s, a), after, k); }
    }
  }

  /** In particular a crash anywhere between the release and the removal of the finalizer. */
  lemma CrashAfterReleaseSticks(settings: Settings, before: seq<Action>, after: seq<Action>, k: Key)
    ensures var s := Run(Initial(settings), before);
            k in s.pcs && PastRelease(s.pcs[k]) ==>
              var w := Run(Next(s, Crash), after).w;
              k in w.services && w.services[k].deleting && Operator in w.services[k].finalizers
  {
    var s := Run(Initial(settings), before);
    InitialInv(settings);
    RunKeeps(Initial(settings), before);
    if k in s.pcs && PastRelease(s.pcs[k]) {
      NextKeeps(s, Crash);
      assert PcOk(s.w, k, s.pcs[k]);
      assert Stuck(Next(s, Crash), k);
      hide Run, Initial, Inv, Next;
      StuckForever(Next(s, Crash), after, k);
    }
  }
}
