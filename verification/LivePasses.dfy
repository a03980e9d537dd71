/**
 What one undisturbed pass does under every schedule of failures, to a live service and to one that
 is being deleted: which stores it changes, and whether it succeeds.
 */
module LivePasses {
  import opened Text
  import opened Faults
  import opened Names
  import opened Vips
  import opened Protocol
  import opened Safety
  import opened Recovery
  import opened Serving
  import Finalization

  // ---------- How far a pass comes ----------

  predicate HasFinalizer(w: World, k: Key, sch: Schedule)
    requires k in w.services
  {
    sch(GetService).Fine? && (Operator in w.services[k].finalizers || sch(AddFinalizer).Fine?)
  }

  ghost predicate HasAddress(w: World, k: Key, sch: Schedule)
    requires k in w.services
  {
    && HasFinalizer(w, k, sch) && sch(CheckAllocated).Fine? && Candidate(w, k).Some?
    && if OwnsSome(w.allocs, k) then sch(GetAllocatedIP).Fine? else sch(AllocateIP).Fine?
  }

  predicate ReadsAll(w: World, sch: Schedule) {
    sch(GetVRIDs).Fine? && w.vrids.Some? && sch(LoadAllocations).Fine?
  }

  /** The calls on the server that succeed before the one in question. */
  predicate CopiesPrimary(w: World, sch: Schedule) { ReadsAll(w, sch) && sch(CopyPrimary).Fine? }

  predicate CopiesSecondary(w: World, sch: Schedule) { CopiesPrimary(w, sch) && sch(CopySecondary).Fine? }

  predicate Restarts(w: World, sch: Schedule) { CopiesSecondary(w, sch) && sch(RestartKeepalived).Fine? }

  predicate CopiesNginx(w: World, sch: Schedule) { Restarts(w, sch) && sch(CopyNginx).Fine? }

  predicate Reloads(w: World, sch: Schedule) { CopiesNginx(w, sch) && sch(ReloadNginx).Fine? }

  predicate Refetches(w: World, sch: Schedule) { Reloads(w, sch) && sch(Refetch).Fine? }

  // ---------- The end of a pass ----------

  /** The address is published, or the object is as it was. */
  predicate PublishedIf(w: World, v: World, k: Key, ip: string, yes: bool)
    requires k in w.services
  {
    v == if yes then Published(w, k, ip) else w
  }

  lemma PublishDrive(w: World, k: Key, ip: string, sch: Schedule)
    requires k in w.services
    ensures var r := Drive(w, k, Refetching(ip), sch);
            && PublishedIf(w, r.0, k, ip, sch(Refetch).Fine? && sch(UpdateStatusIP) != LostBefore)
            && (r.1 <==> !(sch(Refetch).Fine? && sch(UpdateStatusIP).Fine?))
  {
    DriveOne(w, k, Refetching(ip), sch);
    DriveDone(w, k, true, sch);
    if sch(Refetch).Fine? {
      DriveOutcome(w, k, Publishing(ip, w.services[k]), sch, Published(w, k, ip), Done(false));
      DriveDone(Published(w, k, ip), k, false, sch);
    }
    hide Drive;
  }

  lemma NginxDrive(w: World, k: Key, ip: string, sch: Schedule)
    ensures Drive(w, k, WritingNginx(ip), sch)
            == match sch(CopyNginx)
               case LostBefore => (w, true)
               case LostAfter => (Written(w, k, ip), true)
               case Fine =>
                 match sch(ReloadNginx)
                 case LostBefore => (Written(w, k, ip), true)
                 case LostAfter => (WithNginx(w, k, ip), true)
                 case Fine => Drive(WithNginx(w, k, ip), k, Refetching(ip), sch)
  {
    hide Drive, Path;
    DriveOutcome(w, k, WritingNginx(ip), sch, Written(w, k, ip), Reloading(ip));
    DriveOutcome(Written(w, k, ip), k, Reloading(ip), sch, WithNginx(w, k, ip), Refetching(ip));
  }

  /** Everything on the server and the published address, from the NGINX file on. */
  ghost predicate NginxEnd(w: World, v: World, k: Key, ip: string, sch: Schedule)
    requires k in w.services
  {
    var copied, reloaded := sch(CopyNginx).Fine?, sch(CopyNginx).Fine? && sch(ReloadNginx).Fine?;
    && v.settings == w.settings && v.allocs == w.allocs && v.vrids == w.vrids
    && v.primary == w.primary && v.secondary == w.secondary && v.running == w.running
    && v.files == (if sch(CopyNginx) != LostBefore then w.files[Path(w.settings.cluster, k) := NginxConf(k, ip)] else w.files)
    && v.live == (if copied && sch(ReloadNginx) != LostBefore then v.files else w.live)
    && k in v.services && v.services[k].finalizers == w.services[k].finalizers
    && v.services[k].statusIP == (if reloaded && sch(Refetch).Fine? && sch(UpdateStatusIP) != LostBefore then Some(ip) else w.services[k].statusIP)
  }

  lemma PublishedParts(w: World, k: Key, ip: string)
    requires k in w.services
    ensures var v := Published(w, k, ip);
            && v == w.(services := v.services, next := v.next)
            && k in v.services && v.services[k].finalizers == w.services[k].finalizers && v.services[k].statusIP == Some(ip)
  {
  }

  function NginxReached(w: World, k: Key, ip: string, sch: Schedule): World {
    if sch(CopyNginx) == LostBefore then w
    else if sch(CopyNginx) == LostAfter || sch(ReloadNginx) == LostBefore then Written(w, k, ip)
    else WithNginx(w, k, ip)
  }

  lemma NginxEndIs(w: World, v: World, k: Key, ip: string, sch: Schedule)
    requires k in w.services && v == NginxReached(w, k, ip, sch).(services := v.services, next := v.next)
    requires k in v.services && v.services[k].finalizers == w.services[k].finalizers
    requires var reloaded := sch(CopyNginx).Fine? && sch(ReloadNginx).Fine?;
             v.services[k].statusIP == (if reloaded && sch(Refetch).Fine? && sch(UpdateStatusIP) != LostBefore then Some(ip)
                                        else w.services[k].statusIP)
    ensures NginxEnd(w, v, k, ip, sch)
  {
    hide Path;
  }

  lemma NginxEndDrive(w: World, k: Key, ip: string, sch: Schedule)
    requires k in w.services
    ensures var r := Drive(w, k, WritingNginx(ip), sch);
            && NginxEnd(w, r.0, k, ip, sch)
            && (r.1 <==> !(sch(CopyNginx).Fine? && sch(ReloadNginx).Fine? && sch(Refetch).Fine? && sch(UpdateStatusIP).Fine?))
  {
    NginxDrive(w, k, ip, sch);
    hide Drive, Published, Path, NginxEnd;
    var u := NginxReached(w, k, ip, sch);
    assert u == w.(files := u.files, live := u.live);
    hide Written, WithNginx;
    var r := Drive(w, k, WritingNginx(ip), sch);
    if sch(CopyNginx).Fine? && sch(ReloadNginx).Fine? {
      PublishDrive(u, k, ip, sch);
      PublishedParts(u, k, ip);
    } else {
      assert r == (u, true);
    }
    hide NginxReached;
    NginxEndIs(w, r.0, k, ip, sch);
  }

  // ---------- Keepalived ----------

  /** Both files and the restart, from the reading of the VRIDs on. */
  ghost predicate KeepalivedEnd(w: World, v: World, sch: Schedule) {
    && v == w.(primary := v.primary, secondary := v.secondary, running := v.running)
    && v.primary == (if ReadsAll(w, sch) && sch(CopyPrimary) != LostBefore
                     then Some(Conf(w.settings, w.vrids.value, w.allocs.Keys, true)) else w.primary)
    && v.secondary == (if CopiesPrimary(w, sch) && sch(CopySecondary) != LostBefore
                       then Some(Conf(w.settings, w.vrids.value, w.allocs.Keys, false)) else w.secondary)
    && v.running == (if CopiesSecondary(w, sch) && sch(RestartKeepalived) != LostBefore then v.primary else w.running)
  }

  lemma WritingDrive(w: World, k: Key, mode: Mode, sch: Schedule) returns (v: World)
    requires ReadsAll(w, sch)
    ensures KeepalivedEnd(w, v, sch)
    ensures Drive(w, k, WritingPrimary(mode, w.vrids.value, w.allocs.Keys), sch)
            == if Restarts(w, sch) then Drive(v, k, AfterRestart(mode), sch) else (v, true)
  {
    hide Drive, Conf, Path;
    var vrids, ips := w.vrids.value, w.allocs.Keys;
    var w1 := w.(primary := Some(Conf(w.settings, vrids, ips, true)));
    var w2 := w1.(secondary := Some(Conf(w.settings, vrids, ips, false)));
    var w3 := w2.(running := w2.primary);
    DriveOutcome(w, k, WritingPrimary(mode, vrids, ips), sch, w1, WritingSecondary(mode, vrids, ips));
    DriveOutcome(w1, k, WritingSecondary(mode, vrids, ips), sch, w2, Restarting(mode));
    DriveOutcome(w2, k, Restarting(mode), sch, w3, AfterRestart(mode));
    hide Call, AfterRestart;
    v := if sch(CopyPrimary).LostBefore? then w
         else if sch(CopyPrimary).LostAfter? || sch(CopySecondary).LostBefore? then w1
         else if sch(CopySecondary).LostAfter? || sch(RestartKeepalived).LostBefore? then w2
         else w3;
  }

  lemma KeepalivedEndDrive(w: World, k: Key, mode: Mode, sch: Schedule) returns (v: World)
    ensures KeepalivedEnd(w, v, sch)
    ensures Drive(w, k, ReadingVrids(mode), sch)
            == if Restarts(w, sch) then Drive(v, k, AfterRestart(mode), sch) else (v, true)
  {
    hide Drive, Conf, Path;
    v := w;
    DriveOne(w, k, ReadingVrids(mode), sch);
    DriveDone(w, k, true, sch);
    if sch(GetVRIDs).Fine? && w.vrids.Some? {
      DriveOne(w, k, LoadingAllocs(mode, w.vrids.value), sch);
      if sch(LoadAllocations).Fine? { v := WritingDrive(w, k, mode, sch); }
    }
  }

  /** The whole server and the published address, once the service has its address. */
  ghost predicate ServerEnd(w: World, v: World, k: Key, ip: string, sch: Schedule)
    requires k in w.services
  {
    && v.settings == w.settings && v.allocs == w.allocs && v.vrids == w.vrids
    && v.primary == (if ReadsAll(w, sch) && sch(CopyPrimary) != LostBefore
                     then Some(Conf(w.settings, w.vrids.value, w.allocs.Keys, true)) else w.primary)
    && v.secondary == (if CopiesPrimary(w, sch) && sch(CopySecondary) != LostBefore
                       then Some(Conf(w.settings, w.vrids.value, w.allocs.Keys, false)) else w.secondary)
    && v.running == (if CopiesSecondary(w, sch) && sch(RestartKeepalived) != LostBefore then v.primary else w.running)
    && v.files == (if Restarts(w, sch) && sch(CopyNginx) != LostBefore
                   then w.files[Path(w.settings.cluster, k) := NginxConf(k, ip)] else w.files)
    && v.live == (if CopiesNginx(w, sch) && sch(ReloadNginx) != LostBefore then v.files else w.live)
    && k in v.services && v.services[k].finalizers == w.services[k].finalizers
    && v.services[k].statusIP == (if Refetches(w, sch) && sch(UpdateStatusIP) != LostBefore then Some(ip) else w.services[k].statusIP)
  }

  lemma EndsCompose(w: World, u: World, v: World, k: Key, ip: string, sch: Schedule)
    requires k in w.services && KeepalivedEnd(w, u, sch)
    requires if Restarts(w, sch) then NginxEnd(u, v, k, ip, sch) else v == u
    ensures ServerEnd(w, v, k, ip, sch)
  {
    hide Conf, Path;
  }

  lemma ServerEndDrive(w: World, k: Key, ip: string, sch: Schedule)
    requires k in w.services
    ensures var r := Drive(w, k, ReadingVrids(Reconciling(ip)), sch);
            ServerEnd(w, r.0, k, ip, sch) && (r.1 <==> !(Refetches(w, sch) && sch(UpdateStatusIP).Fine?))
  {
    var u := KeepalivedEndDrive(w, k, Reconciling(ip), sch);
    assert k in u.services;
    if Restarts(w, sch) { NginxEndDrive(u, k, ip, sch); }
    EndsCompose(w, u, Drive(w, k, ReadingVrids(Reconciling(ip)), sch).0, k, ip, sch);
    hide Drive, Conf, Path, KeepalivedEnd, NginxEnd, ServerEnd;
  }

  // ---------- The address and the finalizer ----------

  /** The ConfigMap after a pass. */
  ghost function AllocsAfter(w: World, k: Key, sch: Schedule): map<string, string>
    requires k in w.services
  {
    if HasFinalizer(w, k, sch) && sch(CheckAllocated).Fine? && !OwnsSome(w.allocs, k) && Candidate(w, k).Some?
       && sch(AllocateIP) != LostBefore
    then w.allocs[Candidate(w, k).value := Identifier(k)]
    else w.allocs
  }

  lemma AddressDrive(w: World, k: Key, sch: Schedule)
    requires k in w.services && HasFinalizer(w, k, sch)
    ensures var u := w.(allocs := AllocsAfter(w, k, sch));
            Drive(w, k, Checking, sch)
            == if HasAddress(w, k, sch) then Drive(u, k, ReadingVrids(Reconciling(Candidate(w, k).value)), sch)
               else (u, true)
  {
    hide Drive, FirstFree, Identifier, Path, Conf;
    DriveOne(w, k, Checking, sch);
    DriveDone(w, k, true, sch);
    if sch(CheckAllocated).Fine? {
      if OwnsSome(w.allocs, k) {
        DriveOne(w, k, Fetching, sch);
      } else {
        DriveOne(w, k, Allocating, sch);
        if Candidate(w, k).Some? {
          DriveDone(w.(allocs := w.allocs[Candidate(w, k).value := Identifier(k)]), k, true, sch);
        }
      }
    }
  }

  /** Before the pass looks for an address: the object, and whether the pass goes on. */
  lemma FinalizerDrive(w: World, k: Key, sch: Schedule)
    requires Live(w, k)
    ensures var tried := sch(GetService).Fine? && sch(AddFinalizer) != LostBefore;
            var v := if tried then WithFinalizer(w, k) else w;
            Pass(w, k, sch) == if HasFinalizer(w, k, sch) then Drive(WithFinalizer(w, k), k, Checking, sch) else (v, true)
  {
    hide Drive;
    DriveDone(w, k, true, sch);
    if sch(GetService).Fine? && Operator !in w.services[k].finalizers {
      DriveOutcome(w, k, Adding(w.services[k]), sch, WithFinalizer(w, k), Checking);
    }
  }

  lemma WithFinalizerParts(w: World, k: Key)
    requires Live(w, k)
    ensures var v := WithFinalizer(w, k);
            && v == w.(services := v.services, next := v.next)
            && Held(v.services, k) && v.services[k].statusIP == w.services[k].statusIP
  {
  }

  lemma SameParts(w: World, u: World, k: Key, sch: Schedule)
    requires Live(w, k) && k in u.services && u.allocs == w.allocs && u.pool == w.pool
    requires HasFinalizer(w, k, sch) && HasFinalizer(u, k, sch)
    ensures HasAddress(u, k, sch) == HasAddress(w, k, sch) && AllocsAfter(u, k, sch) == AllocsAfter(w, k, sch)
    ensures Candidate(u, k) == Candidate(w, k)
  {
    SameCandidate(w, u, k);
    hide Candidate, OwnsSome, Identifier;
  }

  /** Whatever fails in it, a pass of a live service leaves exactly this. */
  ghost predicate LiveEnd(w: World, v: World, k: Key, sch: Schedule)
    requires k in w.services
  {
    var path, owned := Path(w.settings.cluster, k), HasAddress(w, k, sch);
    && v.allocs == AllocsAfter(w, k, sch)
    && v.primary == (if owned && ReadsAll(w, sch) && sch(CopyPrimary) != LostBefore
                     then Some(Conf(w.settings, w.vrids.value, v.allocs.Keys, true)) else w.primary)
    && v.secondary == (if owned && CopiesPrimary(w, sch) && sch(CopySecondary) != LostBefore
                       then Some(Conf(w.settings, w.vrids.value, v.allocs.Keys, false)) else w.secondary)
    && v.running == (if owned && CopiesSecondary(w, sch) && sch(RestartKeepalived) != LostBefore then v.primary else w.running)
    && v.files == (if owned && Restarts(w, sch) && sch(CopyNginx) != LostBefore
                   then w.files[path := NginxConf(k, Candidate(w, k).value)] else w.files)
    && v.live == (if owned && CopiesNginx(w, sch) && sch(ReloadNginx) != LostBefore then v.files else w.live)
    && k in v.services
    && (Operator in v.services[k].finalizers
        <==> Operator in w.services[k].finalizers || (sch(GetService).Fine? && sch(AddFinalizer) != LostBefore))
    && v.services[k].statusIP == (if owned && Refetches(w, sch) && sch(UpdateStatusIP) != LostBefore
                                  then Some(Candidate(w, k).value) else w.services[k].statusIP)
  }

  lemma EndBefore(w: World, v: World, k: Key, sch: Schedule)
    requires Live(w, k) && !HasAddress(w, k, sch)
    requires v == w.(services := v.services, next := v.next, allocs := AllocsAfter(w, k, sch))
    requires k in v.services && v.services[k].statusIP == w.services[k].statusIP
    requires Operator in v.services[k].finalizers
             <==> Operator in w.services[k].finalizers || (sch(GetService).Fine? && sch(AddFinalizer) != LostBefore)
    ensures LiveEnd(w, v, k, sch)
  {
    hide HasAddress, AllocsAfter, Path, Conf, Candidate;
  }

  lemma EndAfter(w: World, u: World, v: World, k: Key, sch: Schedule)
    requires Live(w, k) && HasAddress(w, k, sch)
    requires u == w.(services := u.services, next := u.next, allocs := AllocsAfter(w, k, sch))
    requires Held(u.services, k) && u.services[k].statusIP == w.services[k].statusIP
    requires ServerEnd(u, v, k, Candidate(w, k).value, sch)
    ensures LiveEnd(w, v, k, sch)
  {
    assert HasFinalizer(w, k, sch);
    hide HasAddress, AllocsAfter, Path, Conf, Candidate;
  }

  /** For every schedule of failures: whether the pass of a live service puts the finalizer on the
      object, allocates, writes and loads each file, publishes, and succeeds. */
  lemma LiveScheduleExactly(w: World, k: Key, sch: Schedule)
    requires Live(w, k)
    ensures var v, failed := Pass(w, k, sch).0, Pass(w, k, sch).1;
            && LiveEnd(w, v, k, sch)
            && (!failed <==> HasAddress(w, k, sch) && Refetches(w, sch) && sch(UpdateStatusIP).Fine?)
  {
    FinalizerDrive(w, k, sch);
    WithFinalizerParts(w, k);
    var u := WithFinalizer(w, k);
    hide Drive, Pass, WithFinalizer, LiveEnd, ServerEnd, Candidate, Path, Conf, Restarts;
    if HasFinalizer(w, k, sch) {
      SameParts(w, u, k, sch);
      AddressDrive(u, k, sch);
      var t := u.(allocs := AllocsAfter(w, k, sch));
      if HasAddress(w, k, sch) {
        ServerEndDrive(t, k, Candidate(w, k).value, sch);
        EndAfter(w, t, Pass(w, k, sch).0, k, sch);
      } else {
        EndBefore(w, Pass(w, k, sch).0, k, sch);
      }
    } else {
      EndBefore(w, Pass(w, k, sch).0, k, sch);
    }
  }

  // ---------- A service that is being deleted ----------

  /** The calls of the clean-up that succeed before the one in question. */
  predicate Removes(sch: Schedule) { sch(GetService).Fine? && sch(RemoveNginx).Fine? }

  predicate Unloads(sch: Schedule) { Removes(sch) && sch(ReloadAfterRemove).Fine? }

  ghost predicate ReleasesFine(w: World, k: Key, sch: Schedule) {
    Unloads(sch) && OwnsSome(w.allocs, k) && sch(ReleaseIP).Fine?
  }

  /** Whatever fails in it, a pass of such a service leaves exactly this. */
  ghost predicate LeavingEnd(w: World, v: World, k: Key, sch: Schedule) {
    var released := ReleasesFine(w, k, sch);
    && v.files == (if sch(GetService).Fine? && sch(RemoveNginx) != LostBefore
                   then w.files - {Path(w.settings.cluster, k)} else w.files)
    && v.live == (if Removes(sch) && sch(ReloadAfterRemove) != LostBefore then v.files else w.live)
    && v.allocs == (if Unloads(sch) && OwnsSome(w.allocs, k) && sch(ReleaseIP) != LostBefore
                    then w.allocs - {Scan(w.allocs, k, "").value} else w.allocs)
    && v.primary == (if released && ReadsAll(w, sch) && sch(CopyPrimary) != LostBefore
                     then Some(Conf(w.settings, w.vrids.value, v.allocs.Keys, true)) else w.primary)
    && v.secondary == (if released && CopiesPrimary(w, sch) && sch(CopySecondary) != LostBefore
                       then Some(Conf(w.settings, w.vrids.value, v.allocs.Keys, false)) else w.secondary)
    && v.running == (if released && CopiesSecondary(w, sch) && sch(RestartKeepalived) != LostBefore then v.primary else w.running)
    && (if released && Restarts(w, sch) && sch(DropFinalizer) != LostBefore
        then !Held(v.services, k) && SameServices(w.services, v.services, k) else v.services == w.services)
  }

  lemma DroppedParts(w: World, k: Key)
    requires Held(w.services, k)
    ensures var v := Finalization.Dropped(w, k);
            && v == w.(services := v.services, next := v.next)
            && !Held(v.services, k) && SameServices(w.services, v.services, k)
  {
  }

  lemma DropEnd(w: World, k: Key, sch: Schedule)
    requires Held(w.services, k)
    ensures var r := Drive(w, k, Dropping(w.services[k]), sch);
            && r.0 == w.(services := r.0.services, next := r.0.next)
            && (if sch(DropFinalizer) != LostBefore
                then !Held(r.0.services, k) && SameServices(w.services, r.0.services, k) else r.0.services == w.services)
            && (r.1 <==> !sch(DropFinalizer).Fine?)
  {
    var v := Finalization.Dropped(w, k);
    DroppedParts(w, k);
    DriveOutcome(w, k, Dropping(w.services[k]), sch, v, Done(false));
    DriveDone(v, k, false, sch);
    hide Drive, Call, SameServices, Store, Finalization.Dropped;
  }

  lemma NoRelease(w: World, k: Key, snap: Service, sch: Schedule)
    requires !OwnsSome(w.allocs, k)
    ensures Drive(w, k, Releasing(snap), sch) == (w, true)
  {
    DriveOne(w, k, Releasing(snap), sch);
    DriveDone(w, k, true, sch);
    hide Drive, OwnsSome, Path, Conf;
  }

  /** From the release on. */
  lemma ReleaseEnd(w: World, u: World, k: Key, sch: Schedule)
    requires Held(w.services, k) && Unloads(sch)
    requires u == w.(files := w.files - {Path(w.settings.cluster, k)}, live := w.files - {Path(w.settings.cluster, k)})
    ensures var r := Drive(u, k, Releasing(w.services[k]), sch);
            && LeavingEnd(w, r.0, k, sch)
            && (r.1 <==> !(ReleasesFine(w, k, sch) && Restarts(w, sch) && sch(DropFinalizer).Fine?))
  {
    var snap := w.services[k];
    hide Drive, Path, Conf, Owns, OwnsSome, SameServices, Call;
    if OwnsSome(u.allocs, k) {
      Finalization.ReleaseDrive(u, k, snap, sch);
      if sch(ReleaseIP).Fine? {
        var t := u.(allocs := u.allocs - {Scan(u.allocs, k, "").value});
        var v := KeepalivedEndDrive(t, k, Finalizing(snap), sch);
        assert v.services == w.services;
        if Restarts(t, sch) { DropEnd(v, k, sch); }
      }
    } else {
      NoRelease(u, k, snap, sch);
    }
    hide Held;
  }

  lemma NotReleased(w: World, k: Key, sch: Schedule)
    ensures !Unloads(sch) ==> !ReleasesFine(w, k, sch)
  {
  }

  /** For every schedule of failures: what a pass of a service that is being deleted removes and
      writes, whether it releases the address and drops the finalizer, and whether it succeeds. */
  lemma LeavingScheduleExactly(w: World, k: Key, sch: Schedule)
    requires Held(w.services, k) && w.services[k].deleting && w.services[k].isLoadBalancer
    ensures var v, failed := Pass(w, k, sch).0, Pass(w, k, sch).1;
            && LeavingEnd(w, v, k, sch)
            && (!failed <==> ReleasesFine(w, k, sch) && Restarts(w, sch) && sch(DropFinalizer).Fine?)
  {
    var snap := w.services[k];
    var w1 := w.(files := w.files - {Path(w.settings.cluster, k)});
    var w2 := w1.(live := w1.files);
    hide Drive, Path, Conf, OwnsSome, ReleasesFine;
    DriveDone(w, k, true, sch);
    DriveDone(w1, k, true, sch);
    if sch(GetService).Fine? {
      DriveOutcome(w, k, Removing(snap), sch, w1, Unloading(snap));
      DriveOutcome(w1, k, Unloading(snap), sch, w2, Releasing(snap));
      if Unloads(sch) { ReleaseEnd(w, w2, k, sch); }
    }
    assert !Unloads(sch) ==> !ReleasesFine(w, k, sch) by { NotReleased(w, k, sch); }
    hide Call;
  }
}
