/**
 The operator's code itself (controllers/service_controller.go with utils/ipam.go,
 utils/keepalived.go and utils/nginx.go): the calls of one pass in the order the source makes
 them, changing the stores in place. Each method is proved against the step functions of
 Protocol; Reconcile as a whole is Protocol.Pass.

 `sch` says how each call to the cluster or the server turns out. A method's failures that
 happen before it writes anything are its LostBefore.
 */
module Controller {
  import opened Text
  import opened Faults
  import opened Names
  import opened Vips
  import opened Protocol
  import opened Safety
  import opened Recovery

  /** What ConfigureKeepalived leaves behind, and whether it fails, call by call. */
  ghost function KeepalivedRun(w: World, vrids: (int, int), sch: Schedule): (World, bool) {
    var primary := Some(Conf(w.settings, vrids, w.allocs.Keys, true));
    var secondary := Some(Conf(w.settings, vrids, w.allocs.Keys, false));
    if !sch(LoadAllocations).Fine? || sch(CopyPrimary) == LostBefore then (w, true)
    else if !sch(CopyPrimary).Fine? || sch(CopySecondary) == LostBefore then (w.(primary := primary), true)
    else if !sch(CopySecondary).Fine? || sch(RestartKeepalived) == LostBefore then
      (w.(primary := primary, secondary := secondary), true)
    else
      (w.(primary := primary, secondary := secondary, running := primary), !sch(RestartKeepalived).Fine?)
  }

  lemma DriveKeepalived(w: World, k: Key, mode: Mode, vrids: (int, int), sch: Schedule)
    ensures var r := KeepalivedRun(w, vrids, sch);
            Drive(w, k, LoadingAllocs(mode, vrids), sch)
            == if r.1 then (r.0, true) else Drive(r.0, k, AfterRestart(mode), sch)
  {
    hide Conf, Drive;
    var ips := w.allocs.Keys;
    var w1 := w.(primary := Some(Conf(w.settings, vrids, ips, true)));
    var w2 := w1.(secondary := Some(Conf(w.settings, vrids, ips, false)));
    var w3 := w2.(running := w2.primary);
    DriveOne(w, k, LoadingAllocs(mode, vrids), sch);
    DriveOne(w, k, WritingPrimary(mode, vrids, ips), sch);
    DriveOne(w1, k, WritingSecondary(mode, vrids, ips), sch);
    DriveOne(w2, k, Restarting(mode), sch);
    DriveDone(w, k, true, sch);
    DriveDone(w1, k, true, sch);
    DriveDone(w2, k, true, sch);
    DriveDone(w3, k, true, sch);
  }

  class ServiceReconciler {
    const settings: Settings
    var services: map<Key, Service>
    var ipAllocations: Option<map<string, string>>   // the ConfigMap, once it has been created
    var ipPool: Option<seq<string>>
    var vrids: Option<(int, int)>
    var nginxFiles: map<string, NginxConf>
    var nginxLive: map<string, NginxConf>
    var primaryConf: Option<KeepalivedConf>
    var secondaryConf: Option<KeepalivedConf>
    var runningConf: Option<KeepalivedConf>
    var nextVersion: nat

    function Allocs(): map<string, string>
      reads this`ipAllocations
    {
      match ipAllocations case Some(m) => m case None => map[]
    }

    function Stores(): World
      reads this
    {
      World(settings, services, Allocs(), ipPool, vrids, nginxFiles, nginxLive,
            primaryConf, secondaryConf, runningConf, nextVersion)
    }

    // ---------- The API server ----------

    method UpdateService(k: Key, snap: Service, svc: Service, fault: Fault) returns (ok: bool)
      modifies this`services, this`nextVersion
      ensures ok <==> fault.Fine? && Current(old(Stores()), k, snap)
      ensures Stores() == if fault == LostBefore || !Current(old(Stores()), k, snap) then old(Stores())
                          else Store(old(Stores()), k, svc)
    {
      if k !in services || services[k].version != snap.version || fault == LostBefore {
        return false;
      }
      if svc.deleting && svc.finalizers == {} {
        services := services - {k};
      } else {
        services := services[k := svc.(version := nextVersion)];
      }
      nextVersion := nextVersion + 1;
      ok := fault.Fine?;
    }

    method UpdateServiceStatus(k: Key, snap: Service, ip: string, fault: Fault) returns (ok: bool)
      modifies this`services, this`nextVersion
      ensures (Stores(), Done(!ok)) == PublishCall(old(Stores()), k, ip, snap, fault)
    {
      if k !in services || services[k].version != snap.version || fault == LostBefore {
        return false;
      }
      if services[k].statusIP != Some(ip) {
        services := services[k := services[k].(statusIP := Some(ip), version := nextVersion)];
        nextVersion := nextVersion + 1;
      }
      ok := fault.Fine?;
    }

    // ---------- utils/ipam.go ----------

    /** A missing ConfigMap reads as an empty map. */
    method LoadAllocatedIPs() returns (m: map<string, string>)
      ensures m == Allocs()
    {
      m := match ipAllocations case Some(data) => data case None => map[];
    }

    /** Update, or create when there is nothing to update. */
    method SaveAllocatedIPs(m: map<string, string>, fault: Fault) returns (ok: bool)
      modifies this`ipAllocations
      ensures ok <==> fault.Fine?
      ensures Allocs() == if fault == LostBefore then old(Allocs()) else m
    {
      if fault != LostBefore {
        ipAllocations := Some(m);
      }
      ok := fault.Fine?;
    }

    method AllocateIP(k: Key, fault: Fault) returns (r: Option<string>)
      modifies this`ipAllocations
      ensures AllocateCall(old(Stores()), k, fault)
              == (Stores(), match r case Some(ip) => ReadingVrids(Reconciling(ip)) case None => Done(true))
      ensures r.Some? ==> r.value !in old(Allocs()) && Allocs() == old(Allocs())[r.value := Identifier(k)]
    {
      if ipPool.None? {
        return None;
      }
      var pool := ipPool.value;
      var allocatedIPs := LoadAllocatedIPs();
      for i := 0 to |pool|
        invariant FirstFree(pool, allocatedIPs) == FirstFree(pool[i..], allocatedIPs)
      {
        assert pool[i..][1..] == pool[i + 1..];
        var ip := pool[i];
        if ip !in allocatedIPs {
          var ok := SaveAllocatedIPs(allocatedIPs[ip := Identifier(k)], fault);
          return if ok then Some(ip) else None;
        }
      }
      r := None;
    }

    /** The search for an owned address, in whatever order the map is enumerated. */
    method FindOwned(m: map<string, string>, k: Key) returns (r: Option<string>)
      ensures r.Some? ==> Owns(m, k, r.value)
      ensures r.None? <==> !OwnsSome(m, k)
    {
      var left := m.Keys;
      while left != {}
        invariant left <= m.Keys
        invariant forall ip :: ip in m.Keys - left ==> m[ip] != Identifier(k)
        decreases |left|
      {
        var ip :| ip in left;
        if m[ip] == Identifier(k) {
          assert Owns(m, k, ip);
          return Some(ip);
        }
        left := left - {ip};
      }
      r := None;
    }

    method ReleaseIP(k: Key, ghost snap: Service, fault: Fault) returns (ok: bool, ghost pick: string)
      modifies this`ipAllocations
      ensures ReleaseCall(old(Stores()), k, snap, fault, pick)
              == (Stores(), if ok then ReadingVrids(Finalizing(snap)) else Done(true))
      ensures ok <==> fault.Fine? && OwnsSome(old(Allocs()), k)
      ensures Allocs() == old(Allocs()) || (Owns(old(Allocs()), k, pick) && Allocs() == old(Allocs()) - {pick})
      ensures ok ==> Allocs() != old(Allocs())
    {
      pick := "";
      var allocatedIPs := LoadAllocatedIPs();
      var found := FindOwned(allocatedIPs, k);
      if found.None? {
        return false, pick;
      }
      pick := found.value;
      ok := SaveAllocatedIPs(allocatedIPs - {found.value}, fault);
    }

    method IsIPAllocatedToService(k: Key, fault: Fault) returns (r: Option<bool>)
      ensures r == if fault.Fine? then Some(OwnsSome(Allocs(), k)) else None
    {
      if !fault.Fine? {
        return None;
      }
      var allocatedIPs := LoadAllocatedIPs();
      var found := FindOwned(allocatedIPs, k);
      r := Some(found.Some?);
    }

    method GetAllocatedIPForService(k: Key, fault: Fault) returns (r: Option<string>, ghost pick: string)
      ensures FetchCall(Stores(), k, fault, pick)
              == (Stores(), match r case Some(ip) => ReadingVrids(Reconciling(ip)) case None => Done(true))
      ensures r.Some? <==> fault.Fine? && OwnsSome(Allocs(), k)
      ensures r.Some? ==> Owns(Allocs(), k, r.value)
    {
      pick := "";
      if !fault.Fine? {
        return None, pick;
      }
      var allocatedIPs := LoadAllocatedIPs();
      r := FindOwned(allocatedIPs, k);
      pick := if r.Some? then r.value else "";
    }

    // ---------- utils/keepalived.go ----------

    method ConfigureKeepalived(vrid1: int, vrid2: int, sch: Schedule) returns (ok: bool)
      modifies this`primaryConf, this`secondaryConf, this`runningConf
      ensures (Stores(), !ok) == KeepalivedRun(old(Stores()), (vrid1, vrid2), sch)
    {
      if !sch(LoadAllocations).Fine? {
        return false;
      }
      var allocatedIPs := LoadAllocatedIPs();
      var primary, secondary := GenerateBoth(settings, vrid1, vrid2, allocatedIPs);
      if sch(CopyPrimary) != LostBefore {
        primaryConf := Some(primary);
      }
      if !sch(CopyPrimary).Fine? {
        return false;
      }
      if sch(CopySecondary) != LostBefore {
        secondaryConf := Some(secondary);
      }
      if !sch(CopySecondary).Fine? {
        return false;
      }
      if sch(RestartKeepalived) != LostBefore {
        runningConf := primaryConf;
      }
      ok := sch(RestartKeepalived).Fine?;
    }

    // ---------- utils/nginx.go ----------

    method ReloadNginx(fault: Fault) returns (ok: bool)
      modifies this`nginxLive
      ensures ok <==> fault.Fine?
      ensures nginxLive == if fault == LostBefore then old(nginxLive) else nginxFiles
    {
      if fault != LostBefore {
        nginxLive := nginxFiles;
      }
      ok := fault.Fine?;
    }

    method ConfigureNGINX(k: Key, ip: string, sch: Schedule) returns (ok: bool)
      modifies this`nginxFiles, this`nginxLive
      ensures Drive(old(Stores()), k, WritingNginx(ip), sch)
              == if ok then Drive(Stores(), k, Refetching(ip), sch) else (Stores(), true)
      ensures ok ==> nginxFiles == old(nginxFiles)[Path(settings.cluster, k) := NginxConf(k, ip)] && nginxLive == nginxFiles
    {
      DriveOne(Stores(), k, WritingNginx(ip), sch);
      hide Drive, Path;
      if sch(CopyNginx) != LostBefore {
        nginxFiles := nginxFiles[Path(settings.cluster, k) := NginxConf(k, ip)];
      }
      DriveDone(Stores(), k, true, sch);
      if !sch(CopyNginx).Fine? {
        return false;
      }
      DriveOne(Stores(), k, Reloading(ip), sch);
      ok := ReloadNginx(sch(Site.ReloadNginx));
      DriveDone(Stores(), k, true, sch);
    }

    method RemoveNGINXConfig(k: Key, ghost snap: Service, sch: Schedule) returns (ok: bool)
      modifies this`nginxFiles, this`nginxLive
      ensures Drive(old(Stores()), k, Removing(snap), sch)
              == if ok then Drive(Stores(), k, Releasing(snap), sch) else (Stores(), true)
      ensures ok ==> nginxFiles == old(nginxFiles) - {Path(settings.cluster, k)} && nginxLive == nginxFiles
    {
      DriveOne(Stores(), k, Removing(snap), sch);
      hide Drive, Path;
      if sch(RemoveNginx) != LostBefore {
        nginxFiles := nginxFiles - {Path(settings.cluster, k)};
      }
      DriveDone(Stores(), k, true, sch);
      if !sch(RemoveNginx).Fine? {
        return false;
      }
      DriveOne(Stores(), k, Unloading(snap), sch);
      ok := ReloadNginx(sch(ReloadAfterRemove));
      DriveDone(Stores(), k, true, sch);
    }

    // ---------- controllers/service_controller.go ----------

    /** Which owned address a scan meets does not matter when there is at most one. */
    lemma AnyPick(allocs: map<string, string>, k: Key, pick: string)
      requires UniqueOwner(allocs)
      ensures Scan(allocs, k, pick) == Scan(allocs, k, "")
    {
      hide Identifier;
    }

    lemma ReleasedAll(allocs: map<string, string>, k: Key, ip: string)
      requires UniqueOwner(allocs) && Owns(allocs, k, ip)
      ensures !OwnsSome(allocs - {ip}, k)
    {
      hide Identifier;
    }

    /** The address for the service: looked up if it has one, else allocated. */
    method ObtainIP(k: Key, sch: Schedule) returns (r: Option<string>)
      requires UniqueOwner(Stores().allocs)
      modifies this`ipAllocations
      ensures Drive(old(Stores()), k, Checking, sch)
              == match r
                 case Some(ip) => Drive(Stores(), k, ReadingVrids(Reconciling(ip)), sch)
                 case None => (Stores(), true)
      ensures r.Some? ==> Owns(Allocs(), k, r.value) && (OwnsSome(old(Allocs()), k) ==> Allocs() == old(Allocs()))
    {
      hide Drive, UniqueOwner, FirstFree, Identifier, OwnsSome;
      DriveOne(Stores(), k, Checking, sch);
      DriveDone(Stores(), k, true, sch);
      var ipAllocated := IsIPAllocatedToService(k, sch(CheckAllocated));
      if ipAllocated.None? {
        return None;
      }
      if !ipAllocated.value {
        DriveOne(Stores(), k, Allocating, sch);
        r := AllocateIP(k, sch(Site.AllocateIP));
      } else {
        DriveOne(Stores(), k, Fetching, sch);
        ghost var pick;
        r, pick := GetAllocatedIPForService(k, sch(GetAllocatedIP));
        AnyPick(Stores().allocs, k, pick);
      }
      DriveDone(Stores(), k, true, sch);
    }

    /** Refetch the Service, then update its status. */
    method PublishIP(k: Key, ip: string, sch: Schedule) returns (failed: bool)
      modifies this`services, this`nextVersion
      ensures (Stores(), failed) == Drive(old(Stores()), k, Refetching(ip), sch)
    {
      hide Drive;
      DriveOne(Stores(), k, Refetching(ip), sch);
      DriveDone(Stores(), k, true, sch);
      if !sch(Refetch).Fine? || k !in services {
        return true;
      }
      var service := services[k];
      DriveOne(Stores(), k, Publishing(ip, service), sch);
      var ok := UpdateServiceStatus(k, service, ip, sch(UpdateStatusIP));
      DriveDone(Stores(), k, !ok, sch);
      failed := !ok;
    }

    method ReconcileService(k: Key, sch: Schedule) returns (failed: bool)
      requires UniqueOwner(Stores().allocs)
      modifies this
      ensures (Stores(), failed) == Drive(old(Stores()), k, Checking, sch)
    {
      hide Drive, UniqueOwner, KeepalivedRun;
      var ip := ObtainIP(k, sch);
      if ip.None? {
        return true;
      }
      DriveOne(Stores(), k, ReadingVrids(Reconciling(ip.value)), sch);
      DriveDone(Stores(), k, true, sch);
      if !sch(GetVRIDs).Fine? || vrids.None? {
        return true;
      }
      DriveKeepalived(Stores(), k, Reconciling(ip.value), vrids.value, sch);
      var ok := ConfigureKeepalived(vrids.value.0, vrids.value.1, sch);
      if !ok {
        return true;
      }
      ok := ConfigureNGINX(k, ip.value, sch);
      if !ok {
        return true;
      }
      failed := PublishIP(k, ip.value, sch);
    }

    method FinalizeService(k: Key, ghost snap: Service, sch: Schedule) returns (failed: bool)
      requires UniqueOwner(Stores().allocs)
      modifies this
      ensures Drive(old(Stores()), k, Removing(snap), sch)
              == if failed then (Stores(), true) else Drive(Stores(), k, Dropping(snap), sch)
      ensures services == old(services)
      ensures !failed ==>
                && nginxFiles == old(nginxFiles) - {Path(settings.cluster, k)} && nginxLive == nginxFiles
                && OwnsSome(old(Allocs()), k) && !OwnsSome(Allocs(), k) && vrids.Some?
                && primaryConf == Some(Conf(settings, vrids.value, Allocs().Keys, true))
                && secondaryConf == Some(Conf(settings, vrids.value, Allocs().Keys, false))
                && runningConf == primaryConf
    {
      hide Drive, UniqueOwner, Path, Conf, Identifier, Owns, OwnsSome;
      var ok := RemoveNGINXConfig(k, snap, sch);
      if !ok {
        return true;
      }
      DriveOne(Stores(), k, Releasing(snap), sch);
      ghost var allocs := Stores().allocs;
      ghost var pick;
      ok, pick := ReleaseIP(k, snap, sch(Site.ReleaseIP));
      AnyPick(allocs, k, pick);
      if ok { ReleasedAll(allocs, k, pick); }
      DriveDone(Stores(), k, true, sch);
      if !ok {
        return true;
      }
      DriveOne(Stores(), k, ReadingVrids(Finalizing(snap)), sch);
      if !sch(GetVRIDs).Fine? || vrids.None? {
        return true;
      }
      DriveKeepalived(Stores(), k, Finalizing(snap), vrids.value, sch);
      ok := ConfigureKeepalived(vrids.value.0, vrids.value.1, sch);
      failed := !ok;
    }

    /** Put the finalizer on the object that was read. */
    method AddFinalizer(k: Key, service: Service, sch: Schedule) returns (ok: bool)
      modifies this`services, this`nextVersion
      ensures Drive(old(Stores()), k, Adding(service), sch)
              == if ok then Drive(Stores(), k, Checking, sch) else (Stores(), true)
      ensures ok ==> Held(services, k)
    {
      hide Drive, Conf, Path, Identifier;
      DriveOne(Stores(), k, Adding(service), sch);
      ok := UpdateService(k, service, service.(finalizers := service.finalizers + {Operator}), sch(Site.AddFinalizer));
      DriveDone(Stores(), k, true, sch);
    }

    /** Take the finalizer off the object that was read. */
    method DropFinalizer(k: Key, service: Service, sch: Schedule) returns (failed: bool)
      modifies this`services, this`nextVersion
      ensures (Stores(), failed) == Drive(old(Stores()), k, Dropping(service), sch)
      ensures !failed ==> !Held(services, k)
    {
      hide Drive, Conf, Path, Identifier;
      DriveOne(Stores(), k, Dropping(service), sch);
      var ok := UpdateService(k, service, service.(finalizers := service.finalizers - {Operator}), sch(Site.DropFinalizer));
      DriveDone(Stores(), k, !ok, sch);
      failed := !ok;
    }

    /** One pass: exactly Protocol.Pass. The stores satisfy the invariant of every reachable
        state, and do so again afterwards. */
    method Reconcile(k: Key, sch: Schedule) returns (failed: bool)
      requires WorldInv(Stores())
      modifies this
      ensures (Stores(), failed) == Pass(old(Stores()), k, sch)
      ensures WorldInv(Stores())
    {
      PassKeeps(Stores(), k, sch);
      assert UniqueOwner(Stores().allocs);
      hide Drive, UniqueOwner, WorldInv, Conf, Path, Identifier, Owns, OwnsSome, Held;
      ghost var w := Stores();
      DriveDone(w, k, true, sch);
      DriveDone(w, k, false, sch);
      if !sch(GetService).Fine? {
        return true;
      }
      if k !in services {
        return false;
      }
      var service := services[k];
      if !service.isLoadBalancer {
        return false;
      }
      if !service.deleting {
        if Operator !in service.finalizers {
          var ok := AddFinalizer(k, service, sch);
          if !ok {
            return true;
          }
        }
        failed := ReconcileService(k, sch);
      } else {
        if Operator !in service.finalizers {
          return false;
        }
        failed := FinalizeService(k, service, sch);
        if failed {
          return true;
        }
        failed := DropFinalizer(k, service, sch);
      }
    }
  }
}
