/**
 What holds in every reachable state, with any number of passes of different services in
 flight and failures or crashes at any call.
 */
module Safety {
  import opened Text
  import opened Faults
  import opened Names
  import opened Vips
  import opened Protocol

  // ---------- The invariant ----------

  /** The object exists and carries the operator's finalizer, so it cannot go away. */
  predicate Held(services: map<Key, Service>, k: Key) {
    k in services && Operator in services[k].finalizers
  }

  /** A service owns at most one address. */
  ghost predicate UniqueOwner(allocs: map<string, string>) {
    forall ip, ip' :: ip in allocs && ip' in allocs && allocs[ip] == allocs[ip'] ==> ip == ip'
  }

  ghost predicate HeldOwner(services: map<Key, Service>, id: string) {
    exists k: Key :: id == Identifier(k) && Held(services, k)
  }

  /** No address is leaked: each has an owner that still exists with the finalizer on it. */
  ghost predicate OwnersHeld(allocs: map<string, string>, services: map<Key, Service>) {
    forall ip :: ip in allocs ==> HeldOwner(services, allocs[ip])
  }

  /** Each file lies on the path of the service it was written for, and serves an address that
      this service owns. */
  ghost predicate FilesOwned(cluster: string, allocs: map<string, string>, files: map<string, NginxConf>) {
    forall p :: p in files ==> p == Path(cluster, files[p].svc) && Owns(allocs, files[p].svc, files[p].ip)
  }

  /** A published address is owned by the service that publishes it. */
  ghost predicate PublishedOwned(services: map<Key, Service>, allocs: map<string, string>) {
    forall k :: k in services && !services[k].deleting && services[k].statusIP.Some?
      ==> Owns(allocs, k, services[k].statusIP.value)
  }

  ghost predicate VersionsUsed(services: map<Key, Service>, next: nat) {
    forall k :: k in services ==> services[k].uid <= services[k].version < next
  }

  ghost predicate WorldInv(w: World) {
    && UniqueOwner(w.allocs)
    && OwnersHeld(w.allocs, w.services)
    && FilesOwned(w.settings.cluster, w.allocs, w.files)
    && FilesOwned(w.settings.cluster, w.allocs, w.live)
    && PublishedOwned(w.services, w.allocs)
    && VersionsUsed(w.services, w.next)
  }

  /** The version read identifies the object read. */
  predicate SnapOk(services: map<Key, Service>, next: nat, k: Key, snap: Service) {
    snap.version < next && (k in services && services[k].version == snap.version ==> services[k] == snap)
  }

  ghost predicate NoFile(files: map<string, NginxConf>, k: Key) {
    forall p :: p in files ==> files[p].svc != k
  }

  predicate Leaving(services: map<Key, Service>, next: nat, k: Key, snap: Service) {
    Held(services, k) && services[k].deleting && SnapOk(services, next, k, snap) && snap.deleting
  }

  ghost predicate ModeOk(w: World, k: Key, mode: Mode) {
    match mode
    case Reconciling(ip) => Held(w.services, k) && Owns(w.allocs, k, ip)
    case Finalizing(snap) =>
      Leaving(w.services, w.next, k, snap) && NoFile(w.files, k) && NoFile(w.live, k) && !OwnsSome(w.allocs, k)
  }

  /** What a pass may rely on when it comes to its next call. */
  ghost predicate PcOk(w: World, k: Key, pc: PC) {
    match pc
    case Adding(snap) => SnapOk(w.services, w.next, k, snap) && !snap.deleting
    case Checking => Held(w.services, k)
    case Allocating => Held(w.services, k) && !OwnsSome(w.allocs, k)
    case Fetching => Held(w.services, k) && OwnsSome(w.allocs, k)
    case ReadingVrids(mode) => ModeOk(w, k, mode)
    case LoadingAllocs(mode, _) => ModeOk(w, k, mode)
    case WritingPrimary(mode, _, _) => ModeOk(w, k, mode)
    case WritingSecondary(mode, _, _) => ModeOk(w, k, mode)
    case Restarting(mode) => ModeOk(w, k, mode)
    case WritingNginx(ip) => Held(w.services, k) && Owns(w.allocs, k, ip)
    case Reloading(ip) => Held(w.services, k) && Owns(w.allocs, k, ip)
    case Refetching(ip) => Held(w.services, k) && Owns(w.allocs, k, ip)
    case Publishing(ip, snap) => Held(w.services, k) && Owns(w.allocs, k, ip) && SnapOk(w.services, w.next, k, snap)
    case Removing(snap) => Leaving(w.services, w.next, k, snap)
    case Unloading(snap) => Leaving(w.services, w.next, k, snap) && NoFile(w.files, k)
    case Releasing(snap) => Leaving(w.services, w.next, k, snap) && NoFile(w.files, k) && NoFile(w.live, k)
    case Dropping(snap) => ModeOk(w, k, Finalizing(snap))
    case Done(_) => true
  }

  ghost predicate Inv(s: State) {
    WorldInv(s.w) && forall k :: k in s.pcs ==> PcOk(s.w, k, s.pcs[k])
  }

  // ---------- What a pass of k leaves alone ----------

  ghost predicate FilesFrom(after: map<string, NginxConf>, a: map<string, NginxConf>, b: map<string, NginxConf>, k: Key) {
    forall p :: p in after && after[p].svc != k ==> (p in a && a[p] == after[p]) || (p in b && b[p] == after[p])
  }

  ghost predicate SameOwnership(a: map<string, string>, b: map<string, string>, k: Key) {
    forall l: Key, ip :: l != k ==> (Owns(a, l, ip) <==> Owns(b, l, ip))
  }

  ghost predicate SameServices(a: map<Key, Service>, b: map<Key, Service>, k: Key) {
    && (forall l: Key :: l != k ==> (l in a <==> l in b))
    && (forall l: Key :: l != k && l in a ==> b[l] == a[l])
  }

  /** Nothing that another service relies on has changed. */
  ghost predicate Frame(w: World, v: World, k: Key) {
    && v.settings == w.settings
    && v.next >= w.next
    && SameServices(w.services, v.services, k)
    && SameOwnership(w.allocs, v.allocs, k)
    && FilesFrom(v.files, w.files, w.files, k)
    && FilesFrom(v.live, w.live, w.files, k)
  }

  lemma FramedFacts(w: World, v: World, k: Key, l: Key)
    requires Frame(w, v, k) && l != k
    ensures OwnsSome(w.allocs, l) <==> OwnsSome(v.allocs, l)
    ensures forall ip :: Owns(w.allocs, l, ip) <==> Owns(v.allocs, l, ip)
    ensures NoFile(w.files, l) ==> NoFile(v.files, l)
    ensures NoFile(w.files, l) && NoFile(w.live, l) ==> NoFile(v.live, l)
    ensures l in w.services <==> l in v.services
    ensures l in w.services ==> v.services[l] == w.services[l]
  {
    if OwnsSome(w.allocs, l) { var ip :| Owns(w.allocs, l, ip); assert Owns(v.allocs, l, ip); }
    if OwnsSome(v.allocs, l) { var ip :| Owns(v.allocs, l, ip); assert Owns(w.allocs, l, ip); }
  }

  lemma FramedPc(w: World, v: World, k: Key, l: Key, pc: PC)
    requires Frame(w, v, k) && l != k && PcOk(w, l, pc)
    ensures PcOk(v, l, pc)
  {
    FramedFacts(w, v, k, l);
    hide Owns, OwnsSome, NoFile, FilesFrom, SameServices, SameOwnership;
  }

  // ---------- Every call keeps the invariant ----------

  ghost predicate Fits(w: World, k: Key, r: (World, PC)) {
    WorldInv(r.0) && PcOk(r.0, k, r.1) && Frame(w, r.0, k)
  }

  ghost predicate Keeps(w: World, k: Key, pc: PC, f: Fault, pick: string) {
    Fits(w, k, Call(w, k, pc, f, pick))
  }

  lemma OwnersDiffer(k: Key)
    ensures forall l: Key :: l != k ==> Identifier(l) != Identifier(k)
  {
    forall l: Key | l != k ensures Identifier(l) != Identifier(k) {
      if Identifier(l) == Identifier(k) { IdentifierInjective(k, l); }
    }
  }

  lemma ReadsKeep(w: World, k: Key, pc: PC, f: Fault, pick: string)
    requires WorldInv(w) && PcOk(w, k, pc)
    requires pc.Checking? || pc.Fetching? || pc.ReadingVrids? || pc.LoadingAllocs? || pc.Refetching? || pc.Done?
    ensures Keeps(w, k, pc, f, pick)
  {
    hide Owns, OwnsSome, Path, Identifier, UniqueOwner, OwnersHeld, FilesOwned, PublishedOwned, NoFile;
  }

  lemma KeepalivedKeeps(w: World, k: Key, pc: PC, f: Fault, pick: string)
    requires WorldInv(w) && PcOk(w, k, pc)
    requires pc.WritingPrimary? || pc.WritingSecondary? || pc.Restarting?
    ensures Keeps(w, k, pc, f, pick)
  {
    hide Conf, Owns, OwnsSome, Path, Identifier, UniqueOwner, OwnersHeld, FilesOwned, PublishedOwned, VersionsUsed, NoFile, Leaving, Held;
  }

  lemma FilesFromWrite(files: map<string, NginxConf>, path: string, k: Key)
    ensures FilesFrom(files, files, files, k) && FilesFrom(files - {path}, files, files, k)
    ensures forall ip :: FilesFrom(files[path := NginxConf(k, ip)], files, files, k)
  {
  }

  lemma FilesFromSelf(live: map<string, NginxConf>, files: map<string, NginxConf>, k: Key)
    ensures FilesFrom(live, live, files, k) && FilesFrom(files, live, files, k)
  {
  }

  lemma NginxWritten(w: World, k: Key, ip: string)
    requires WorldInv(w) && PcOk(w, k, WritingNginx(ip))
    ensures Fits(w, k, (w.(files := w.files[Path(w.settings.cluster, k) := NginxConf(k, ip)]), Reloading(ip)))
  {
    hide Owns, OwnsSome, Path, UniqueOwner, OwnersHeld, PublishedOwned, VersionsUsed, Held;
    var path := Path(w.settings.cluster, k);
    FilesFromWrite(w.files, path, k);
    FilesFromSelf(w.live, w.files, k);
    assert FilesOwned(w.settings.cluster, w.allocs, w.files[path := NginxConf(k, ip)]);
    hide FilesFrom, FilesOwned;
  }

  lemma NginxRemoved(w: World, k: Key, snap: Service)
    requires WorldInv(w) && PcOk(w, k, Removing(snap))
    ensures Fits(w, k, (w.(files := w.files - {Path(w.settings.cluster, k)}), Unloading(snap)))
  {
    hide Owns, OwnsSome, Path, UniqueOwner, OwnersHeld, PublishedOwned, VersionsUsed, Held;
    var path := Path(w.settings.cluster, k);
    FilesFromWrite(w.files, path, k);
    FilesFromSelf(w.live, w.files, k);
    assert NoFile(w.files - {path}, k);
    assert FilesOwned(w.settings.cluster, w.allocs, w.files - {path});
    hide FilesFrom, FilesOwned, NoFile;
  }

  lemma NginxLoaded(w: World, k: Key, pc: PC, next: PC)
    requires WorldInv(w) && PcOk(w, k, pc)
    requires (pc.Reloading? && next == Refetching(pc.ip)) || (pc.Unloading? && next == Releasing(pc.snap))
    ensures Fits(w, k, (w.(live := w.files), next))
  {
    FilesFromSelf(w.live, w.files, k);
    FilesFromSelf(w.files, w.files, k);
    hide Owns, OwnsSome, Path, UniqueOwner, OwnersHeld, PublishedOwned, VersionsUsed, Leaving, Held, FilesFrom, FilesOwned, NoFile;
  }

  /** A call that changes nothing keeps everything; and a new version is above every uid. */
  lemma UnchangedKeeps(w: World, k: Key)
    requires WorldInv(w)
    ensures Frame(w, w, k)
    ensures k in w.services ==> w.services[k].uid < w.next
  {
    hide Path, Identifier, UniqueOwner, OwnersHeld, Owns, FilesOwned, PublishedOwned;
  }

  /** Whether the call takes effect and is acknowledged or not, the result fits. */
  lemma OutcomeFits(w: World, k: Key, f: Fault, v: World, pc: PC)
    requires WorldInv(w) && Fits(w, k, (v, pc))
    ensures Fits(w, k, Outcome(f, w, v, pc)) && Fits(w, k, (w, Done(true)))
  {
    UnchangedKeeps(w, k);
    assert PcOk(w, k, Done(true)) && PcOk(v, k, Done(true));
    hide WorldInv, Frame, PcOk;
  }

  lemma NginxKeeps(w: World, k: Key, pc: PC, f: Fault, pick: string)
    requires WorldInv(w) && PcOk(w, k, pc)
    requires pc.WritingNginx? || pc.Reloading? || pc.Removing? || pc.Unloading?
    ensures Keeps(w, k, pc, f, pick)
  {
    hide WorldInv, PcOk, Frame, Fits, Path, Outcome;
    var path := Path(w.settings.cluster, k);
    match pc {
      case WritingNginx(ip) =>
        NginxWritten(w, k, ip);
        OutcomeFits(w, k, f, w.(files := w.files[path := NginxConf(k, ip)]), Reloading(ip));
      case Removing(snap) =>
        NginxRemoved(w, k, snap);
        OutcomeFits(w, k, f, w.(files := w.files - {path}), Unloading(snap));
      case Reloading(ip) =>
        NginxLoaded(w, k, pc, Refetching(ip));
        OutcomeFits(w, k, f, w.(live := w.files), Refetching(ip));
      case Unloading(snap) =>
        NginxLoaded(w, k, pc, Releasing(snap));
        OutcomeFits(w, k, f, w.(live := w.files), Releasing(snap));
    }
  }

  ghost predicate OwnershipGrows(a: map<string, string>, b: map<string, string>) {
    forall l: Key, ip :: Owns(a, l, ip) ==> Owns(b, l, ip)
  }

  lemma GrowthKeeps(w: World, allocs: map<string, string>)
    requires WorldInv(w) && OwnershipGrows(w.allocs, allocs)
    ensures FilesOwned(w.settings.cluster, allocs, w.files)
    ensures FilesOwned(w.settings.cluster, allocs, w.live)
    ensures PublishedOwned(w.services, allocs)
  {
    hide Owns, Path, UniqueOwner, OwnersHeld;
  }

  lemma AllocateAllocs(services: map<Key, Service>, allocs: map<string, string>, k: Key, ip: string)
    requires UniqueOwner(allocs) && OwnersHeld(allocs, services)
    requires Held(services, k) && !OwnsSome(allocs, k) && ip !in allocs
    ensures var after := allocs[ip := Identifier(k)];
            && UniqueOwner(after) && OwnersHeld(after, services)
            && Owns(after, k, ip) && SameOwnership(allocs, after, k) && OwnershipGrows(allocs, after)
  {
    OwnersDiffer(k);
    hide Identifier;
    assert HeldOwner(services, Identifier(k));
    hide HeldOwner;
    forall x | x in allocs ensures allocs[x] != Identifier(k) { assert !Owns(allocs, k, x); }
  }

  lemma AllocatedKeeps(w: World, k: Key, ip: string)
    requires WorldInv(w) && PcOk(w, k, Allocating) && ip !in w.allocs
    ensures Fits(w, k, (w.(allocs := w.allocs[ip := Identifier(k)]), ReadingVrids(Reconciling(ip))))
  {
    AllocateAllocs(w.services, w.allocs, k, ip);
    GrowthKeeps(w, w.allocs[ip := Identifier(k)]);
    FilesFromSelf(w.live, w.files, k);
    FilesFromSelf(w.files, w.files, k);
    hide Owns, OwnsSome, Identifier, UniqueOwner, OwnersHeld, SameOwnership, FilesOwned, PublishedOwned, Held, FilesFrom;
  }

  lemma FailureFits(w: World, k: Key)
    requires WorldInv(w)
    ensures Fits(w, k, (w, Done(true))) && Fits(w, k, (w, Done(false)))
  {
    UnchangedKeeps(w, k);
    hide WorldInv, Frame;
  }

  lemma AllocateKeeps(w: World, k: Key, f: Fault, pick: string)
    requires WorldInv(w) && PcOk(w, k, Allocating)
    ensures Keeps(w, k, Allocating, f, pick)
  {
    hide WorldInv, PcOk, Frame, Fits, Identifier, Outcome;
    FailureFits(w, k);
    var free := if w.pool.Some? then FirstFree(w.pool.value, w.allocs) else None;
    if free.Some? {
      AllocatedKeeps(w, k, free.value);
      OutcomeFits(w, k, f, w.(allocs := w.allocs[free.value := Identifier(k)]), ReadingVrids(Reconciling(free.value)));
    }
  }

  lemma ReleaseAllocs(services: map<Key, Service>, allocs: map<string, string>, k: Key, ip: string)
    requires UniqueOwner(allocs) && OwnersHeld(allocs, services) && Owns(allocs, k, ip)
    ensures var after := allocs - {ip};
            && UniqueOwner(after) && OwnersHeld(after, services)
            && !OwnsSome(after, k) && SameOwnership(allocs, after, k)
  {
    OwnersDiffer(k);
    hide Identifier, HeldOwner;
  }

  lemma LeavingKeeps(w: World, allocs: map<string, string>, k: Key, snap: Service)
    requires WorldInv(w) && SameOwnership(w.allocs, allocs, k)
    requires NoFile(w.files, k) && NoFile(w.live, k) && Leaving(w.services, w.next, k, snap)
    ensures FilesOwned(w.settings.cluster, allocs, w.files)
    ensures FilesOwned(w.settings.cluster, allocs, w.live)
    ensures PublishedOwned(w.services, allocs)
  {
    hide Owns, Path, UniqueOwner, OwnersHeld;
  }

  lemma Released(w: World, k: Key, snap: Service, ip: string)
    requires WorldInv(w) && PcOk(w, k, Releasing(snap)) && Owns(w.allocs, k, ip)
    ensures Fits(w, k, (w.(allocs := w.allocs - {ip}), ReadingVrids(Finalizing(snap))))
  {
    ReleaseAllocs(w.services, w.allocs, k, ip);
    LeavingKeeps(w, w.allocs - {ip}, k, snap);
    FilesFromSelf(w.live, w.files, k);
    FilesFromSelf(w.files, w.files, k);
    hide Owns, OwnsSome, UniqueOwner, OwnersHeld, SameOwnership, FilesOwned, PublishedOwned, Leaving, NoFile, FilesFrom;
  }

  lemma ReleaseKeeps(w: World, k: Key, snap: Service, f: Fault, pick: string)
    requires WorldInv(w) && PcOk(w, k, Releasing(snap))
    ensures Keeps(w, k, Releasing(snap), f, pick)
  {
    hide WorldInv, PcOk, Frame, Fits, Outcome;
    FailureFits(w, k);
    var found := Scan(w.allocs, k, pick);
    if found.Some? {
      Released(w, k, snap, found.value);
      OutcomeFits(w, k, f, w.(allocs := w.allocs - {found.value}), ReadingVrids(Finalizing(snap)));
    }
  }

  lemma OwnersStayHeld(a: map<Key, Service>, b: map<Key, Service>, allocs: map<string, string>, k: Key)
    requires OwnersHeld(allocs, a) && SameServices(a, b, k)
    requires Held(b, k) || !OwnsSome(allocs, k)
    ensures OwnersHeld(allocs, b)
  {
    hide Identifier;
    forall ip | ip in allocs ensures HeldOwner(b, allocs[ip]) {
      assert HeldOwner(a, allocs[ip]);
      var l: Key :| allocs[ip] == Identifier(l) && Held(a, l);
      if l == k { assert Owns(allocs, k, ip); }
      assert Held(b, l);
    }
  }

  lemma StoreKeeps(w: World, v: World, k: Key)
    requires WorldInv(w) && v == w.(services := v.services, next := w.next + 1)
    requires SameServices(w.services, v.services, k)
    requires k in v.services ==>
               v.services[k].uid <= v.services[k].version == w.next
               && (!v.services[k].deleting && v.services[k].statusIP.Some? ==> Owns(w.allocs, k, v.services[k].statusIP.value))
    requires Held(v.services, k) || !OwnsSome(w.allocs, k)
    ensures WorldInv(v) && Frame(w, v, k)
  {
    OwnersStayHeld(w.services, v.services, w.allocs, k);
    FilesFromSelf(w.live, w.files, k);
    FilesFromSelf(w.files, w.files, k);
    hide Path, Identifier, UniqueOwner, OwnersHeld, Owns, OwnsSome, FilesOwned, FilesFrom;
  }

  lemma PublishedHere(w: World, k: Key)
    requires WorldInv(w) && k in w.services && !w.services[k].deleting && w.services[k].statusIP.Some?
    ensures Owns(w.allocs, k, w.services[k].statusIP.value)
  {
    hide Owns, UniqueOwner, OwnersHeld, FilesOwned;
  }

  lemma Put(w: World, k: Key, svc: Service)
    requires WorldInv(w) && svc.uid <= svc.version == w.next
    requires !svc.deleting && svc.statusIP.Some? ==> Owns(w.allocs, k, svc.statusIP.value)
    requires Operator in svc.finalizers || !OwnsSome(w.allocs, k)
    ensures var v := w.(services := w.services[k := svc], next := w.next + 1);
            WorldInv(v) && Frame(w, v, k)
  {
    hide WorldInv, Frame, Owns, OwnsSome;
    var v := w.(services := w.services[k := svc], next := w.next + 1);
    assert SameServices(w.services, v.services, k);
    hide SameServices;
    StoreKeeps(w, v, k);
  }

  lemma Gone(w: World, k: Key)
    requires WorldInv(w) && !OwnsSome(w.allocs, k)
    ensures var v := w.(services := w.services - {k}, next := w.next + 1);
            WorldInv(v) && Frame(w, v, k)
  {
    hide WorldInv, Frame, Owns, OwnsSome;
    var v := w.(services := w.services - {k}, next := w.next + 1);
    assert SameServices(w.services, v.services, k);
    hide SameServices;
    StoreKeeps(w, v, k);
  }

  /** Storing a changed object: it keeps the operator's finalizer, or owns no address. */
  lemma Stored(w: World, k: Key, svc: Service)
    requires WorldInv(w) && svc.uid <= w.next
    requires !svc.deleting && svc.statusIP.Some? ==> Owns(w.allocs, k, svc.statusIP.value)
    requires Operator in svc.finalizers || !OwnsSome(w.allocs, k)
    ensures var v := Store(w, k, svc);
            WorldInv(v) && Frame(w, v, k) && (Operator in svc.finalizers ==> Held(v.services, k))
  {
    hide WorldInv, Frame, Owns, OwnsSome;
    if svc.deleting && svc.finalizers == {} { Gone(w, k); } else { Put(w, k, svc.(version := w.next)); }
  }

  lemma FinalizersStored(w: World, k: Key, fins: set<Finalizer>)
    requires WorldInv(w) && k in w.services && (Operator in fins || !OwnsSome(w.allocs, k))
    ensures var v := Store(w, k, w.services[k].(finalizers := fins));
            WorldInv(v) && Frame(w, v, k) && (Operator in fins ==> Held(v.services, k))
  {
    UnchangedKeeps(w, k);
    if !w.services[k].deleting && w.services[k].statusIP.Some? { PublishedHere(w, k); }
    hide WorldInv, Frame, Owns, OwnsSome, Held, Store;
    Stored(w, k, w.services[k].(finalizers := fins));
  }

  lemma AddFinalizerStored(w: World, k: Key, snap: Service)
    requires WorldInv(w) && PcOk(w, k, Adding(snap)) && Current(w, k, snap)
    ensures Fits(w, k, (Store(w, k, snap.(finalizers := snap.finalizers + {Operator})), Checking))
  {
    hide WorldInv, Frame, OwnsSome, Held, Store;
    FinalizersStored(w, k, snap.finalizers + {Operator});
  }

  lemma AddFinalizerKeeps(w: World, k: Key, snap: Service, f: Fault, pick: string)
    requires WorldInv(w) && PcOk(w, k, Adding(snap))
    ensures Keeps(w, k, Adding(snap), f, pick)
  {
    hide WorldInv, PcOk, Frame, Fits, Store, Outcome;
    FailureFits(w, k);
    if Current(w, k, snap) {
      AddFinalizerStored(w, k, snap);
      OutcomeFits(w, k, f, Store(w, k, snap.(finalizers := snap.finalizers + {Operator})), Checking);
    }
  }

  lemma DoneFits(w: World, v: World, k: Key, failed: bool)
    requires WorldInv(v) && Frame(w, v, k)
    ensures Fits(w, k, (v, Done(failed)))
  {
    hide WorldInv, Frame;
  }

  lemma DropFinalizerStored(w: World, k: Key, snap: Service)
    requires WorldInv(w) && PcOk(w, k, Dropping(snap)) && Current(w, k, snap)
    ensures Fits(w, k, (Store(w, k, snap.(finalizers := snap.finalizers - {Operator})), Done(false)))
  {
    hide WorldInv, Frame, OwnsSome, NoFile, Store;
    FinalizersStored(w, k, snap.finalizers - {Operator});
    DoneFits(w, Store(w, k, snap.(finalizers := snap.finalizers - {Operator})), k, false);
  }

  lemma DropFinalizerKeeps(w: World, k: Key, snap: Service, f: Fault, pick: string)
    requires WorldInv(w) && PcOk(w, k, Dropping(snap))
    ensures Keeps(w, k, Dropping(snap), f, pick)
  {
    hide WorldInv, PcOk, Frame, Fits, Store, Outcome;
    FailureFits(w, k);
    if Current(w, k, snap) {
      DropFinalizerStored(w, k, snap);
      OutcomeFits(w, k, f, Store(w, k, snap.(finalizers := snap.finalizers - {Operator})), Done(false));
    }
  }

  lemma PublishStored(w: World, k: Key, ip: string, snap: Service)
    requires WorldInv(w) && PcOk(w, k, Publishing(ip, snap)) && UpdateStatus(w, k, snap, ip).Some?
    ensures Fits(w, k, (UpdateStatus(w, k, snap, ip).value, Done(false)))
  {
    assert Held(w.services, k) && Owns(w.allocs, k, ip);
    hide WorldInv, Frame, Owns, OwnsSome, PcOk;
    UnchangedKeeps(w, k);
    if w.services[k].statusIP != Some(ip) {
      Put(w, k, w.services[k].(statusIP := Some(ip), version := w.next));
    }
    DoneFits(w, UpdateStatus(w, k, snap, ip).value, k, false);
  }

  lemma PublishKeeps(w: World, k: Key, ip: string, snap: Service, f: Fault, pick: string)
    requires WorldInv(w) && PcOk(w, k, Publishing(ip, snap))
    ensures Keeps(w, k, Publishing(ip, snap), f, pick)
  {
    hide WorldInv, PcOk, Frame, Fits, UpdateStatus, Outcome;
    FailureFits(w, k);
    var v := UpdateStatus(w, k, snap, ip);
    if v.Some? {
      PublishStored(w, k, ip, snap);
      OutcomeFits(w, k, f, v.value, Done(false));
    }
  }

  lemma CallKeeps(w: World, k: Key, pc: PC, f: Fault, pick: string)
    requires WorldInv(w) && PcOk(w, k, pc)
    ensures Keeps(w, k, pc, f, pick)
  {
    hide WorldInv, PcOk, Keeps;
    match pc {
      case Adding(snap) => AddFinalizerKeeps(w, k, snap, f, pick);
      case Publishing(ip, snap) => PublishKeeps(w, k, ip, snap, f, pick);
      case Dropping(snap) => DropFinalizerKeeps(w, k, snap, f, pick);
      case Allocating => AllocateKeeps(w, k, f, pick);
      case Releasing(snap) => ReleaseKeeps(w, k, snap, f, pick);
      case WritingPrimary(_, _, _) => KeepalivedKeeps(w, k, pc, f, pick);
      case WritingSecondary(_, _, _) => KeepalivedKeeps(w, k, pc, f, pick);
      case Restarting(_) => KeepalivedKeeps(w, k, pc, f, pick);
      case WritingNginx(_) => NginxKeeps(w, k, pc, f, pick);
      case Removing(_) => NginxKeeps(w, k, pc, f, pick);
      case Reloading(_) => NginxKeeps(w, k, pc, f, pick);
      case Unloading(_) => NginxKeeps(w, k, pc, f, pick);
      case _ => ReadsKeep(w, k, pc, f, pick);
    }
  }
}
