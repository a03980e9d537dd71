/**
 The reconcile and finalize protocol (controllers/service_controller.go) over its stores: the
 Service objects, the ip-allocations ConfigMap and the remote server.

 One action is one call of a pass, or something that happens around it. Every call may fail with
 or without taking effect, and the process may crash between any two calls. Passes of different
 services interleave freely; the work queue runs at most one pass per service. AllocateIP and
 ReleaseIP hold a mutex and are one action each; IsIPAllocatedToService is a separate read.
 */
module Protocol {
  import opened Text
  import opened Faults
  import opened Names
  import opened Vips

  /** The operator's finalizer (sergiochamba.com/nginx-lb-operator-finalizer) or someone else's. */
  datatype Finalizer = Operator | Foreign(name: string)

  /** A Service object. `version` is its resourceVersion, new with every change. */
  datatype Service = Service(
    uid: nat, version: nat, isLoadBalancer: bool, finalizers: set<Finalizer>, deleting: bool, statusIP: Option<string>)

  /** A rendered NGINX file. Its upstream name tells which service it was rendered for
      (Names.UpstreamInjective), and its listen directive which address it serves. */
  datatype NginxConf = NginxConf(svc: Key, ip: string)

  datatype World = World(
    settings: Settings,
    services: map<Key, Service>,
    allocs: map<string, string>,            // the ip-allocations ConfigMap
    pool: Option<seq<string>>,              // what LoadIPPool returns, if it succeeds
    vrids: Option<(int, int)>,              // what GetOrAllocateVRIDs returns, if it succeeds
    files: map<string, NginxConf>,          // NGINX files by path
    live: map<string, NginxConf>,           // what the running NGINX has loaded
    primary: Option<KeepalivedConf>,        // the two Keepalived files
    secondary: Option<KeepalivedConf>,
    running: Option<KeepalivedConf>,        // what the running Keepalived has loaded
    next: nat)                              // versions and uids from here on are unused

  /** What a pass is doing when it configures Keepalived. */
  datatype Mode = Reconciling(ip: string) | Finalizing(snap: Service)

  /** The next call of a pass. `snap` is the Service object as last read. */
  datatype PC =
    | Adding(snap: Service)
    | Checking
    | Allocating
    | Fetching
    | ReadingVrids(mode: Mode)
    | LoadingAllocs(mode: Mode, vrids: (int, int))
    | WritingPrimary(mode: Mode, vrids: (int, int), ips: set<string>)
    | WritingSecondary(mode: Mode, vrids: (int, int), ips: set<string>)
    | Restarting(mode: Mode)
    | WritingNginx(ip: string)
    | Reloading(ip: string)
    | Refetching(ip: string)
    | Publishing(ip: string, snap: Service)
    | Removing(snap: Service)
    | Unloading(snap: Service)
    | Releasing(snap: Service)
    | Dropping(snap: Service)
    | Done(failed: bool)

  function Rank(pc: PC): nat {
    match pc
    case Done(_) => 0
    case Publishing(_, _) => 1
    case Dropping(_) => 1
    case Refetching(_) => 2
    case Reloading(_) => 3
    case WritingNginx(_) => 4
    case Restarting(_) => 5
    case WritingSecondary(_, _, _) => 6
    case WritingPrimary(_, _, _) => 7
    case LoadingAllocs(_, _) => 8
    case ReadingVrids(_) => 9
    case Allocating => 10
    case Fetching => 10
    case Releasing(_) => 10
    case Checking => 11
    case Unloading(_) => 11
    case Adding(_) => 12
    case Removing(_) => 12
  }

  predicate Owns(allocs: map<string, string>, k: Key, ip: string) {
    ip in allocs && allocs[ip] == Identifier(k)
  }

  ghost predicate OwnsSome(allocs: map<string, string>, k: Key) { exists ip :: Owns(allocs, k, ip) }

  /** The address a scan of the ConfigMap stops at: map order is arbitrary, so any owned address
      `pick` may be it. */
  ghost function Scan(allocs: map<string, string>, k: Key, pick: string): (r: Option<string>)
    ensures r.Some? ==> Owns(allocs, k, r.value)
    ensures r.None? <==> !OwnsSome(allocs, k)
    ensures Owns(allocs, k, pick) ==> r == Some(pick)
  {
    if Owns(allocs, k, pick) then Some(pick)
    else if OwnsSome(allocs, k) then
      var ip :| Owns(allocs, k, ip); Some(ip)
    else None
  }

  /** The first pool address that has no owner. */
  function FirstFree(pool: seq<string>, allocs: map<string, string>): (r: Option<string>)
    ensures r.Some? ==> r.value in pool && r.value !in allocs
    ensures r.None? <==> forall ip :: ip in pool ==> ip in allocs
    ensures r.Some? ==> exists i :: 0 <= i < |pool| && pool[i] == r.value && forall j :: 0 <= j < i ==> pool[j] in allocs
  {
    if pool == [] then None
    else if pool[0] !in allocs then Some(pool[0])
    else FirstFree(pool[1..], allocs)
  }

  // ---------- The API server ----------

  /** Store a changed object under a new version; an object being deleted goes away with its last
      finalizer. */
  function Store(w: World, k: Key, svc: Service): World {
    if svc.deleting && svc.finalizers == {} then w.(services := w.services - {k}, next := w.next + 1)
    else w.(services := w.services[k := svc.(version := w.next)], next := w.next + 1)
  }

  predicate Current(w: World, k: Key, snap: Service) {
    k in w.services && w.services[k].version == snap.version
  }

  /** Update: accepted only for the version that was read. */
  function Update(w: World, k: Key, snap: Service, svc: Service): Option<World> {
    if Current(w, k, snap) then Some(Store(w, k, svc)) else None
  }

  /** Status().Update: likewise, and only the status is stored; writing the status that is there
      already leaves the object as it is. */
  function UpdateStatus(w: World, k: Key, snap: Service, ip: string): Option<World> {
    if !Current(w, k, snap) then None
    else if w.services[k].statusIP == Some(ip) then Some(w)
    else Some(w.(services := w.services[k := w.services[k].(statusIP := Some(ip), version := w.next)], next := w.next + 1))
  }

  // ---------- One call of a pass ----------

  function Outcome(f: Fault, before: World, after: World, pc: PC): (World, PC) {
    match f
    case Fine => (after, pc)
    case LostBefore => (before, Done(true))
    case LostAfter => (after, Done(true))
  }

  /** Which call Reconcile makes first, having read the Service. */
  function Start(w: World, k: Key, f: Fault): PC {
    if !f.Fine? then Done(true)
    else if k !in w.services || !w.services[k].isLoadBalancer then Done(false)
    else
      var svc := w.services[k];
      if !svc.deleting then (if Operator in svc.finalizers then Checking else Adding(svc))
      else if Operator in svc.finalizers then Removing(svc)
      else Done(false)
  }

  function AddFinalizerCall(w: World, k: Key, snap: Service, f: Fault): (World, PC) {
    match Update(w, k, snap, snap.(finalizers := snap.finalizers + {Operator}))
    case None => (w, Done(true))
    case Some(w') => Outcome(f, w, w', Checking)
  }

  /** AllocateIP: it does not look whether the service owns an address already. */
  function AllocateCall(w: World, k: Key, f: Fault): (World, PC) {
    match if w.pool.Some? then FirstFree(w.pool.value, w.allocs) else None
    case None => (w, Done(true))
    case Some(ip) =>
      Outcome(f, w, w.(allocs := w.allocs[ip := Identifier(k)]), ReadingVrids(Reconciling(ip)))
  }

  ghost function FetchCall(w: World, k: Key, f: Fault, pick: string): (World, PC) {
    match Scan(w.allocs, k, pick)
    case None => (w, Done(true))
    case Some(ip) => if f.Fine? then (w, ReadingVrids(Reconciling(ip))) else (w, Done(true))
  }

  /** ReleaseIP: deletes the first owned address it meets, or fails if there is none. */
  ghost function ReleaseCall(w: World, k: Key, snap: Service, f: Fault, pick: string): (World, PC) {
    match Scan(w.allocs, k, pick)
    case None => (w, Done(true))
    case Some(ip) => Outcome(f, w, w.(allocs := w.allocs - {ip}), ReadingVrids(Finalizing(snap)))
  }

  function PublishCall(w: World, k: Key, ip: string, snap: Service, f: Fault): (World, PC) {
    match UpdateStatus(w, k, snap, ip)
    case None => (w, Done(true))
    case Some(w') => Outcome(f, w, w', Done(false))
  }

  function DropFinalizerCall(w: World, k: Key, snap: Service, f: Fault): (World, PC) {
    match Update(w, k, snap, snap.(finalizers := snap.finalizers - {Operator}))
    case None => (w, Done(true))
    case Some(w') => Outcome(f, w, w', Done(false))
  }

  ghost function Call(w: World, k: Key, pc: PC, f: Fault, pick: string): (World, PC) {
    match pc
    case Adding(snap) => AddFinalizerCall(w, k, snap, f)
    case Checking =>
      if !f.Fine? then (w, Done(true)) else (w, if OwnsSome(w.allocs, k) then Fetching else Allocating)
    case Allocating => AllocateCall(w, k, f)
    case Fetching => FetchCall(w, k, f, pick)
    case ReadingVrids(mode) =>
      if !f.Fine? || w.vrids.None? then (w, Done(true)) else (w, LoadingAllocs(mode, w.vrids.value))
    case LoadingAllocs(mode, vrids) =>
      if !f.Fine? then (w, Done(true)) else (w, WritingPrimary(mode, vrids, w.allocs.Keys))
    case WritingPrimary(mode, vrids, ips) =>
      Outcome(f, w, w.(primary := Some(Conf(w.settings, vrids, ips, true))), WritingSecondary(mode, vrids, ips))
    case WritingSecondary(mode, vrids, ips) =>
      Outcome(f, w, w.(secondary := Some(Conf(w.settings, vrids, ips, false))), Restarting(mode))
    case Restarting(mode) =>
      Outcome(f, w, w.(running := w.primary),
              match mode case Reconciling(ip) => WritingNginx(ip) case Finalizing(snap) => Dropping(snap))
    case WritingNginx(ip) =>
      Outcome(f, w, w.(files := w.files[Path(w.settings.cluster, k) := NginxConf(k, ip)]), Reloading(ip))
    case Reloading(ip) => Outcome(f, w, w.(live := w.files), Refetching(ip))
    case Refetching(ip) =>
      if !f.Fine? || k !in w.services then (w, Done(true)) else (w, Publishing(ip, w.services[k]))
    case Publishing(ip, snap) => PublishCall(w, k, ip, snap, f)
    case Removing(snap) =>
      Outcome(f, w, w.(files := w.files - {Path(w.settings.cluster, k)}), Unloading(snap))
    case Unloading(snap) => Outcome(f, w, w.(live := w.files), Releasing(snap))
    case Releasing(snap) => ReleaseCall(w, k, snap, f, pick)
    case Dropping(snap) => DropFinalizerCall(w, k, snap, f)
    case Done(_) => (w, pc)
  }

  /** Every call brings a pass closer to its end, so it ends after at most a dozen. */
  lemma RankFalls(w: World, k: Key, pc: PC, f: Fault, pick: string)
    requires !pc.Done?
    ensures Rank(Call(w, k, pc, f, pick).1) < Rank(pc)
  {
    hide Conf, Path, Identifier, Update, UpdateStatus, FirstFree, OwnsSome, Owns;
  }

  // ---------- Everything that can happen ----------

  /** The stores, and the next call of each pass in flight. */
  datatype State = State(w: World, pcs: map<Key, PC>)

  datatype Action =
    | Create(k: Key, isLoadBalancer: bool, finalizers: set<Finalizer>)
    | Edit(k: Key, isLoadBalancer: bool, finalizers: set<Finalizer>)
    | Delete(k: Key)
    | SetPool(pool: Option<seq<string>>)
    | SetVrids(vrids: Option<(int, int)>)
    | ServerRestart
    | Crash
    | Begin(k: Key, f: Fault)
    | Step(k: Key, f: Fault, pick: string)

  /** What users and the surroundings do to the stores. Users leave the operator's finalizer and
      the status alone. */
  function Surroundings(w: World, a: Action): World {
    match a
    case Create(k, lb, fins) =>
      if k in w.services then w
      else w.(services := w.services[k := Service(w.next, w.next, lb, fins - {Operator}, false, None)], next := w.next + 1)
    case Edit(k, lb, fins) =>
      if k !in w.services then w
      else
        var svc := w.services[k];
        Store(w, k, svc.(isLoadBalancer := lb, finalizers := (fins - {Operator}) + svc.finalizers * {Operator}))
    case Delete(k) =>
      if k !in w.services || w.services[k].deleting then w else Store(w, k, w.services[k].(deleting := true))
    case SetPool(pool) => w.(pool := pool)
    case SetVrids(vrids) => w.(vrids := vrids)
    case ServerRestart => w.(live := w.files, running := w.primary)
    case _ => w
  }

  ghost function Next(s: State, a: Action): State {
    match a
    case Crash => State(s.w, map[])
    case Begin(k, f) =>
      var pc := Start(s.w, k, f);
      if k in s.pcs || pc.Done? then s else State(s.w, s.pcs[k := pc])
    case Step(k, f, pick) =>
      if k !in s.pcs then s
      else
        var r := Call(s.w, k, s.pcs[k], f, pick);
        State(r.0, if r.1.Done? then s.pcs - {k} else s.pcs[k := r.1])
    case _ => State(Surroundings(s.w, a), s.pcs)
  }

  ghost function Run(s: State, actions: seq<Action>): State
    decreases |actions|
  {
    if actions == [] then s else Run(Next(s, actions[0]), actions[1..])
  }

  /** A cluster without services and a server without files. */
  function Initial(settings: Settings): State {
    State(World(settings, map[], map[], None, None, map[], map[], None, None, None, 0), map[])
  }

  // ---------- A pass that nothing interferes with ----------

  /** The calls of a pass, to say which of them fail. */
  datatype Site =
    | GetService | AddFinalizer | CheckAllocated | AllocateIP | GetAllocatedIP
    | GetVRIDs | LoadAllocations | CopyPrimary | CopySecondary | RestartKeepalived
    | CopyNginx | ReloadNginx | Refetch | UpdateStatusIP
    | RemoveNginx | ReloadAfterRemove | ReleaseIP | DropFinalizer

  type Schedule = Site -> Fault

  function SiteOf(pc: PC): Site {
    match pc
    case Adding(_) => AddFinalizer
    case Checking => CheckAllocated
    case Allocating => AllocateIP
    case Fetching => GetAllocatedIP
    case ReadingVrids(_) => GetVRIDs
    case LoadingAllocs(_, _) => LoadAllocations
    case WritingPrimary(_, _, _) => CopyPrimary
    case WritingSecondary(_, _, _) => CopySecondary
    case Restarting(_) => RestartKeepalived
    case WritingNginx(_) => CopyNginx
    case Reloading(_) => ReloadNginx
    case Refetching(_) => Refetch
    case Publishing(_, _) => UpdateStatusIP
    case Removing(_) => RemoveNginx
    case Unloading(_) => ReloadAfterRemove
    case Releasing(_) => ReleaseIP
    case Dropping(_) => DropFinalizer
    case Done(_) => GetService
  }

  ghost function Drive(w: World, k: Key, pc: PC, sch: Schedule): (World, bool)
    decreases Rank(pc)
  {
    if pc.Done? then (w, pc.failed)
    else
      RankFalls(w, k, pc, sch(SiteOf(pc)), "");
      var r := Call(w, k, pc, sch(SiteOf(pc)), "");
      Drive(r.0, k, r.1, sch)
  }

  /** One undisturbed call of Reconcile: the stores it leaves, and whether it returns an error. */
  ghost function Pass(w: World, k: Key, sch: Schedule): (World, bool) {
    Drive(w, k, Start(w, k, sch(GetService)), sch)
  }
}
