/**
 The safety results about every reachable state: no address with two owners, no file for an
 address someone else owns, no leaked address, and publication that is exclusive and sticky.
 */
module Reachable {
  import opened Text
  import opened Faults
  import opened Names
  import opened Protocol
  import opened Safety
  import Vips

  // ---------- What happens around the passes ----------

  /** A change to k's object that a pass of k tolerates: a held object stays held, deletion is
      final, and a changed object has a version never seen before. */
  ghost predicate Touched(w: World, v: World, k: Key) {
    && v.allocs == w.allocs && v.files == w.files && v.live == w.live && v.next >= w.next
    && (Held(w.services, k) ==> Held(v.services, k))
    && (Held(w.services, k) && w.services[k].deleting ==> v.services[k].deleting)
    && (k in v.services ==> v.services[k].version == w.next || (k in w.services && v.services[k] == w.services[k]))
  }

  lemma TouchedPc(w: World, v: World, k: Key, pc: PC)
    requires Touched(w, v, k) && PcOk(w, k, pc)
    ensures PcOk(v, k, pc)
  {
    hide Owns, OwnsSome, NoFile;
  }

  /** Only a held service owns an address. */
  lemma AbsentOwnsNone(w: World, k: Key)
    requires WorldInv(w) && !Held(w.services, k)
    ensures !OwnsSome(w.allocs, k)
  {
    forall ip | Owns(w.allocs, k, ip) ensures false {
      assert HeldOwner(w.services, w.allocs[ip]);
      var l: Key :| w.allocs[ip] == Identifier(l) && Held(w.services, l);
      IdentifierInjective(k, l);
    }
  }

  lemma CreateKeeps(w: World, k: Key, lb: bool, fins: set<Finalizer>)
    requires WorldInv(w)
    ensures var v := Surroundings(w, Create(k, lb, fins));
            WorldInv(v) && Frame(w, v, k) && Touched(w, v, k)
  {
    UnchangedKeeps(w, k);
    if k !in w.services { AbsentOwnsNone(w, k); }
    hide WorldInv, Frame, Owns, OwnsSome;
    if k !in w.services {
      Put(w, k, Service(w.next, w.next, lb, fins - {Operator}, false, None));
    }
  }

  lemma StoreTouches(w: World, k: Key, svc: Service)
    requires k in w.services && (w.services[k].deleting ==> svc.deleting)
    requires Operator in w.services[k].finalizers ==> Operator in svc.finalizers
    ensures Touched(w, Store(w, k, svc), k)
  {
  }

  /** A user's change: the status and the operator's finalizer are as they were. */
  lemma UserStored(w: World, k: Key, svc: Service)
    requires WorldInv(w) && k in w.services
    requires svc.uid == w.services[k].uid && svc.statusIP == w.services[k].statusIP
    requires (w.services[k].deleting ==> svc.deleting) && (Operator in svc.finalizers <==> Operator in w.services[k].finalizers)
    ensures var v := Store(w, k, svc);
            WorldInv(v) && Frame(w, v, k) && Touched(w, v, k)
  {
    UnchangedKeeps(w, k);
    if !Held(w.services, k) { AbsentOwnsNone(w, k); }
    if !w.services[k].deleting && w.services[k].statusIP.Some? { PublishedHere(w, k); }
    StoreTouches(w, k, svc);
    hide WorldInv, Frame, Owns, OwnsSome, Store, Touched;
    Stored(w, k, svc);
  }

  lemma EditKeeps(w: World, k: Key, lb: bool, fins: set<Finalizer>)
    requires WorldInv(w)
    ensures var v := Surroundings(w, Edit(k, lb, fins));
            WorldInv(v) && Frame(w, v, k) && Touched(w, v, k)
  {
    UnchangedKeeps(w, k);
    hide WorldInv, Frame, Store;
    if k in w.services {
      var svc := w.services[k];
      UserStored(w, k, svc.(isLoadBalancer := lb, finalizers := (fins - {Operator}) + svc.finalizers * {Operator}));
    }
  }

  lemma DeleteKeeps(w: World, k: Key)
    requires WorldInv(w)
    ensures var v := Surroundings(w, Delete(k));
            WorldInv(v) && Frame(w, v, k) && Touched(w, v, k)
  {
    UnchangedKeeps(w, k);
    hide WorldInv, Frame, Store;
    if k in w.services && !w.services[k].deleting {
      UserStored(w, k, w.services[k].(deleting := true));
    }
  }

  lemma ConfigKeeps(w: World, a: Action, k: Key)
    requires WorldInv(w) && (a.SetPool? || a.SetVrids? || a.ServerRestart?)
    ensures WorldInv(Surroundings(w, a)) && Frame(w, Surroundings(w, a), k)
  {
    UnchangedKeeps(w, k);
    FilesFromSelf(w.live, w.files, k);
    FilesFromSelf(w.files, w.files, k);
    hide Owns, Path, FilesFrom, UniqueOwner, OwnersHeld, FilesOwned, PublishedOwned, VersionsUsed;
  }

  /** Frame for a change that belongs to no service at all. */
  lemma OtherKey(l: Key) returns (k: Key)
    ensures k != l
  {
    k := if l == RawKey("a", "a") then RawKey("b", "b") else RawKey("a", "a");
  }

  // ---------- Every reachable state ----------

  lemma OthersFramed(s: State, v: World, k: Key)
    requires Inv(s) && Frame(s.w, v, k)
    ensures forall l :: l in s.pcs && l != k ==> PcOk(v, l, s.pcs[l])
  {
    hide WorldInv, PcOk, Frame;
    forall l | l in s.pcs && l != k ensures PcOk(v, l, s.pcs[l]) { FramedPc(s.w, v, k, l, s.pcs[l]); }
  }

  lemma StartOk(w: World, k: Key, f: Fault)
    requires WorldInv(w)
    ensures PcOk(w, k, Start(w, k, f))
  {
    hide UniqueOwner, OwnersHeld, FilesOwned, PublishedOwned;
  }

  lemma TouchKeeps(s: State, v: World, k: Key)
    requires Inv(s) && WorldInv(v) && Frame(s.w, v, k) && Touched(s.w, v, k)
    ensures Inv(State(v, s.pcs))
  {
    OthersFramed(s, v, k);
    hide WorldInv, PcOk, Frame, Touched;
    if k in s.pcs { TouchedPc(s.w, v, k, s.pcs[k]); }
  }

  lemma ConfigStepKeeps(s: State, a: Action)
    requires Inv(s) && (a.SetPool? || a.SetVrids? || a.ServerRestart?)
    ensures Inv(Next(s, a))
  {
    hide WorldInv, PcOk, Frame;
    var v := Surroundings(s.w, a);
    ConfigKeeps(s.w, a, RawKey("a", "a"));
    forall l | l in s.pcs ensures PcOk(v, l, s.pcs[l]) {
      var k := OtherKey(l);
      ConfigKeeps(s.w, a, k);
      FramedPc(s.w, v, k, l, s.pcs[l]);
    }
  }

  lemma StepKeeps(s: State, k: Key, f: Fault, pick: string)
    requires Inv(s)
    ensures Inv(Next(s, Step(k, f, pick)))
  {
    if k in s.pcs {
      CallKeeps(s.w, k, s.pcs[k], f, pick);
      OthersFramed(s, Call(s.w, k, s.pcs[k], f, pick).0, k);
    }
    hide WorldInv, PcOk, Frame, Call;
  }

  lemma NextKeeps(s: State, a: Action)
    requires Inv(s)
    ensures Inv(Next(s, a))
  {
    hide WorldInv, PcOk, Frame, Touched, Surroundings, Call, Start;
    match a {
      case Create(k, lb, fins) =>
        CreateKeeps(s.w, k, lb, fins);
        TouchKeeps(s, Surroundings(s.w, a), k);
      case Edit(k, lb, fins) =>
        EditKeeps(s.w, k, lb, fins);
        TouchKeeps(s, Surroundings(s.w, a), k);
      case Delete(k) =>
        DeleteKeeps(s.w, k);
        TouchKeeps(s, Surroundings(s.w, a), k);
      case Step(k, f, pick) => StepKeeps(s, k, f, pick);
      case Begin(k, f) => StartOk(s.w, k, f);
      case Crash =>
      case _ => ConfigStepKeeps(s, a);
    }
  }

  /** Whatever users, passes, failures and crashes do, in any interleaving. */
  lemma {:induction false} RunKeeps(s: State, actions: seq<Action>)
    requires Inv(s)
    ensures Inv(Run(s, actions))
    decreases |actions|
  {
    hide Inv, Next;
    if actions != [] {
      NextKeeps(s, actions[0]);
      RunKeeps(Next(s, actions[0]), actions[1..]);
    }
  }

  lemma InitialInv(settings: Vips.Settings)
    ensures Inv(Initial(settings))
  {
  }

  // ---------- Runs put together ----------

  ghost predicate Reaches(s: State, t: State) { exists actions :: Run(s, actions) == t }

  lemma {:induction false} RunAppend(s: State, xs: seq<Action>, ys: seq<Action>)
    ensures Run(s, xs + ys) == Run(Run(s, xs), ys)
    decreases |xs|
  {
    hide Next;
    if xs == [] {
      assert xs + ys == ys;
    } else {
      assert (xs + ys)[0] == xs[0] && (xs + ys)[1..] == xs[1..] + ys;
      RunAppend(Next(s, xs[0]), xs[1..], ys);
    }
  }

  lemma ReachesNext(s: State, t: State, a: Action)
    requires Reaches(s, t)
    ensures Reaches(s, Next(t, a))
  {
    hide Next;
    var actions :| Run(s, actions) == t;
    RunAppend(s, actions, [a]);
    assert Run(t, [a]) == Run(Next(t, a), [a][1..]);
    assert Run(s, actions + [a]) == Next(t, a);
  }

  /** One call that succeeds, in the middle of everything else. */
  lemma Succeed(s: State, t: State, k: Key) returns (u: State)
    requires Reaches(s, t) && k in t.pcs && !Call(t.w, k, t.pcs[k], Fine, "").1.Done?
    ensures Reaches(s, u)
    ensures u == State(Call(t.w, k, t.pcs[k], Fine, "").0, t.pcs[k := Call(t.w, k, t.pcs[k], Fine, "").1])
  {
    ReachesNext(s, t, Step(k, Fine, ""));
    u := Next(t, Step(k, Fine, ""));
    hide Call, Reaches;
  }

  lemma NoPassNoStep(s: State, a: Action)
    requires a.Step? && a.k !in s.pcs
    ensures Next(s, a) == s
  {
  }

  // ---------- What that means ----------

  /** A service owns at most one address, so a scan for it finds the same one in whatever order
      the map is enumerated, and releasing that one leaves the service with none. */
  lemma OneAddressEach(settings: Vips.Settings, actions: seq<Action>, k: Key, ip: string, pick: string)
    ensures var allocs := Run(Initial(settings), actions).w.allocs;
            Owns(allocs, k, ip) ==> Scan(allocs, k, pick) == Some(ip) && !OwnsSome(allocs - {ip}, k)
  {
    InitialInv(settings);
    RunKeeps(Initial(settings), actions);
    hide Run, Initial, Identifier, OwnersHeld, FilesOwned, PublishedOwned, PcOk;
  }

  lemma DistinctFiles(cluster: string, allocs: map<string, string>, files: map<string, NginxConf>, p: string, q: string)
    requires FilesOwned(cluster, allocs, files)
    ensures p in files ==> Owns(allocs, files[p].svc, files[p].ip)
    ensures p in files && q in files && p != q ==> files[p].ip != files[q].ip
  {
    if p in files && q in files && files[p].ip == files[q].ip {
      IdentifierInjective(files[p].svc, files[q].svc);
    }
  }

  /** Each NGINX file serves an address the ConfigMap gives to the service it was written for;
      hence no two files, written or loaded, listen on the same address. */
  lemma FilesNeverShareAddress(settings: Vips.Settings, actions: seq<Action>, p: string, q: string)
    ensures var w := Run(Initial(settings), actions).w;
            && (p in w.files ==> Owns(w.allocs, w.files[p].svc, w.files[p].ip))
            && (p in w.files && q in w.files && p != q ==> w.files[p].ip != w.files[q].ip)
            && (p in w.live ==> Owns(w.allocs, w.live[p].svc, w.live[p].ip))
            && (p in w.live && q in w.live && p != q ==> w.live[p].ip != w.live[q].ip)
  {
    InitialInv(settings);
    RunKeeps(Initial(settings), actions);
    var w := Run(Initial(settings), actions).w;
    DistinctFiles(w.settings.cluster, w.allocs, w.files, p, q);
    DistinctFiles(w.settings.cluster, w.allocs, w.live, p, q);
    hide Run, Initial, Owns;
  }

  /** No address leaks: whoever it is recorded for still exists and carries the finalizer, also
      after a change of type, a crash or a failed finalization. */
  lemma NoLeakedAddress(settings: Vips.Settings, actions: seq<Action>, ip: string)
    ensures var w := Run(Initial(settings), actions).w;
            ip in w.allocs ==>
              exists k: Key :: Owns(w.allocs, k, ip) && k in w.services && Operator in w.services[k].finalizers
  {
    InitialInv(settings);
    RunKeeps(Initial(settings), actions);
    var w := Run(Initial(settings), actions).w;
    if ip in w.allocs {
      assert HeldOwner(w.services, w.allocs[ip]);
      var k: Key :| w.allocs[ip] == Identifier(k) && Held(w.services, k);
      assert Owns(w.allocs, k, ip);
    }
  }

  /** What a service that is not being deleted publishes is its own; two never publish the same. */
  lemma PublicationExclusive(settings: Vips.Settings, actions: seq<Action>, k: Key, l: Key)
    ensures var w := Run(Initial(settings), actions).w;
            k in w.services && !w.services[k].deleting && w.services[k].statusIP.Some?
            ==> && Owns(w.allocs, k, w.services[k].statusIP.value)
                && (l in w.services && !w.services[l].deleting && l != k ==> w.services[l].statusIP != w.services[k].statusIP)
  {
    InitialInv(settings);
    RunKeeps(Initial(settings), actions);
    var w := Run(Initial(settings), actions).w;
    if k in w.services && !w.services[k].deleting && w.services[k].statusIP.Some? {
      PublishedHere(w, k);
      if l in w.services && !w.services[l].deleting && w.services[l].statusIP == w.services[k].statusIP {
        PublishedHere(w, l);
        IdentifierInjective(k, l);
      }
    }
  }

  // ---------- What passes do to objects ----------

  /** Of an object only the operator's finalizer, the published address and the version change; it
      goes away only when it is being deleted and the operator's finalizer was its last. */
  ghost predicate TouchedOnlySo(w: World, v: World, k: Key) {
    && (k in v.services ==>
          && k in w.services
          && v.services[k].uid == w.services[k].uid
          && v.services[k].isLoadBalancer == w.services[k].isLoadBalancer
          && v.services[k].deleting == w.services[k].deleting
          && v.services[k].finalizers - {Operator} == w.services[k].finalizers - {Operator})
    && (k in w.services && k !in v.services ==>
          w.services[k].deleting && w.services[k].finalizers <= {Operator})
  }

  lemma FinalizersTouched(w: World, k: Key, fins: set<Finalizer>)
    requires k in w.services && fins - {Operator} == w.services[k].finalizers - {Operator}
    ensures TouchedOnlySo(w, Store(w, k, w.services[k].(finalizers := fins)), k)
  {
    if fins == {} { assert w.services[k].finalizers - {Operator} == {}; }
  }

  lemma StatusTouched(w: World, k: Key, snap: Service, ip: string)
    requires UpdateStatus(w, k, snap, ip).Some?
    ensures TouchedOnlySo(w, UpdateStatus(w, k, snap, ip).value, k)
  {
  }

  /** Only three calls write to the Service object. */
  lemma OtherCallsKeepServices(w: World, k: Key, pc: PC, f: Fault, pick: string)
    requires !pc.Adding? && !pc.Dropping? && !pc.Publishing?
    ensures Call(w, k, pc, f, pick).0.services == w.services
    ensures Call(w, k, pc, f, pick).0.next == w.next
  {
    hide Vips.Conf, Path, Identifier, Update, UpdateStatus, FirstFree, OwnsSome, Owns, Scan;
  }

  lemma AddingTouches(w: World, k: Key, snap: Service, f: Fault)
    requires SnapOk(w.services, w.next, k, snap)
    ensures TouchedOnlySo(w, AddFinalizerCall(w, k, snap, f).0, k)
  {
    if Current(w, k, snap) {
      assert (snap.finalizers + {Operator}) - {Operator} == snap.finalizers - {Operator};
      FinalizersTouched(w, k, snap.finalizers + {Operator});
    }
    hide Store;
  }

  lemma DroppingTouches(w: World, k: Key, snap: Service, f: Fault)
    requires SnapOk(w.services, w.next, k, snap)
    ensures TouchedOnlySo(w, DropFinalizerCall(w, k, snap, f).0, k)
  {
    if Current(w, k, snap) {
      assert (snap.finalizers - {Operator}) - {Operator} == snap.finalizers - {Operator};
      FinalizersTouched(w, k, snap.finalizers - {Operator});
    }
    hide Store;
  }

  lemma PublishingTouches(w: World, k: Key, ip: string, snap: Service, f: Fault)
    ensures TouchedOnlySo(w, PublishCall(w, k, ip, snap, f).0, k)
  {
    if UpdateStatus(w, k, snap, ip).Some? { StatusTouched(w, k, snap, ip); }
    hide UpdateStatus;
  }

  lemma SameObjectsTouched(w: World, v: World, k: Key)
    requires v.services == w.services
    ensures TouchedOnlySo(w, v, k)
  {
  }

  /** Each call of a pass touches the objects only so: foreign finalizers, the type and the deletion
      mark stay, and every other Service stays as it is. */
  lemma CallTouchesOnlySo(w: World, k: Key, pc: PC, f: Fault, pick: string)
    requires WorldInv(w) && PcOk(w, k, pc)
    ensures var v := Call(w, k, pc, f, pick).0;
            TouchedOnlySo(w, v, k) && SameServices(w.services, v.services, k)
  {
    CallKeeps(w, k, pc, f, pick);
    assert SameServices(w.services, Call(w, k, pc, f, pick).0.services, k) by {
      hide WorldInv, PcOk, Call, FilesFrom, SameOwnership, SameServices;
    }
    hide WorldInv, TouchedOnlySo, SameServices, Frame, Fits, Keeps, AddFinalizerCall, DropFinalizerCall, PublishCall, Vips.Conf;
    match pc {
      case Adding(snap) => AddingTouches(w, k, snap, f);
      case Dropping(snap) => DroppingTouches(w, k, snap, f);
      case Publishing(ip, snap) => PublishingTouches(w, k, ip, snap, f);
      case _ =>
        OtherCallsKeepServices(w, k, pc, f, pick);
        SameObjectsTouched(w, Call(w, k, pc, f, pick).0, k);
        hide Call;
    }
  }

  // ---------- Sticky publication ----------

  /** What one action does to an object that has not been replaced: deletion is final, and unless
      it is being deleted its published address stays. */
  ghost predicate Sticky(w: World, v: World, k: Key, uid: nat) {
    && v.next >= w.next
    && (k in v.services && v.services[k].uid == uid && uid < w.next ==>
          && k in w.services && w.services[k].uid == uid
          && (w.services[k].deleting ==> v.services[k].deleting)
          && (w.services[k].statusIP.Some? && !v.services[k].deleting ==> v.services[k].statusIP == w.services[k].statusIP))
  }

  lemma FinalizerCallSticky(w: World, k: Key, snap: Service, fins: set<Finalizer>, uid: nat)
    requires SnapOk(w.services, w.next, k, snap) && Current(w, k, snap)
    ensures Sticky(w, Store(w, k, snap.(finalizers := fins)), k, uid)
  {
  }

  lemma PublishSticky(w: World, k: Key, ip: string, snap: Service, uid: nat)
    requires WorldInv(w) && Owns(w.allocs, k, ip) && UpdateStatus(w, k, snap, ip).Some?
    ensures Sticky(w, UpdateStatus(w, k, snap, ip).value, k, uid)
  {
    if !w.services[k].deleting && w.services[k].statusIP.Some? {
      PublishedHere(w, k);
      assert w.services[k].statusIP.value == ip;
    }
    hide WorldInv, Owns;
  }

  lemma CallSticky(w: World, k: Key, pc: PC, f: Fault, pick: string, uid: nat)
    requires WorldInv(w) && PcOk(w, k, pc)
    ensures Sticky(w, Call(w, k, pc, f, pick).0, k, uid)
  {
    match pc {
      case Adding(snap) =>
        if Current(w, k, snap) { FinalizerCallSticky(w, k, snap, snap.finalizers + {Operator}, uid); }
        hide WorldInv, PcOk, Store;
      case Dropping(snap) =>
        if Current(w, k, snap) { FinalizerCallSticky(w, k, snap, snap.finalizers - {Operator}, uid); }
        hide WorldInv, PcOk, Store;
      case Publishing(ip, snap) =>
        if UpdateStatus(w, k, snap, ip).Some? { PublishSticky(w, k, ip, snap, uid); }
        hide WorldInv, PcOk, UpdateStatus;
      case _ =>
        OtherCallsKeepServices(w, k, pc, f, pick);
        hide WorldInv, PcOk, Call;
    }
  }

  lemma SurroundingsSticky(w: World, a: Action, k: Key, uid: nat)
    ensures Sticky(w, Surroundings(w, a), k, uid)
  {
  }

  lemma FrameSticky(w: World, v: World, l: Key, k: Key, uid: nat)
    requires Frame(w, v, l) && l != k
    ensures Sticky(w, v, k, uid)
  {
    hide FilesFrom, SameOwnership;
  }

  lemma NextSticky(s: State, a: Action, k: Key, uid: nat)
    requires Inv(s)
    ensures Sticky(s.w, Next(s, a).w, k, uid)
  {
    SurroundingsSticky(s.w, a, k, uid);
    hide Surroundings, Start;
    hide WorldInv, PcOk, Frame, Call;
    if a.Step? && a.k in s.pcs {
      CallKeeps(s.w, a.k, s.pcs[a.k], a.f, a.pick);
      if a.k == k {
        CallSticky(s.w, k, s.pcs[k], a.f, a.pick, uid);
      } else {
        FrameSticky(s.w, Call(s.w, a.k, s.pcs[a.k], a.f, a.pick).0, a.k, k, uid);
      }
    }
    hide Sticky;
  }

  lemma {:induction false} RunSticky(s: State, actions: seq<Action>, k: Key, uid: nat)
    requires Inv(s) && uid < s.w.next
    ensures Sticky(s.w, Run(s, actions).w, k, uid)
    decreases |actions|
  {
    if actions != [] {
      NextKeeps(s, actions[0]);
      NextSticky(s, actions[0], k, uid);
      RunSticky(Next(s, actions[0]), actions[1..], k, uid);
    }
    hide Inv, Next;
  }

  /** Over any run from a reachable state on, as long as the object is the same and not being
      deleted, the address it once published remains: across passes, failures and restarts. */
  lemma PublicationSticky(settings: Vips.Settings, before: seq<Action>, after: seq<Action>, k: Key)
    ensures var w := Run(Initial(settings), before).w;
            var v := Run(Run(Initial(settings), before), after).w;
            k in w.services && w.services[k].statusIP.Some?
            && k in v.services && v.services[k].uid == w.services[k].uid && !v.services[k].deleting
            ==> v.services[k].statusIP == w.services[k].statusIP
  {
    InitialInv(settings);
    RunKeeps(Initial(settings), before);
    var s := Run(Initial(settings), before);
    if k in s.w.services {
      UnchangedKeeps(s.w, k);
      RunSticky(s, after, k, s.w.services[k].uid);
    }
    hide Inv, Run, Initial;
  }
}
