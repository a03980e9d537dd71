/**
 Runs with two overlapping passes after which NGINX serves an address Keepalived has lost: the two
 kinds of call that Cover names do lose coverage in reachable states.
 */
module Overlap {
  import opened Text
  import opened Faults
  import opened Names
  import opened Vips
  import opened Protocol
  import opened Safety
  import opened Reachable
  import opened Cover

  ghost predicate Waiting(w: World, k: Key, ip: string) {
    && k in w.services && w.services[k].isLoadBalancer && !w.services[k].deleting && Operator !in w.services[k].finalizers
    && !OwnsSome(w.allocs, k) && w.vrids.Some?
    && w.pool.Some? && FirstFree(w.pool.value, w.allocs) == Some(ip)
  }

  /** The state of a pass that has allocated ip and read the ConfigMap. */
  ghost predicate Snapshotted(t: State, u: State, k: Key, ip: string) {
    && t.w.vrids.Some?
    && u.w.allocs == t.w.allocs[ip := Identifier(k)]
    && u.w == t.w.(services := u.w.services, allocs := u.w.allocs, next := u.w.next)
    && (forall l: Key :: l != k && l in t.w.services ==> l in u.w.services && u.w.services[l] == t.w.services[l])
    && u.pcs == t.pcs[k := WritingPrimary(Reconciling(ip), t.w.vrids.value, u.w.allocs.Keys)]
  }

  lemma ReachChecking(s: State, t: State, k: Key, ip: string) returns (u: State)
    requires Reaches(s, t) && k !in t.pcs && Waiting(t.w, k, ip)
    ensures Reaches(s, u) && u.pcs == t.pcs[k := Checking]
    ensures u.w == t.w.(services := u.w.services, next := u.w.next)
    ensures forall l: Key :: l != k && l in t.w.services ==> l in u.w.services && u.w.services[l] == t.w.services[l]
  {
    hide Reaches, Conf, Path, Identifier, FirstFree, OwnsSome;
    ReachesNext(s, t, Begin(k, Fine));
    var u0 := Next(t, Begin(k, Fine));
    assert u0 == State(t.w, t.pcs[k := Adding(t.w.services[k])]);
    u := Succeed(s, u0, k);
  }

  /** A new service's pass up to the point where it is about to allocate. */
  lemma ReachAllocating(s: State, t: State, k: Key, ip: string) returns (u: State)
    requires Reaches(s, t) && k !in t.pcs && Waiting(t.w, k, ip)
    ensures Reaches(s, u) && u.pcs == t.pcs[k := Allocating]
    ensures u.w == t.w.(services := u.w.services, next := u.w.next)
    ensures forall l: Key :: l != k && l in t.w.services ==> l in u.w.services && u.w.services[l] == t.w.services[l]
  {
    hide Reaches, Conf, Path, Identifier, FirstFree, OwnsSome,
         AllocateCall, FetchCall, ReleaseCall, PublishCall, DropFinalizerCall;
    var u1 := ReachChecking(s, t, k, ip);
    u := Succeed(s, u1, k);
  }

  /** Allocating, and reading the VRIDs and the ConfigMap. */
  lemma AllocateAndRead(s: State, t: State, k: Key, ip: string) returns (u: State)
    requires Reaches(s, t) && k in t.pcs && t.pcs[k] == Allocating && t.w.vrids.Some?
    requires t.w.pool.Some? && FirstFree(t.w.pool.value, t.w.allocs) == Some(ip)
    ensures Reaches(s, u) && u.w == t.w.(allocs := t.w.allocs[ip := Identifier(k)])
    ensures u.pcs == t.pcs[k := WritingPrimary(Reconciling(ip), t.w.vrids.value, u.w.allocs.Keys)]
  {
    hide Reaches, Conf, Path, Identifier, FirstFree, OwnsSome, Next;
    var u3 := Succeed(s, t, k);
    assert u3 == State(t.w.(allocs := t.w.allocs[ip := Identifier(k)]), t.pcs[k := ReadingVrids(Reconciling(ip))]);
    var u4 := Succeed(s, u3, k);
    u := Succeed(s, u4, k);
  }

  /** The first calls of a pass of a new service, up to reading the ConfigMap for Keepalived. */
  lemma TakeSnapshot(s: State, t: State, k: Key, ip: string) returns (u: State)
    requires Reaches(s, t) && k !in t.pcs && Waiting(t.w, k, ip)
    ensures Reaches(s, u) && Snapshotted(t, u, k, ip)
  {
    var u2 := ReachAllocating(s, t, k, ip);
    hide Reaches, Path, Identifier, FirstFree, OwnsSome;
    u := AllocateAndRead(s, u2, k, ip);
  }

  lemma Configured(s: State, pool: seq<string>) returns (t: State)
    ensures Reaches(s, t) && t == State(s.w.(pool := Some(pool), vrids := Some((1, 2))), s.pcs)
  {
    hide Call, Start;
    assert Run(s, []) == s;
    ReachesNext(s, s, SetPool(Some(pool)));
    var t1 := Next(s, SetPool(Some(pool)));
    ReachesNext(s, t1, SetVrids(Some((1, 2))));
    t := Next(t1, SetVrids(Some((1, 2))));
    hide Reaches;
  }

  lemma Created(s: State, t: State, k: Key) returns (u: State)
    requires Reaches(s, t) && k !in t.w.services
    ensures Reaches(s, u)
    ensures u == State(t.w.(services := t.w.services[k := Service(t.w.next, t.w.next, true, {}, false, None)], next := t.w.next + 1), t.pcs)
  {
    hide Call, Start, Reaches;
    var none: set<Finalizer> := {};
    assert none - {Operator} == none;
    ReachesNext(s, t, Create(k, true, {}));
    u := Next(t, Create(k, true, {}));
  }

  /** Two services, a pool and a VRID pair. */
  lemma Prepared(s: State, a: Key, b: Key, pool: seq<string>) returns (t: State)
    requires s.w.services == map[] && s.w.allocs == map[] && s.pcs == map[] && a != b && pool != []
    ensures Reaches(s, t) && t.pcs == map[]
    ensures t.w == s.w.(services := t.w.services, next := t.w.next, pool := Some(pool), vrids := Some((1, 2)))
    ensures Waiting(t.w, a, pool[0])
    ensures b in t.w.services && t.w.services[b].isLoadBalancer && !t.w.services[b].deleting && Operator !in t.w.services[b].finalizers
  {
    hide Reaches;
    var t1 := Configured(s, pool);
    var t2 := Created(s, t1, a);
    t := Created(s, t2, b);
  }

  lemma SecondWaits(ready: State, t: State, a: Key, b: Key, x: string, y: string, pool: seq<string>)
    requires Snapshotted(ready, t, a, x) && a != b && Identifier(a) != Identifier(b)
    requires ready.w.allocs == map[] && ready.w.pool == Some(pool)
    requires FirstFree(pool, map[x := Identifier(a)]) == Some(y)
    requires b in ready.w.services && ready.w.services[b].isLoadBalancer && !ready.w.services[b].deleting
             && Operator !in ready.w.services[b].finalizers
    ensures Waiting(t.w, b, y)
  {
    hide FirstFree;
    assert map[][x := Identifier(a)] == map[x := Identifier(a)];
  }

  /** Two passes of which each has allocated; the first took its snapshot before the second did. */
  ghost predicate Overlapping(u: State, a: Key, b: Key, x: string, y: string) {
    && a != b && x != y && u.w.files == map[] && u.w.live == map[]
    && a in u.pcs && u.pcs[a].WritingPrimary? && u.pcs[a].ips == {x}
    && b in u.pcs && u.pcs[b].WritingPrimary? && u.pcs[b].ips == {x, y} && u.pcs[b].mode == Reconciling(y)
  }

  lemma BothSnapshots(settings: Settings, pool: seq<string>, y: string, a: Key, b: Key) returns (u: State, free: string)
    requires a != b && y in pool && y != pool[0]
    ensures Reaches(Initial(settings), u) && Overlapping(u, a, b, pool[0], free)
  {
    var s, x := Initial(settings), pool[0];
    OwnersDiffer(a);
    var ready := Prepared(s, a, b, pool);
    var allocs := map[x := Identifier(a)];
    assert y !in allocs;
    free := FirstFree(pool, allocs).value;
    hide Reaches, Waiting, Path, Identifier, FirstFree;
    var t := TakeSnapshot(s, ready, a, x);
    SecondWaits(ready, t, a, b, x, free, pool);
    u := TakeSnapshot(s, t, b, free);
    assert u.pcs[a].ips == {x};
    assert u.pcs[b].ips == {x, free};
  }

  /** The next three calls: both files and the restart. */
  lemma WriteKeepalived(s: State, t: State, k: Key, ip: string) returns (u: State)
    requires Reaches(s, t) && k in t.pcs && t.pcs[k].WritingPrimary? && t.pcs[k].mode == Reconciling(ip)
    ensures Reaches(s, u) && u.pcs == t.pcs[k := WritingNginx(ip)]
    ensures var primary := Some(Conf(t.w.settings, t.pcs[k].vrids, t.pcs[k].ips, true));
            var secondary := Some(Conf(t.w.settings, t.pcs[k].vrids, t.pcs[k].ips, false));
            u.w == t.w.(primary := primary, secondary := secondary, running := primary)
  {
    hide Reaches, Conf, Path, Identifier, FirstFree, OwnsSome;
    var u1 := Succeed(s, t, k);
    var u2 := Succeed(s, u1, k);
    u := Succeed(s, u2, k);
  }

  /** The next call of k's pass, when it succeeds, is the one that loses coverage. */
  ghost predicate LosesAt(s: State, k: Key) {
    k in s.pcs && Covered(s.w) && !Covered(Next(s, Step(k, Fine, "")).w)
  }

  lemma UnsafeLoses(s: State, k: Key)
    requires Covered(s.w) && Unsafe(s, Step(k, Fine, ""))
    ensures LosesAt(s, k)
  {
    hide Covered, Next, SafeCall;
    NextCoversExactly(s, Step(k, Fine, ""));
  }

  lemma OneServed(w: World, path: string, file: NginxConf)
    requires w.files == map[path := file] && w.live == map[]
    ensures Served(w) == {file.ip}
  {
    assert path in w.files;
  }

  lemma NoneServed(w: World)
    requires w.files == map[] && w.live == map[]
    ensures Served(w) == {}
  {
  }

  lemma PrimaryWritten(s: State, t: State, a: Key) returns (v: State)
    requires Reaches(s, t) && a in t.pcs && t.pcs[a].WritingPrimary?
    ensures Reaches(s, v)
    ensures v.w == t.w.(primary := Some(Conf(t.w.settings, t.pcs[a].vrids, t.pcs[a].ips, true)))
    ensures v.pcs == t.pcs[a := WritingSecondary(t.pcs[a].mode, t.pcs[a].vrids, t.pcs[a].ips)]
  {
    hide Reaches, Path, Conf, Next;
    v := Succeed(s, t, a);
  }

  /** The second pass finishes its NGINX file before the first writes its snapshot. */
  lemma StalePrimaryLoses(s: State, t: State, a: Key, b: Key, x: string, y: string) returns (v: State)
    requires Reaches(s, t) && a != b && x != y && t.w.files == map[] && t.w.live == map[]
    requires a in t.pcs && t.pcs[a].WritingPrimary? && t.pcs[a].ips == {x}
    requires b in t.pcs && t.pcs[b] == WritingNginx(y) && CarriedByAll(t.w, y)
    ensures Reaches(s, v) && LosesAt(v, a) && v.pcs[a].WritingPrimary?
  {
    hide Reaches, Path, Carries, Served, LosesAt, Next;
    v := Succeed(s, t, b);
    var path := Path(t.w.settings.cluster, b);
    assert v.w.files == map[path := NginxConf(b, y)];
    OneServed(v.w, path, NginxConf(b, y));
    UnsafeLoses(v, a);
  }

  lemma NotCarried(s: Settings, vrids: (int, int), x: string, y: string)
    requires x != y
    ensures !Carries(Some(Conf(s, vrids, {x}, true)), y)
  {
    ConfAddresses(s, vrids, {x}, true);
    hide Conf;
  }

  /** The first pass writes its snapshot before the second writes its NGINX file. */
  lemma StaleNginxLoses(s: State, t: State, a: Key, b: Key, x: string, y: string) returns (v: State)
    requires Reaches(s, t) && a != b && x != y && t.w.files == map[] && t.w.live == map[]
    requires a in t.pcs && t.pcs[a].WritingPrimary? && t.pcs[a].ips == {x}
    requires b in t.pcs && t.pcs[b] == WritingNginx(y)
    ensures Reaches(s, v) && LosesAt(v, b) && v.pcs[b].WritingNginx?
  {
    hide Reaches, Path, Conf, LosesAt, Next, Served, Carries, Call;
    NotCarried(t.w.settings, t.pcs[a].vrids, x, y);
    v := PrimaryWritten(s, t, a);
    NoneServed(v.w);
    UnsafeLoses(v, b);
  }

  /** For any two services and any pool with two different addresses there is a run with
      overlapping passes that loses coverage by a stale Keepalived file, and one that loses it by
      an NGINX file whose address a stale file has taken away. */
  lemma OverlapUncovers(settings: Settings, pool: seq<string>, y: string, a: Key, b: Key)
    requires a != b && y in pool && y != pool[0]
    ensures exists v, k :: Reaches(Initial(settings), v) && LosesAt(v, k) && v.pcs[k].WritingPrimary?
    ensures exists v, k :: Reaches(Initial(settings), v) && LosesAt(v, k) && v.pcs[k].WritingNginx?
  {
    var u, free := BothSnapshots(settings, pool, y, a, b);
    ConfAddresses(u.w.settings, u.pcs[b].vrids, u.pcs[b].ips, true);
    ConfAddresses(u.w.settings, u.pcs[b].vrids, u.pcs[b].ips, false);
    hide Reaches, LosesAt, Initial, Conf;
    var t := WriteKeepalived(Initial(settings), u, b, free);
    var v := StalePrimaryLoses(Initial(settings), t, a, b, pool[0], free);
    var v' := StaleNginxLoses(Initial(settings), t, a, b, pool[0], free);
  }
}
