/**
 The IP-and-port allocator (pkg/ipam/ipam.go): allocations by service key, with a secondary
 index from address and port to key.

 AllocateIPAndPorts and ReleaseAllocation hold the package mutex when they call
 saveAllocations; SaveAllocations below is the body of that function with the lock held.
 */
module PortAllocator {
  import opened Text
  import opened Faults

  type Port = p: int | -0x8000_0000 <= p < 0x8000_0000

  datatype Allocation = Allocation(ns: string, service: string, ip: string, ports: seq<Port>)

  type Usage = map<string, map<Port, string>>

  function KeyFor(ns: string, service: string): string { ns + "/" + service }

  /** The key tells namespace and service, in this order; a namespace has no slash. */
  lemma KeyParts(ns: string, service: string)
    requires '/' !in ns && '/' !in service
    ensures Split(KeyFor(ns, service), '/') == [ns, service]
  {
    SplitAt(ns, '/', service);
    SplitWithout(service, '/');
    assert KeyFor(ns, service) == ns + ['/'] + service;
  }

  lemma KeysDiffer(ns: string, service: string, ns': string, service': string)
    requires '/' !in ns && '/' !in ns' && KeyFor(ns, service) == KeyFor(ns', service')
    ensures ns == ns' && service == service'
  {
    var k := ns + ['/'] + service;
    assert k == KeyFor(ns, service) && k == ns' + ['/'] + service';
    SplitAt(ns, '/', service);
    SplitAt(ns', '/', service');
    assert ns == Split(k, '/')[0] == ns';
    assert k[|ns| + 1..] == service == service';
  }

  function KeyOf(a: Allocation): string { KeyFor(a.ns, a.service) }

  /** The package variables `allocations` and `ipPortUsage`. */
  datatype Book = Book(allocations: map<string, Allocation>, usage: Usage)

  const EMPTY := Book(map[], map[])

  function Lookup(usage: Usage, ip: string, port: Port): Option<string> {
    if ip in usage && port in usage[ip] then Some(usage[ip][port]) else None
  }

  /** The same index, not counting empty inner maps. */
  ghost predicate SameIndex(u: Usage, v: Usage) {
    forall ip, port: Port :: Lookup(u, ip, port) == Lookup(v, ip, port)
  }

  ghost predicate KeysRight(allocations: map<string, Allocation>) {
    forall k :: k in allocations ==> KeyOf(allocations[k]) == k
  }

  ghost predicate IndexSound(b: Book) {
    forall ip, port: Port :: Lookup(b.usage, ip, port).Some? ==>
      var k := Lookup(b.usage, ip, port).value;
      k in b.allocations && b.allocations[k].ip == ip && port in b.allocations[k].ports
  }

  ghost predicate IndexComplete(b: Book) {
    forall k, port: Port :: k in b.allocations && port in b.allocations[k].ports ==>
      Lookup(b.usage, b.allocations[k].ip, port) == Some(k)
  }

  ghost predicate Consistent(b: Book) {
    KeysRight(b.allocations) && IndexSound(b) && IndexComplete(b)
  }

  /** What consistency means: the index answers k for (ip, port) iff k's allocation is at ip and
      lists port; hence no address and port ever has two owners. */
  lemma IndexIsInverse(b: Book, ip: string, port: Port, k: string, k': string)
    requires Consistent(b)
    ensures Lookup(b.usage, ip, port) == Some(k)
            <==> k in b.allocations && b.allocations[k].ip == ip && port in b.allocations[k].ports
    ensures (&& k in b.allocations && k' in b.allocations && b.allocations[k].ip == b.allocations[k'].ip
             && port in b.allocations[k].ports && port in b.allocations[k'].ports) ==> k == k'
  {
  }

  /** The index is determined by the allocations, up to empty inner maps. */
  lemma IndexDetermined(b: Book, c: Book)
    requires Consistent(b) && Consistent(c) && b.allocations == c.allocations
    ensures SameIndex(b.usage, c.usage)
  {
  }

  // ---------- AllocateIPAndPorts ----------

  predicate Clash(portUsage: map<Port, string>, ports: seq<Port>) {
    exists i :: 0 <= i < |ports| && ports[i] in portUsage
  }

  /** All requested ports are free at this address. */
  ghost predicate Free(usage: Usage, ip: string, ports: seq<Port>) {
    forall port: Port :: port in ports ==> Lookup(usage, ip, port).None?
  }

  function Claim(portUsage: map<Port, string>, ports: seq<Port>, key: string): map<Port, string> {
    portUsage + (map p: Port | p in ports :: key)
  }

  lemma ClaimStep(m: map<Port, string>, ports: seq<Port>, i: nat, key: string)
    requires i <= |ports|
    ensures Claim(m, [], key) == m
    ensures i < |ports| ==> Claim(m, ports[..i + 1], key) == Claim(m, ports[..i], key)[ports[i] := key]
  {
  }

  /** The pool loop: visiting an address creates its inner map, the first without a clash wins. */
  function Place(pool: seq<string>, usage: Usage, ports: seq<Port>, key: string): (Usage, Option<string>) {
    if pool == [] then (usage, None)
    else
      var portUsage := if pool[0] in usage then usage[pool[0]] else map[];
      var visited := usage[pool[0] := portUsage];
      if Clash(portUsage, ports) then Place(pool[1..], visited, ports, key)
      else (visited[pool[0] := Claim(portUsage, ports, key)], Some(pool[0]))
  }

  datatype Outcome = Existing(a: Allocation) | Placed(a: Allocation) | Full

  function Allocate(pool: seq<string>, b: Book, ns: string, service: string, ports: seq<Port>): (Book, Outcome) {
    var key := KeyFor(ns, service);
    if key in b.allocations then (b, Existing(b.allocations[key]))
    else
      var (usage, ip) := Place(pool, b.usage, ports, key);
      match ip
      case None => (Book(b.allocations, usage), Full)
      case Some(ip) =>
        var a := Allocation(ns, service, ip, ports);
        (Book(b.allocations[key := a], usage), Placed(a))
  }

  /** ip is the earliest pool address with all ports free. */
  ghost predicate FirstFit(pool: seq<string>, usage: Usage, ports: seq<Port>, ip: string) {
    exists i :: 0 <= i < |pool| && pool[i] == ip && Free(usage, ip, ports)
                && forall j :: 0 <= j < i ==> !Free(usage, pool[j], ports)
  }

  lemma VisitKeepsIndex(usage: Usage, ip: string, portUsage: map<Port, string>)
    requires portUsage == if ip in usage then usage[ip] else map[]
    ensures SameIndex(usage[ip := portUsage], usage)
  {
  }

  lemma ClashIsNotFree(usage: Usage, ip: string, portUsage: map<Port, string>, ports: seq<Port>)
    requires portUsage == if ip in usage then usage[ip] else map[]
    ensures Clash(portUsage, ports) <==> !Free(usage, ip, ports)
  {
    if Clash(portUsage, ports) {
      var i :| 0 <= i < |ports| && ports[i] in portUsage;
      assert ports[i] in ports && Lookup(usage, ip, ports[i]).Some?;
    }
    if !Free(usage, ip, ports) {
      var port: Port :| port in ports && Lookup(usage, ip, port).Some?;
      var i :| 0 <= i < |ports| && ports[i] == port;
      assert ports[i] in portUsage;
    }
  }

  lemma SameIndexSameFree(u: Usage, v: Usage, ports: seq<Port>)
    requires SameIndex(u, v)
    ensures forall ip :: Free(u, ip, ports) <==> Free(v, ip, ports)
  {
  }

  /** Exactly the requested ports at ip have a new owner. */
  ghost predicate Claimed(after: Usage, before: Usage, ip: string, ports: seq<Port>, key: string) {
    forall x, p: Port ::
      Lookup(after, x, p) == if x == ip && p in ports then Some(key) else Lookup(before, x, p)
  }

  /** First fit, and complete: it fails iff every pool address has a clash. Exactly the requested
      ports at the chosen address change owner. */
  lemma {:induction false} PlaceMeaning(pool: seq<string>, usage: Usage, ports: seq<Port>, key: string)
    ensures var after, ip := Place(pool, usage, ports, key).0, Place(pool, usage, ports, key).1;
            && (ip.None? <==> forall i :: 0 <= i < |pool| ==> !Free(usage, pool[i], ports))
            && (ip.None? ==> SameIndex(after, usage))
            && (ip.Some? ==> FirstFit(pool, usage, ports, ip.value))
            && (ip.Some? ==> Claimed(after, usage, ip.value, ports, key))
  {
    if pool != [] {
      var portUsage := if pool[0] in usage then usage[pool[0]] else map[];
      var visited := usage[pool[0] := portUsage];
      VisitKeepsIndex(usage, pool[0], portUsage);
      ClashIsNotFree(usage, pool[0], portUsage, ports);
      if Clash(portUsage, ports) {
        PlaceMeaning(pool[1..], visited, ports, key);
        SameIndexSameFree(visited, usage, ports);
        var (after, ip) := Place(pool[1..], visited, ports, key);
        assert forall i :: 1 <= i < |pool| ==> pool[i] == pool[1..][i - 1];
        if ip.Some? {
          var i :| 0 <= i < |pool[1..]| && pool[1..][i] == ip.value && Free(visited, ip.value, ports)
                   && forall j :: 0 <= j < i ==> !Free(visited, pool[1..][j], ports);
          assert pool[i + 1] == ip.value;
          assert FirstFit(pool, usage, ports, ip.value);
        }
      } else {
        assert pool[0] == pool[0] && Free(usage, pool[0], ports);
      }
    }
  }

  lemma ClaimKeepsConsistent(b: Book, after: Book, a: Allocation)
    requires Consistent(b) && KeyOf(a) !in b.allocations && Free(b.usage, a.ip, a.ports)
    requires after.allocations == b.allocations[KeyOf(a) := a]
    requires Claimed(after.usage, b.usage, a.ip, a.ports, KeyOf(a))
    ensures Consistent(after)
  {
  }

  /** A call for a key that is already allocated changes nothing and returns that allocation; a
      fresh one takes the first fit; a failing one changes nothing but empty maps. */
  lemma AllocateMeaning(pool: seq<string>, b: Book, ns: string, service: string, ports: seq<Port>)
    requires Consistent(b)
    ensures var after, o := Allocate(pool, b, ns, service, ports).0, Allocate(pool, b, ns, service, ports).1;
            var key := KeyFor(ns, service);
            && Consistent(after)
            && (o.Existing? <==> key in b.allocations)
            && (o.Existing? ==> after == b && o.a == b.allocations[key])
            && (o.Full? <==> key !in b.allocations && forall i :: 0 <= i < |pool| ==> !Free(b.usage, pool[i], ports))
            && (o.Full? ==> after.allocations == b.allocations && SameIndex(after.usage, b.usage))
            && (o.Placed? ==> FirstFit(pool, b.usage, ports, o.a.ip)
                              && o.a == Allocation(ns, service, o.a.ip, ports)
                              && after.allocations == b.allocations[key := o.a])
  {
    var key := KeyFor(ns, service);
    PlaceMeaning(pool, b.usage, ports, key);
    var after, o := Allocate(pool, b, ns, service, ports).0, Allocate(pool, b, ns, service, ports).1;
    if o.Placed? {
      assert Claimed(after.usage, b.usage, o.a.ip, ports, key);
      assert Free(b.usage, o.a.ip, ports);
      ClaimKeepsConsistent(b, after, o.a);
    }
  }

  /** A service is answered with its own allocation, never with that of another one. */
  lemma AllocateIsOwn(pool: seq<string>, b: Book, ns: string, service: string, ports: seq<Port>)
    requires Consistent(b) && '/' !in ns && forall k :: k in b.allocations ==> '/' !in b.allocations[k].ns
    ensures var o := Allocate(pool, b, ns, service, ports).1;
            && (!o.Full? ==> o.a.ns == ns && o.a.service == service)
            && (o.Existing? <==> exists k :: k in b.allocations && b.allocations[k].ns == ns && b.allocations[k].service == service)
  {
    var key := KeyFor(ns, service);
    if key in b.allocations {
      var a := b.allocations[key];
      assert KeyOf(a) == key;
      KeysDiffer(ns, service, a.ns, a.service);
    }
    hide Place;
  }

  // ---------- ReleaseAllocation ----------

  function Disclaim(portUsage: map<Port, string>, ports: seq<Port>): map<Port, string> {
    portUsage - (set p | p in ports)
  }

  /** Deleting from the nil map of an address without an inner map does nothing. */
  function Release(b: Book, ns: string, service: string): Book {
    var key := KeyFor(ns, service);
    if key !in b.allocations then b
    else
      var a := b.allocations[key];
      var portUsage := Disclaim(if a.ip in b.usage then b.usage[a.ip] else map[], a.ports);
      var usage := if portUsage == map[] then b.usage - {a.ip} else b.usage[a.ip := portUsage];
      Book(b.allocations - {key}, usage)
  }

  lemma ReleaseIndex(b: Book, after: Book, a: Allocation)
    requires KeyOf(a) in b.allocations && b.allocations[KeyOf(a)] == a && after == Release(b, a.ns, a.service)
    ensures forall ip, port: Port :: Lookup(after.usage, ip, port) ==
              if ip == a.ip && port in a.ports then None else Lookup(b.usage, ip, port)
  {
    var before := if a.ip in b.usage then b.usage[a.ip] else map[];
    var portUsage := Disclaim(before, a.ports);
    forall ip, port: Port
      ensures Lookup(after.usage, ip, port) ==
              if ip == a.ip && port in a.ports then None else Lookup(b.usage, ip, port)
    {
      assert port in portUsage <==> port in before && port !in a.ports;
    }
  }

  lemma ReleaseMeaning(b: Book, ns: string, service: string)
    requires Consistent(b)
    ensures var key := KeyFor(ns, service);
            var after := Release(b, ns, service);
            && Consistent(after)
            && after.allocations == b.allocations - {key}
            && (forall ip, port: Port :: Lookup(after.usage, ip, port) ==
                  if Lookup(b.usage, ip, port) == Some(key) then None else Lookup(b.usage, ip, port))
  {
    var key := KeyFor(ns, service);
    var after := Release(b, ns, service);
    if key in b.allocations {
      var a := b.allocations[key];
      ReleaseIndex(b, after, a);
      forall ip, port: Port
        ensures ip == a.ip && port in a.ports <==> Lookup(b.usage, ip, port) == Some(key)
      {
        IndexIsInverse(b, ip, port, key, key);
      }
    }
    forall k, port: Port | k in after.allocations && port in after.allocations[k].ports
      ensures Lookup(after.usage, after.allocations[k].ip, port) == Some(k)
    {
      assert Lookup(b.usage, b.allocations[k].ip, port) == Some(k);
    }
  }

  /** A fresh allocation followed by its release restores the book, up to empty inner maps. */
  lemma ReleaseUndoesAllocate(pool: seq<string>, b: Book, ns: string, service: string, ports: seq<Port>)
    requires Consistent(b) && KeyFor(ns, service) !in b.allocations
    ensures var after := Release(Allocate(pool, b, ns, service, ports).0, ns, service);
            after.allocations == b.allocations && SameIndex(after.usage, b.usage)
  {
    AllocateMeaning(pool, b, ns, service, ports);
    var mid := Allocate(pool, b, ns, service, ports).0;
    ReleaseMeaning(mid, ns, service);
    var after := Release(mid, ns, service);
    assert after.allocations == b.allocations;
    IndexDetermined(after, b);
  }

  // ---------- allocationsToList and loadAllocations ----------

  ghost predicate DistinctKeys(list: seq<Allocation>) {
    forall i, j :: 0 <= i < j < |list| ==> KeyOf(list[i]) != KeyOf(list[j])
  }

  /** The list names each allocation once, in some order of map iteration. */
  ghost predicate IsEnumeration(list: seq<Allocation>, allocations: map<string, Allocation>) {
    && DistinctKeys(list)
    && (forall a :: a in list ==> KeyOf(a) in allocations && allocations[KeyOf(a)] == a)
    && (forall k :: k in allocations ==> allocations[k] in list)
  }

  /** No two entries list the same port of the same address. */
  ghost predicate Disjoint(list: seq<Allocation>) {
    forall i, j, p: Port | 0 <= i < j < |list| && list[i].ip == list[j].ip && p in list[i].ports ::
      p !in list[j].ports
  }

  function LoadOne(b: Book, a: Allocation): Book {
    var portUsage := if a.ip in b.usage then b.usage[a.ip] else map[];
    Book(b.allocations[KeyOf(a) := a], b.usage[a.ip := Claim(portUsage, a.ports, KeyOf(a))])
  }

  function Load(list: seq<Allocation>): Book {
    if list == [] then EMPTY else LoadOne(Load(list[..|list| - 1]), list[|list| - 1])
  }

  lemma {:induction false} LoadedAllocations(list: seq<Allocation>)
    requires DistinctKeys(list)
    ensures KeysRight(Load(list).allocations)
    ensures forall i :: 0 <= i < |list| ==> KeyOf(list[i]) in Load(list).allocations
                                            && Load(list).allocations[KeyOf(list[i])] == list[i]
    ensures forall k :: k in Load(list).allocations ==> Load(list).allocations[k] in list
  {
    if list != [] {
      var front := list[..|list| - 1];
      LoadedAllocations(front);
      assert forall i :: 0 <= i < |front| ==> front[i] == list[i];
    }
  }

  lemma LoadOneIndex(b: Book, a: Allocation)
    ensures forall ip, p: Port :: Lookup(LoadOne(b, a).usage, ip, p) ==
              if ip == a.ip && p in a.ports then Some(KeyOf(a)) else Lookup(b.usage, ip, p)
  {
  }

  lemma {:induction false} LoadConsistent(list: seq<Allocation>)
    requires DistinctKeys(list) && Disjoint(list)
    ensures Consistent(Load(list))
  {
    LoadedAllocations(list);
    if list != [] {
      var front, a := list[..|list| - 1], list[|list| - 1];
      LoadConsistent(front);
      LoadedAllocations(front);
      var b := Load(front);
      LoadOneIndex(b, a);
      hide Lookup, Claim, KeyFor;
      assert forall i :: 0 <= i < |front| ==> KeyOf(front[i]) != KeyOf(a);
      assert KeyOf(a) !in b.allocations;
      forall p: Port | p in a.ports ensures Lookup(b.usage, a.ip, p).None? {
      }
      ClaimKeepsConsistent(b, Load(list), a);
    }
  }

  /** Reading back a list with distinct keys gives a consistent book exactly when no two of its
      entries claim the same port of the same address. */
  lemma LoadConsistentExactly(list: seq<Allocation>)
    requires DistinctKeys(list)
    ensures Consistent(Load(list)) <==> Disjoint(list)
  {
    if Disjoint(list) { LoadConsistent(list); }
    if Consistent(Load(list)) {
      LoadedAllocations(list);
      forall i, j, p: Port | 0 <= i < j < |list| && list[i].ip == list[j].ip && p in list[i].ports
        ensures p !in list[j].ports
      {
        IndexIsInverse(Load(list), list[i].ip, p, KeyOf(list[i]), KeyOf(list[j]));
      }
    }
  }

  lemma EnumerationDisjoint(b: Book, list: seq<Allocation>)
    requires Consistent(b) && IsEnumeration(list, b.allocations)
    ensures Disjoint(list)
  {
  }

  /** Save then load: whatever the enumeration order, the same allocations come back, and the
      same index up to empty inner maps. */
  lemma SaveLoadRoundTrip(b: Book, list: seq<Allocation>)
    requires Consistent(b) && IsEnumeration(list, b.allocations)
    ensures Load(list).allocations == b.allocations
    ensures SameIndex(Load(list).usage, b.usage)
  {
    EnumerationDisjoint(b, list);
    LoadConsistent(list);
    LoadedAllocations(list);
    var c := Load(list);
    forall k ensures k in c.allocations <==> k in b.allocations {
      if k in b.allocations {
        var i :| 0 <= i < |list| && list[i] == b.allocations[k];
        assert KeyOf(list[i]) == k;
      }
    }
    assert c.allocations == b.allocations;
    IndexDetermined(c, b);
  }

  // ---------- Every reachable state ----------

  /** The package state and the ConfigMap that outlives it. */
  datatype State = State(pool: seq<string>, book: Book, saved: seq<Allocation>)

  /** `order` is the order in which the map is enumerated when it is saved. */
  datatype Op =
    | DoAllocate(ns: string, service: string, ports: seq<Port>, fault: Fault, order: seq<Allocation>)
    | DoRelease(ns: string, service: string, fault: Fault, order: seq<Allocation>)
    | Restart(pool: seq<string>)

  /** The list that is saved: `order` if it enumerates the allocations, else some other that does. */
  ghost function Enumeration(order: seq<Allocation>, allocations: map<string, Allocation>): seq<Allocation> {
    if IsEnumeration(order, allocations) then order
    else if exists list :: IsEnumeration(list, allocations) then
      var list :| IsEnumeration(list, allocations); list
    else []
  }

  lemma OneMoreListed(rest: seq<Allocation>, allocations: map<string, Allocation>, k: string)
    requires KeysRight(allocations) && k in allocations && IsEnumeration(rest, allocations - {k})
    ensures IsEnumeration([allocations[k]] + rest, allocations)
  {
    hide KeyFor;
    var a, others := allocations[k], allocations - {k};
    assert KeyOf(a) == k;
    forall i | 0 <= i < |rest| ensures KeyOf(rest[i]) != k { assert rest[i] in rest; }
    forall x | x in allocations ensures allocations[x] in [a] + rest {
      if x != k { assert x in others && others[x] in rest; }
    }
  }

  lemma SomeEnumeration(allocations: map<string, Allocation>) returns (list: seq<Allocation>)
    requires KeysRight(allocations)
    ensures IsEnumeration(list, allocations)
    decreases |allocations|
  {
    hide KeyFor;
    if allocations == map[] {
      list := [];
    } else {
      var k :| k in allocations;
      var others := allocations - {k};
      assert allocations.Keys == others.Keys + {k};
      assert |others| == |others.Keys| && |allocations| == |allocations.Keys|;
      var rest := SomeEnumeration(others);
      OneMoreListed(rest, allocations, k);
      list := [allocations[k]] + rest;
      hide IsEnumeration;
    }
  }

  lemma EnumerationIs(order: seq<Allocation>, allocations: map<string, Allocation>)
    requires KeysRight(allocations)
    ensures IsEnumeration(Enumeration(order, allocations), allocations)
  {
    var list := SomeEnumeration(allocations);
  }

  ghost function Saved(s: seq<Allocation>, b: Book, fault: Fault, order: seq<Allocation>): seq<Allocation> {
    if fault == LostBefore then s else Enumeration(order, b.allocations)
  }

  ghost function Step(s: State, op: Op): State {
    match op
    case DoAllocate(ns, service, ports, fault, order) =>
      var (b, o) := Allocate(s.pool, s.book, ns, service, ports);
      State(s.pool, b, if o.Placed? then Saved(s.saved, b, fault, order) else s.saved)
    case DoRelease(ns, service, fault, order) =>
      var b := Release(s.book, ns, service);
      State(s.pool, b, if KeyFor(ns, service) in s.book.allocations then Saved(s.saved, b, fault, order) else s.saved)
    case Restart(pool) => State(pool, Load(s.saved), s.saved)
  }

  ghost function Run(s: State, ops: seq<Op>): State
    decreases |ops|
  {
    if ops == [] then s else Run(Step(s, ops[0]), ops[1..])
  }

  lemma EnumerationDistinct(list: seq<Allocation>, allocations: map<string, Allocation>)
    requires IsEnumeration(list, allocations)
    ensures DistinctKeys(list)
  {
  }

  lemma StepConsistent(s: State, op: Op)
    requires Consistent(s.book) && DistinctKeys(s.saved) && Disjoint(s.saved)
    ensures Consistent(Step(s, op).book) && DistinctKeys(Step(s, op).saved) && Disjoint(Step(s, op).saved)
  {
    hide Load, Place, Disclaim, Lookup, KeyFor, Allocate, Release, IndexSound, IndexComplete;
    match op {
      case DoAllocate(ns, service, ports, _, order) =>
        AllocateMeaning(s.pool, s.book, ns, service, ports);
        var b := Allocate(s.pool, s.book, ns, service, ports).0;
        EnumerationIs(order, b.allocations);
        EnumerationDisjoint(b, Enumeration(order, b.allocations));
        hide IsEnumeration, Enumeration, DistinctKeys;
        assert DistinctKeys(Enumeration(order, b.allocations)) by { EnumerationDistinct(Enumeration(order, b.allocations), b.allocations); }
      case DoRelease(ns, service, _, order) =>
        ReleaseMeaning(s.book, ns, service);
        var b := Release(s.book, ns, service);
        EnumerationIs(order, b.allocations);
        EnumerationDisjoint(b, Enumeration(order, b.allocations));
        hide IsEnumeration, Enumeration, DistinctKeys;
        assert DistinctKeys(Enumeration(order, b.allocations)) by { EnumerationDistinct(Enumeration(order, b.allocations), b.allocations); }
      case Restart(_) => LoadConsistent(s.saved);
    }
  }

  lemma {:induction false} RunConsistent(s: State, ops: seq<Op>)
    requires Consistent(s.book) && DistinctKeys(s.saved) && Disjoint(s.saved)
    ensures Consistent(Run(s, ops).book) && DistinctKeys(Run(s, ops).saved) && Disjoint(Run(s, ops).saved)
    decreases |ops|
  {
    hide Step, Consistent, DistinctKeys, Disjoint;
    if ops != [] {
      StepConsistent(s, ops[0]);
      RunConsistent(Step(s, ops[0]), ops[1..]);
    }
  }

  /** Through any allocations, releases, failed saves and restarts, in any order, the index stays
      the exact inverse of the allocations; so does what would be read back. */
  lemma AlwaysConsistent(s: State, ops: seq<Op>)
    requires Consistent(s.book) && DistinctKeys(s.saved) && Disjoint(s.saved)
    ensures Consistent(Run(s, ops).book) && Consistent(Load(Run(s, ops).saved))
  {
    RunConsistent(s, ops);
    LoadConsistent(Run(s, ops).saved);
  }

  /** In particular, from an empty ConfigMap on, no address and port is ever held twice. */
  lemma NeverTwoOwners(pool: seq<string>, ops: seq<Op>, k: string, k': string, port: Port)
    ensures var a := Run(State(pool, EMPTY, []), ops).book.allocations;
            (k in a && k' in a && k != k' && a[k].ip == a[k'].ip && port in a[k].ports) ==> port !in a[k'].ports
  {
    var s := State(pool, EMPTY, []);
    AlwaysConsistent(s, ops);
    hide Run;
    var b := Run(s, ops).book;
    if k in b.allocations { IndexIsInverse(b, b.allocations[k].ip, port, k, k'); }
  }

  // ---------- What survives a restart ----------

  /** A restart would bring back the book, up to empty inner maps. */
  ghost predicate SameBook(b: Book, c: Book) {
    b.allocations == c.allocations && SameIndex(b.usage, c.usage)
  }

  /** The operation comes to a save: a new allocation, or a release of an existing one. */
  predicate Saves(s: State, op: Op) {
    match op
    case DoAllocate(ns, service, ports, _, _) => Allocate(s.pool, s.book, ns, service, ports).1.Placed?
    case DoRelease(ns, service, _, _) => KeyFor(ns, service) in s.book.allocations
    case Restart(_) => false
  }

  predicate Stores(s: State, op: Op) { Saves(s, op) && op.fault != LostBefore }

  /** After an operation that saves, a restart brings back the book as it is then; any other leaves
      the saved list alone. */
  lemma StepStores(s: State, op: Op)
    requires Consistent(s.book) && DistinctKeys(s.saved) && Disjoint(s.saved)
    ensures var t := Step(s, op);
            if Stores(s, op) then IsEnumeration(t.saved, t.book.allocations) && SameBook(Load(t.saved), t.book)
            else t.saved == s.saved
  {
    StepConsistent(s, op);
    var t := Step(s, op);
    if Stores(s, op) {
      EnumerationIs(op.order, t.book.allocations);
      SaveLoadRoundTrip(t.book, t.saved);
    }
    hide Load, Place, Lookup, KeyFor, Allocate, Release, IsEnumeration, Enumeration, IndexSound, IndexComplete;
  }

  /** The number of operations up to the last that stored the book. */
  ghost function LastStored(s: State, ops: seq<Op>): nat
    ensures LastStored(s, ops) <= |ops|
    decreases |ops|
  {
    if ops == [] then 0
    else
      var n := LastStored(Step(s, ops[0]), ops[1..]);
      if n > 0 then n + 1 else if Stores(s, ops[0]) then 1 else 0
  }

  lemma RunFirst(s: State, ops: seq<Op>, n: nat)
    requires ops != [] && 1 <= n <= |ops|
    ensures Run(s, ops[..n]) == Run(Step(s, ops[0]), ops[1..][..n - 1])
  {
    hide Step;
    assert ops[..n][0] == ops[0] && ops[..n][1..] == ops[1..][..n - 1];
  }

  lemma {:induction false} StoredIsLast(s: State, ops: seq<Op>)
    requires Consistent(s.book) && DistinctKeys(s.saved) && Disjoint(s.saved)
    ensures var n := LastStored(s, ops);
            if n == 0 then Run(s, ops).saved == s.saved
            else SameBook(Load(Run(s, ops).saved), Run(s, ops[..n]).book)
    decreases |ops|
  {
    if ops != [] {
      var t, rest := Step(s, ops[0]), ops[1..];
      StepConsistent(s, ops[0]);
      StepStores(s, ops[0]);
      hide Step, Load, Stores, Consistent, DistinctKeys, Disjoint, SameBook, IsEnumeration;
      StoredIsLast(t, rest);
      var n := LastStored(t, rest);
      RunFirst(s, ops, n + 1);
      assert Run(t, rest[..0]) == t;
    }
  }

  /** Exactly what survives: after any operations, whatever failed in them, a restart brings back
      the book as it was after the last operation that stored it, or what was stored at first. */
  lemma RestartBringsBack(s: State, ops: seq<Op>, pool: seq<string>)
    requires Consistent(s.book) && DistinctKeys(s.saved) && Disjoint(s.saved)
    ensures var n := LastStored(s, ops);
            var t := Step(Run(s, ops), Restart(pool));
            && t.pool == pool
            && if n == 0 then t.book == Load(s.saved) else SameBook(t.book, Run(s, ops[..n]).book)
  {
    StoredIsLast(s, ops);
    hide Load, Run, Consistent, DistinctKeys, Disjoint, SameBook;
  }

  /** No save is lost before its effect. */
  ghost predicate NoneLost(ops: seq<Op>) {
    forall i :: 0 <= i < |ops| && !ops[i].Restart? ==> ops[i].fault != LostBefore
  }

  /** An operation that does not come to a save leaves the book as it is. */
  lemma StepKeepsBook(s: State, op: Op)
    requires Consistent(s.book) && SameBook(Load(s.saved), s.book) && (op.Restart? || op.fault != LostBefore)
    ensures !Stores(s, op) ==> SameBook(Load(Step(s, op).saved), Step(s, op).book)
  {
    if op.DoAllocate? { AllocateMeaning(s.pool, s.book, op.ns, op.service, op.ports); }
    hide Load, Place, KeyFor, Allocate, IndexSound, IndexComplete, Disclaim;
  }

  /** Durability: when no save is lost before its effect, a restart after any operations brings
      back exactly the allocations there are, with the same index up to empty inner maps. */
  lemma {:induction false} NothingForgotten(s: State, ops: seq<Op>)
    requires Consistent(s.book) && DistinctKeys(s.saved) && Disjoint(s.saved) && SameBook(Load(s.saved), s.book)
    requires NoneLost(ops)
    ensures SameBook(Load(Run(s, ops).saved), Run(s, ops).book)
    decreases |ops|
  {
    if ops != [] {
      var op, rest := ops[0], ops[1..];
      assert NoneLost(rest) by { assert forall i :: 0 <= i < |rest| ==> rest[i] == ops[i + 1]; }
      StepConsistent(s, op);
      StepStores(s, op);
      StepKeepsBook(s, op);
      hide Step, Load, Stores, Consistent, DistinctKeys, Disjoint, SameBook, IsEnumeration;
      NothingForgotten(Step(s, op), rest);
    }
  }

  /** An allocation whose save was lost before its effect is there for every later call, which then
      does not save; a restart forgets it, unless it was stored from before. */
  lemma LostSaveIsNotRetried(s: State, ns: string, service: string, ports: seq<Port>, order: seq<Allocation>,
                             order': seq<Allocation>, pool: seq<string>)
    requires Consistent(s.book) && Allocate(s.pool, s.book, ns, service, ports).1.Placed?
    ensures var t := Step(s, DoAllocate(ns, service, ports, LostBefore, order));
            var u := Step(t, DoAllocate(ns, service, ports, Fine, order'));
            && Allocate(t.pool, t.book, ns, service, ports).1 == Existing(Allocate(s.pool, s.book, ns, service, ports).1.a)
            && u == t && Step(u, Restart(pool)).book == Load(s.saved)
  {
    AllocateMeaning(s.pool, s.book, ns, service, ports);
    hide Load, Place, KeyFor;
  }

  // ---------- The package itself ----------

  /** The inner loop with its conflict flag. */
  method HasConflict(portUsage: map<Port, string>, ports: seq<Port>) returns (conflict: bool)
    ensures conflict <==> Clash(portUsage, ports)
  {
    conflict := false;
    for i := 0 to |ports|
      invariant !conflict && !Clash(portUsage, ports[..i])
    {
      assert ports[..i + 1] == ports[..i] + [ports[i]];
      if ports[i] in portUsage {
        conflict := true;
        break;
      }
    }
    assert ports[..|ports|] == ports;
  }

  class Ipam {
    var ipPool: seq<string>
    var allocations: map<string, Allocation>
    var ipPortUsage: Usage
    /** The decoded "allocations" entry of the ip-allocations ConfigMap. */
    var configMap: seq<Allocation>

    function Contents(): Book
      reads this
    {
      Book(allocations, ipPortUsage)
    }

    /** Init on a fresh process: the pool is read and the saved list is loaded. */
    constructor (pool: seq<string>, stored: seq<Allocation>)
      ensures ipPool == pool && configMap == stored && Contents() == Load(stored)
    {
      ipPool, configMap := pool, stored;
      allocations, ipPortUsage := map[], map[];
      new;
      LoadAllocations();
    }

    /** The loops `portUsage[port] = key`. */
    method SetPorts(ip: string, ports: seq<Port>, key: string)
      requires ip in ipPortUsage
      modifies this`ipPortUsage
      ensures ipPortUsage == old(ipPortUsage)[ip := Claim(old(ipPortUsage[ip]), ports, key)]
    {
      ghost var m := ipPortUsage[ip];
      ClaimStep(m, ports, 0, key);
      assert ports[..0] == [];
      for i := 0 to |ports|
        invariant ipPortUsage == old(ipPortUsage)[ip := Claim(m, ports[..i], key)]
      {
        ClaimStep(m, ports, i, key);
        ipPortUsage := ipPortUsage[ip := ipPortUsage[ip][ports[i] := key]];
      }
      assert ports[..|ports|] == ports;
    }

    method LoadAllocations()
      requires Contents() == EMPTY
      modifies this`allocations, this`ipPortUsage
      ensures Contents() == Load(configMap)
    {
      hide Claim, KeyFor;
      for i := 0 to |configMap|
        invariant Contents() == Load(configMap[..i])
      {
        var alloc := configMap[i];
        ghost var before := Contents();
        allocations := allocations[KeyOf(alloc) := alloc];
        if alloc.ip !in ipPortUsage {
          ipPortUsage := ipPortUsage[alloc.ip := map[]];
        }
        SetPorts(alloc.ip, alloc.ports, KeyOf(alloc));
        assert Contents() == LoadOne(before, alloc);
        assert configMap[..i + 1][..i] == configMap[..i];
      }
      assert configMap[..|configMap|] == configMap;
    }

    method AllocationsToList() returns (list: seq<Allocation>)
      requires KeysRight(allocations)
      ensures IsEnumeration(list, allocations)
    {
      list := [];
      var left := allocations.Keys;
      while left != {}
        invariant left <= allocations.Keys
        invariant DistinctKeys(list)
        invariant forall a :: a in list ==> KeyOf(a) in allocations.Keys - left && allocations[KeyOf(a)] == a
        invariant forall k :: k in allocations.Keys - left ==> allocations[k] in list
        decreases |left|
      {
        var k :| k in left;
        forall i | 0 <= i < |list| ensures KeyOf(list[i]) != k { assert list[i] in list; }
        list := list + [allocations[k]];
        left := left - {k};
      }
    }

    method SaveAllocations(fault: Fault) returns (ok: bool, ghost order: seq<Allocation>)
      requires KeysRight(allocations)
      modifies this`configMap
      ensures ok <==> fault.Fine?
      ensures IsEnumeration(order, allocations)
      ensures configMap == Saved(old(configMap), Contents(), fault, order)
    {
      var list := AllocationsToList();
      order := list;
      if fault != LostBefore {
        configMap := list;
      }
      ok := fault.Fine?;
    }

    /** The loop over the pool: creates missing inner maps as it goes and claims the ports at the
        first address without a conflict. */
    method PlaceOnPool(ports: seq<Port>, key: string) returns (r: Option<string>)
      modifies this`ipPortUsage
      ensures (ipPortUsage, r) == Place(ipPool, old(ipPortUsage), ports, key)
    {
      for i := 0 to |ipPool|
        invariant Place(ipPool, old(ipPortUsage), ports, key) == Place(ipPool[i..], ipPortUsage, ports, key)
      {
        var ip := ipPool[i];
        assert ipPool[i..][1..] == ipPool[i + 1..];
        ghost var before := ipPortUsage;
        if ip !in ipPortUsage {
          ipPortUsage := ipPortUsage[ip := map[]];
        }
        assert ipPortUsage == before[ip := if ip in before then before[ip] else map[]];
        var conflict := HasConflict(ipPortUsage[ip], ports);
        if conflict {
          continue;
        }
        SetPorts(ip, ports, key);
        return Some(ip);
      }
      r := None;
    }

    method AllocateIPAndPorts(ns: string, service: string, ports: seq<Port>, fault: Fault)
      returns (r: Option<Allocation>, ghost order: seq<Allocation>)
      requires Consistent(Contents())
      modifies this
      ensures Consistent(Contents())
      ensures State(ipPool, Contents(), configMap)
              == Step(old(State(ipPool, Contents(), configMap)), DoAllocate(ns, service, ports, fault, order))
      ensures r == match Allocate(ipPool, old(Contents()), ns, service, ports).1
                   case Existing(a) => Some(a)
                   case Placed(a) => if fault.Fine? then Some(a) else None
                   case Full => None
    {
      order := [];
      AllocateMeaning(ipPool, Contents(), ns, service, ports);
      var key := KeyFor(ns, service);
      if key in allocations {
        return Some(allocations[key]), order;
      }
      var ip := PlaceOnPool(ports, key);
      if ip.None? {
        return None, order;
      }
      var allocation := Allocation(ns, service, ip.value, ports);
      allocations := allocations[key := allocation];
      var ok;
      ok, order := SaveAllocations(fault);
      r := if ok then Some(allocation) else None;
    }

    method ReleaseAllocation(ns: string, service: string, fault: Fault)
      returns (ok: bool, ghost order: seq<Allocation>)
      requires Consistent(Contents())
      modifies this
      ensures Consistent(Contents())
      ensures State(ipPool, Contents(), configMap)
              == Step(old(State(ipPool, Contents(), configMap)), DoRelease(ns, service, fault, order))
      ensures ok <==> KeyFor(ns, service) !in old(allocations) || fault.Fine?
    {
      order := [];
      ReleaseMeaning(Contents(), ns, service);
      var key := KeyFor(ns, service);
      if key !in allocations {
        return true, order;
      }
      var alloc := allocations[key];
      var portUsage := if alloc.ip in ipPortUsage then ipPortUsage[alloc.ip] else map[];
      for i := 0 to |alloc.ports|
        invariant portUsage == Disclaim(if alloc.ip in ipPortUsage then ipPortUsage[alloc.ip] else map[], alloc.ports[..i])
      {
        portUsage := portUsage - {alloc.ports[i]};
        assert alloc.ports[..i + 1] == alloc.ports[..i] + [alloc.ports[i]];
      }
      assert alloc.ports[..|alloc.ports|] == alloc.ports;
      if portUsage == map[] {
        ipPortUsage := ipPortUsage - {alloc.ip};
      } else {
        ipPortUsage := ipPortUsage[alloc.ip := portUsage];
      }
      allocations := allocations - {key};
      ok, order := SaveAllocations(fault);
    }

    /** The addresses in use are those of the allocations. */
    method GetAllocatedIPs() returns (ips: set<string>)
      ensures ips == set k | k in allocations :: allocations[k].ip
    {
      ips := {};
      var left := allocations.Keys;
      while left != {}
        invariant left <= allocations.Keys
        invariant ips == set k | k in allocations.Keys - left :: allocations[k].ip
        decreases |left|
      {
        var k :| k in left;
        ips := ips + {allocations[k].ip};
        left := left - {k};
      }
    }
  }
}
