/**
 Keepalived covers NGINX: every address in an NGINX file is among the addresses of both Keepalived
 files and of the running Keepalived. Three calls can break this, and exactly when they do is said
 here. They never do as long as one pass runs at a time, or as long as a lock lets one pass at a
 time be between reading the ConfigMap for Keepalived and writing its NGINX file.
 */
module Cover {
  import opened Text
  import opened Faults
  import opened Names
  import opened Vips
  import opened Protocol
  import opened Safety
  import opened Reachable

  predicate Carries(conf: Option<KeepalivedConf>, ip: string) {
    conf.Some? && ip in conf.value.Addresses()
  }

  ghost predicate CarriesAll(conf: Option<KeepalivedConf>, ips: set<string>) {
    forall ip :: ip in ips ==> Carries(conf, ip)
  }

  predicate CarriedByAll(w: World, ip: string) {
    Carries(w.primary, ip) && Carries(w.secondary, ip) && Carries(w.running, ip)
  }

  function Listened(files: map<string, NginxConf>): set<string> { set p | p in files :: files[p].ip }

  /** Every address that an NGINX file, or the running NGINX, listens on. */
  function Served(w: World): set<string> { Listened(w.files) + Listened(w.live) }

  ghost predicate Covered(w: World) {
    CarriesAll(w.primary, Served(w)) && CarriesAll(w.secondary, Served(w)) && CarriesAll(w.running, Served(w))
  }

  // ---------- Which calls lose coverage ----------

  /** A Keepalived file takes effect with every served address in it; an NGINX file takes effect
      with its address in Keepalived already. Nothing else matters. */
  predicate SafeCall(w: World, pc: PC, f: Fault) {
    f.LostBefore? ||
    match pc
    case WritingPrimary(_, _, ips) => Served(w) <= ips
    case WritingSecondary(_, _, ips) => Served(w) <= ips
    case WritingNginx(ip) => CarriedByAll(w, ip)
    case _ => true
  }

  predicate InSection(pc: PC) {
    pc.WritingPrimary? || pc.WritingSecondary? || pc.Restarting? || pc.WritingNginx?
  }

  ghost predicate ServesNoMore(w: World, v: World) {
    && v.primary == w.primary && v.secondary == w.secondary && v.running == w.running
    && Served(v) <= Served(w)
  }

  lemma ReloadOrRemoveServesNoMore(w: World, k: Key, pc: PC, f: Fault, pick: string)
    requires pc.Reloading? || pc.Removing? || pc.Unloading?
    ensures ServesNoMore(w, Call(w, k, pc, f, pick).0)
  {
    hide Path, Conf;
  }

  ghost predicate SameServer(w: World, v: World) {
    && v.primary == w.primary && v.secondary == w.secondary && v.running == w.running
    && v.files == w.files && v.live == w.live
  }

  lemma ObjectCallsKeepServer(w: World, k: Key, pc: PC, f: Fault, pick: string)
    requires pc.Adding? || pc.Publishing? || pc.Dropping?
    ensures SameServer(w, Call(w, k, pc, f, pick).0)
  {
    hide AllocateCall, FetchCall, ReleaseCall, Path, Conf;
  }

  lemma OtherCallsKeepServer(w: World, k: Key, pc: PC, f: Fault, pick: string)
    requires !InSection(pc) && !pc.Reloading? && !pc.Removing? && !pc.Unloading?
    ensures SameServer(w, Call(w, k, pc, f, pick).0)
  {
    if pc.Adding? || pc.Publishing? || pc.Dropping? {
      ObjectCallsKeepServer(w, k, pc, f, pick);
      hide Call;
    } else {
      hide AddFinalizerCall, PublishCall, DropFinalizerCall, Identifier, FirstFree, OwnsSome, Owns, Path, Conf;
    }
  }

  lemma OtherCallsServeNoMore(w: World, k: Key, pc: PC, f: Fault, pick: string)
    requires !InSection(pc)
    ensures ServesNoMore(w, Call(w, k, pc, f, pick).0)
  {
    hide Call, InSection, Listened;
    if pc.Reloading? || pc.Removing? || pc.Unloading? {
      ReloadOrRemoveServesNoMore(w, k, pc, f, pick);
    } else {
      OtherCallsKeepServer(w, k, pc, f, pick);
    }
  }

  lemma FewerCovered(w: World, v: World)
    requires Covered(w) && ServesNoMore(w, v)
    ensures Covered(v)
  {
    hide Served, Carries;
  }

  lemma ConfCarries(s: Settings, vrids: (int, int), ips: set<string>, isPrimary: bool, served: set<string>)
    ensures CarriesAll(Some(Conf(s, vrids, ips, isPrimary)), served) <==> served <= ips
  {
    ConfAddresses(s, vrids, ips, isPrimary);
    hide Conf;
  }

  /** Served does not depend on the Keepalived files, and Covered on each of them by itself. */
  lemma Replaced(w: World, conf: Option<KeepalivedConf>)
    requires Covered(w)
    ensures Covered(w.(primary := conf)) <==> CarriesAll(conf, Served(w))
    ensures Covered(w.(secondary := conf)) <==> CarriesAll(conf, Served(w))
    ensures Covered(w.(running := conf)) <==> CarriesAll(conf, Served(w))
  {
    hide CarriesAll, Listened;
  }

  lemma KeepalivedCallExactly(w: World, k: Key, pc: PC, f: Fault, pick: string)
    requires Covered(w) && (pc.WritingPrimary? || pc.WritingSecondary? || pc.Restarting?)
    ensures Covered(Call(w, k, pc, f, pick).0) <==> SafeCall(w, pc, f)
  {
    assert CarriesAll(w.primary, Served(w));
    hide Conf, Served, Covered, CarriesAll;
    if pc.WritingPrimary? {
      var conf := Conf(w.settings, pc.vrids, pc.ips, true);
      ConfCarries(w.settings, pc.vrids, pc.ips, true, Served(w));
      Replaced(w, Some(conf));
    } else if pc.WritingSecondary? {
      var conf := Conf(w.settings, pc.vrids, pc.ips, false);
      ConfCarries(w.settings, pc.vrids, pc.ips, false, Served(w));
      Replaced(w, Some(conf));
    } else {
      Replaced(w, w.primary);
    }
  }

  lemma ListenedWrite(files: map<string, NginxConf>, p: string, file: NginxConf)
    ensures Listened(files[p := file]) <= Listened(files) + {file.ip}
    ensures file.ip in Listened(files[p := file])
  {
    assert p in files[p := file];
  }

  lemma NginxCallExactly(w: World, k: Key, ip: string, f: Fault, pick: string)
    requires Covered(w)
    ensures Covered(Call(w, k, WritingNginx(ip), f, pick).0) <==> SafeCall(w, WritingNginx(ip), f)
  {
    ListenedWrite(w.files, Path(w.settings.cluster, k), NginxConf(k, ip));
    hide Listened, Path, Carries;
  }

  /** For every call and every outcome: coverage lasts exactly if the call is a safe one. */
  lemma CallCoversExactly(w: World, k: Key, pc: PC, f: Fault, pick: string)
    requires Covered(w)
    ensures Covered(Call(w, k, pc, f, pick).0) <==> SafeCall(w, pc, f)
  {
    hide Covered, Call;
    if !InSection(pc) {
      OtherCallsServeNoMore(w, k, pc, f, pick);
      FewerCovered(w, Call(w, k, pc, f, pick).0);
    } else if pc.WritingNginx? {
      NginxCallExactly(w, k, pc.ip, f, pick);
    } else {
      KeepalivedCallExactly(w, k, pc, f, pick);
    }
  }

  lemma SurroundingsCover(w: World, a: Action)
    requires Covered(w)
    ensures Covered(Surroundings(w, a))
    ensures Served(Surroundings(w, a)) <= Served(w)
  {
    hide Listened, Carries;
  }

  predicate Unsafe(s: State, a: Action) {
    a.Step? && a.k in s.pcs && !SafeCall(s.w, s.pcs[a.k], a.f)
  }

  lemma NextCoversExactly(s: State, a: Action)
    requires Covered(s.w)
    ensures Covered(Next(s, a).w) <==> !Unsafe(s, a)
  {
    if a.Step? {
      if a.k in s.pcs { CallCoversExactly(s.w, a.k, s.pcs[a.k], a.f, a.pick); }
    } else {
      SurroundingsCover(s.w, a);
    }
    hide Covered, Call, Surroundings, SafeCall, Start;
  }

  lemma RunPrefix(s: State, actions: seq<Action>, i: nat)
    requires i < |actions|
    ensures Run(s, actions[..i + 1]) == Next(Run(s, actions[..i]), actions[i])
  {
    hide Next;
    var t := Run(s, actions[..i]);
    assert actions[..i + 1] == actions[..i] + [actions[i]];
    RunAppend(s, actions[..i], [actions[i]]);
    assert Run(t, [actions[i]]) == Run(Next(t, actions[i]), [actions[i]][1..]);
  }

  lemma {:induction false} CoveredUpTo(s: State, actions: seq<Action>, i: nat)
    requires Covered(s.w) && i <= |actions|
    requires forall j :: 0 <= j < i ==> !Unsafe(Run(s, actions[..j]), actions[j])
    ensures Covered(Run(s, actions[..i]).w)
  {
    hide Covered, Unsafe, Next;
    if i == 0 {
      assert Run(s, actions[..0]) == s;
    } else {
      CoveredUpTo(s, actions, i - 1);
      RunPrefix(s, actions, i - 1);
      NextCoversExactly(Run(s, actions[..i - 1]), actions[i - 1]);
    }
  }

  /** Over any run, with passes overlapping as they may: it is covered all along exactly if no step
      of it is an unsafe call. */
  lemma CoveredThroughoutExactly(s: State, actions: seq<Action>)
    requires Covered(s.w)
    ensures (forall i :: 0 <= i <= |actions| ==> Covered(Run(s, actions[..i]).w))
            <==> (forall i :: 0 <= i < |actions| ==> !Unsafe(Run(s, actions[..i]), actions[i]))
  {
    hide Covered, Unsafe, Run, Next;
    if forall i :: 0 <= i <= |actions| ==> Covered(Run(s, actions[..i]).w) {
      forall i | 0 <= i < |actions| ensures !Unsafe(Run(s, actions[..i]), actions[i]) {
        RunPrefix(s, actions, i);
        assert Covered(Run(s, actions[..i + 1]).w);
        NextCoversExactly(Run(s, actions[..i]), actions[i]);
      }
    }
    if forall i :: 0 <= i < |actions| ==> !Unsafe(Run(s, actions[..i]), actions[i]) {
      forall i | 0 <= i <= |actions| ensures Covered(Run(s, actions[..i]).w) {
        CoveredUpTo(s, actions, i);
      }
    }
  }

  // ---------- One pass at a time in the critical section ----------

  /** What a pass relies on from its reading of the ConfigMap up to its NGINX file, when no other
      pass is there. Others may well allocate and release meanwhile. */
  predicate SectionPc(w: World, pc: PC) {
    match pc
    case WritingPrimary(mode, _, ips) => Served(w) <= ips && (mode.Reconciling? ==> mode.ip in ips)
    case WritingSecondary(mode, _, ips) =>
      Served(w) <= ips && (mode.Reconciling? ==> mode.ip in ips && Carries(w.primary, mode.ip))
    case Restarting(mode) => mode.Reconciling? ==> Carries(w.primary, mode.ip) && Carries(w.secondary, mode.ip)
    case WritingNginx(ip) => CarriedByAll(w, ip)
    case _ => true
  }

  ghost predicate OneInside(pcs: map<Key, PC>) {
    forall k, l :: k in pcs && l in pcs && InSection(pcs[k]) && InSection(pcs[l]) ==> k == l
  }

  ghost predicate NoneInside(pcs: map<Key, PC>) { forall k :: k in pcs ==> !InSection(pcs[k]) }

  ghost predicate SectionsOk(w: World, pcs: map<Key, PC>) { forall k :: k in pcs ==> SectionPc(w, pcs[k]) }

  ghost predicate CoverInv(s: State) {
    Inv(s) && Covered(s.w) && OneInside(s.pcs) && SectionsOk(s.w, s.pcs)
  }

  lemma ServedAllocated(w: World)
    requires WorldInv(w)
    ensures Served(w) <= w.allocs.Keys
  {
    hide Path;
  }

  lemma LoadEnters(w: World, k: Key, pc: PC, f: Fault, pick: string)
    requires WorldInv(w) && PcOk(w, k, pc) && pc.LoadingAllocs?
    ensures var r := Call(w, k, pc, f, pick); r.0 == w && SectionPc(w, r.1)
  {
    ServedAllocated(w);
    hide WorldInv, Served, Conf;
  }

  lemma PrimaryStays(w: World, k: Key, pc: PC, f: Fault, pick: string)
    requires SectionPc(w, pc) && pc.WritingPrimary?
    ensures var r := Call(w, k, pc, f, pick); SectionPc(r.0, r.1)
  {
    ConfAddresses(w.settings, pc.vrids, pc.ips, true);
    hide Conf, Listened;
  }

  lemma SecondaryStays(w: World, k: Key, pc: PC, f: Fault, pick: string)
    requires SectionPc(w, pc) && pc.WritingSecondary?
    ensures var r := Call(w, k, pc, f, pick); SectionPc(r.0, r.1)
  {
    ConfAddresses(w.settings, pc.vrids, pc.ips, false);
    hide Conf, Listened;
  }

  lemma RestartedStays(w: World, k: Key, pc: PC, f: Fault, pick: string)
    requires SectionPc(w, pc) && pc.Restarting?
    ensures var r := Call(w, k, pc, f, pick); SectionPc(r.0, r.1)
  {
    hide Conf, Listened;
  }

  lemma OutsideStays(w: World, k: Key, pc: PC, f: Fault, pick: string)
    requires !pc.LoadingAllocs? && (!InSection(pc) || pc.WritingNginx?)
    ensures !InSection(Call(w, k, pc, f, pick).1)
  {
    hide Conf, Path, Identifier, Update, UpdateStatus, FirstFree, OwnsSome, Owns, Scan;
  }

  lemma OwnStepCovers(w: World, k: Key, pc: PC, f: Fault, pick: string)
    requires WorldInv(w) && PcOk(w, k, pc) && Covered(w) && SectionPc(w, pc)
    ensures var r := Call(w, k, pc, f, pick); Covered(r.0) && SectionPc(r.0, r.1)
  {
    CallCoversExactly(w, k, pc, f, pick);
    hide WorldInv, PcOk, Covered, Call, Served, CarriedByAll;
    if pc.LoadingAllocs? {
      LoadEnters(w, k, pc, f, pick);
    } else if pc.WritingPrimary? {
      PrimaryStays(w, k, pc, f, pick);
    } else if pc.WritingSecondary? {
      SecondaryStays(w, k, pc, f, pick);
    } else if pc.Restarting? {
      RestartedStays(w, k, pc, f, pick);
    } else {
      OutsideStays(w, k, pc, f, pick);
    }
  }

  lemma OthersStay(w: World, v: World, pc: PC)
    requires SectionPc(w, pc) && ServesNoMore(w, v)
    ensures SectionPc(v, pc)
  {
    hide Served, Carries;
  }

  lemma OutsideAnyhow(v: World, pc: PC)
    requires !InSection(pc)
    ensures SectionPc(v, pc)
  {
    hide Served, Carries;
  }

  lemma NotLoadedOutside(w: World, k: Key, pc: PC, f: Fault, pick: string)
    requires InSection(Call(w, k, pc, f, pick).1)
    ensures InSection(pc) || pc.LoadingAllocs?
  {
    hide Call, InSection;
    if !pc.LoadingAllocs? && !InSection(pc) { OutsideStays(w, k, pc, f, pick); }
  }

  /** What the lock forbids: reading the ConfigMap while another pass is in the section. */
  ghost predicate Allowed(s: State, a: Action) {
    a.Step? && a.k in s.pcs && s.pcs[a.k].LoadingAllocs? ==> NoneInside(s.pcs)
  }

  /** The map of passes after a step of k that leads to pc. */
  function Moved(pcs: map<Key, PC>, k: Key, pc: PC): map<Key, PC> {
    if pc.Done? then pcs - {k} else pcs[k := pc]
  }

  lemma MovedInside(pcs: map<Key, PC>, k: Key, pc: PC)
    requires k in pcs && OneInside(pcs)
    requires InSection(pc) ==> InSection(pcs[k]) || NoneInside(pcs)
    ensures OneInside(Moved(pcs, k, pc))
  {
    hide InSection;
  }

  lemma MovedSections(w: World, v: World, pcs: map<Key, PC>, k: Key, pc: PC)
    requires k in pcs && OneInside(pcs) && SectionsOk(w, pcs) && SectionPc(v, pc)
    requires InSection(pcs[k]) || ServesNoMore(w, v)
    ensures SectionsOk(v, Moved(pcs, k, pc))
  {
    forall l | l in pcs && l != k ensures SectionPc(v, pcs[l]) {
      if InSection(pcs[k]) { OutsideAnyhow(v, pcs[l]); } else { OthersStay(w, v, pcs[l]); }
    }
    hide SectionPc, InSection, ServesNoMore;
  }

  lemma StepResult(s: State, k: Key, f: Fault, pick: string)
    requires k in s.pcs
    ensures var r := Call(s.w, k, s.pcs[k], f, pick);
            Next(s, Step(k, f, pick)) == State(r.0, Moved(s.pcs, k, r.1))
  {
    hide Call;
  }

  lemma StepCovers(s: State, k: Key, f: Fault, pick: string)
    requires CoverInv(s) && k in s.pcs && Allowed(s, Step(k, f, pick))
    ensures CoverInv(Next(s, Step(k, f, pick)))
  {
    NextKeeps(s, Step(k, f, pick));
    var pc := s.pcs[k];
    var r := Call(s.w, k, pc, f, pick);
    StepResult(s, k, f, pick);
    hide WorldInv, PcOk, Covered, Call, ServesNoMore, SectionPc, InSection, OneInside, NoneInside, Next, Moved;
    OwnStepCovers(s.w, k, pc, f, pick);
    if !InSection(pc) { OtherCallsServeNoMore(s.w, k, pc, f, pick); }
    if InSection(r.1) { NotLoadedOutside(s.w, k, pc, f, pick); }
    hide SectionsOk, Inv;
    MovedInside(s.pcs, k, r.1);
    MovedSections(s.w, r.0, s.pcs, k, r.1);
  }

  lemma UsersServeNothing(w: World, a: Action)
    requires !a.ServerRestart?
    ensures ServesNoMore(w, Surroundings(w, a))
  {
    hide Listened;
  }

  lemma ServerRestartStays(w: World, pc: PC)
    requires SectionPc(w, pc)
    ensures SectionPc(Surroundings(w, ServerRestart), pc)
  {
    hide Listened, Carries;
  }

  lemma RestartStays(w: World, a: Action, pc: PC)
    requires SectionPc(w, pc)
    ensures SectionPc(Surroundings(w, a), pc)
  {
    hide SectionPc, Surroundings, ServesNoMore;
    if a.ServerRestart? {
      ServerRestartStays(w, pc);
    } else {
      UsersServeNothing(w, a);
      OthersStay(w, Surroundings(w, a), pc);
    }
  }

  lemma SurroundingsStepCovers(s: State, a: Action)
    requires CoverInv(s) && !a.Step? && !a.Begin? && !a.Crash?
    ensures CoverInv(Next(s, a))
  {
    NextKeeps(s, a);
    SurroundingsCover(s.w, a);
    hide Inv, Covered, Call, Surroundings, SectionPc, InSection, OneInside;
    forall k | k in s.pcs ensures SectionPc(Surroundings(s.w, a), s.pcs[k]) {
      RestartStays(s.w, a, s.pcs[k]);
    }
  }

  lemma CrashCovers(s: State)
    requires CoverInv(s)
    ensures CoverInv(Next(s, Crash))
  {
    NextKeeps(s, Crash);
    hide Inv, Covered, Call, Surroundings, Start, SectionPc, InSection;
  }

  lemma StartsOutside(w: World, k: Key, f: Fault)
    ensures !InSection(Start(w, k, f))
  {
  }

  lemma BeginResult(s: State, k: Key, f: Fault)
    ensures Next(s, Begin(k, f)) == s || Next(s, Begin(k, f)) == State(s.w, s.pcs[k := Start(s.w, k, f)])
  {
    hide Start, Call, Surroundings;
  }

  lemma BeginCovers(s: State, k: Key, f: Fault)
    requires CoverInv(s)
    ensures CoverInv(Next(s, Begin(k, f)))
  {
    NextKeeps(s, Begin(k, f));
    BeginResult(s, k, f);
    hide Next;
    StartsOutside(s.w, k, f);
    OutsideAnyhow(s.w, Start(s.w, k, f));
    hide Inv, Covered, Call, Surroundings, Start, SectionPc, InSection;
  }

  lemma NextCovers(s: State, a: Action)
    requires CoverInv(s) && Allowed(s, a)
    ensures CoverInv(Next(s, a))
  {
    hide CoverInv, Next, Allowed;
    if a.Step? {
      if a.k in s.pcs { StepCovers(s, a.k, a.f, a.pick); } else { NoPassNoStep(s, a); }
    } else if a.Begin? {
      BeginCovers(s, a.k, a.f);
    } else if a.Crash? {
      CrashCovers(s);
    } else {
      SurroundingsStepCovers(s, a);
    }
  }

  /** The next state when a lock guards the section; a pass that may not enter waits. */
  ghost function NextLocked(s: State, a: Action): State {
    if Allowed(s, a) then Next(s, a) else s
  }

  ghost function RunLocked(s: State, actions: seq<Action>): State
    decreases |actions|
  {
    if actions == [] then s else RunLocked(NextLocked(s, actions[0]), actions[1..])
  }

  lemma {:induction false} RunLockedCovers(s: State, actions: seq<Action>)
    requires CoverInv(s)
    ensures CoverInv(RunLocked(s, actions))
    decreases |actions|
  {
    hide CoverInv, Next, Allowed;
    if actions != [] {
      if Allowed(s, actions[0]) { NextCovers(s, actions[0]); }
      RunLockedCovers(NextLocked(s, actions[0]), actions[1..]);
    }
  }

  lemma InitialCovered(settings: Settings)
    ensures CoverInv(Initial(settings))
  {
    InitialInv(settings);
    hide Inv;
  }

  /** With passes overlapping but a lock around the section: through all partial failures and
      crashes, each address in an NGINX file, written or loaded, is in both Keepalived files and
      in the running Keepalived. */
  lemma LockedCovered(settings: Settings, actions: seq<Action>, p: string)
    ensures var w := RunLocked(Initial(settings), actions).w;
            && (p in w.files ==> CarriedByAll(w, w.files[p].ip))
            && (p in w.live ==> CarriedByAll(w, w.live[p].ip))
  {
    InitialCovered(settings);
    RunLockedCovers(Initial(settings), actions);
    hide RunLocked, Initial, Inv, Carries, OneInside, SectionsOk;
  }

  // ---------- One pass at a time ----------

  /** The default of the work queue: the next pass begins only when none is in flight. */
  ghost function NextSerial(s: State, a: Action): State {
    if a.Begin? && s.pcs != map[] then s else Next(s, a)
  }

  ghost function RunSerial(s: State, actions: seq<Action>): State
    decreases |actions|
  {
    if actions == [] then s else RunSerial(NextSerial(s, actions[0]), actions[1..])
  }

  ghost predicate Alone(s: State) { forall k, l :: k in s.pcs && l in s.pcs ==> k == l }

  lemma NextSerialAlone(s: State, a: Action)
    requires Alone(s)
    ensures Alone(NextSerial(s, a))
  {
    hide Call, Surroundings, Start;
  }

  /** A pass that runs alone never has to wait. */
  lemma {:induction false} RunSerialCovers(s: State, actions: seq<Action>)
    requires CoverInv(s) && Alone(s)
    ensures CoverInv(RunSerial(s, actions))
    decreases |actions|
  {
    hide CoverInv, Next;
    if actions != [] {
      NextSerialAlone(s, actions[0]);
      NextCovers(s, actions[0]);
      hide NextSerial, Alone;
      RunSerialCovers(NextSerial(s, actions[0]), actions[1..]);
    }
  }

  /** With one pass at a time: likewise. */
  lemma AlwaysCovered(settings: Settings, actions: seq<Action>, p: string)
    ensures var w := RunSerial(Initial(settings), actions).w;
            && (p in w.files ==> CarriedByAll(w, w.files[p].ip))
            && (p in w.live ==> CarriedByAll(w, w.live[p].ip))
  {
    InitialCovered(settings);
    RunSerialCovers(Initial(settings), actions);
    hide RunSerial, Initial, Inv, Carries, OneInside, SectionsOk;
  }
}
