/**
 Passes that must do nothing: over services that are gone, that are not of type LoadBalancer, or
 that are being deleted without the operator's finalizer on them.
 */
module Idle {
  import opened Text
  import opened Faults
  import opened Names
  import opened Protocol
  import opened Safety
  import opened Reachable
  import opened Recovery
  import Vips

  predicate NothingToDo(w: World, k: Key) {
    k !in w.services || !w.services[k].isLoadBalancer
    || (w.services[k].deleting && Operator !in w.services[k].finalizers)
  }

  /** Under every schedule such a pass changes nothing, and fails only if the Service cannot be read. */
  lemma IdlePass(w: World, k: Key, sch: Schedule)
    requires NothingToDo(w, k)
    ensures Pass(w, k, sch) == (w, !sch(GetService).Fine?)
  {
    hide Drive;
    DriveDone(w, k, true, sch);
    DriveDone(w, k, false, sch);
  }

  /** And every other pass makes a call after reading the Service, if it can read it. */
  lemma IdleExactly(w: World, k: Key, f: Fault)
    ensures Start(w, k, f).Done? <==> !f.Fine? || NothingToDo(w, k)
    ensures Start(w, k, f).Done? ==> Start(w, k, f).failed == !f.Fine?
  {
  }

  // ---------- Services that never are LoadBalancers ----------

  ghost predicate NeverLoadBalancer(actions: seq<Action>, k: Key) {
    forall i :: 0 <= i < |actions| && (actions[i].Create? || actions[i].Edit?) && actions[i].k == k
      ==> !actions[i].isLoadBalancer
  }

  /** The operator has left no trace of the service. */
  ghost predicate Untraced(s: State, k: Key) {
    && (k in s.w.services ==> !s.w.services[k].isLoadBalancer && Operator !in s.w.services[k].finalizers
                              && s.w.services[k].statusIP.None?)
    && !OwnsSome(s.w.allocs, k) && NoFile(s.w.files, k) && NoFile(s.w.live, k) && k !in s.pcs
  }

  lemma StepUntraced(s: State, l: Key, f: Fault, pick: string, k: Key)
    requires Inv(s) && Untraced(s, k)
    ensures Untraced(Next(s, Step(l, f, pick)), k)
  {
    if l in s.pcs {
      CallKeeps(s.w, l, s.pcs[l], f, pick);
      FramedFacts(s.w, Call(s.w, l, s.pcs[l], f, pick).0, l, k);
    }
    hide WorldInv, PcOk, Frame, Call, OwnsSome, NoFile;
  }

  lemma SurroundingsUntraced(s: State, a: Action, k: Key)
    requires Untraced(s, k) && !a.Step?
    requires (a.Create? || a.Edit?) && a.k == k ==> !a.isLoadBalancer
    ensures Untraced(Next(s, a), k)
  {
    hide OwnsSome, NoFile;
  }

  lemma FirstNever(actions: seq<Action>, k: Key)
    requires actions != [] && NeverLoadBalancer(actions, k)
    ensures (actions[0].Create? || actions[0].Edit?) && actions[0].k == k ==> !actions[0].isLoadBalancer
  {
  }

  lemma {:induction false} RunUntraced(s: State, actions: seq<Action>, k: Key)
    requires Inv(s) && Untraced(s, k) && NeverLoadBalancer(actions, k)
    ensures Untraced(Run(s, actions), k)
    decreases |actions|
  {
    if actions != [] {
      var a, rest := actions[0], actions[1..];
      assert NeverLoadBalancer(rest, k) by { assert forall i :: 0 <= i < |rest| ==> rest[i] == actions[i + 1]; }
      NextKeeps(s, a);
      hide Inv, Next, Untraced, NeverLoadBalancer;
      if a.Step? { StepUntraced(s, a.k, a.f, a.pick, k); } else { FirstNever(actions, k); SurroundingsUntraced(s, a, k); }
      RunUntraced(Next(s, a), rest, k);
    }
  }

  /** Over every run, with whatever other services, failures and crashes: a service that users never
      make a LoadBalancer never gets the finalizer, an address, a file or a published address. */
  lemma OthersLeftAlone(settings: Vips.Settings, actions: seq<Action>, k: Key, p: string)
    requires NeverLoadBalancer(actions, k)
    ensures var w := Run(Initial(settings), actions).w;
            && (k in w.services ==> Operator !in w.services[k].finalizers && w.services[k].statusIP.None?)
            && !OwnsSome(w.allocs, k)
            && (p in w.files ==> w.files[p].svc != k) && (p in w.live ==> w.live[p].svc != k)
  {
    InitialInv(settings);
    assert Untraced(Initial(settings), k);
    RunUntraced(Initial(settings), actions, k);
    hide Run, Initial, OwnsSome, NeverLoadBalancer;
  }
}
