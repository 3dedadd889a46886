/** The locks of the lock protocol are the held sections of the service's protocol. */
module LockSections {
  import opened Base
  import Locks
  import Protocol

  /** The senders whose section is held are those whose lock has an owner. */
  ghost predicate Agree(s: Locks.State, p: Protocol.System) {
    forall k :: k in p.sections <==> Locks.SenderLock(k) in s.owner
  }

  /** Some acts of the service's protocol, one after the other. */
  ghost predicate Steps(cfg: Protocol.Config, p: Protocol.System, acts: seq<Protocol.Act>, p': Protocol.System)
    decreases |acts|
  {
    if acts == [] then p' == p
    else Protocol.Enabled(cfg, p, acts[0]) && Steps(cfg, Protocol.Next(cfg, p, acts[0]), acts[1..], p')
  }

  lemma {:induction false} StepsTrans(cfg: Protocol.Config, p: Protocol.System, a: seq<Protocol.Act>,
      q: Protocol.System, b: seq<Protocol.Act>, r: Protocol.System)
    requires Steps(cfg, p, a, q) && Steps(cfg, q, b, r)
    ensures Steps(cfg, p, a + b, r)
    decreases |a|
  {
    if a == [] {
      assert a + b == b;
    } else {
      assert (a + b)[1..] == a[1..] + b;
      StepsTrans(cfg, Protocol.Next(cfg, p, a[0]), a[1..], q, b, r);
    }
  }

  /** Nothing but taking and leaving sections. */
  ghost predicate OnlyLocks(acts: seq<Protocol.Act>) {
    forall i :: 0 <= i < |acts| ==> acts[i].Acquire? || acts[i].AcquireForMaintenance? || acts[i].Leave?
  }

  lemma {:induction false} LeaveAll(cfg: Protocol.Config, p: Protocol.System, keys: set<Key>)
      returns (acts: seq<Protocol.Act>, p': Protocol.System)
    requires forall k :: k in keys ==> k in p.sections
    ensures Steps(cfg, p, acts, p') && OnlyLocks(acts)
    ensures p'.db == p.db && p'.sections == p.sections - keys
    decreases keys
  {
    if keys == {} {
      acts, p' := [], p;
    } else {
      var k :| k in keys;
      var left := Protocol.Next(cfg, p, Protocol.Leave(k));
      var rest;
      rest, p' := LeaveAll(cfg, left, keys - {k});
      acts := [Protocol.Leave(k)] + rest;
      assert acts[1..] == rest;
    }
  }

  /** The senders an act of the lock protocol gives back. */
  ghost function GivenBack(s: Locks.State, a: Locks.Act): set<Key>
    requires Locks.Enabled(s, a)
  {
    set l | l in s.owner && l.SenderLock? && l !in Locks.Next(s, a).owner :: l.k
  }

  /** Every step of the lock protocol is a step of the service's protocol that takes or leaves sections: a lock is
      granted exactly when nobody is in the sender's section, and the section is left when it is given back. */
  lemma LockStep(cfg: Protocol.Config, s: Locks.State, a: Locks.Act, p: Protocol.System)
      returns (acts: seq<Protocol.Act>, p': Protocol.System)
    requires Locks.Inv(s) && Locks.Enabled(s, a) && Agree(s, p)
    ensures Steps(cfg, p, acts, p') && OnlyLocks(acts) && p'.db == p.db
    ensures Agree(Locks.Next(s, a), p')
  {
    if a.Grant? && Locks.Wanted(s.tasks[a.t]).value.SenderLock? {
      var k := Locks.Wanted(s.tasks[a.t]).value.k;
      var act := if s.tasks[a.t].Maintaining? then Protocol.AcquireForMaintenance(k) else Protocol.Acquire(k);
      acts, p' := [act], Protocol.Next(cfg, p, act);
    } else {
      acts, p' := LeaveAll(cfg, p, GivenBack(s, a));
      GivesBackOnly(s, a);
    }
  }

  lemma GivesBackOnly(s: Locks.State, a: Locks.Act)
    requires Locks.Inv(s) && Locks.Enabled(s, a)
    requires a.Grant? ==> Locks.Wanted(s.tasks[a.t]).value.CommandLock?
    ensures forall k :: Locks.SenderLock(k) in Locks.Next(s, a).owner <==>
                        Locks.SenderLock(k) in s.owner && k !in GivenBack(s, a)
  {}

  /** So every run of the lock protocol is one of the service's protocol, with the same senders locked. */
  lemma {:induction false} LocksRunInProtocol(cfg: Protocol.Config, states: seq<Locks.State>, acts: seq<Locks.Act>,
      n: nat)
      returns (steps: seq<Protocol.Act>, p: Protocol.System)
    requires Locks.Run(states, acts) && n < |states|
    ensures Steps(cfg, Protocol.INITIAL, steps, p) && OnlyLocks(steps) && Agree(states[n], p)
    decreases n
  {
    if n == 0 {
      steps, p := [], Protocol.INITIAL;
    } else {
      var before, q := LocksRunInProtocol(cfg, states, acts, n - 1);
      Locks.ReachableInv(states, acts, n - 1);
      var more;
      more, p := LockStep(cfg, states[n - 1], acts[n - 1], q);
      StepsTrans(cfg, Protocol.INITIAL, before, q, more, p);
      steps := before + more;
    }
  }

  /** Two tasks are never inside the same sender's section, and whoever acts in it owns its lock. */
  lemma SectionHasOneOwner(states: seq<Locks.State>, acts: seq<Locks.Act>, n: nat, p: Protocol.System, k: Key)
      returns (t: Locks.TaskId)
    requires Locks.Run(states, acts) && n < |states| && Agree(states[n], p) && k in p.sections
    ensures t in states[n].tasks && Locks.Holds(states[n].tasks[t], Locks.SenderLock(k))
    ensures forall u :: u in states[n].tasks && Locks.Holds(states[n].tasks[u], Locks.SenderLock(k)) ==> u == t
  {
    Locks.ReachableInv(states, acts, n);
    t := states[n].owner[Locks.SenderLock(k)];
  }
}
