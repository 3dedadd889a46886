/** The lock protocol: who may wait for which lock while holding which, and why nobody waits forever. */
module Locks {
  import opened Base

  // The operator's command lock comes before every sender lock; sender locks are ordered by key.
  datatype Lock = CommandLock | SenderLock(k: Key)

  ghost predicate Before(a: Lock, b: Lock) {
    match b
    case CommandLock => false
    case SenderLock(k) => a.CommandLock? || a.k < k
  }

  /** What a task is doing with locks. A plain task (message, timer, deletion job, dashboard request, bulk
      forget) holds at most one sender lock at a time. An operator command holds the command lock and may take
      one sender lock inside it. Maintenance takes the locks of a key list, first to last, and keeps them. */
  datatype Task =
    | Plain(holds: Option<Key>, waits: Option<Key>)
    | Operator(commanding: bool, waitsForCommand: bool, holds: Option<Key>, waits: Option<Key>)
    | Maintaining(keys: seq<Key>, taken: nat, waiting: bool)

  type TaskId = nat

  // asyncio locks: each is free or has one owner.
  datatype State = State(tasks: map<TaskId, Task>, owner: map<Lock, TaskId>)

  const IDLE: State := State(map[], map[])

  function Wanted(task: Task): Option<Lock> {
    match task
    case Plain(_, waits) => if waits.Some? then Some(SenderLock(waits.value)) else None
    case Operator(_, forCommand, _, waits) =>
      if forCommand then Some(CommandLock) else if waits.Some? then Some(SenderLock(waits.value)) else None
    case Maintaining(keys, taken, waiting) =>
      if waiting && taken < |keys| then Some(SenderLock(keys[taken])) else None
  }

  ghost predicate Holds(task: Task, l: Lock) {
    match task
    case Plain(holds, _) => l.SenderLock? && holds == Some(l.k)
    case Operator(commanding, _, holds, _) => if l.CommandLock? then commanding else holds == Some(l.k)
    case Maintaining(keys, taken, _) => l.SenderLock? && taken <= |keys| && l.k in keys[..taken]
  }

  ghost predicate HoldsSome(task: Task) {
    exists l :: Holds(task, l)
  }

  /** `sorted` of a set: strictly ascending. */
  ghost predicate Ascending(keys: seq<Key>) {
    forall i, j :: 0 <= i < j < |keys| ==> keys[i] < keys[j]
  }

  ghost predicate TaskOk(task: Task) {
    match task
    case Plain(holds, waits) => holds.None? || waits.None?
    case Operator(commanding, forCommand, holds, waits) =>
      (forCommand ==> !commanding && holds.None? && waits.None?) &&
      (holds.Some? || waits.Some? ==> commanding) && (holds.None? || waits.None?)
    case Maintaining(keys, taken, _) => Ascending(keys) && taken <= |keys|
  }

  datatype Act =
    | Start(t: TaskId, task: Task)          // a new task with no lock and no request
    | Ask(t: TaskId, k: Key)                // a sender lock, where the program may ask for one
    | AskCommand(t: TaskId)
    | AskNext(t: TaskId)                    // maintenance: the next key of its list
    | Grant(t: TaskId)                      // the wanted lock is free
    | Release(t: TaskId)                    // the sender lock, or all of maintenance's
    | ReleaseCommand(t: TaskId)
    | Stop(t: TaskId)                       // a task that holds nothing ends
    | Cancel(t: TaskId)                     // a task is cancelled anywhere, also while it waits

  ghost predicate Enabled(s: State, a: Act) {
    match a
    case Start(t, task) =>
      t !in s.tasks && TaskOk(task) && Wanted(task).None? && !HoldsSome(task) &&
      (task.Maintaining? ==> !task.waiting)
    case Ask(t, k) =>
      t in s.tasks && Wanted(s.tasks[t]).None? &&
      (match s.tasks[t]
       case Plain(holds, _) => holds.None?
       case Operator(commanding, _, holds, _) => commanding && holds.None?
       case Maintaining(_, _, _) => false)
    case AskCommand(t) => t in s.tasks && s.tasks[t] == Operator(false, false, None, None)
    case AskNext(t) => t in s.tasks && s.tasks[t].Maintaining? && s.tasks[t].taken < |s.tasks[t].keys|
    case Grant(t) => t in s.tasks && Wanted(s.tasks[t]).Some? && Wanted(s.tasks[t]).value !in s.owner
    case Release(t) => t in s.tasks && Wanted(s.tasks[t]).None?
    case ReleaseCommand(t) =>
      t in s.tasks && s.tasks[t].Operator? && s.tasks[t].commanding && s.tasks[t].holds.None? && s.tasks[t].waits.None?
    case Stop(t) => t in s.tasks && Wanted(s.tasks[t]).None? && !HoldsSome(s.tasks[t])
    case Cancel(t) => t in s.tasks
  }

  function Granted(task: Task): Task
    requires Wanted(task).Some?
  {
    match task
    case Plain(_, waits) => Plain(waits, None)
    case Operator(commanding, forCommand, holds, waits) =>
      if forCommand then Operator(true, false, holds, waits) else Operator(commanding, false, waits, None)
    case Maintaining(keys, taken, _) => Maintaining(keys, taken + 1, false)
  }

  function Released(task: Task): Task {
    match task
    case Plain(_, waits) => Plain(None, waits)
    case Operator(commanding, forCommand, _, waits) => Operator(commanding, forCommand, None, waits)
    case Maintaining(keys, _, _) => Maintaining(keys, 0, false)
  }

  /** Leaving its blocks, a cancelled task gives back whatever it holds. */
  ghost function LocksOf(owner: map<Lock, TaskId>, t: TaskId): set<Lock> {
    set l | l in owner && owner[l] == t
  }

  ghost function SenderLocksOf(owner: map<Lock, TaskId>, t: TaskId): set<Lock> {
    set l | l in owner && owner[l] == t && l.SenderLock?
  }

  ghost function Next(s: State, a: Act): State
    requires Enabled(s, a)
  {
    match a
    case Start(t, task) => s.(tasks := s.tasks[t := task])
    case Ask(t, k) => s.(tasks := s.tasks[t := s.tasks[t].(waits := Some(k))])
    case AskCommand(t) => s.(tasks := s.tasks[t := s.tasks[t].(waitsForCommand := true)])
    case AskNext(t) => s.(tasks := s.tasks[t := s.tasks[t].(waiting := true)])
    case Grant(t) =>
      State(s.tasks[t := Granted(s.tasks[t])], s.owner[Wanted(s.tasks[t]).value := t])
    case Release(t) => State(s.tasks[t := Released(s.tasks[t])], s.owner - SenderLocksOf(s.owner, t))
    case ReleaseCommand(t) => State(s.tasks[t := s.tasks[t].(commanding := false)], s.owner - {CommandLock})
    case Stop(t) => s.(tasks := s.tasks - {t})
    case Cancel(t) => State(s.tasks - {t}, s.owner - LocksOf(s.owner, t))
  }

  ghost predicate Run(states: seq<State>, acts: seq<Act>) {
    |states| == |acts| + 1 && states[0] == IDLE &&
    forall i :: 0 <= i < |acts| ==> Enabled(states[i], acts[i]) && states[i + 1] == Next(states[i], acts[i])
  }

  /** Every lock has exactly the owner that says it holds it, and tasks follow their programs. */
  ghost predicate Inv(s: State) {
    (forall t :: t in s.tasks ==> TaskOk(s.tasks[t])) &&
    (forall l :: l in s.owner ==> s.owner[l] in s.tasks && Holds(s.tasks[s.owner[l]], l)) &&
    (forall t, l :: t in s.tasks && Holds(s.tasks[t], l) ==> l in s.owner && s.owner[l] == t)
  }

  lemma GrantKept(s: State, t: TaskId)
    requires Inv(s) && Enabled(s, Grant(t))
    ensures Inv(Next(s, Grant(t)))
  {
    var task, l := s.tasks[t], Wanted(s.tasks[t]).value;
    if task.Maintaining? {
      assert task.keys[..task.taken + 1] == task.keys[..task.taken] + [task.keys[task.taken]];
    }
    assert forall m :: Holds(Granted(task), m) <==> Holds(task, m) || m == l;
  }

  lemma ReleaseKept(s: State, t: TaskId)
    requires Inv(s) && Enabled(s, Release(t))
    ensures Inv(Next(s, Release(t)))
  {
    var task := s.tasks[t];
    assert forall m :: Holds(Released(task), m) <==> Holds(task, m) && m.CommandLock?;
  }

  lemma StepKept(s: State, a: Act)
    requires Inv(s) && Enabled(s, a)
    ensures Inv(Next(s, a))
  {
    match a {
      case Grant(t) => GrantKept(s, t);
      case Release(t) => ReleaseKept(s, t);
      case Start(t, task) => SameHoldingsKept(s, t, task);
      case Ask(t, k) => SameHoldingsKept(s, t, s.tasks[t].(waits := Some(k)));
      case AskCommand(t) => SameHoldingsKept(s, t, s.tasks[t].(waitsForCommand := true));
      case AskNext(t) => SameHoldingsKept(s, t, s.tasks[t].(waiting := true));
      case ReleaseCommand(t) => ReleaseCommandKept(s, t);
      case Stop(t) => StopKept(s, t);
      case Cancel(t) => CancelKept(s, t);
    }
  }

  lemma SameHoldingsKept(s: State, t: TaskId, task: Task)
    requires Inv(s) && TaskOk(task)
    requires forall l :: Holds(task, l) <==> t in s.tasks && Holds(s.tasks[t], l)
    ensures Inv(s.(tasks := s.tasks[t := task]))
  {}

  lemma ReleaseCommandKept(s: State, t: TaskId)
    requires Inv(s) && Enabled(s, ReleaseCommand(t))
    ensures Inv(Next(s, ReleaseCommand(t)))
  {
    var task := s.tasks[t];
    assert Holds(task, CommandLock);
    forall m ensures Holds(task.(commanding := false), m) <==> Holds(task, m) && m != CommandLock {}
    OneLockLessKept(s, t, task.(commanding := false), CommandLock);
  }

  lemma OneLockLessKept(s: State, t: TaskId, task: Task, l: Lock)
    requires Inv(s) && TaskOk(task) && t in s.tasks && Holds(s.tasks[t], l)
    requires forall m :: Holds(task, m) <==> Holds(s.tasks[t], m) && m != l
    ensures Inv(State(s.tasks[t := task], s.owner - {l}))
  {
    var tasks, owner := s.tasks[t := task], s.owner - {l};
    assert s.owner[l] == t;
    forall m | m in owner ensures owner[m] in tasks && Holds(tasks[owner[m]], m) {
      assert m in s.owner && m != l && Holds(s.tasks[s.owner[m]], m);
    }
    forall u, m | u in tasks && Holds(tasks[u], m) ensures m in owner && owner[m] == u {
      assert Holds(s.tasks[u], m);
    }
  }

  lemma StopKept(s: State, t: TaskId)
    requires Inv(s) && Enabled(s, Stop(t))
    ensures Inv(Next(s, Stop(t)))
  {}

  lemma CancelKept(s: State, t: TaskId)
    requires Inv(s) && t in s.tasks
    ensures Inv(Next(s, Cancel(t)))
  {}

  lemma {:induction false} ReachableInv(states: seq<State>, acts: seq<Act>, n: nat)
    requires Run(states, acts) && n < |states|
    ensures Inv(states[n])
    decreases n
  {
    if n > 0 {
      ReachableInv(states, acts, n - 1);
      StepKept(states[n - 1], acts[n - 1]);
    }
  }

  // ---------------------------------------------------------------- no deadlock

  /** A task only ever waits for a lock after all those it holds. */
  lemma WaitsUpward(task: Task, held: Lock, wanted: Lock)
    requires TaskOk(task) && Holds(task, held) && Wanted(task) == Some(wanted)
    ensures Before(held, wanted)
  {
    if task.Maintaining? {
      var i :| 0 <= i < task.taken && task.keys[i] == held.k;
    }
  }

  ghost predicate Blocked(s: State, t: TaskId) {
    t in s.tasks && Wanted(s.tasks[t]).Some? && Wanted(s.tasks[t]).value in s.owner
  }

  /** Each task of the chain waits for a lock the next one owns. */
  ghost predicate WaitChain(s: State, chain: seq<TaskId>) {
    forall i :: 0 <= i < |chain| - 1 ==>
      Blocked(s, chain[i]) && s.owner[Wanted(s.tasks[chain[i]]).value] == chain[i + 1]
  }

  ghost function Later(s: State, l: Lock): set<Lock> {
    set m | m in s.owner && Before(l, m)
  }

  /** Whoever waits, waits in the end for a task that can run: it is not waiting at all, or the lock it
      wants is free. So there is no circular wait, although maintenance holds many locks at once. */
  lemma {:induction false} NobodyWaitsForever(s: State, t: TaskId) returns (chain: seq<TaskId>)
    requires Inv(s) && t in s.tasks
    ensures |chain| > 0 && chain[0] == t && WaitChain(s, chain)
    ensures var last := chain[|chain| - 1]; last in s.tasks && !Blocked(s, last)
    decreases if Blocked(s, t) then 1 + |Later(s, Wanted(s.tasks[t]).value)| else 0
  {
    if !Blocked(s, t) {
      chain := [t];
    } else {
      var wanted := Wanted(s.tasks[t]).value;
      var owner := s.owner[wanted];
      if Blocked(s, owner) {
        var further := Wanted(s.tasks[owner]).value;
        WaitsUpward(s.tasks[owner], wanted, further);
        assert Later(s, further) < Later(s, wanted) by {
          assert further in Later(s, wanted) && further !in Later(s, further);
        }
        SmallerSet(Later(s, further), Later(s, wanted));
      }
      var rest := NobodyWaitsForever(s, owner);
      chain := [t] + rest;
    }
  }

  lemma SmallerSet<T>(a: set<T>, b: set<T>)
    requires a < b
    ensures |a| < |b|
  {
    var x :| x in b && x !in a;
    assert a <= b - {x};
    SubsetIsSmaller(a, b - {x});
  }

  /** In every reachable state in which some task waits, some task can take a step: it is granted the free lock
      it wants, or it holds a lock and is running towards its release. */
  lemma DeadlockFree(states: seq<State>, acts: seq<Act>, n: nat, t: TaskId) returns (runner: TaskId)
    requires Run(states, acts) && n < |states| && t in states[n].tasks && Wanted(states[n].tasks[t]).Some?
    ensures Enabled(states[n], Grant(runner)) ||
            (Enabled(states[n], Release(runner)) && HoldsSome(states[n].tasks[runner]))
  {
    var s := states[n];
    ReachableInv(states, acts, n);
    var chain := NobodyWaitsForever(s, t);
    runner := chain[|chain| - 1];
    if Wanted(s.tasks[runner]).None? {
      var i := |chain| - 2;
      assert Blocked(s, chain[i]) && s.owner[Wanted(s.tasks[chain[i]]).value] == chain[i + 1];
      var l := Wanted(s.tasks[chain[i]]).value;
      assert Holds(s.tasks[runner], l) && HoldsSome(s.tasks[runner]);
      assert Enabled(s, Release(runner));
    } else {
      assert Enabled(s, Grant(runner));
    }
  }

  /** Two tasks are never in the critical section of the same sender. */
  lemma MutualExclusion(states: seq<State>, acts: seq<Act>, n: nat, t: TaskId, u: TaskId, k: Key)
    requires Run(states, acts) && n < |states| && t in states[n].tasks && u in states[n].tasks
    requires Holds(states[n].tasks[t], SenderLock(k)) && Holds(states[n].tasks[u], SenderLock(k))
    ensures t == u
  {
    ReachableInv(states, acts, n);
    var s := states[n];
    assert Inv(s) && Holds(s.tasks[t], SenderLock(k)) && Holds(s.tasks[u], SenderLock(k));
    assert s.owner[SenderLock(k)] == t && s.owner[SenderLock(k)] == u;
  }

  // ---------------------------------------------------------------- one lock object per sender

  /** The weak dictionary of sender locks: an entry disappears once nobody refers to its lock. */
  class SenderLockPool {
    var locks: map<Key, nat>
    var created: nat
    // The lock objects some task still refers to, with the sender each was asked for.
    ghost var referenced: map<nat, Key>

    ghost predicate Valid()
      reads this
    {
      (forall k :: k in locks ==> locks[k] < created) &&
      (forall k, k' :: k in locks && k' in locks && locks[k] == locks[k'] ==> k == k') &&
      (forall o :: o in referenced ==> o < created && referenced[o] in locks && locks[referenced[o]] == o)
    }

    constructor ()
      ensures Valid() && referenced == map[]
    {
      locks, created, referenced := map[], 0, map[];
    }

    /** Whoever else refers to a lock of this sender refers to the same object. */
    method Lock(k: Key) returns (o: nat)
      requires Valid()
      modifies this
      ensures Valid() && referenced == old(referenced)[o := k]
      ensures forall o' :: o' in old(referenced) && old(referenced)[o'] == k ==> o' == o
      ensures o in old(referenced) ==> old(referenced)[o] == k
    {
      if k in locks {
        o := locks[k];
      } else {
        o := created;
        created := created + 1;
        locks := locks[k := o];
      }
      referenced := referenced[o := k];
    }

    /** The last reference to a lock goes away, and with it the entry. */
    method Collect(ghost k: Key, o: nat)
      requires Valid() && o in referenced && referenced[o] == k
      modifies this
      ensures Valid() && referenced == old(referenced) - {o}
      ensures forall k' :: k' in old(locks) && old(locks)[k'] != o ==> k' in locks && locks[k'] == old(locks)[k']
    {
      locks := map k' | k' in locks && locks[k'] != o :: locks[k'];
      referenced := referenced - {o};
    }
  }
}
