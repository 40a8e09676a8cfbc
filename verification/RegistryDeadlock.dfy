/**
 * What a request to the registry waits for, when it is answered, and exactly when it never is.
 */
module RegistryDeadlock {
  import opened Base
  import opened Registry

  lemma {:induction false} RunConcat(w: World, xs: seq<Label>, ys: seq<Label>)
    requires Inv(w) && IsRun(w, xs) && IsRun(After(w, xs), ys)
    ensures IsRun(w, xs + ys) && After(w, xs + ys) == After(After(w, xs), ys)
    decreases |xs|
  {
    hide Inv, Step, Enabled;
    if xs == [] {
      assert xs + ys == ys;
    } else {
      InvStep(w, xs[0]);
      RunConcat(Step(w, xs[0]), xs[1..], ys);
      assert (xs + ys)[1..] == xs[1..] + ys;
    }
  }

  /** A run of one label, and then `rest`. */
  lemma RunCons(w: World, l: Label, rest: seq<Label>)
    requires Inv(w) && Enabled(w, l) && IsRun(Step(w, l), rest)
    ensures IsRun(w, [l] + rest) && After(w, [l] + rest) == After(Step(w, l), rest)
  {
    hide Inv, Step, Enabled;
    assert ([l] + rest)[1..] == rest;
  }

  // ----- the lock -----

  /** Nothing is awaited under the lock: its holder alone gives it back, in at most two steps. */
  lemma LockReleased(w: World, t: nat) returns (ls: seq<Label>)
    requires Inv(w) && w.lock == Some(t)
    ensures ls == [Look(t)] || ls == [Look(t), Unlock(t)] || ls == [Unlock(t)]
    ensures IsRun(w, ls) && After(w, ls).lock.None?
  {
    if w.tasks[t].pc.Spawned? {
      ls := [Unlock(t)];
      assert ls[1..] == [];
    } else {
      var v := Step(w, Look(t));
      InvStep(w, Look(t));
      if v.lock.None? {
        ls := [Look(t)];
        assert ls[1..] == [];
      } else {
        var u := Step(v, Unlock(t));
        ls := [Look(t), Unlock(t)];
        assert ls[1..] == [Unlock(t)] && [Unlock(t)][1..] == [];
        assert After(v, [Unlock(t)]) == u;
      }
    }
  }

  /** The loop of an instance only ever waits for an instance newer than its own. */
  lemma WaitsForNewer(w: World, t: nat)
    requires Inv(w) && t < |w.tasks| && Probes(w.tasks[t].pc) && w.tasks[t].home.Some?
    ensures w.tasks[t].home.value < w.tasks[t].pc.instance < |w.instances|
  {
    assert GoodTask(w.cfg, w.instances, w.tasks, t);
  }

  // ----- what a request waits for -----

  /** Task `t` probes an instance that runs but is busy, and `u` is the task of that instance's loop. */
  predicate Behind(w: World, t: nat, u: nat) {
    && t < |w.tasks| && Probes(w.tasks[t].pc) && w.tasks[t].pc.instance < |w.instances|
    && w.instances[w.tasks[t].pc.instance].running && !Serves(w, w.tasks[t].pc.instance)
    && u == w.instances[w.tasks[t].pc.instance].task
  }

  /** Each task of the path is behind the next one. */
  ghost predicate Chain(w: World, path: seq<nat>) {
    && path != [] && (forall i :: 0 <= i < |path| ==> path[i] < |w.tasks|)
    && forall i :: 0 <= i < |path| - 1 ==> Behind(w, path[i], path[i + 1])
  }

  /** A chain of tasks that all wait for their answer, except perhaps the last. */
  ghost predicate WaitChain(w: World, path: seq<nat>) {
    Chain(w, path) && forall i :: 0 <= i < |path| - 1 ==> w.tasks[path[i]].pc.Waiting?
  }

  predicate ProbesDead(w: World, t: nat) {
    && t < |w.tasks| && Probes(w.tasks[t].pc) && w.tasks[t].pc.instance < |w.instances|
    && !w.instances[w.tasks[t].pc.instance].running
  }

  /** The task waits for an answer from an instance that has stopped, and such a ping is never cancelled. */
  predicate Orphaned(w: World, t: nat) {
    ProbesDead(w, t) && w.tasks[t].pc.Waiting? && !w.cfg.cancels
  }

  /** Step `l` is one of task `u` itself, or of the holder of the lock it wants. */
  predicate Moves(w: World, u: nat, l: Label)
    requires u < |w.tasks|
  {
    && Progress(l) && Enabled(w, l)
    && if l.Boot? then w.tasks[u].home == Some(l.instance)
       else l.task == u || (w.tasks[u].pc.Wanting? && w.lock == Some(l.task))
  }

  ghost predicate CanMove(w: World, u: nat)
    requires u < |w.tasks|
  {
    exists l :: Moves(w, u, l)
  }

  lemma BehindFacts(w: World, t: nat, u: nat)
    requires Inv(w) && Behind(w, t, u)
    ensures u < |w.tasks| && w.tasks[u].home == Some(w.tasks[t].pc.instance) && !w.tasks[u].pc.Failed?
    ensures Probes(w.tasks[u].pc) ==> w.tasks[t].pc.instance < w.tasks[u].pc.instance < |w.instances|
  {
    assert GoodInstance(w.cfg, w.instances, w.tasks, w.tasks[t].pc.instance);
    if Probes(w.tasks[u].pc) {
      WaitsForNewer(w, u);
    }
  }

  lemma ChainCons(w: World, t: nat, path: seq<nat>)
    requires Inv(w) && Chain(w, path) && Behind(w, t, path[0])
    ensures Chain(w, [t] + path)
    ensures w.tasks[t].pc.Waiting? && WaitChain(w, path) ==> WaitChain(w, [t] + path)
  {
    var longer := [t] + path;
    forall i | 0 <= i < |longer| - 1
      ensures Behind(w, longer[i], longer[i + 1])
      ensures w.tasks[t].pc.Waiting? && WaitChain(w, path) ==> w.tasks[longer[i]].pc.Waiting?
    {
      if i > 0 {
        assert longer[i] == path[i - 1] && longer[i + 1] == path[i];
      }
    }
  }

  /**
   * Follow a pending request to what it waits for, which is always newer.  The chain ends at a task that can
   * go on, or at a ping that its stopped receiver left queued.
   */
  lemma {:induction false} NotStuck(w: World, t: nat) returns (path: seq<nat>, l: Label)
    requires Inv(w) && t < |w.tasks| && Pending(w.tasks[t].pc)
    ensures WaitChain(w, path) && path[0] == t
    ensures Moves(w, path[|path| - 1], l) || Orphaned(w, path[|path| - 1])
    decreases if Probes(w.tasks[t].pc) then |w.instances| - w.tasks[t].pc.instance else 0
  {
    assert GoodTask(w.cfg, w.instances, w.tasks, t);
    path := [t];
    match w.tasks[t].pc {
      case Wanting =>
        if w.lock.None? {
          l := Lock(t);
        } else {
          l := if w.tasks[w.lock.value].pc.Holding? then Look(w.lock.value) else Unlock(w.lock.value);
        }
      case Holding => l := Look(t);
      case Spawned(k) => l := Unlock(t);
      case Pinging(k) => l := Send(t);
      case Waiting(k) =>
        var u := w.instances[k].task;
        if !w.instances[k].running {
          l := Cancel(t);
        } else if Serves(w, k) {
          l := Pong(t);
        } else {
          BehindFacts(w, t, u);
          var rest;
          if w.tasks[u].pc.Idle? {
            rest := [u];
            l := if w.tasks[u].todo == [] then Boot(k) else Ask(u);
          } else {
            rest, l := NotStuck(w, u);
          }
          ChainCons(w, t, rest);
          path := [t] + rest;
        }
    }
  }

  /** No step of the tasks is possible. */
  ghost predicate Quiet(w: World) {
    forall l :: Progress(l) ==> !Enabled(w, l)
  }

  /**
   * No deadlock, however services request each other: for every pending request the task at the end of its
   * wait chain can go on, unless that task is an orphan.  If nothing can go on at all, every pending
   * request ends in an orphan.
   */
  lemma DeadlockFree(w: World, t: nat)
    requires Inv(w) && t < |w.tasks| && Pending(w.tasks[t].pc)
    ensures exists path :: WaitChain(w, path) && path[0] == t
              && (Orphaned(w, path[|path| - 1]) || CanMove(w, path[|path| - 1]))
    ensures Quiet(w) ==> exists path :: WaitChain(w, path) && path[0] == t && Orphaned(w, path[|path| - 1])
    ensures Quiet(w) ==> !w.cfg.cancels
  {
    var path, l := NotStuck(w, t);
    if !Orphaned(w, path[|path| - 1]) {
      assert Moves(w, path[|path| - 1], l);
    }
  }

  // ----- every request is settled in a bounded number of steps -----

  function TaskCost(task: Task): nat {
    match task.pc
    case Failed => 0
    case Idle => 6 * |task.todo|
    case Wanting => if task.todo == [] then 0 else 6 * |task.todo| - 1
    case Holding => if task.todo == [] then 0 else 6 * |task.todo| - 2
    case Spawned(_) => if task.todo == [] then 0 else 6 * |task.todo| - 3
    case Pinging(_) => if task.todo == [] then 0 else 6 * |task.todo| - 4
    case Waiting(_) => if task.todo == [] then 0 else 6 * |task.todo| - 5
  }

  function TaskCosts(tasks: seq<Task>): seq<nat> {
    seq(|tasks|, t requires 0 <= t < |tasks| => TaskCost(tasks[t]))
  }

  function BootCosts(instances: seq<Instance>): seq<nat> {
    seq(|instances|, k requires 0 <= k < |instances| => if instances[k].booted then 0 else 1)
  }

  /** What a service will cost once somebody asks for it, unless its entry is one of the instances from `n` on. */
  function SpawnCosts(cfg: Config, entries: map<nat, nat>, n: nat): seq<nat> {
    seq(|cfg.programs|, typ requires 0 <= typ < |cfg.programs| =>
      if typ in entries && entries[typ] >= n then 0 else 6 * |cfg.programs[typ]| + 1)
  }

  function Remaining(w: World, n: nat): nat {
    Sum(TaskCosts(w.tasks)) + Sum(BootCosts(w.instances)) + Sum(SpawnCosts(w.cfg, w.entries, n))
  }

  /** The instances from `n` on all run. */
  predicate NewRun(instances: seq<Instance>, n: nat) {
    forall k :: n <= k < |instances| ==> instances[k].running
  }

  lemma TaskCostMoves(tasks: seq<Task>, t: nat, task: Task)
    requires t < |tasks|
    ensures Sum(TaskCosts(tasks[t := task])) == Sum(TaskCosts(tasks)) - TaskCost(tasks[t]) + TaskCost(task)
    ensures Sum(TaskCosts(tasks)) >= TaskCost(tasks[t])
  {
    assert TaskCosts(tasks[t := task]) == TaskCosts(tasks)[t := TaskCost(task)];
    SumUpdate(TaskCosts(tasks), t, TaskCost(task));
  }

  lemma SpawnCost(w: World, t: nat, n: nat)
    requires t < |w.tasks| && w.tasks[t].pc.Holding? && w.tasks[t].todo != [] && n <= |w.instances|
    requires NewRun(w.instances, n) && GoodEntries(w.instances, w.entries, w.listed)
    requires w.tasks[t].todo[0] < |w.cfg.programs| && Found(w.instances, w.entries, w.tasks[t].todo[0]).None?
    ensures var v := DoLook(w, t); NewRun(v.instances, n) && Remaining(v, n) < Remaining(w, n)
  {
    var typ, k := w.tasks[t].todo[0], |w.instances|;
    var v := DoLook(w, t);
    var hook := Task(Some(k), w.cfg.programs[typ], w.cfg.programs[typ], Idle, []);
    hide NewRun, GoodEntries, Found, TaskCosts, BootCosts, SpawnCosts;
    SpawnedTask(w.tasks, t, w.tasks[t].(pc := Spawned(k)), hook);
    SpawnedInstance(w.instances, v.instances[k], n);
    SpawnedEntry(w.cfg, w.instances, w.entries, w.listed, typ, k, n);
  }

  lemma SpawnedTask(tasks: seq<Task>, t: nat, task: Task, hook: Task)
    requires t < |tasks|
    ensures Sum(TaskCosts(tasks[t := task] + [hook]))
            == Sum(TaskCosts(tasks)) - TaskCost(tasks[t]) + TaskCost(task) + TaskCost(hook)
  {
    var moved := tasks[t := task];
    TaskCostMoves(tasks, t, task);
    assert TaskCosts(moved + [hook]) == TaskCosts(moved) + [TaskCost(hook)];
    SumAppend(TaskCosts(moved), TaskCost(hook));
  }

  lemma SpawnedInstance(instances: seq<Instance>, i: Instance, n: nat)
    requires NewRun(instances, n) && i.running && !i.booted
    ensures NewRun(instances + [i], n) && Sum(BootCosts(instances + [i])) == Sum(BootCosts(instances)) + 1
  {
    assert BootCosts(instances + [i]) == BootCosts(instances) + [1];
    SumAppend(BootCosts(instances), 1);
  }

  /** The spawned type had no entry from `n` on, since those run and would have been found. */
  lemma SpawnedEntry(
    cfg: Config, instances: seq<Instance>, entries: map<nat, nat>, listed: set<nat>, typ: nat, k: nat, n: nat)
    requires NewRun(instances, n) && GoodEntries(instances, entries, listed) && n <= k
    requires typ < |cfg.programs| && Found(instances, entries, typ).None?
    ensures Sum(SpawnCosts(cfg, entries[typ := k], n)) == Sum(SpawnCosts(cfg, entries, n)) - 6 * |cfg.programs[typ]| - 1
  {
    var before := SpawnCosts(cfg, entries, n);
    assert SpawnCosts(cfg, entries[typ := k], n) == before[typ := 0];
    SumUpdate(before, typ, 0);
  }

  lemma BootDecreases(w: World, k: nat, n: nat)
    requires Inv(w) && NewRun(w.instances, n) && Enabled(w, Boot(k))
    ensures NewRun(Step(w, Boot(k)).instances, n) && Remaining(Step(w, Boot(k)), n) < Remaining(w, n)
  {
    hide Inv;
    var v := Step(w, Boot(k));
    assert BootCosts(v.instances) == BootCosts(w.instances)[k := 0];
    SumUpdate(BootCosts(w.instances), k, 0);
  }

  /** A loop whose probed instance is dead is itself older than `n`: the new ones only probe newer ones. */
  lemma FailsOld(w: World, t: nat, n: nat)
    requires Inv(w) && NewRun(w.instances, n) && ProbesDead(w, t)
    ensures NewRun(Fail(w, t).instances, n)
    ensures BootCosts(Fail(w, t).instances) == BootCosts(w.instances)
    ensures Fail(w, t).tasks == w.tasks[t := w.tasks[t].(pc := Failed)] && TaskCost(w.tasks[t]) > 0
  {
    PendingHook(w, t);
    if w.tasks[t].home.Some? {
      WaitsForNewer(w, t);
    }
  }

  /** A step that neither boots nor spawns nor fails. */
  lemma TaskDecreases(w: World, l: Label, n: nat)
    requires Inv(w) && NewRun(w.instances, n) && Enabled(w, l) && Progress(l) && !l.Boot?
    requires l.task < |w.tasks| && w.tasks[l.task].todo != []
    requires l.Look? ==> Found(w.instances, w.entries, w.tasks[l.task].todo[0]).Some?
    requires l.Send? || l.Cancel? ==> !ProbesDead(w, l.task)
    ensures NewRun(Step(w, l).instances, n) && Remaining(Step(w, l), n) < Remaining(w, n)
    ensures Step(w, l).instances == w.instances
  {
    var t := l.task;
    if !l.Ask? {
      PendingHook(w, t);
    }
    hide Inv, Found;
    TaskCostMoves(w.tasks, t, Step(w, l).tasks[t]);
    assert Step(w, l).tasks == w.tasks[t := Step(w, l).tasks[t]];
  }

  /** Every step of a task, even a failing one, brings all requests nearer to their end. */
  lemma ProgressDecreases(w: World, l: Label, n: nat)
    requires Inv(w) && NewRun(w.instances, n) && n <= |w.instances| && Enabled(w, l) && Progress(l)
    ensures NewRun(Step(w, l).instances, n) && Remaining(Step(w, l), n) < Remaining(w, n)
    ensures n <= |Step(w, l).instances|
  {
    if l.Boot? {
      hide Inv, Remaining, NewRun;
      BootDecreases(w, l.instance, n);
    } else {
      var t := l.task;
      if !l.Ask? {
        PendingHook(w, t);
      }
      assert GoodEntries(w.instances, w.entries, w.listed);
      hide Inv, Found, NewRun;
      if l.Look? && Found(w.instances, w.entries, w.tasks[t].todo[0]).None? {
        hide Remaining;
        SpawnCost(w, t, n);
      } else if ProbesDead(w, t) && (l.Send? || l.Cancel?) {
        FailsOld(w, t, n);
        TaskCostMoves(w.tasks, t, w.tasks[t].(pc := Failed));
      } else {
        hide Remaining;
        TaskDecreases(w, l, n);
      }
    }
  }

  predicate AllProgress(ls: seq<Label>) {
    forall i :: 0 <= i < |ls| ==> Progress(ls[i])
  }

  /** Requests cannot go on for ever: from any state the steps the tasks can take on their own are bounded in advance. */
  lemma RequestsTerminate(w: World, ls: seq<Label>)
    requires Inv(w) && IsRun(w, ls) && AllProgress(ls)
    ensures |ls| <= Remaining(w, |w.instances|)
  {
    StepsBounded(w, ls, |w.instances|);
  }

  lemma {:induction false} StepsBounded(w: World, ls: seq<Label>, n: nat)
    requires Inv(w) && NewRun(w.instances, n) && n <= |w.instances| && IsRun(w, ls) && AllProgress(ls)
    ensures Inv(After(w, ls)) && |ls| + Remaining(After(w, ls), n) <= Remaining(w, n)
    decreases |ls|
  {
    hide Inv, Step, Enabled, Remaining, NewRun;
    if ls != [] {
      InvStep(w, ls[0]);
      ProgressDecreases(w, ls[0], n);
      StepsBounded(Step(w, ls[0]), ls[1..], n);
    }
  }

  /**
   * Once the tasks can take no more steps, every task that did not fail has an instance of every type it
   * asked for, or its pending request ends in an orphan.
   */
  lemma QuietMeansAnswered(w: World, t: nat)
    requires Inv(w) && Quiet(w) && t < |w.tasks| && !w.tasks[t].pc.Failed?
    ensures if Pending(w.tasks[t].pc) then
              exists path :: WaitChain(w, path) && path[0] == t && Orphaned(w, path[|path| - 1])
            else
              && |w.tasks[t].got| == |w.tasks[t].asked|
              && forall n :: 0 <= n < |w.tasks[t].asked| ==>
                   w.tasks[t].got[n] < |w.instances| && w.instances[w.tasks[t].got[n]].typ == w.tasks[t].asked[n]
  {
    if Pending(w.tasks[t].pc) {
      DeadlockFree(w, t);
    } else {
      assert GoodTask(w.cfg, w.instances, w.tasks, t);
      assert !Enabled(w, Ask(t));
    }
  }

  // ----- exactly which requests are never settled -----

  /** A chain to a stopped instance. */
  ghost predicate DeadChain(w: World, path: seq<nat>) {
    Chain(w, path) && ProbesDead(w, path[|path| - 1])
  }

  /** The chain leads to a stopped instance, some task on it already waits, and queued pings are not cancelled. */
  ghost predicate Hangs(w: World, path: seq<nat>) {
    && DeadChain(w, path) && !w.cfg.cancels
    && exists i :: 0 <= i < |path| && w.tasks[path[i]].pc.Waiting?
  }

  /** After the run `ls` the request of task `t` is still open. */
  ghost predicate Open(w: World, ls: seq<Label>, t: nat) {
    IsRun(w, ls) ==> t < |After(w, ls).tasks| && Pending(After(w, ls).tasks[t].pc)
  }

  lemma {:induction false} ChainIncreasing(w: World, path: seq<nat>, i: nat, j: nat)
    requires Inv(w) && Chain(w, path) && Probes(w.tasks[path[|path| - 1]].pc) && i < j < |path|
    ensures Probes(w.tasks[path[i]].pc) && Probes(w.tasks[path[j]].pc)
    ensures w.tasks[path[i]].pc.instance < w.tasks[path[j]].pc.instance
    decreases j
  {
    assert Behind(w, path[j - 1], path[j]);
    assert j < |path| - 1 ==> Behind(w, path[j], path[j + 1]);
    BehindFacts(w, path[j - 1], path[j]);
    if i < j - 1 {
      ChainIncreasing(w, path, i, j - 1);
    }
  }

  /** The tasks of a chain are different tasks. */
  lemma ChainDistinct(w: World, path: seq<nat>)
    requires Inv(w) && Chain(w, path) && Probes(w.tasks[path[|path| - 1]].pc)
    ensures forall i, j :: 0 <= i < j < |path| ==> path[i] != path[j]
    ensures forall i :: 0 <= i < |path| ==> Probes(w.tasks[path[i]].pc)
  {
    forall i, j | 0 <= i < j < |path|
      ensures path[i] != path[j]
    {
      ChainIncreasing(w, path, i, j);
    }
    forall i | 0 <= i < |path|
      ensures Probes(w.tasks[path[i]].pc)
    {
      if i < |path| - 1 {
        ChainIncreasing(w, path, i, |path| - 1);
      }
    }
  }

  lemma ChainPrefix(w: World, path: seq<nat>, n: nat)
    requires Chain(w, path) && 0 < n <= |path|
    ensures Chain(w, path[..n])
  {
    forall i | 0 <= i < n - 1
      ensures Behind(w, path[..n][i], path[..n][i + 1])
    {
      assert Behind(w, path[i], path[i + 1]);
    }
  }

  /** What a step leaves alone: the probing tasks of a chain that it does not move, and what they probe. */
  ghost predicate Kept(w: World, v: World, t: nat) {
    && t < |w.tasks| && t < |v.tasks| && Probes(w.tasks[t].pc) && Probes(v.tasks[t].pc)
    && v.tasks[t].pc.instance == w.tasks[t].pc.instance
    && (w.tasks[t].pc.Waiting? ==> v.tasks[t].pc.Waiting?)
  }

  /** A task behind a task that keeps probing stays behind it, as long as the instance between them runs. */
  lemma BehindKept(w: World, v: World, t: nat, u: nat)
    requires Inv(w) && Inv(v) && Behind(w, t, u) && Kept(w, v, t) && Kept(w, v, u)
    requires v.tasks[u].home == w.tasks[u].home
    ensures Behind(v, t, u)
  {
    BehindFacts(w, t, u);
    assert GoodTask(v.cfg, v.instances, v.tasks, u);
    assert GoodTask(v.cfg, v.instances, v.tasks, t);
    assert GoodInstance(v.cfg, v.instances, v.tasks, w.tasks[t].pc.instance);
  }

  /** A probing task keeps probing the same instance, unless it is answered, cancelled or finds the instance dead. */
  lemma KeptTask(w: World, l: Label, t: nat)
    requires Inv(w) && Enabled(w, l) && t < |w.tasks| && Probes(w.tasks[t].pc)
    requires l != Pong(t) && l != Cancel(t) && (l == Send(t) ==> !ProbesDead(w, t))
    ensures Kept(w, Step(w, l), t) && Step(w, l).tasks[t].home == w.tasks[t].home
  {
    assert GoodTask(w.cfg, w.instances, w.tasks, t);
    if l.Die? || l.Handle? {
      assert GoodInstance(w.cfg, w.instances, w.tasks, l.instance);
    } else if l.Look? {
      PendingHook(w, l.task);
    }
    hide Inv, GoodTask, GoodInstance, Found;
  }

  /** And its instance, once stopped, stays stopped. */
  lemma KeptStep(w: World, l: Label, t: nat)
    requires Inv(w) && Enabled(w, l) && t < |w.tasks| && Probes(w.tasks[t].pc)
    requires l != Pong(t) && l != Cancel(t) && (l == Send(t) ==> !ProbesDead(w, t))
    ensures var v := Step(w, l);
            && Kept(w, v, t) && v.tasks[t].home == w.tasks[t].home
            && (ProbesDead(w, t) ==> ProbesDead(v, t))
  {
    hide Inv, Enabled, Step;
    KeptTask(w, l, t);
    if ProbesDead(w, t) {
      InstanceStays(w, l, w.tasks[t].pc.instance);
    }
  }

  lemma CfgStays(w: World, l: Label)
    requires Inv(w) && Enabled(w, l)
    ensures Step(w, l).cfg == w.cfg
  {
    if l.Look? {
      PendingHook(w, l.task);
    }
    hide Inv, Found;
  }

  /** The chain after a step that keeps all its tasks probing. */
  lemma ChainKept(w: World, l: Label, path: seq<nat>)
    requires Inv(w) && Enabled(w, l) && Inv(Step(w, l)) && Chain(w, path)
    requires forall i :: 0 <= i < |path| ==> Probes(w.tasks[path[i]].pc)
    requires forall i :: 0 <= i < |path| ==>
               l != Pong(path[i]) && l != Cancel(path[i]) && (l == Send(path[i]) ==> !ProbesDead(w, path[i]))
    ensures var v := Step(w, l);
            && Chain(v, path) && forall i :: 0 <= i < |path| ==> Kept(w, v, path[i])
  {
    var v := Step(w, l);
    forall i | 0 <= i < |path|
      ensures Kept(w, v, path[i]) && v.tasks[path[i]].home == w.tasks[path[i]].home
    {
      KeptStep(w, l, path[i]);
    }
    hide Inv, Step, Enabled, Behind;
    forall i | 0 <= i < |path| - 1
      ensures Behind(v, path[i], path[i + 1])
    {
      BehindKept(w, v, path[i], path[i + 1]);
    }
  }

  /** The task at the end of the chain finds its instance dead, and the one before it then probes a dead instance too. */
  lemma ChainShortens(w: World, l: Label, path: seq<nat>)
    requires Inv(w) && Enabled(w, l) && Inv(Step(w, l)) && DeadChain(w, path) && |path| > 1
    requires l == Send(path[|path| - 1]) || l == Cancel(path[|path| - 1])
    ensures var v := Step(w, l);
            && DeadChain(v, path[..|path| - 1])
            && forall i :: 0 <= i < |path| - 1 ==> Kept(w, v, path[i])
  {
    var v, m := Step(w, l), |path| - 1;
    ChainDistinct(w, path);
    ChainPrefix(w, path, m);
    ChainKept(w, l, path[..m]);
    assert forall i :: 0 <= i < m ==> path[..m][i] == path[i];
    assert Behind(w, path[m - 1], path[m]);
    BehindFacts(w, path[m - 1], path[m]);
    assert ProbesDead(v, path[m - 1]);
  }

  lemma HangsStep(w: World, l: Label, path: seq<nat>) returns (after: seq<nat>)
    requires Inv(w) && Enabled(w, l) && Hangs(w, path)
    ensures Inv(Step(w, l)) && Hangs(Step(w, l), after) && after[0] == path[0]
  {
    var v, m := Step(w, l), |path| - 1;
    InvStep(w, l);
    CfgStays(w, l);
    ChainDistinct(w, path);
    var j :| 0 <= j < |path| && w.tasks[path[j]].pc.Waiting?;
    if l == Send(path[m]) {
      ChainShortens(w, l, path);
      after := path[..m];
      assert Kept(w, v, path[j]) && after[j] == path[j];
    } else {
      forall i | 0 <= i < |path|
        ensures l != Pong(path[i]) && l != Cancel(path[i])
      {
        assert i < m ==> Behind(w, path[i], path[i + 1]);
      }
      forall i | 0 <= i < m
        ensures !ProbesDead(w, path[i])
      {
        assert Behind(w, path[i], path[i + 1]);
      }
      ChainKept(w, l, path);
      KeptStep(w, l, path[m]);
      after := path;
      assert Kept(w, v, path[j]);
    }
  }

  /** An orphaned ping itself stays exactly that. */
  lemma {:induction false} OrphanStays(w: World, ls: seq<Label>, u: nat)
    requires Inv(w) && IsRun(w, ls) && Orphaned(w, u)
    ensures Orphaned(After(w, ls), u)
    decreases |ls|
  {
    if ls != [] {
      KeptStep(w, ls[0], u);
      CfgStays(w, ls[0]);
      InvStep(w, ls[0]);
      hide Inv, Step, Enabled;
      OrphanStays(Step(w, ls[0]), ls[1..], u);
    }
  }

  /** A hanging request stays open, whatever the program does. */
  lemma {:induction false} HangsForEver(w: World, ls: seq<Label>, path: seq<nat>)
    requires Inv(w) && IsRun(w, ls) && Hangs(w, path)
    ensures path[0] < |After(w, ls).tasks| && Pending(After(w, ls).tasks[path[0]].pc)
    decreases |ls|
  {
    if ls == [] {
      ChainDistinct(w, path);
    } else {
      var after := HangsStep(w, ls[0], path);
      hide Inv, Step, Enabled, Hangs;
      HangsForEver(Step(w, ls[0]), ls[1..], after);
    }
  }

  /** A probing task probed the same instance before a step of the tasks, unless the step made it a spawner. */
  lemma KeptBefore(w: World, l: Label, t: nat)
    requires Inv(w) && Enabled(w, l) && Progress(l) && Inv(Step(w, l))
    requires t < |Step(w, l).tasks| && Probes(Step(w, l).tasks[t].pc)
    ensures var v := Step(w, l);
            && t < |w.tasks|
            && if Probes(w.tasks[t].pc) then v.tasks[t].pc.instance == w.tasks[t].pc.instance
               else l == Look(t) && v.tasks[t].pc.instance == |w.instances| < |v.instances|
                    && v.instances[|w.instances|].running && v.instances[|w.instances|].task == |w.tasks|
                    && |w.tasks| < |v.tasks| && v.tasks[|w.tasks|].pc.Idle?
  {
    if !l.Boot? && !l.Ask? {
      PendingHook(w, l.task);
    }
    hide Inv;
  }

  /** An instance that is dead after a step of the tasks was dead before, or the step was the failure of its own task. */
  lemma DeadSince(w: World, l: Label, k: nat)
    requires Inv(w) && Enabled(w, l) && Progress(l) && k < |Step(w, l).instances| && !Step(w, l).instances[k].running
    ensures k < |w.instances|
    ensures w.instances[k].running ==>
              (l.Send? || l.Cancel?) && l.task == w.instances[k].task && ProbesDead(w, l.task)
  {
    if !l.Boot? && !l.Ask? {
      PendingHook(w, l.task);
      assert GoodTask(w.cfg, w.instances, w.tasks, l.task);
    }
    hide GoodTask, GoodInstance, AllTasks, AllInstances, GoodPrograms, GoodEntries, Found;
  }

  /** Steps of the tasks alone make no dead chain: it was there before, perhaps one task longer. */
  lemma DeadBefore(w: World, l: Label, path: seq<nat>) returns (before: seq<nat>)
    requires Inv(w) && Enabled(w, l) && Progress(l) && DeadChain(Step(w, l), path)
    ensures DeadChain(w, before) && before[0] == path[0]
  {
    hide Inv, Enabled;
    var v, m := Step(w, l), |path| - 1;
    InvStep(w, l);
    ChainDistinct(v, path);
    forall i | 0 <= i < |path|
      ensures path[i] < |w.tasks| && Probes(w.tasks[path[i]].pc)
      ensures v.tasks[path[i]].pc.instance == w.tasks[path[i]].pc.instance
    {
      KeptBefore(w, l, path[i]);
      if i < m {
        assert Behind(v, path[i], path[i + 1]);
        KeptBefore(w, l, path[i + 1]);
      }
    }
    forall i | 0 <= i < m
      ensures Behind(w, path[i], path[i + 1])
    {
      assert Behind(v, path[i], path[i + 1]);
      BehindFacts(v, path[i], path[i + 1]);
      BehindBefore(w, l, path[i], path[i + 1]);
    }
    var k := v.tasks[path[m]].pc.instance;
    DeadSince(w, l, k);
    if w.instances[k].running {
      before := path + [l.task];
      EndsBehind(w, path[m], l.task);
      forall i | 0 <= i < |before| - 1
        ensures Behind(w, before[i], before[i + 1])
      {
        assert i < m ==> Behind(w, path[i], path[i + 1]);
      }
    } else {
      before := path;
    }
  }

  lemma EndsBehind(w: World, t: nat, u: nat)
    requires Inv(w) && t < |w.tasks| && Probes(w.tasks[t].pc) && w.tasks[t].pc.instance < |w.instances|
    requires w.instances[w.tasks[t].pc.instance].running && w.instances[w.tasks[t].pc.instance].task == u
    requires u < |w.tasks| && Probes(w.tasks[u].pc)
    ensures Behind(w, t, u)
  {
  }

  lemma BehindBefore(w: World, l: Label, t: nat, u: nat)
    requires Inv(w) && Enabled(w, l) && Progress(l) && Inv(Step(w, l)) && Behind(Step(w, l), t, u)
    requires t < |w.tasks| && u < |w.tasks| && Probes(w.tasks[t].pc) && Probes(w.tasks[u].pc)
    requires Step(w, l).tasks[t].pc.instance == w.tasks[t].pc.instance
    ensures Behind(w, t, u)
  {
    var v, k := Step(w, l), w.tasks[t].pc.instance;
    assert GoodTask(w.cfg, w.instances, w.tasks, t);
    assert GoodInstance(w.cfg, w.instances, w.tasks, k);
    InstanceStays(w, l, k);
    EndsBehind(w, t, u);
  }

  /** Instances keep their task, and a stopped one stays stopped. */
  lemma InstanceStays(w: World, l: Label, k: nat)
    requires Inv(w) && Enabled(w, l) && k < |w.instances|
    ensures var v := Step(w, l);
            && k < |v.instances| && v.instances[k].task == w.instances[k].task
            && (v.instances[k].running ==> w.instances[k].running)
  {
    if l.Look? {
      PendingHook(w, l.task);
    }
    hide Inv, Found;
  }

  ghost predicate NoDeadChain(w: World, t: nat) {
    forall path :: DeadChain(w, path) ==> path[0] != t
  }

  /** A request that does not lead to a stopped instance is answered by some run of the tasks alone. */
  lemma {:induction false} Answerable(w: World, t: nat, n: nat) returns (ls: seq<Label>)
    requires Inv(w) && t < |w.tasks| && Pending(w.tasks[t].pc) && NoDeadChain(w, t)
    requires NewRun(w.instances, n) && n <= |w.instances|
    ensures IsRun(w, ls) && AllProgress(ls) && t < |After(w, ls).tasks|
    ensures var task := After(w, ls).tasks[t];
            task.pc.Idle? && |task.got| == |w.tasks[t].got| + 1
    decreases Remaining(w, n)
  {
    var path, l := NotStuck(w, t);
    assert Orphaned(w, path[|path| - 1]) ==> DeadChain(w, path);
    assert Progress(l) && Enabled(w, l);
    var v := Step(w, l);
    InvStep(w, l);
    ProgressDecreases(w, l, n);
    TaskAfter(w, l, t);
    if Pending(v.tasks[t].pc) {
      forall p | DeadChain(v, p)
        ensures p[0] != t
      {
        var before := DeadBefore(w, l, p);
      }
      var rest := Answerable(v, t, n);
      RunCons(w, l, rest);
      ls := [l] + rest;
    } else {
      RunCons(w, l, []);
      ls := [l] + [];
    }
  }

  /** A pending request that a step settles was answered, unless it probed a stopped instance. */
  lemma TaskAfter(w: World, l: Label, t: nat)
    requires Inv(w) && Enabled(w, l) && Progress(l) && t < |w.tasks| && Pending(w.tasks[t].pc) && NoDeadChain(w, t)
    ensures var v := Step(w, l);
            && t < |v.tasks|
            && (Pending(v.tasks[t].pc) ==> |v.tasks[t].got| == |w.tasks[t].got|)
            && (!Pending(v.tasks[t].pc) ==> v.tasks[t].pc.Idle? && |v.tasks[t].got| == |w.tasks[t].got| + 1)
  {
    assert ProbesDead(w, t) ==> DeadChain(w, [t]);
    if !l.Boot? && !l.Ask? {
      PendingHook(w, l.task);
    }
    hide Inv, NoDeadChain;
  }

  /** A dead chain on which nobody waits, or whose pings are cancelled, fails from its end up to the request. */
  lemma {:induction false} Unravels(w: World, path: seq<nat>) returns (ls: seq<Label>)
    requires Inv(w) && DeadChain(w, path)
    requires w.cfg.cancels || forall i :: 0 <= i < |path| ==> !w.tasks[path[i]].pc.Waiting?
    ensures IsRun(w, ls) && path[0] < |After(w, ls).tasks| && !Pending(After(w, ls).tasks[path[0]].pc)
    decreases |path|, if w.tasks[path[|path| - 1]].pc.Spawned? then 1 else 0
  {
    var m := |path| - 1;
    var u := path[m];
    ChainDistinct(w, path);
    var l := if w.tasks[u].pc.Spawned? then Unlock(u) else if w.tasks[u].pc.Pinging? then Send(u) else Cancel(u);
    var v := Step(w, l);
    InvStep(w, l);
    CfgStays(w, l);
    if l.Unlock? {
      ChainKept(w, l, path);
      KeptStep(w, l, u);
      UnlockedOnly(w, u);
      var rest := Unravels(v, path);
      RunCons(w, l, rest);
      ls := [l] + rest;
    } else if m == 0 {
      RunCons(w, l, []);
      ls := [l] + [];
    } else {
      ChainShortens(w, l, path);
      FailedOnly(w, l, u);
      var rest := Unravels(v, path[..m]);
      RunCons(w, l, rest);
      ls := [l] + rest;
    }
  }

  lemma UnlockedOnly(w: World, u: nat)
    requires Inv(w) && Enabled(w, Unlock(u))
    ensures var v := Step(w, Unlock(u));
            && |v.tasks| == |w.tasks| && v.tasks[u].pc.Pinging?
            && forall t :: 0 <= t < |w.tasks| && t != u ==> v.tasks[t] == w.tasks[t]
  {
  }

  lemma FailedOnly(w: World, l: Label, u: nat)
    requires Inv(w) && Enabled(w, l) && ProbesDead(w, u) && (l == Send(u) || l == Cancel(u))
    ensures var v := Step(w, l);
            && |v.tasks| == |w.tasks| && v.tasks[u].pc.Failed?
            && forall t :: 0 <= t < |w.tasks| && t != u ==> v.tasks[t] == w.tasks[t]
  {
    hide Inv;
  }

  /**
   * A pending request stays open in every continuation if and only if it leads to a stopped instance, some
   * task on the way already waits for its answer, and queued pings are not cancelled.
   */
  lemma NeverSettledIff(w: World, t: nat)
    requires Inv(w) && t < |w.tasks| && Pending(w.tasks[t].pc)
    ensures (forall ls :: Open(w, ls, t)) <==> exists path :: Hangs(w, path) && path[0] == t
  {
    if path :| Hangs(w, path) && path[0] == t {
      forall ls | IsRun(w, ls)
        ensures Open(w, ls, t)
      {
        HangsForEver(w, ls, path);
      }
    } else if path :| DeadChain(w, path) && path[0] == t {
      var ls := Unravels(w, path);
      assert !Open(w, ls, t);
    } else {
      var ls := Answerable(w, t, |w.instances|);
      assert !Open(w, ls, t);
    }
  }

  // ----- the two readings of a queued ping -----

  /** Some request is pending and no task can take a step. */
  ghost predicate Stuck(w: World) {
    Quiet(w) && exists t :: 0 <= t < |w.tasks| && Pending(w.tasks[t].pc)
  }

  ghost predicate GetsStuck(cfg: Config, ls: seq<Label>) {
    IsRun(Start(cfg), ls) && Stuck(After(Start(cfg), ls))
  }

  lemma {:induction false} RunSnoc(w: World, ls: seq<Label>, l: Label)
    requires Inv(w) && IsRun(w, ls) && Inv(After(w, ls)) && Enabled(After(w, ls), l)
    ensures IsRun(w, ls + [l]) && After(w, ls + [l]) == Step(After(w, ls), l) && Inv(After(w, ls + [l]))
  {
    InvStep(After(w, ls), l);
    RunCons(After(w, ls), l, []);
    hide Inv, Step, Enabled;
    assert [l] + [] == [l];
    RunConcat(w, ls, [l]);
  }

  /** The world in which one caller has spawned the service of type 0 and holds the lock, or waits for its answer. */
  function FirstCall(cfg: Config, pc: Pc, lock: Option<nat>): World
    requires cfg.programs != []
  {
    World(cfg, [Instance(0, true, false, 1)],
          [Task(None, [0], [0], pc, []), Task(Some(0), cfg.programs[0], cfg.programs[0], Idle, [])],
          map[0 := 0], lock, {0})
  }

  lemma FirstAsk(cfg: Config) returns (ls: seq<Label>)
    requires GoodPrograms(cfg) && cfg.programs != []
    ensures IsRun(Start(cfg), ls) && Inv(After(Start(cfg), ls))
    ensures After(Start(cfg), ls) == World(cfg, [], [Task(None, [0], [0], Wanting, [])], map[], None, {})
  {
    var w := Start(cfg);
    RunSnoc(w, [], Outsider([0]));
    RunSnoc(w, [] + [Outsider([0])], Ask(0));
    ls := [] + [Outsider([0])] + [Ask(0)];
  }

  lemma FirstCaller(cfg: Config) returns (ls: seq<Label>)
    requires GoodPrograms(cfg) && cfg.programs != []
    ensures IsRun(Start(cfg), ls) && After(Start(cfg), ls) == FirstCall(cfg, Spawned(0), Some(0))
    ensures Inv(After(Start(cfg), ls))
  {
    var w := Start(cfg);
    ls := FirstAsk(cfg);
    RunSnoc(w, ls, Lock(0));
    RunSnoc(w, ls + [Lock(0)], Look(0));
    ls := ls + [Lock(0)] + [Look(0)];
  }

  lemma FirstWaits(cfg: Config) returns (ls: seq<Label>)
    requires GoodPrograms(cfg) && cfg.programs != []
    ensures IsRun(Start(cfg), ls) && After(Start(cfg), ls) == FirstCall(cfg, Waiting(0), None)
    ensures Inv(After(Start(cfg), ls))
  {
    var w := Start(cfg);
    ls := FirstCaller(cfg);
    RunSnoc(w, ls, Unlock(0));
    RunSnoc(w, ls + [Unlock(0)], Send(0));
    ls := ls + [Unlock(0)] + [Send(0)];
  }

  /**
   * An orphan on the wait chain is sufficient for a request to stay open but not necessary: here the only
   * waiting task is behind a hook that is about to ping a service that has just stopped.
   */
  lemma HangsWithoutOrphan() returns (ls: seq<Label>)
    ensures var w := Start(Config([[1], []], false));
            && IsRun(w, ls) && 0 < |After(w, ls).tasks| && Pending(After(w, ls).tasks[0].pc)
            && (forall u :: !Orphaned(After(w, ls), u))
            && forall more :: Open(After(w, ls), more, 0)
  {
    var w := Start(Config([[1], []], false));
    ls := HookSpawns();
    RunSnoc(w, ls, Unlock(1));
    ls := ls + [Unlock(1)];
    SpawnerStops(w, ls);
    ls := ls + [Die(1)];
  }

  lemma HookSpawns() returns (ls: seq<Label>)
    ensures var w := Start(Config([[1], []], false));
            && IsRun(w, ls) && Inv(After(w, ls))
            && After(w, ls) == World(
                 Config([[1], []], false), [Instance(0, true, false, 1), Instance(1, true, false, 2)],
                 [Task(None, [0], [0], Waiting(0), []), Task(Some(0), [1], [1], Spawned(1), []), Task(Some(1), [], [], Idle, [])],
                 map[0 := 0, 1 := 1], Some(1), {0, 1})
  {
    var w := Start(Config([[1], []], false));
    ls := HookHoldsLock();
    RunSnoc(w, ls, Look(1));
    ls := ls + [Look(1)];
  }

  lemma HookHoldsLock() returns (ls: seq<Label>)
    ensures var w := Start(Config([[1], []], false));
            && IsRun(w, ls) && Inv(After(w, ls))
            && After(w, ls) == World(
                 Config([[1], []], false), [Instance(0, true, false, 1)],
                 [Task(None, [0], [0], Waiting(0), []), Task(Some(0), [1], [1], Holding, [])], map[0 := 0], Some(1), {0})
  {
    var w := Start(Config([[1], []], false));
    ls := FirstWaits(w.cfg);
    RunSnoc(w, ls, Ask(1));
    RunSnoc(w, ls + [Ask(1)], Lock(1));
    ls := ls + [Ask(1)] + [Lock(1)];
  }

  lemma SpawnerStops(w: World, ls: seq<Label>)
    requires Inv(w) && IsRun(w, ls) && Inv(After(w, ls))
    requires After(w, ls) == World(
               Config([[1], []], false), [Instance(0, true, false, 1), Instance(1, true, false, 2)],
               [Task(None, [0], [0], Waiting(0), []), Task(Some(0), [1], [1], Pinging(1), []), Task(Some(1), [], [], Idle, [])],
               map[0 := 0, 1 := 1], None, {0, 1})
    ensures IsRun(w, ls + [Die(1)])
    ensures var v := After(w, ls + [Die(1)]);
            && 0 < |v.tasks| && Pending(v.tasks[0].pc)
            && (forall u :: !Orphaned(v, u)) && forall more :: Open(v, more, 0)
  {
    RunSnoc(w, ls, Die(1));
    var v := After(w, ls + [Die(1)]);
    assert v.tasks[2].pc.Failed? && v.tasks[1].pc == Pinging(1) && v.tasks[0].pc == Waiting(0);
    assert Behind(v, 0, 1) && ProbesDead(v, 1);
    assert Chain(v, [0, 1]);
    assert v.tasks[[0, 1][0]].pc.Waiting?;
    assert Hangs(v, [0, 1]);
    NeverSettledIff(v, 0);
  }

  /** Without cancelled pings, a service that stops before it answers leaves its spawner stuck, whatever services exist. */
  lemma CanGetStuck(cfg: Config) returns (ls: seq<Label>)
    requires GoodPrograms(cfg) && cfg.programs != [] && !cfg.cancels
    ensures GetsStuck(cfg, ls)
  {
    var w := Start(cfg);
    ls := FirstWaits(cfg);
    RunSnoc(w, ls, Die(0));
    ls := ls + [Die(0)];
    var v := After(w, ls);
    assert v == World(cfg, [Instance(0, false, false, 1)],
                      [Task(None, [0], [0], Waiting(0), []), Task(Some(0), cfg.programs[0], cfg.programs[0], Failed, [])],
                      map[0 := 0], None, {0});
    StuckWorld(v);
  }

  lemma StuckWorld(v: World)
    requires |v.tasks| == 2 && |v.instances| == 1 && v.tasks[0].pc == Waiting(0) && v.tasks[1].pc.Failed?
    requires !v.instances[0].running && !v.cfg.cancels
    ensures Stuck(v)
  {
  }

  /** The registry is free of deadlock in all its runs if and only if a stopped actor's queued pings are cancelled. */
  lemma CancelsIffNeverStuck(cfg: Config)
    requires GoodPrograms(cfg) && cfg.programs != []
    ensures cfg.cancels <==> forall ls :: !GetsStuck(cfg, ls)
  {
    if cfg.cancels {
      forall ls | IsRun(Start(cfg), ls)
        ensures !GetsStuck(cfg, ls)
      {
        Reachable(cfg, ls);
        CfgKept(Start(cfg), ls);
        var v := After(Start(cfg), ls);
        forall t | 0 <= t < |v.tasks| && Pending(v.tasks[t].pc)
          ensures !Quiet(v)
        {
          DeadlockFree(v, t);
        }
      }
    } else {
      var ls := CanGetStuck(cfg);
    }
  }

  lemma {:induction false} CfgKept(w: World, ls: seq<Label>)
    requires Inv(w) && IsRun(w, ls)
    ensures After(w, ls).cfg == w.cfg
    decreases |ls|
  {
    hide Inv, Step, Enabled;
    if ls != [] {
      InvStep(w, ls[0]);
      CfgStays(w, ls[0]);
      CfgKept(Step(w, ls[0]), ls[1..]);
    }
  }
}
