/**
 * The service registry: a map from service types to instances behind one write lock, with instances
 * spawned by whoever asks first, whose `started` hooks may ask for services themselves.
 */
module Registry {
  import opened Base

  /** `programs[T]` lists the services that the `started` hook of type T asks for, one after the other. */
  datatype Config = Config(programs: seq<seq<nat>>, cancels: bool)

  /** `booted`: the `started` hook returned.  `task` is the task that runs the loop. */
  datatype Instance = Instance(typ: nat, running: bool, booted: bool, task: nat)

  /** Where a task is in `from_registry_and_spawn` (src/actor/service.rs:187-216). */
  datatype Pc = Idle | Wanting | Holding | Spawned(instance: nat) | Pinging(instance: nat) | Waiting(instance: nat) | Failed

  /**
   * A task that asks for services: the loop of instance `home`, in its `started` hook and later in handlers,
   * or any other task.  It asks for the types `asked`, has the instances `got`, and is at the first of `todo`.
   */
  datatype Task = Task(home: Option<nat>, asked: seq<nat>, todo: seq<nat>, pc: Pc, got: seq<nat>)

  datatype World = World(
    cfg: Config, instances: seq<Instance>, tasks: seq<Task>, entries: map<nat, nat>, lock: Option<nat>, listed: set<nat>)

  datatype Label =
    // progress of the tasks
    | Ask(task: nat) | Lock(task: nat) | Look(task: nat) | Unlock(task: nat) | Send(task: nat)
    | Pong(task: nat) | Cancel(task: nat) | Boot(instance: nat)
    // the rest of the program
    | Outsider(todo: seq<nat>) | Handle(instance: nat, todo: seq<nat>) | Die(instance: nat) | SpawnFree(typ: nat)
    | Register(instance: nat) | Replace(instance: nat) | Unregister(typ: nat)

  predicate Progress(l: Label) {
    l.Ask? || l.Lock? || l.Look? || l.Unlock? || l.Send? || l.Pong? || l.Cancel? || l.Boot?
  }

  predicate Pending(pc: Pc) {
    pc.Wanting? || pc.Holding? || pc.Spawned? || pc.Pinging? || pc.Waiting?
  }

  predicate Probes(pc: Pc) {
    pc.Spawned? || pc.Pinging? || pc.Waiting?
  }

  // ----- the invariant -----

  predicate GoodTask(cfg: Config, instances: seq<Instance>, tasks: seq<Task>, t: nat)
    requires t < |tasks|
  {
    var task := tasks[t];
    && (task.home.Some? ==> task.home.value < |instances| && instances[task.home.value].task == t)
    && (forall n :: 0 <= n < |task.todo| ==> task.todo[n] < |cfg.programs|)
    && (Pending(task.pc) ==> task.todo != [])
    && |task.got| <= |task.asked| && task.todo == task.asked[|task.got|..]
    && (forall n :: 0 <= n < |task.got| ==>
          task.got[n] < |instances| && instances[task.got[n]].typ == task.asked[n])
    && (Probes(task.pc) ==>
          && task.pc.instance < |instances| && instances[task.pc.instance].typ == task.todo[0]
          && (task.home.Some? ==> task.home.value < task.pc.instance))
  }

  predicate GoodInstance(cfg: Config, instances: seq<Instance>, tasks: seq<Task>, k: nat)
    requires k < |instances|
  {
    var i := instances[k];
    && i.typ < |cfg.programs| && i.task < |tasks| && tasks[i.task].home == Some(k)
    && (i.running <==> !tasks[i.task].pc.Failed?)
  }

  predicate AllTasks(cfg: Config, instances: seq<Instance>, tasks: seq<Task>) {
    forall t :: 0 <= t < |tasks| ==> GoodTask(cfg, instances, tasks, t)
  }

  predicate AllInstances(cfg: Config, instances: seq<Instance>, tasks: seq<Task>) {
    forall k :: 0 <= k < |instances| ==> GoodInstance(cfg, instances, tasks, k)
  }

  /** The hooks ask for existing service types only. */
  predicate GoodPrograms(cfg: Config) {
    forall p, n :: 0 <= p < |cfg.programs| && 0 <= n < |cfg.programs[p]| ==> cfg.programs[p][n] < |cfg.programs|
  }

  predicate GoodLock(tasks: seq<Task>, lock: Option<nat>) {
    && (lock.Some? ==> lock.value < |tasks|)
    && forall t :: 0 <= t < |tasks| ==> (lock == Some(t) <==> tasks[t].pc.Holding? || tasks[t].pc.Spawned?)
  }

  predicate GoodEntries(instances: seq<Instance>, entries: map<nat, nat>, listed: set<nat>) {
    && (forall typ :: typ in entries ==>
          entries[typ] < |instances| && instances[entries[typ]].typ == typ && entries[typ] in listed)
    && forall k :: k in listed ==> k < |instances|
  }

  predicate Inv(w: World) {
    && GoodPrograms(w.cfg)
    && AllTasks(w.cfg, w.instances, w.tasks)
    && AllInstances(w.cfg, w.instances, w.tasks)
    && GoodLock(w.tasks, w.lock)
    && GoodEntries(w.instances, w.entries, w.listed)
  }

  function Start(cfg: Config): World {
    World(cfg, [], [], map[], None, {})
  }

  // ----- steps -----

  /** The lookup under the lock: the entry, if its instance still runs. */
  function Found(instances: seq<Instance>, entries: map<nat, nat>, typ: nat): Option<nat> {
    if typ in entries && entries[typ] < |instances| && instances[entries[typ]].running then Some(entries[typ]) else None
  }

  predicate At(w: World, t: nat, pc: Pc) {
    t < |w.tasks| && w.tasks[t].pc == pc
  }

  /** The loop waits for its next event, so a ping it finds in its mailbox is answered. */
  predicate Serves(w: World, k: nat)
    requires k < |w.instances|
  {
    var i := w.instances[k];
    i.running && i.booted && At(w, i.task, Idle) && w.tasks[i.task].todo == []
  }

  predicate Enabled(w: World, l: Label) {
    match l
    case Ask(t) => At(w, t, Idle) && w.tasks[t].todo != []
    case Lock(t) => At(w, t, Wanting) && w.lock.None?
    case Look(t) => At(w, t, Holding)
    case Unlock(t) => t < |w.tasks| && w.tasks[t].pc.Spawned?
    case Send(t) => t < |w.tasks| && w.tasks[t].pc.Pinging?
    case Pong(t) => t < |w.tasks| && w.tasks[t].pc.Waiting? && w.tasks[t].pc.instance < |w.instances|
                    && Serves(w, w.tasks[t].pc.instance)
    case Cancel(t) => t < |w.tasks| && w.tasks[t].pc.Waiting? && w.tasks[t].pc.instance < |w.instances|
                      && !w.instances[w.tasks[t].pc.instance].running && w.cfg.cancels
    case Boot(k) => k < |w.instances| && w.instances[k].running && !w.instances[k].booted
                    && At(w, w.instances[k].task, Idle) && w.tasks[w.instances[k].task].todo == []
    case Handle(k, todo) => k < |w.instances| && Serves(w, k) && forall n :: 0 <= n < |todo| ==> todo[n] < |w.cfg.programs|
    case Outsider(todo) => forall n :: 0 <= n < |todo| ==> todo[n] < |w.cfg.programs|
    case Die(k) => k < |w.instances| && w.instances[k].running && At(w, w.instances[k].task, Idle)
    case SpawnFree(typ) => typ < |w.cfg.programs|
    case Register(k) => k < |w.instances| && w.lock.None?
    case Replace(k) => k < |w.instances| && w.lock.None?
    case Unregister(typ) => w.lock.None?
  }

  function SetPc(w: World, t: nat, pc: Pc): World
    requires t < |w.tasks|
  {
    w.(tasks := w.tasks[t := w.tasks[t].(pc := pc)])
  }

  /** The task has its address and goes on. */
  function Answer(w: World, t: nat, k: nat): World
    requires t < |w.tasks| && w.tasks[t].todo != []
  {
    w.(tasks := w.tasks[t := w.tasks[t].(pc := Idle, todo := w.tasks[t].todo[1..], got := w.tasks[t].got + [k])])
  }

  /** A panic in the task; in a hook or handler it takes the instance down (the ping is asserted, line 212). */
  function Fail(w: World, t: nat): World
    requires t < |w.tasks|
  {
    var home := w.tasks[t].home;
    SetPc(if home.Some? && home.value < |w.instances| then Lower(w, home.value) else w, t, Failed)
  }

  /** A handler begins that will ask for the services `todo`. */
  function AskFor(w: World, t: nat, todo: seq<nat>): World
    requires t < |w.tasks|
  {
    w.(tasks := w.tasks[t := w.tasks[t].(asked := w.tasks[t].asked + todo, todo := todo)])
  }

  function Lower(w: World, k: nat): World
    requires k < |w.instances|
  {
    w.(instances := w.instances[k := w.instances[k].(running := false)])
  }

  /** Spawn an instance of `typ`, with the task of its `started` hook. */
  function Spawn(w: World, typ: nat): World
    requires typ < |w.cfg.programs|
  {
    w.(instances := w.instances + [Instance(typ, true, false, |w.tasks|)],
       tasks := w.tasks + [Task(Some(|w.instances|), w.cfg.programs[typ], w.cfg.programs[typ], Idle, [])])
  }

  function Enter(w: World, typ: nat, k: nat): World {
    w.(entries := w.entries[typ := k], listed := w.listed + {k})
  }

  /** Under the lock: hand out the running instance, or spawn and insert a new one and go on to ping it. */
  function DoLook(w: World, t: nat): World
    requires t < |w.tasks| && w.tasks[t].todo != [] && w.tasks[t].todo[0] < |w.cfg.programs|
  {
    var typ := w.tasks[t].todo[0];
    var found := Found(w.instances, w.entries, typ);
    if found.Some? then Answer(w, t, found.value).(lock := None)
    else Enter(Spawn(SetPc(w, t, Spawned(|w.instances|)), typ), typ, |w.instances|)
  }

  function Step(w: World, l: Label): World
    requires Inv(w) && Enabled(w, l)
  {
    assert l.Look? || l.Unlock? || l.Send? || l.Pong? || l.Cancel? ==> GoodTask(w.cfg, w.instances, w.tasks, l.task);
    assert l.Die? || l.Handle? ==> GoodInstance(w.cfg, w.instances, w.tasks, l.instance);
    match l
    case Ask(t) => SetPc(w, t, Wanting)
    case Lock(t) => SetPc(w, t, Holding).(lock := Some(t))
    case Look(t) => DoLook(w, t)
    case Unlock(t) => SetPc(w, t, Pinging(w.tasks[t].pc.instance)).(lock := None)
    case Send(t) =>
      if w.instances[w.tasks[t].pc.instance].running then SetPc(w, t, Waiting(w.tasks[t].pc.instance)) else Fail(w, t)
    case Pong(t) => Answer(w, t, w.tasks[t].pc.instance)
    case Cancel(t) => Fail(w, t)
    case Boot(k) => w.(instances := w.instances[k := w.instances[k].(booted := true)])
    case Outsider(todo) => w.(tasks := w.tasks + [Task(None, todo, todo, Idle, [])])
    case Handle(k, todo) => AskFor(w, w.instances[k].task, todo)
    case Die(k) => Fail(w, w.instances[k].task)
    case SpawnFree(typ) => Spawn(w, typ)
    case Register(k) =>
      if Found(w.instances, w.entries, w.instances[k].typ).Some? then w else Enter(w, w.instances[k].typ, k)
    case Replace(k) => Enter(w, w.instances[k].typ, k)
    case Unregister(typ) => w.(entries := w.entries - {typ})
  }

  // ----- every step keeps the invariant -----

  /** A step of a task that goes on changes nothing but that task. */
  lemma TaskMoves(cfg: Config, instances: seq<Instance>, tasks: seq<Task>, t: nat, task: Task)
    requires AllTasks(cfg, instances, tasks) && AllInstances(cfg, instances, tasks)
    requires t < |tasks| && task.home == tasks[t].home && GoodTask(cfg, instances, tasks[t := task], t)
    requires !task.pc.Failed? && !tasks[t].pc.Failed?
    ensures AllTasks(cfg, instances, tasks[t := task]) && AllInstances(cfg, instances, tasks[t := task])
  {
    var after := tasks[t := task];
    forall u | 0 <= u < |tasks| && u != t
      ensures GoodTask(cfg, instances, after, u)
    {
      assert GoodTask(cfg, instances, tasks, u);
    }
    forall k | 0 <= k < |instances|
      ensures GoodInstance(cfg, instances, after, k)
    {
      assert GoodInstance(cfg, instances, tasks, k);
    }
  }

  /** A task fails, and the instance whose loop it is with it. */
  lemma TaskFails(w: World, t: nat)
    requires AllTasks(w.cfg, w.instances, w.tasks) && AllInstances(w.cfg, w.instances, w.tasks)
    requires t < |w.tasks|
    ensures var v := Fail(w, t); AllTasks(v.cfg, v.instances, v.tasks) && AllInstances(v.cfg, v.instances, v.tasks)
  {
    var v := Fail(w, t);
    assert GoodTask(w.cfg, w.instances, w.tasks, t);
    forall u | 0 <= u < |w.tasks|
      ensures GoodTask(v.cfg, v.instances, v.tasks, u)
    {
      assert GoodTask(w.cfg, w.instances, w.tasks, u);
    }
    forall k | 0 <= k < |w.instances|
      ensures GoodInstance(v.cfg, v.instances, v.tasks, k)
    {
      assert GoodInstance(w.cfg, w.instances, w.tasks, k);
    }
  }

  lemma InstanceChanges(w: World, k: nat, i: Instance)
    requires AllTasks(w.cfg, w.instances, w.tasks) && AllInstances(w.cfg, w.instances, w.tasks)
    requires k < |w.instances| && i.typ == w.instances[k].typ && i.task == w.instances[k].task
    requires GoodInstance(w.cfg, w.instances[k := i], w.tasks, k)
    ensures AllTasks(w.cfg, w.instances[k := i], w.tasks) && AllInstances(w.cfg, w.instances[k := i], w.tasks)
  {
    var after := w.instances[k := i];
    forall u | 0 <= u < |w.tasks|
      ensures GoodTask(w.cfg, after, w.tasks, u)
    {
      assert GoodTask(w.cfg, w.instances, w.tasks, u);
    }
    forall j | 0 <= j < |w.instances|
      ensures GoodInstance(w.cfg, after, w.tasks, j)
    {
      assert GoodInstance(w.cfg, w.instances, w.tasks, j);
    }
  }

  lemma Spawns(w: World, typ: nat)
    requires AllTasks(w.cfg, w.instances, w.tasks) && AllInstances(w.cfg, w.instances, w.tasks)
    requires typ < |w.cfg.programs| && GoodPrograms(w.cfg)
    ensures var v := Spawn(w, typ); AllTasks(v.cfg, v.instances, v.tasks) && AllInstances(v.cfg, v.instances, v.tasks)
  {
    var v := Spawn(w, typ);
    forall u | 0 <= u < |v.tasks|
      ensures GoodTask(v.cfg, v.instances, v.tasks, u)
    {
      assert u < |w.tasks| ==> GoodTask(w.cfg, w.instances, w.tasks, u);
    }
    forall k | 0 <= k < |v.instances|
      ensures GoodInstance(v.cfg, v.instances, v.tasks, k)
    {
      assert k < |w.instances| ==> GoodInstance(w.cfg, w.instances, w.tasks, k);
    }
  }

  lemma Outsides(w: World, task: Task)
    requires AllTasks(w.cfg, w.instances, w.tasks) && AllInstances(w.cfg, w.instances, w.tasks)
    requires task.home.None? && task.pc.Idle? && task.got == [] && task.todo == task.asked
    requires forall n :: 0 <= n < |task.todo| ==> task.todo[n] < |w.cfg.programs|
    ensures AllTasks(w.cfg, w.instances, w.tasks + [task]) && AllInstances(w.cfg, w.instances, w.tasks + [task])
  {
    forall u | 0 <= u < |w.tasks| + 1
      ensures GoodTask(w.cfg, w.instances, w.tasks + [task], u)
    {
      assert u < |w.tasks| ==> GoodTask(w.cfg, w.instances, w.tasks, u);
    }
    forall k | 0 <= k < |w.instances|
      ensures GoodInstance(w.cfg, w.instances, w.tasks + [task], k)
    {
      assert GoodInstance(w.cfg, w.instances, w.tasks, k);
    }
  }

  /** Under the lock nobody awaits: the lookup and the spawn are one step of the holder. */
  lemma LookKeeps(w: World, t: nat)
    requires Inv(w) && At(w, t, Holding) && w.tasks[t].todo != [] && w.tasks[t].todo[0] < |w.cfg.programs|
    ensures Inv(DoLook(w, t))
  {
    assert GoodTask(w.cfg, w.instances, w.tasks, t);
    var task := w.tasks[t];
    var typ := task.todo[0];
    var found := Found(w.instances, w.entries, typ);
    if found.Some? {
      TaskMoves(w.cfg, w.instances, w.tasks, t, task.(pc := Idle, todo := task.todo[1..], got := task.got + [found.value]));
    } else {
      var k := |w.instances|;
      Spawns(w, typ);
      var v := Spawn(w, typ);
      assert v.tasks[t] == task;
      assert SetPc(w, t, Spawned(k)).tasks + [v.tasks[|w.tasks|]] == v.tasks[t := task.(pc := Spawned(k))];
      TaskMoves(v.cfg, v.instances, v.tasks, t, task.(pc := Spawned(k)));
    }
  }

  /** A task waits, holds the lock or probes the instance it already probed. */
  lemma PcMoves(w: World, t: nat, pc: Pc)
    requires Inv(w) && t < |w.tasks| && w.tasks[t].todo != [] && !w.tasks[t].pc.Failed? && Pending(pc)
    requires Probes(pc) ==> Probes(w.tasks[t].pc) && pc.instance == w.tasks[t].pc.instance
    ensures var v := SetPc(w, t, pc); AllTasks(v.cfg, v.instances, v.tasks) && AllInstances(v.cfg, v.instances, v.tasks)
  {
    assert GoodTask(w.cfg, w.instances, w.tasks, t);
    TaskMoves(w.cfg, w.instances, w.tasks, t, w.tasks[t].(pc := pc));
  }

  lemma AnswerKeeps(w: World, t: nat, k: nat)
    requires Inv(w) && t < |w.tasks| && w.tasks[t].todo != [] && Pending(w.tasks[t].pc)
    requires k < |w.instances| && w.instances[k].typ == w.tasks[t].todo[0]
    ensures var v := Answer(w, t, k); AllTasks(v.cfg, v.instances, v.tasks) && AllInstances(v.cfg, v.instances, v.tasks)
  {
    assert GoodTask(w.cfg, w.instances, w.tasks, t);
    var task := w.tasks[t];
    TaskMoves(w.cfg, w.instances, w.tasks, t, task.(pc := Idle, todo := task.todo[1..], got := task.got + [k]));
  }

  lemma PendingHook(w: World, t: nat)
    requires Inv(w) && t < |w.tasks| && Pending(w.tasks[t].pc)
    ensures w.tasks[t].todo != [] && w.tasks[t].todo[0] < |w.cfg.programs|
    ensures Probes(w.tasks[t].pc) ==>
              w.tasks[t].pc.instance < |w.instances| && w.instances[w.tasks[t].pc.instance].typ == w.tasks[t].todo[0]
  {
    assert GoodTask(w.cfg, w.instances, w.tasks, t);
  }

  lemma DieKeeps(w: World, k: nat)
    requires Inv(w) && Enabled(w, Die(k))
    ensures Inv(Step(w, Die(k)))
  {
    assert GoodInstance(w.cfg, w.instances, w.tasks, k);
    TaskFails(w, w.instances[k].task);
  }

  lemma HandleKeeps(w: World, k: nat, todo: seq<nat>)
    requires Inv(w) && Enabled(w, Handle(k, todo))
    ensures Inv(Step(w, Handle(k, todo)))
  {
    assert GoodInstance(w.cfg, w.instances, w.tasks, k);
    var t := w.instances[k].task;
    assert GoodTask(w.cfg, w.instances, w.tasks, t);
    TaskMoves(w.cfg, w.instances, w.tasks, t, w.tasks[t].(asked := w.tasks[t].asked + todo, todo := todo));
  }

  lemma InvStep(w: World, l: Label)
    requires Inv(w) && Enabled(w, l)
    ensures Inv(Step(w, l))
  {
    if l.Ask? || l.Lock? || l.Look? || l.Unlock? || l.Send? || l.Pong? || l.Cancel? {
      TaskStepKeeps(w, l);
    } else if l.Die? {
      DieKeeps(w, l.instance);
    } else if l.Handle? {
      HandleKeeps(w, l.instance, l.todo);
    } else {
      hide Found, DoLook, GoodTask, AllTasks, AllInstances;
      match l {
        case Boot(k) =>
          assert AllInstances(w.cfg, w.instances, w.tasks);
          BootKeeps(w, k);
        case Outsider(todo) => Outsides(w, Task(None, todo, todo, Idle, []));
        case SpawnFree(typ) => Spawns(w, typ);
        case Register(k) => TypeKnown(w, k);
        case Replace(k) => TypeKnown(w, k);
        case Unregister(typ) =>
      }
    }
  }

  lemma TypeKnown(w: World, k: nat)
    requires Inv(w) && k < |w.instances|
    ensures w.instances[k].typ < |w.cfg.programs|
  {
    assert GoodInstance(w.cfg, w.instances, w.tasks, k);
  }

  lemma BootKeeps(w: World, k: nat)
    requires Inv(w) && Enabled(w, Boot(k))
    ensures Inv(Step(w, Boot(k)))
  {
    assert GoodInstance(w.cfg, w.instances, w.tasks, k);
    InstanceChanges(w, k, w.instances[k].(booted := true));
  }

  lemma TaskStepKeeps(w: World, l: Label)
    requires Inv(w) && Enabled(w, l)
    requires l.Ask? || l.Lock? || l.Look? || l.Unlock? || l.Send? || l.Pong? || l.Cancel?
    ensures Inv(Step(w, l))
  {
    var t := l.task;
    if !l.Ask? {
      PendingHook(w, t);
    }
    hide Found, DoLook, GoodTask, GoodInstance, AllTasks, AllInstances, GoodPrograms;
    match l {
      case Look(_) => LookKeeps(w, t);
      case Ask(_) => PcMoves(w, t, Wanting);
      case Lock(_) => PcMoves(w, t, Holding);
      case Unlock(_) => PcMoves(w, t, Pinging(w.tasks[t].pc.instance));
      case Send(_) =>
        if w.instances[w.tasks[t].pc.instance].running {
          PcMoves(w, t, Waiting(w.tasks[t].pc.instance));
        } else {
          TaskFails(w, t);
        }
      case Pong(_) => AnswerKeeps(w, t, w.tasks[t].pc.instance);
      case Cancel(_) => TaskFails(w, t);
    }
  }

  // ----- runs -----

  ghost predicate IsRun(w: World, ls: seq<Label>)
    decreases |ls|
  {
    ls == [] || (Inv(w) && Enabled(w, ls[0]) && IsRun(Step(w, ls[0]), ls[1..]))
  }

  ghost function After(w: World, ls: seq<Label>): World
    requires IsRun(w, ls)
    decreases |ls|
  {
    if ls == [] then w else After(Step(w, ls[0]), ls[1..])
  }

  lemma {:induction false} InvRun(w: World, ls: seq<Label>)
    requires Inv(w) && IsRun(w, ls)
    ensures Inv(After(w, ls))
    decreases |ls|
  {
    hide Inv, Step, Enabled;
    if ls != [] {
      InvStep(w, ls[0]);
      InvRun(Step(w, ls[0]), ls[1..]);
    }
  }

  /** The registry starts empty, so every run from the start keeps the invariant. */
  lemma Reachable(cfg: Config, ls: seq<Label>)
    requires GoodPrograms(cfg) && IsRun(Start(cfg), ls)
    ensures Inv(After(Start(cfg), ls))
  {
    InvRun(Start(cfg), ls);
  }

  // ----- one service per type -----

  /** Labels of runs in which nobody replaces or unregisters a service. */
  predicate Plain(l: Label) {
    !l.Replace? && !l.Unregister?
  }

  /** Every instance that was ever registered is stopped, except the current one of its type. */
  predicate SingleService(instances: seq<Instance>, entries: map<nat, nat>, listed: set<nat>) {
    forall k :: k in listed ==>
      k < |instances| && instances[k].typ in entries && (entries[instances[k].typ] == k || !instances[k].running)
  }

  lemma SingleStep(w: World, l: Label)
    requires Inv(w) && SingleService(w.instances, w.entries, w.listed) && Enabled(w, l) && Plain(l)
    ensures var v := Step(w, l); SingleService(v.instances, v.entries, v.listed)
  {
    if l.Look? {
      PendingHook(w, l.task);
    } else if l.Die? {
      assert GoodInstance(w.cfg, w.instances, w.tasks, l.instance);
    } else if l.Send? || l.Cancel? {
      assert GoodTask(w.cfg, w.instances, w.tasks, l.task);
    }
    hide GoodTask, GoodInstance, AllTasks, AllInstances, GoodPrograms, GoodLock;
  }

  /**
   * In a run without `replace` and `unregister` at most one registered instance of a type runs, so callers
   * that ask concurrently share it, and a new one is spawned or registered only after the old one stopped.
   */
  lemma {:induction false} OneServicePerType(w: World, ls: seq<Label>)
    requires Inv(w) && SingleService(w.instances, w.entries, w.listed) && IsRun(w, ls)
    requires forall i :: 0 <= i < |ls| ==> Plain(ls[i])
    ensures var v := After(w, ls);
            && SingleService(v.instances, v.entries, v.listed)
            && forall j, k :: j in v.listed && k in v.listed && j != k && v.instances[j].typ == v.instances[k].typ ==>
                 !v.instances[j].running || !v.instances[k].running
    decreases |ls|
  {
    hide Inv, Step, Enabled;
    if ls != [] {
      InvStep(w, ls[0]);
      SingleStep(w, ls[0]);
      hide SingleService;
      OneServicePerType(Step(w, ls[0]), ls[1..]);
    }
  }

  /** A lookup spawns only when every instance of the type that was ever registered has stopped. */
  lemma SpawnOnlyAfterStop(w: World, t: nat, k: nat)
    requires Inv(w) && SingleService(w.instances, w.entries, w.listed) && At(w, t, Holding)
    requires w.tasks[t].todo != [] && w.tasks[t].todo[0] < |w.cfg.programs|
    requires |Step(w, Look(t)).instances| > |w.instances|
    requires k in w.listed && w.instances[k].typ == w.tasks[t].todo[0]
    ensures !w.instances[k].running
  {
  }

  /** And it shares the registered instance, spawning nothing, whenever that runs. */
  lemma LookShares(w: World, t: nat)
    requires Inv(w) && At(w, t, Holding) && w.tasks[t].todo != []
    requires w.tasks[t].todo[0] in w.entries && w.instances[w.entries[w.tasks[t].todo[0]]].running
    ensures var v := Step(w, Look(t));
            && v.instances == w.instances && v.entries == w.entries && v.lock.None? && t < |v.tasks|
            && v.tasks[t].pc.Idle? && v.tasks[t].got == w.tasks[t].got + [w.entries[w.tasks[t].todo[0]]]
  {
  }

  /**
   * The explicit operations: `register` enters the instance unless a running one of its type is entered,
   * `replace` enters it in any case, and `unregister` removes the entry, all without touching an instance.
   */
  lemma EntriesChange(w: World, k: nat, typ: nat)
    requires Inv(w) && w.lock.None?
    ensures k < |w.instances| ==>
              var v, u, own := Step(w, Register(k)), Step(w, Replace(k)), w.instances[k].typ;
              && v.instances == w.instances && u.instances == w.instances && u.entries == w.entries[own := k]
              && v.entries == if own in w.entries && w.instances[w.entries[own]].running then w.entries
                              else w.entries[own := k]
    ensures Step(w, Unregister(typ)).instances == w.instances && Step(w, Unregister(typ)).entries == w.entries - {typ}
  {
    hide AllTasks, AllInstances, GoodPrograms, GoodLock;
  }

  /** `replace` breaks it: it leaves the service it replaces running. */
  lemma ReplaceKeepsBoth(w: World, j: nat, k: nat)
    requires Inv(w) && Enabled(w, Replace(k)) && j in w.listed && j < |w.instances| && j != k
    requires w.instances[j].running && w.instances[k].running && w.instances[j].typ == w.instances[k].typ
    ensures var v := Step(w, Replace(k));
            !SingleService(v.instances, v.entries, v.listed) && v.instances[j].running && v.entries[v.instances[k].typ] == k
  {
    hide AllTasks, AllInstances, GoodPrograms, GoodLock;
    var v := Step(w, Replace(k));
    assert j in v.listed;
  }

  // ----- the registry object -----

  /** The locked map itself.  Each method is one critical section; instances are shared and may stop meanwhile. */
  class ServiceRegistry {
    var instances: seq<Instance>
    var entries: map<nat, nat>
    /** Whether some task holds the write lock across its current step. */
    var locked: bool
    ghost var listed: set<nat>

    ghost predicate Valid()
      reads this
    {
      GoodEntries(instances, entries, listed)
    }

    constructor ()
      ensures Valid() && entries == map[] && !locked && listed == {} && instances == []
    {
      instances, entries, locked, listed := [], map[], false, {};
    }

    /** `Addr::register`: refused while a running instance is registered, otherwise the old entry is returned. */
    method Register(k: nat) returns (res: Result<Option<nat>>)
      requires Valid() && k < |instances| && !locked
      modifies this`entries, this`listed
      ensures Valid()
      ensures res.Err? <==> instances[k].typ in old(entries) && instances[old(entries)[instances[k].typ]].running
      ensures res.Err? ==> res.error.ServiceStillRunning? && entries == old(entries) && listed == old(listed)
      ensures res.Ok? ==>
                && entries == old(entries)[instances[k].typ := k] && listed == old(listed) + {k}
                && res.value == if instances[k].typ in old(entries) then Some(old(entries)[instances[k].typ]) else None
      ensures SingleService(instances, old(entries), old(listed)) ==> SingleService(instances, entries, listed)
    {
      var typ := instances[k].typ;
      var replaced := None;
      if typ in entries {
        if instances[entries[typ]].running {
          return Err(ServiceStillRunning);
        }
        replaced := Some(entries[typ]);
      }
      entries := entries[typ := k];
      listed := listed + {k};
      res := Ok(replaced);
    }

    /** `Addr::replace`: whatever was registered is handed back, running or not. */
    method Replace(k: nat) returns (replaced: Option<nat>)
      requires Valid() && k < |instances| && !locked
      modifies this`entries, this`listed
      ensures Valid() && entries == old(entries)[instances[k].typ := k] && listed == old(listed) + {k}
      ensures replaced == if instances[k].typ in old(entries) then Some(old(entries)[instances[k].typ]) else None
    {
      var typ := instances[k].typ;
      replaced := if typ in entries then Some(entries[typ]) else None;
      entries := entries[typ := k];
      listed := listed + {k};
    }

    /** `unregister`: afterwards a lookup of the type finds nothing. */
    method Unregister(typ: nat) returns (removed: Option<nat>)
      requires Valid() && !locked
      modifies this`entries
      ensures Valid() && entries == old(entries) - {typ} && Found(instances, entries, typ).None?
      ensures removed == if typ in old(entries) then Some(old(entries)[typ]) else None
      ensures forall other :: other != typ ==> Found(instances, entries, other) == Found(instances, old(entries), other)
    {
      removed := if typ in entries then Some(entries[typ]) else None;
      entries := entries - {typ};
    }

    /** `already_running` answers whether the registered service has *stopped* (src/actor/service.rs:140-149). */
    method AlreadyRunning(typ: nat) returns (stopped: Option<bool>)
      requires Valid()
      ensures stopped.None? <==> typ !in entries
      ensures stopped == Some(true) <==> typ in entries && !instances[entries[typ]].running
    {
      stopped := if typ in entries then Some(!instances[entries[typ]].running) else None;
    }

    /** `try_from_registry` does not wait: it finds nothing while the lock is held. */
    method TryFromRegistry(typ: nat) returns (found: Option<nat>)
      requires Valid()
      ensures found.Some? <==> !locked && typ in entries && instances[entries[typ]].running
      ensures found.Some? ==> found.value == entries[typ]
    {
      if locked {
        return None;
      }
      found := None;
      if typ in entries {
        if instances[entries[typ]].running {
          found := Some(entries[typ]);
        }
      }
    }

    /** The critical section of `from_registry_and_spawn`: share the running instance or become its spawner. */
    method FromRegistry(typ: nat, task: nat) returns (k: nat, spawned: bool)
      requires Valid() && !locked
      modifies this
      ensures Valid() && !locked && k < |instances| && instances[k].typ == typ && instances[k].running
      ensures typ in entries && entries[typ] == k
      ensures spawned <==> !(typ in old(entries) && old(instances)[old(entries)[typ]].running)
      ensures !spawned ==> instances == old(instances) && entries == old(entries) && listed == old(listed)
      ensures spawned ==> && k == old(|instances|) && instances == old(instances) + [Instance(typ, true, false, task)]
                          && entries == old(entries)[typ := k] && listed == old(listed) + {k}
      ensures old(SingleService(instances, entries, listed)) ==> SingleService(instances, entries, listed)
    {
      locked := true;
      if typ in entries {
        if instances[entries[typ]].running {
          locked := false;
          return entries[typ], false;
        }
      }
      k, spawned := |instances|, true;
      instances := instances + [Instance(typ, true, false, task)];
      entries := entries[typ := k];
      listed := listed + {k};
      locked := false;
    }
  }
}

