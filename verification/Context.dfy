/**
 * What the context of an actor owns besides its mailbox end: background tasks under fresh ids, and
 * children indexed by the message type they were registered for.
 */
module Context {
  import opened Base

  // ----- ids -----

  /** Ids are 64-bit counters that wrap around (`AtomicU64::fetch_add`). */
  const ID_SPACE: nat := 0x1_0000_0000_0000_0000

  /** The n-th id handed out. */
  function IdOf(n: nat): nat {
    n % ID_SPACE
  }

  /** Two ids coincide exactly when a multiple of 2^64 lies between them. */
  lemma IdsRepeatIff(m: nat, n: nat)
    requires m <= n
    ensures IdOf(m) == IdOf(n) <==> (n - m) % ID_SPACE == 0
    ensures m < n < ID_SPACE ==> IdOf(m) < IdOf(n)
  {
    assert n == ID_SPACE * (n / ID_SPACE) + IdOf(n) && m == ID_SPACE * (m / ID_SPACE) + IdOf(m);
  }

  /** The global counter behind `ContextID::default` and `TaskID::default`. */
  class IdCounter {
    var next: nat
    ghost var issued: nat

    ghost predicate Valid()
      reads this
    {
      next == IdOf(issued)
    }

    constructor ()
      ensures Valid() && issued == 0
    {
      next, issued := 0, 0;
    }

    method FetchAdd() returns (id: nat)
      requires Valid()
      modifies this
      ensures Valid() && id == IdOf(old(issued)) && issued == old(issued) + 1
    {
      id := next;
      next := (next + 1) % ID_SPACE;
      issued := issued + 1;
    }
  }

  // ----- background tasks -----

  /** A spawned task: it finishes by itself or is aborted through its join handle. */
  class Job {
    var finished: bool
    var aborted: bool

    predicate Running()
      reads this
    {
      !finished && !aborted
    }

    constructor ()
      ensures Running()
    {
      finished, aborted := false, false;
    }

    method Abort()
      modifies this`aborted
      ensures !Running()
    {
      aborted := true;
    }
  }

  /** Jobs are told apart by when their id was handed out. */
  ghost predicate Ordered(jobs: seq<Job>, places: seq<nat>, issued: nat) {
    && |places| == |jobs|
    && (forall i, j :: 0 <= i < j < |jobs| ==> jobs[i] != jobs[j] && places[i] < places[j])
    && forall j :: 0 <= j < |places| ==> places[j] < issued
  }

  /** Every entry is a spawned job under its id. */
  ghost predicate Entries(tasks: map<nat, Job>, jobs: seq<Job>, places: seq<nat>)
    requires |places| == |jobs|
  {
    forall id :: id in tasks ==> exists j :: 0 <= j < |jobs| && IsEntry(jobs[j], places[j], tasks[id], id)
  }

  predicate IsEntry(job: Job, place: nat, entry: Job, id: nat) {
    job == entry && IdOf(place) == id
  }

  /** Every job that still runs has its own entry. */
  ghost predicate Contained(tasks: map<nat, Job>, jobs: seq<Job>, places: seq<nat>)
    requires |places| == |jobs|
    reads jobs
  {
    forall j :: 0 <= j < |jobs| && jobs[j].Running() ==> IdOf(places[j]) in tasks && tasks[IdOf(places[j])] == jobs[j]
  }

  lemma EntryOf(tasks: map<nat, Job>, jobs: seq<Job>, places: seq<nat>, id: nat) returns (j: nat)
    requires |places| == |jobs| && Entries(tasks, jobs, places) && id in tasks
    ensures j < |jobs| && jobs[j] == tasks[id] && IdOf(places[j]) == id
  {
    j :| 0 <= j < |jobs| && IsEntry(jobs[j], places[j], tasks[id], id);
  }

  lemma EntriesGrow(tasks: map<nat, Job>, jobs: seq<Job>, places: seq<nat>, job: Job, place: nat)
    requires |places| == |jobs| && Entries(tasks, jobs, places)
    ensures Entries(tasks[IdOf(place) := job], jobs + [job], places + [place])
  {
    var js, ps, ts := jobs + [job], places + [place], tasks[IdOf(place) := job];
    forall id | id in ts
      ensures exists j :: 0 <= j < |js| && IsEntry(js[j], ps[j], ts[id], id)
    {
      if id == IdOf(place) {
        assert IsEntry(js[|jobs|], ps[|jobs|], job, id);
      } else {
        var j := EntryOf(tasks, jobs, places, id);
        assert IsEntry(js[j], ps[j], tasks[id], id);
      }
    }
  }

  /** While fewer than 2^64 ids were handed out, the next one is not in use. */
  lemma FreshId(tasks: map<nat, Job>, jobs: seq<Job>, places: seq<nat>, issued: nat)
    requires Ordered(jobs, places, issued) && Entries(tasks, jobs, places) && issued < ID_SPACE
    ensures IdOf(issued) !in tasks
  {
    if IdOf(issued) in tasks {
      var j := EntryOf(tasks, jobs, places, IdOf(issued));
      IdsRepeatIff(places[j], issued);
    }
  }

  /** The jobs of one context.  Ids come from a counter shared with all other contexts. */
  class Tasks {
    const ids: IdCounter
    var tasks: map<nat, Job>
    /** Every job this context ever spawned, and how many ids had been handed out before. */
    ghost var jobs: seq<Job>
    ghost var places: seq<nat>

    ghost predicate Valid()
      reads this, ids
    {
      ids.Valid() && Ordered(jobs, places, ids.issued) && Entries(tasks, jobs, places)
    }

    ghost predicate AllContained()
      requires Valid()
      reads this, ids, jobs
    {
      Contained(tasks, jobs, places)
    }

    constructor (ids: IdCounter)
      requires ids.Valid()
      ensures Valid() && AllContained() && tasks == map[] && jobs == [] && this.ids == ids
    {
      this.ids := ids;
      tasks, jobs, places := map[], [], [];
    }

    /** Exactly one entry: a running job stands under its own id and under no other. */
    lemma ExactlyOneEntry(j: nat, id: nat)
      requires Valid() && AllContained() && j < |jobs| && jobs[j].Running()
      ensures id in tasks && tasks[id] == jobs[j] <==> id == IdOf(places[j])
    {
      if id in tasks && tasks[id] == jobs[j] {
        var i := EntryOf(tasks, jobs, places, id);
        assert i == j;
      }
    }

    /**
     * `spawn_task`.  No running job is ever lost unless the fresh id overwrites its entry, which takes a
     * counter that has wrapped.
     */
    method SpawnTask() returns (id: nat, job: Job)
      requires Valid()
      modifies this, ids
      ensures Valid() && fresh(job) && job.Running() && id == IdOf(old(ids.issued)) && ids.issued == old(ids.issued) + 1
      ensures tasks == old(tasks)[id := job] && jobs == old(jobs) + [job] && places == old(places) + [old(ids.issued)]
      ensures old(ids.issued) < ID_SPACE ==> id !in old(tasks)
      ensures old(AllContained()) ==> (AllContained() <==> !(id in old(tasks) && old(tasks)[id].Running()))
    {
      hide Entries, IdOf;
      ghost var place, before := ids.issued, tasks;
      if place < ID_SPACE {
        FreshId(tasks, jobs, places, place);
      }
      id := ids.FetchAdd();
      job := new Job();
      EntriesGrow(tasks, jobs, places, job, place);
      ghost var js, ps := jobs, places;
      tasks := tasks[id := job];
      jobs, places := jobs + [job], places + [place];
      if id in before {
        ghost var j := EntryOf(before, js, ps, id);
        assert jobs[j] == before[id];
      }
    }

    /** `stop_task`: aborts the job if its entry is still there, and nothing else. */
    method StopTask(id: nat)
      requires Valid()
      modifies this`tasks, if id in tasks then {tasks[id]} else {}
      ensures Valid() && tasks == old(tasks) - {id} && jobs == old(jobs) && places == old(places)
      ensures id in old(tasks) ==> !old(tasks)[id].Running()
      ensures old(AllContained()) ==> AllContained()
    {
      hide IdOf;
      if id in tasks {
        var job := tasks[id];
        tasks := tasks - {id};
        job.Abort();
      }
    }

    /** Some job spawned under this id still runs. */
    ghost predicate StillRuns(id: nat)
      requires Valid()
      reads this, ids, jobs
    {
      exists j :: 0 <= j < |jobs| && IdOf(places[j]) == id && jobs[j].Running()
    }

    /**
     * `is_task_finished`: Some(false) exactly if a job spawned under this id still runs, so None, which only
     * says that the entry is gone, never hides a running job; Some(true) tells of a job that ended.
     */
    method IsTaskFinished(id: nat) returns (finished: Option<bool>)
      requires Valid()
      ensures finished == Some(false) ==> StillRuns(id)
      ensures AllContained() ==> (finished == Some(false) <==> StillRuns(id))
      ensures finished == Some(true) ==> exists j :: 0 <= j < |jobs| && IdOf(places[j]) == id && !jobs[j].Running()
    {
      finished := None;
      if id in tasks {
        ghost var j := EntryOf(tasks, jobs, places, id);
        finished := Some(!tasks[id].Running());
      }
    }

    /** `gc` drops the handles of finished jobs and of no others. */
    method Gc()
      requires Valid()
      modifies this`tasks
      ensures Valid() && jobs == old(jobs) && places == old(places)
      ensures forall id :: id in tasks <==> id in old(tasks) && old(tasks)[id].Running()
      ensures forall id :: id in tasks ==> tasks[id] == old(tasks)[id]
      ensures old(AllContained()) ==> AllContained()
    {
      hide Entries, Contained;
      var rest, kept := tasks.Keys, map[];
      while rest != {}
        invariant tasks == old(tasks) && rest <= tasks.Keys
        invariant forall id :: id in kept <==> id in tasks.Keys - rest && tasks[id].Running()
        invariant forall id :: id in kept ==> kept[id] == tasks[id]
        decreases |rest|
      {
        var id :| id in rest;
        rest := rest - {id};
        if tasks[id].Running() {
          kept := kept[id := tasks[id]];
        }
      }
      FewerEntries(tasks, kept, jobs, places);
      KeptRunning(tasks, kept, jobs, places);
      tasks := kept;
    }

    /** A job may finish at any time; containment only speaks of jobs that run. */
    method JobFinishes(job: Job)
      requires Valid() && job in jobs
      modifies job`finished
      ensures Valid() && !job.Running() && (old(AllContained()) ==> AllContained())
    {
      hide Entries, Ordered, IdOf;
      job.finished := true;
    }

    /** Dropping the context aborts every entry, so no contained job outlives it. */
    method Drop()
      requires Valid()
      modifies this`tasks, tasks.Values
      ensures Valid() && tasks == map[] && jobs == old(jobs) && places == old(places)
      ensures old(AllContained()) ==> forall j :: 0 <= j < |jobs| ==> !jobs[j].Running()
    {
      hide Entries, IdOf, Contained;
      ghost var all := tasks.Values;
      while tasks.Keys != {}
        invariant Valid() && jobs == old(jobs) && places == old(places) && tasks.Values <= all
        invariant old(AllContained()) ==> AllContained()
        decreases |tasks.Keys|
      {
        var id :| id in tasks.Keys;
        assert tasks[id] in tasks.Values;
        StopTask(id);
      }
      NothingContained(tasks, jobs, places);
    }
  }

  /** With an empty map, containment leaves no job running. */
  lemma NothingContained(tasks: map<nat, Job>, jobs: seq<Job>, places: seq<nat>)
    requires tasks.Keys == {} && |places| == |jobs|
    ensures tasks == map[]
    ensures Contained(tasks, jobs, places) ==> forall j :: 0 <= j < |jobs| ==> !jobs[j].Running()
  {
  }

  lemma FewerEntries(tasks: map<nat, Job>, kept: map<nat, Job>, jobs: seq<Job>, places: seq<nat>)
    requires |places| == |jobs| && Entries(tasks, jobs, places)
    requires forall id :: id in kept ==> id in tasks && kept[id] == tasks[id]
    ensures Entries(kept, jobs, places)
  {
  }

  lemma KeptRunning(tasks: map<nat, Job>, kept: map<nat, Job>, jobs: seq<Job>, places: seq<nat>)
    requires |places| == |jobs|
    requires forall id :: id in tasks && tasks[id].Running() ==> id in kept && kept[id] == tasks[id]
    ensures Contained(tasks, jobs, places) ==> Contained(kept, jobs, places)
  {
  }

  // ----- children -----

  /** A child's strong sender as the context sees it: the message type it takes, whether it runs, what it was sent. */
  class Child {
    const tag: nat
    var running: bool
    var inbox: seq<nat>

    constructor (tag: nat)
      ensures this.tag == tag && running && inbox == []
    {
      this.tag, running, inbox := tag, true, [];
    }

    /** `force_send` of a clone; the error of a stopped child is only logged. */
    method Offer(msg: nat)
      modifies this`inbox
      ensures inbox == if running then old(inbox) + [msg] else old(inbox)
    {
      if running {
        inbox := inbox + [msg];
      }
    }
  }

  /** One `add_child` or `register_child`; `gone` once a gc saw the child stopped. */
  datatype Registration = Registration(tag: nat, child: Child, gone: bool)

  /** The children registered under `tag` that no gc has seen stopped, in registration order. */
  ghost function Listed(history: seq<Registration>, tag: nat): seq<Child> {
    if history == [] then []
    else
      var r := history[|history| - 1];
      Listed(history[..|history| - 1], tag) + if r.tag == tag && !r.gone then [r.child] else []
  }

  /** What a gc makes of the history: every stopped child's registrations are gone. */
  ghost function Collected(history: seq<Registration>): (h: seq<Registration>)
    reads set r | r in history :: r.child
    ensures |h| == |history|
    ensures forall k :: 0 <= k < |h| ==> h[k] == history[k].(gone := history[k].gone || !history[k].child.running)
  {
    if history == [] then []
    else
      var r := history[|history| - 1];
      Collected(history[..|history| - 1]) + [r.(gone := r.gone || !r.child.running)]
  }

  ghost function Running(list: seq<Child>): seq<Child>
    reads list
  {
    if list == [] then []
    else Running(list[..|list| - 1]) + if list[|list| - 1].running then [list[|list| - 1]] else []
  }

  lemma ListedSnoc(history: seq<Registration>, r: Registration, tag: nat)
    ensures Listed(history + [r], tag) == Listed(history, tag) + if r.tag == tag && !r.gone then [r.child] else []
  {
    assert (history + [r])[..|history|] == history;
  }

  lemma RunningSnoc(list: seq<Child>, c: Child)
    ensures Running(list + [c]) == Running(list) + if c.running then [c] else []
  {
    assert (list + [c])[..|list|] == list;
  }

  /** Retaining the running children of every list is collecting the history. */
  lemma {:induction false} CollectedLists(history: seq<Registration>, tag: nat)
    ensures Listed(Collected(history), tag) == Running(Listed(history, tag))
  {
    if history != [] {
      var init, r := history[..|history| - 1], history[|history| - 1];
      CollectedLists(init, tag);
      var c := r.(gone := r.gone || !r.child.running);
      assert Collected(history) == Collected(init) + [c];
      ListedSnoc(Collected(init), c, tag);
      if r.tag == tag && !r.gone {
        RunningSnoc(Listed(init, tag), r.child);
      } else {
        assert Listed(history, tag) == Listed(init, tag);
      }
    }
  }

  ghost predicate Registered(history: seq<Registration>, tag: nat, c: Child) {
    exists k :: 0 <= k < |history| && history[k] == Registration(tag, c, false)
  }

  lemma RegisteredSnoc(history: seq<Registration>, r: Registration, tag: nat, c: Child)
    ensures Registered(history + [r], tag, c) <==> Registered(history, tag, c) || r == Registration(tag, c, false)
  {
    var next := history + [r];
    assert next[|history|] == r;
    if Registered(history, tag, c) {
      var k :| 0 <= k < |history| && history[k] == Registration(tag, c, false);
      assert next[k] == history[k];
    }
  }

  /** A child is in the list of a tag exactly if some registration of it there was not seen stopped by a gc. */
  lemma {:induction false} ListedMembers(history: seq<Registration>, tag: nat, c: Child)
    ensures c in Listed(history, tag) <==> Registered(history, tag, c)
  {
    if history != [] {
      var init, r := history[..|history| - 1], history[|history| - 1];
      ListedMembers(init, tag, c);
      RegisteredSnoc(init, r, tag, c);
      assert history == init + [r];
      hide Registered;
    }
  }

  function Copies(n: nat, msg: nat): seq<nat> {
    if n == 0 then [] else Copies(n - 1, msg) + [msg]
  }

  function Occurrences(list: seq<Child>, c: Child): nat {
    if list == [] then 0 else Occurrences(list[..|list| - 1], c) + if list[|list| - 1] == c then 1 else 0
  }

  lemma {:induction false} OccurrencesCount(list: seq<Child>, c: Child)
    ensures Occurrences(list, c) == multiset(list)[c]
  {
    if list != [] {
      OccurrencesCount(list[..|list| - 1], c);
      assert list == list[..|list| - 1] + [list[|list| - 1]];
    }
  }

  lemma {:induction false} CopiesAll(n: nat, msg: nat)
    ensures Copies(n, msg) == seq(n, _ => msg)
  {
    if n > 0 {
      CopiesAll(n - 1, msg);
    }
  }

  lemma OccurrencesNext(list: seq<Child>, i: nat)
    requires i < |list|
    ensures forall c :: Occurrences(list[..i + 1], c) == Occurrences(list[..i], c) + if c == list[i] then 1 else 0
  {
    assert list[..i + 1][..i] == list[..i];
  }

  lemma OccurrencesNone(list: seq<Child>)
    ensures forall c :: Occurrences(list[..0], c) == 0
  {
  }

  /** `inbox` is `before` with `n` clones of `msg`, or just `before` for a child that does not run. */
  ghost predicate Offered(before: seq<nat>, inbox: seq<nat>, running: bool, n: nat, msg: nat) {
    inbox == before + if running then Copies(n, msg) else []
  }

  lemma OfferedNext(before: seq<nat>, inbox: seq<nat>, running: bool, n: nat, msg: nat)
    requires Offered(before, inbox, running, n, msg)
    ensures Offered(before, if running then inbox + [msg] else inbox, running, n + 1, msg)
  {
  }

  lemma OfferedNone(before: seq<nat>, running: bool, msg: nat)
    ensures Offered(before, before, running, 0, msg)
  {
  }

  class Children {
    var children: map<nat, seq<Child>>
    ghost var history: seq<Registration>

    /** The list under each message type is what was registered for it, minus what a gc saw stopped. */
    ghost predicate Valid()
      reads this
    {
      && (forall k :: 0 <= k < |history| ==> history[k].child.tag == history[k].tag)
      && (forall tag :: tag in children ==> children[tag] == Listed(history, tag))
      && (forall tag :: tag !in children ==> Listed(history, tag) == [])
      && forall tag :: tag in children ==> forall k :: 0 <= k < |children[tag]| ==> children[tag][k].tag == tag
    }

    constructor ()
      ensures Valid() && history == []
    {
      children, history := map[], [];
    }

    /** `add_child` (under the unit message) and `register_child`. */
    method Register(child: Child)
      requires Valid()
      modifies this
      ensures Valid() && history == old(history) + [Registration(child.tag, child, false)]
      ensures children == old(children)[child.tag :=
                (if child.tag in old(children) then old(children)[child.tag] else []) + [child]]
    {
      var tag := child.tag;
      ghost var r := Registration(tag, child, false);
      forall t | true
        ensures Listed(history + [r], t) == Listed(history, t) + if t == tag then [child] else []
      {
        ListedSnoc(history, r, t);
      }
      hide Listed;
      children := children[tag := (if tag in children then children[tag] else []) + [child]];
      history := history + [r];
    }

    /** `gc`: every list loses its stopped children; a running child is never lost. */
    method RemoveStopped()
      requires Valid()
      modifies this
      ensures Valid() && history == old(Collected(history)) && children.Keys == old(children.Keys)
    {
      hide Listed, Collected, Running;
      var rest, kept := children.Keys, children;
      while rest != {}
        invariant rest <= children.Keys == kept.Keys && children == old(children) && history == old(history)
        invariant forall tag :: tag in rest ==> kept[tag] == children[tag]
        invariant forall tag :: tag in children.Keys - rest ==> kept[tag] == Running(children[tag])
        decreases |rest|
      {
        var tag :| tag in rest;
        rest := rest - {tag};
        var list := Retain(children[tag]);
        kept := kept[tag := list];
      }
      ghost var after := Collected(history);
      forall tag | true
        ensures Listed(after, tag) == Running(Listed(history, tag))
      {
        CollectedLists(history, tag);
      }
      forall tag | tag in kept
        ensures forall k :: 0 <= k < |kept[tag]| ==> kept[tag][k].tag == tag
      {
        RunningTags(children[tag], tag);
      }
      EmptyRunning();
      children := kept;
      history := after;
    }

    method Retain(list: seq<Child>) returns (kept: seq<Child>)
      ensures kept == Running(list)
    {
      kept := [];
      var i := 0;
      while i < |list|
        invariant 0 <= i <= |list| && kept == Running(list[..i])
      {
        RunningSnoc(list[..i], list[i]);
        assert list[..i + 1] == list[..i] + [list[i]];
        if list[i].running {
          kept := kept + [list[i]];
        }
        i := i + 1;
      }
      assert list[..i] == list;
    }

    /** `send_to_children`: one clone is offered per listing under the message's type, and to nobody else. */
    method Forward(tag: nat, msg: nat)
      requires Valid()
      modifies if tag in children then set c | c in children[tag] else {}
      ensures Valid() && history == old(history) && children == old(children)
      ensures tag in children ==> forall c :: c in children[tag] ==>
                c.inbox == old(c.inbox) + if c.running then seq(multiset(children[tag])[c], _ => msg) else []
    {
      if tag in children {
        hide Occurrences, Listed, Copies;
        OfferAll(children[tag], tag, msg);
        forall c | c in children[tag]
          ensures Copies(Occurrences(children[tag], c), msg) == seq(multiset(children[tag])[c], _ => msg)
        {
          OccurrencesCount(children[tag], c);
          CopiesAll(multiset(children[tag])[c], msg);
        }
      }
    }

    /** The loop over one list, whose entries all are senders of the message type. */
    method OfferAll(list: seq<Child>, tag: nat, msg: nat)
      requires forall k :: 0 <= k < |list| ==> list[k].tag == tag
      modifies set c | c in list
      ensures forall c :: c in list ==>
                Offered(old(c.inbox), c.inbox, c.running, Occurrences(list, c), msg)
    {
      hide Occurrences, Offered;
      OccurrencesNone(list);
      forall c | c in list
        ensures Offered(c.inbox, c.inbox, c.running, 0, msg)
      {
        OfferedNone(c.inbox, c.running, msg);
      }
      var i := 0;
      while i < |list|
        invariant 0 <= i <= |list|
        invariant forall c :: c in list ==> Offered(old(c.inbox), c.inbox, c.running, Occurrences(list[..i], c), msg)
      {
        OccurrencesNext(list, i);
        var child := list[i];
        OfferedNext(old(child.inbox), child.inbox, child.running, Occurrences(list[..i], child), msg);
        if child.tag == tag {
          child.Offer(msg);
        }
        i := i + 1;
      }
      assert list[..i] == list;
    }
  }

  lemma {:induction false} RunningMembers(list: seq<Child>)
    ensures forall c :: c in Running(list) <==> c in list && c.running
  {
    if list != [] {
      RunningMembers(list[..|list| - 1]);
      assert list == list[..|list| - 1] + [list[|list| - 1]];
    }
  }

  lemma RunningTags(list: seq<Child>, tag: nat)
    requires forall k :: 0 <= k < |list| ==> list[k].tag == tag
    ensures forall k :: 0 <= k < |Running(list)| ==> Running(list)[k].tag == tag
  {
    RunningMembers(list);
    forall k | 0 <= k < |Running(list)|
      ensures Running(list)[k].tag == tag
    {
      assert Running(list)[k] in Running(list);
    }
  }

  lemma EmptyRunning()
    ensures Running([]) == []
  {
  }
}
