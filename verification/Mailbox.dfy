/**
 * The contract of the mailbox: an `async_channel` queue of payloads with an optional capacity,
 * a count of strong senders and a permanent `closed` bit.  `Box` is what the channel stores;
 * `Ledger` adds the history of what was ever accepted and what became of it.
 */
module Mailbox {
  import opened Base

  datatype Box<+T> = Box(queue: seq<T>, capacity: Option<nat>, strong: nat, closed: bool)

  /** What happened to an accepted entry that is no longer queued. */
  datatype Fate = Taken(turn: nat) | Displaced

  datatype Ledger<+T> = Ledger(box: Box<T>, accepted: seq<T>, fates: seq<Fate>, forces: nat)

  predicate Full<T>(b: Box<T>) {
    b.capacity.Some? && b.capacity.value <= |b.queue|
  }

  predicate Upgradable<T>(b: Box<T>) {
    !b.closed && b.strong > 0
  }

  function Fresh<T>(capacity: Option<nat>): Ledger<T> {
    Ledger(Box([], capacity, 1, false), [], [], 0)
  }

  /** `try_send`/`send` once there is room: the entry joins the end of the queue. */
  function Enqueue<T>(l: Ledger<T>, x: T): Ledger<T> {
    l.(box := l.box.(queue := l.box.queue + [x]), accepted := l.accepted + [x])
  }

  /** `force_send`: a full queue first loses its oldest entry. */
  function Force<T>(l: Ledger<T>, x: T): Ledger<T> {
    if Full(l.box) && l.box.queue != [] then
      l.(box := l.box.(queue := l.box.queue[1..] + [x]), accepted := l.accepted + [x],
         fates := l.fates + [Displaced], forces := l.forces + 1)
    else
      Enqueue(l, x).(forces := l.forces + 1)
  }

  /** The receiver takes the oldest entry, in its `turn`-th turn. */
  function Dequeue<T>(l: Ledger<T>, turn: nat): Ledger<T>
    requires l.box.queue != []
  {
    l.(box := l.box.(queue := l.box.queue[1..]), fates := l.fates + [Taken(turn)])
  }

  function AddRefs<T>(l: Ledger<T>, n: nat): Ledger<T> {
    l.(box := l.box.(strong := l.box.strong + n))
  }

  /** Dropping the last strong sender closes the channel for good. */
  function DropRefs<T>(l: Ledger<T>, n: nat): Ledger<T>
    requires n <= l.box.strong
  {
    l.(box := l.box.(strong := l.box.strong - n, closed := l.box.closed || (n > 0 && l.box.strong == n)))
  }

  function CloseReceiver<T>(l: Ledger<T>): Ledger<T> {
    l.(box := l.box.(closed := true))
  }

  function CountDisplaced(fates: seq<Fate>): nat {
    if fates == [] then 0
    else CountDisplaced(fates[..|fates| - 1]) + if fates[|fates| - 1].Displaced? then 1 else 0
  }

  lemma CountDisplacedAppend(fates: seq<Fate>, f: Fate)
    ensures CountDisplaced(fates + [f]) == CountDisplaced(fates) + if f.Displaced? then 1 else 0
  {
    assert (fates + [f])[..|fates|] == fates;
  }

  lemma {:induction false} NoneDisplaced(fates: seq<Fate>, i: nat)
    requires CountDisplaced(fates) == 0 && i < |fates|
    ensures fates[i].Taken?
  {
    if i < |fates| - 1 {
      NoneDisplaced(fates[..|fates| - 1], i);
    }
  }

  /**
   * Conservation: the queue is exactly the suffix of the accepted sequence whose fate is still open,
   * so every other entry is labelled once, and no more entries are displaced than were forced in.
   */
  ghost predicate Conserved<T>(l: Ledger<T>) {
    && |l.fates| <= |l.accepted|
    && l.box.queue == l.accepted[|l.fates|..]
    && (l.box.capacity.Some? ==> 1 <= l.box.capacity.value && |l.box.queue| <= l.box.capacity.value)
    && CountDisplaced(l.fates) <= l.forces
    && (l.box.capacity.None? ==> CountDisplaced(l.fates) == 0)
    && (l.box.strong == 0 ==> l.box.closed)
  }

  /** `m` is a later ledger of the same channel: history only grows, `closed` stays. */
  ghost predicate Extends<T>(l: Ledger<T>, m: Ledger<T>) {
    && l.accepted <= m.accepted
    && l.fates <= m.fates
    && l.forces <= m.forces
    && l.box.capacity == m.box.capacity
    && (l.box.closed ==> m.box.closed)
  }

  lemma EnqueueConserves<T>(l: Ledger<T>, x: T)
    requires Conserved(l) && !Full(l.box)
    ensures Conserved(Enqueue(l, x)) && Extends(l, Enqueue(l, x))
  {
    assert (l.accepted + [x])[|l.fates|..] == l.accepted[|l.fates|..] + [x];
  }

  lemma ForceConserves<T>(l: Ledger<T>, x: T)
    requires Conserved(l)
    ensures Conserved(Force(l, x)) && Extends(l, Force(l, x))
    ensures Force(l, x).accepted == l.accepted + [x]
  {
    var m := Force(l, x);
    if Full(l.box) {
      CountDisplacedAppend(l.fates, Displaced);
      assert m.accepted[|m.fates|..] == l.accepted[|l.fates|..][1..] + [x];
    } else {
      EnqueueConserves(l, x);
    }
  }

  lemma DequeueConserves<T>(l: Ledger<T>, turn: nat)
    requires Conserved(l) && l.box.queue != []
    ensures Conserved(Dequeue(l, turn)) && Extends(l, Dequeue(l, turn))
    ensures l.box.queue[0] == l.accepted[|l.fates|]
  {
    CountDisplacedAppend(l.fates, Taken(turn));
    assert l.accepted[|l.fates| + 1..] == l.accepted[|l.fates|..][1..];
  }

  /**
   * The channel object itself, shared by every address of an actor.  The ghost history makes
   * each method's effect exactly the ledger operation of the same name.
   */
  class Channel<T> {
    var queue: seq<T>
    var strong: nat
    var closed: bool
    const capacity: Option<nat>
    ghost var accepted: seq<T>
    ghost var fates: seq<Fate>
    ghost var forces: nat

    ghost function Now(): Ledger<T>
      reads this
    {
      Ledger(Box(queue, capacity, strong, closed), accepted, fates, forces)
    }

    ghost predicate Valid()
      reads this
    {
      Conserved(Now())
    }

    constructor (capacity: Option<nat>)
      requires capacity.Some? ==> 1 <= capacity.value
      ensures Valid() && Now() == Fresh(capacity)
    {
      this.capacity := capacity;
      queue, strong, closed := [], 1, false;
      accepted, fates, forces := [], [], 0;
    }

    method TrySend(x: T) returns (ok: bool)
      requires Valid()
      modifies this
      ensures Valid()
      ensures ok <==> !old(closed) && (capacity.None? || |old(queue)| < capacity.value)
      ensures queue == old(queue) + (if ok then [x] else []) && accepted == old(accepted) + (if ok then [x] else [])
      ensures Now() == if ok then Enqueue(old(Now()), x) else old(Now())
    {
      var full := capacity.Some? && capacity.value <= |queue|;
      ok := !closed && !full;
      if ok {
        EnqueueConserves(Now(), x);
        queue := queue + [x];
        accepted := accepted + [x];
      }
    }

    method ForceSend(x: T) returns (ok: bool)
      requires Valid()
      modifies this
      ensures Valid()
      ensures ok == !old(closed)
      ensures ok ==>
                && accepted == old(accepted) + [x]
                && if capacity.None? || |old(queue)| < capacity.value then queue == old(queue) + [x] && fates == old(fates)
                   else old(queue) != [] && queue == old(queue)[1..] + [x] && fates == old(fates) + [Displaced]
      ensures Now() == if ok then Force(old(Now()), x) else old(Now())
    {
      ok := !closed;
      if ok {
        ForceConserves(Now(), x);
        if capacity.Some? && capacity.value <= |queue| {
          queue := queue[1..] + [x];
          fates := fates + [Displaced];
        } else {
          queue := queue + [x];
        }
        accepted := accepted + [x];
        forces := forces + 1;
      }
    }

    method Recv(ghost turn: nat) returns (x: Option<T>)
      requires Valid()
      modifies this
      ensures Valid()
      ensures x == if old(queue) == [] then None else Some(old(queue)[0])
      ensures Now() == if old(queue) == [] then old(Now()) else Dequeue(old(Now()), turn)
    {
      if queue == [] {
        x := None;
      } else {
        DequeueConserves(Now(), turn);
        x := Some(queue[0]);
        queue := queue[1..];
        fates := fates + [Taken(turn)];
      }
    }

    method CloneRef()
      requires Valid() && strong > 0
      modifies this`strong
      ensures Valid() && Now() == AddRefs(old(Now()), 1)
    {
      strong := strong + 1;
    }

    method DropRef()
      requires Valid() && strong > 0
      modifies this`strong, this`closed
      ensures Valid() && Now() == DropRefs(old(Now()), 1)
      ensures strong == old(strong) - 1 && (closed <==> old(closed) || strong == 0)
    {
      strong := strong - 1;
      if strong == 0 {
        closed := true;
      }
    }

    method Upgrade() returns (ok: bool)
      requires Valid()
      modifies this`strong
      ensures Valid()
      ensures ok <==> !old(closed) && old(strong) > 0
      ensures Now() == if ok then AddRefs(old(Now()), 1) else old(Now())
    {
      ok := !closed && strong > 0;
      if ok {
        strong := strong + 1;
      }
    }

    method DropReceiver()
      requires Valid()
      modifies this`closed
      ensures Valid() && Now() == CloseReceiver(old(Now()))
    {
      closed := true;
    }
  }
}
