/**
 * Publish/subscribe on top of one actor.  The broker handles its messages one after the other; while it
 * delivers a publication, subscribers may stop at any moment, and a stopped subscriber never comes back.
 */
module Broker {
  import opened Base

  /**
   * A subscriber as the broker meets it: the running flag `up`, the mailbox `open`, what the mailbox
   * accepted from the broker, and which publications these were.
   */
  datatype Peer<+T> = Peer(up: bool, open: bool, inbox: seq<T>, log: seq<nat>)

  datatype Net<+T> = Net(peers: seq<Peer<T>>, members: set<nat>, published: seq<T>)

  datatype Event = Subscribe(peer: nat) | Unsubscribe(peer: nat) | Publish | Stop

  /** A send to a dead peer fails, whether its flag is down or its mailbox closed. */
  predicate Dead<T>(p: Peer<T>) {
    !p.up || !p.open
  }

  /** Flags fall and mailboxes close, for good. */
  predicate Declines<T>(p: Peer<T>, q: Peer<T>) {
    (q.up ==> p.up) && (q.open ==> p.open)
  }

  ghost predicate OnlyDeclines<T>(p: Peer<T>, q: Peer<T>) {
    Declines(p, q) && q.(up := p.up, open := p.open) == p
  }

  function Start<T>(n: nat): Net<T> {
    Net(seq(n, _ => Peer(true, true, [], [])), {}, [])
  }

  // ----- the steps -----

  /** The mailbox accepted publication `k`. */
  function Receive<T>(p: Peer<T>, k: nat, msg: T): Peer<T> {
    p.(inbox := p.inbox + [msg], log := p.log + [k])
  }

  /** What one publication may do to one peer. */
  ghost predicate Delivered<T>(p: Peer<T>, q: Peer<T>, member: bool, k: nat, msg: T) {
    && Declines(p, q)
    && if q.log == p.log then q.(up := p.up, open := p.open) == p && (member ==> Dead(q))
       else member && !Dead(p) && q.(up := p.up, open := p.open) == Receive(p, k, msg)
  }

  /**
   * The handler of `Publish`: every member that does not die on the way receives it once; those
   * that were closed before it are dropped, and only closed ones.
   */
  ghost predicate Publishes<T>(n: Net<T>, m: Net<T>, msg: T) {
    && |m.peers| == |n.peers| && m.published == n.published + [msg]
    && m.members <= n.members
    && (forall i :: i in m.members && i < |n.peers| ==> n.peers[i].open)
    && (forall i :: i in n.members && i !in m.members && i < |m.peers| ==> !m.peers[i].open)
    && forall i :: 0 <= i < |n.peers| ==> Delivered(n.peers[i], m.peers[i], i in n.members, |n.published|, msg)
  }

  ghost predicate Next<T(!new)>(n: Net<T>, m: Net<T>, e: Event) {
    match e
    case Subscribe(i) => i < |n.peers| && m == n.(members := n.members + {i})
    case Unsubscribe(i) => m == n.(members := n.members - {i})
    case Publish => exists msg :: Publishes(n, m, msg)
    case Stop => && |m.peers| == |n.peers| && m.members == n.members && m.published == n.published
                 && forall i :: 0 <= i < |n.peers| ==> OnlyDeclines(n.peers[i], m.peers[i])
  }

  /** `nets` is a history of the broker and `es` what led from each state to the next. */
  ghost predicate IsHistory<T(!new)>(nets: seq<Net<T>>, es: seq<Event>) {
    && |nets| == |es| + 1
    && (exists n: nat :: nets[0] == Start(n))
    && forall k :: 0 <= k < |es| ==> Next(nets[k], nets[k + 1], es[k])
  }

  lemma HistoryStep<T(!new)>(nets: seq<Net<T>>, es: seq<Event>, k: nat)
    requires IsHistory(nets, es) && k + 1 < |nets|
    ensures |nets| == |es| + 1 && Next(nets[k], nets[k + 1], es[k])
  {
  }

  predicate Increasing(log: seq<nat>) {
    forall j, k :: 0 <= j < k < |log| ==> log[j] < log[k]
  }

  /** A mailbox holds published messages, each at most once, in publication order. */
  ghost predicate GoodPeer<T>(p: Peer<T>, published: seq<T>) {
    && Increasing(p.log) && |p.inbox| == |p.log|
    && forall k :: 0 <= k < |p.log| ==> p.log[k] < |published| && p.inbox[k] == published[p.log[k]]
  }

  ghost predicate Inv<T>(n: Net<T>) {
    && (forall i :: i in n.members ==> i < |n.peers|)
    && forall i :: 0 <= i < |n.peers| ==> GoodPeer(n.peers[i], n.published)
  }

  lemma PublishKeeps<T>(n: Net<T>, m: Net<T>, msg: T)
    requires Inv(n) && Publishes(n, m, msg)
    ensures Inv(m)
  {
    forall i | 0 <= i < |m.peers|
      ensures GoodPeer(m.peers[i], m.published)
    {
      assert Delivered(n.peers[i], m.peers[i], i in n.members, |n.published|, msg) && GoodPeer(n.peers[i], n.published);
    }
  }

  lemma MembersKeep<T>(n: Net<T>, members: set<nat>)
    requires Inv(n) && forall i :: i in members ==> i < |n.peers|
    ensures Inv(n.(members := members))
  {
  }

  lemma InvNext<T(!new)>(n: Net<T>, m: Net<T>, e: Event)
    requires Inv(n) && Next(n, m, e)
    ensures Inv(m) && |m.peers| == |n.peers|
  {
    match e {
      case Subscribe(i) => MembersKeep(n, n.members + {i});
      case Unsubscribe(i) => MembersKeep(n, n.members - {i});
      case Publish =>
        var msg :| Publishes(n, m, msg);
        PublishKeeps(n, m, msg);
      case Stop =>
        forall i | 0 <= i < |m.peers|
          ensures GoodPeer(m.peers[i], m.published)
        {
          assert GoodPeer(n.peers[i], n.published) && OnlyDeclines(n.peers[i], m.peers[i]);
        }
    }
  }

  lemma {:induction false} InvHistory<T(!new)>(nets: seq<Net<T>>, es: seq<Event>, k: nat)
    requires IsHistory(nets, es) && k < |nets|
    ensures Inv(nets[k]) && |nets[k].peers| == |nets[0].peers|
  {
    if k > 0 {
      InvHistory(nets, es, k - 1);
      assert Next(nets[k - 1], nets[k], es[k - 1]);
      hide Next, Inv;
      InvNext(nets[k - 1], nets[k], es[k - 1]);
    }
  }

  // ----- what every subscriber sees -----

  /** In every reachable state each subscriber has received every publication at most once, in publication order. */
  lemma OnceInOrder<T(!new)>(nets: seq<Net<T>>, es: seq<Event>, k: nat, i: nat)
    requires IsHistory(nets, es) && k < |nets| && i < |nets[k].peers|
    ensures var p := nets[k].peers[i];
            && Increasing(p.log) && |p.inbox| == |p.log|
            && forall j :: 0 <= j < |p.log| ==>
                 p.log[j] < |nets[k].published| && p.inbox[j] == nets[k].published[p.log[j]]
  {
    InvHistory(nets, es, k);
    assert GoodPeer(nets[k].peers[i], nets[k].published);
  }

  /** Any two subscribers agree on the order of the publications they both received. */
  lemma CommonOrder<T(!new)>(
    nets: seq<Net<T>>, es: seq<Event>, k: nat, i: nat, j: nat, a: nat, b: nat, c: nat, d: nat)
    requires IsHistory(nets, es) && k < |nets| && i < |nets[k].peers| && j < |nets[k].peers|
    requires a < |nets[k].peers[i].log| && b < |nets[k].peers[i].log|
    requires c < |nets[k].peers[j].log| && d < |nets[k].peers[j].log|
    requires nets[k].peers[i].log[a] == nets[k].peers[j].log[c] && nets[k].peers[i].log[b] == nets[k].peers[j].log[d]
    ensures a < b <==> c < d
  {
    OnceInOrder(nets, es, k, i);
    OnceInOrder(nets, es, k, j);
  }

  /** Whether the last that `i` asked for among the first `k` events was a subscription. */
  function Subscribed(es: seq<Event>, k: nat, i: nat): bool
    requires k <= |es|
  {
    if k == 0 then false
    else if es[k - 1] == Subscribe(i) then true
    else if es[k - 1] == Unsubscribe(i) then false
    else Subscribed(es, k - 1, i)
  }

  function PublishCount(es: seq<Event>, k: nat): nat
    requires k <= |es|
  {
    if k == 0 then 0 else PublishCount(es, k - 1) + if es[k - 1].Publish? then 1 else 0
  }

  /** The publications among the first `k` events that came while `i` was subscribed. */
  function Due(es: seq<Event>, k: nat, i: nat): seq<nat>
    requires k <= |es|
  {
    if k == 0 then []
    else Due(es, k - 1, i) + if es[k - 1].Publish? && Subscribed(es, k - 1, i) then [PublishCount(es, k - 1)] else []
  }

  /** What a subscriber received is what was due to it, cut off where it stopped. */
  ghost predicate Exact<T>(n: Net<T>, due: seq<nat>, subscribed: bool, i: nat)
    requires i < |n.peers|
  {
    && n.peers[i].log <= due
    && (i in n.members ==> subscribed)
    && (!Dead(n.peers[i]) ==> n.peers[i].log == due && (subscribed ==> i in n.members))
  }

  lemma ExactNext<T(!new)>(n: Net<T>, m: Net<T>, es: seq<Event>, k: nat, i: nat)
    requires k < |es| && Next(n, m, es[k]) && i < |n.peers| && |n.published| == PublishCount(es, k)
    requires Exact(n, Due(es, k, i), Subscribed(es, k, i), i)
    ensures |m.peers| == |n.peers| && |m.published| == PublishCount(es, k + 1)
    ensures Exact(m, Due(es, k + 1, i), Subscribed(es, k + 1, i), i)
  {
    hide Due, Subscribed, PublishCount;
    DueNext(es, k, i);
    match es[k] {
      case Subscribe(_) =>
      case Unsubscribe(_) =>
      case Publish =>
        var msg :| Publishes(n, m, msg);
        assert Delivered(n.peers[i], m.peers[i], i in n.members, |n.published|, msg);
      case Stop =>
        assert OnlyDeclines(n.peers[i], m.peers[i]);
    }
  }

  lemma DueNext(es: seq<Event>, k: nat, i: nat)
    requires k < |es|
    ensures Due(es, k + 1, i)
            == Due(es, k, i) + if es[k].Publish? && Subscribed(es, k, i) then [PublishCount(es, k)] else []
    ensures PublishCount(es, k + 1) == PublishCount(es, k) + if es[k].Publish? then 1 else 0
    ensures Subscribed(es, k + 1, i)
            <==> es[k] == Subscribe(i) || (es[k] != Unsubscribe(i) && Subscribed(es, k, i))
  {
  }

  /**
   * Delivery is exact.  At every moment a subscriber has received a prefix of what was published while it
   * was subscribed, by its own `Subscribe` and `Unsubscribe` requests, and all of it as long as it lives.
   */
  lemma {:induction false} ExactDelivery<T(!new)>(nets: seq<Net<T>>, es: seq<Event>, k: nat, i: nat)
    requires IsHistory(nets, es) && k < |nets| && i < |nets[k].peers|
    ensures Exact(nets[k], Due(es, k, i), Subscribed(es, k, i), i)
    ensures |nets[k].published| == PublishCount(es, k)
  {
    if k == 0 {
      ExactStart(nets, es, i);
    } else {
      hide Exact, Due, Subscribed, PublishCount, Inv, Next, IsHistory, Publishes, Delivered, Start;
      HistoryStep(nets, es, k - 1);
      InvHistory(nets, es, k - 1);
      InvHistory(nets, es, k);
      ExactDelivery(nets, es, k - 1, i);
      ExactNext(nets[k - 1], nets[k], es, k - 1, i);
    }
  }

  lemma ExactStart<T(!new)>(nets: seq<Net<T>>, es: seq<Event>, i: nat)
    requires IsHistory(nets, es) && i < |nets[0].peers|
    ensures Exact(nets[0], Due(es, 0, i), Subscribed(es, 0, i), i) && |nets[0].published| == PublishCount(es, 0)
  {
  }

  /** The publications `from` to `to - 1`. */
  function Range(from: nat, to: nat): seq<nat> {
    if to <= from then [] else Range(from, to - 1) + [to - 1]
  }

  lemma {:induction false} DueContiguous(es: seq<Event>, s: nat, k: nat, i: nat)
    requires s < k <= |es| && es[s] == Subscribe(i)
    requires forall e :: s < e < k ==> es[e] != Unsubscribe(i)
    ensures Subscribed(es, k, i)
    ensures PublishCount(es, s) <= PublishCount(es, k)
    ensures Due(es, k, i) == Due(es, s, i) + Range(PublishCount(es, s), PublishCount(es, k))
  {
    if k > s + 1 {
      DueContiguous(es, s, k - 1, i);
    }
  }

  lemma {:induction false} RangePrefix(from: nat, to: nat, log: seq<nat>)
    requires from <= to && log <= Range(from, to)
    ensures |log| <= to - from && log == Range(from, from + |log|)
  {
    if from < to {
      RangeLength(from, to - 1);
      if |log| <= to - 1 - from {
        assert Range(from, to)[..|log|] == Range(from, to - 1)[..|log|];
        RangePrefix(from, to - 1, log);
      }
    }
  }

  lemma {:induction false} RangeLength(from: nat, to: nat)
    requires from <= to
    ensures |Range(from, to)| == to - from
  {
    if from < to {
      RangeLength(from, to - 1);
    }
  }

  /** Nothing is taken out of a subscriber's log. */
  lemma {:induction false} LogGrows<T(!new)>(nets: seq<Net<T>>, es: seq<Event>, s: nat, k: nat, i: nat)
    requires IsHistory(nets, es) && s <= k < |nets| && i < |nets[s].peers|
    ensures i < |nets[k].peers| && nets[s].peers[i].log <= nets[k].peers[i].log
    ensures Dead(nets[s].peers[i]) ==> Dead(nets[k].peers[i]) && nets[k].peers[i].log == nets[s].peers[i].log
  {
    if s < k {
      LogGrows(nets, es, s, k - 1, i);
      var n, m := nets[k - 1], nets[k];
      assert Next(n, m, es[k - 1]);
      if es[k - 1].Publish? {
        var msg :| Publishes(n, m, msg);
        assert Delivered(n.peers[i], m.peers[i], i in n.members, |n.published|, msg);
      } else if es[k - 1].Stop? {
        assert OnlyDeclines(n.peers[i], m.peers[i]);
      }
    }
  }

  /**
   * During any subscription, the first or a later one and however often it is repeated, a subscriber
   * receives exactly one contiguous range, from the subscription on and up to the latest publication as
   * long as it lives.
   */
  lemma OneContiguousRange<T(!new)>(nets: seq<Net<T>>, es: seq<Event>, s: nat, k: nat, i: nat)
    requires IsHistory(nets, es) && s < k < |nets| && es[s] == Subscribe(i)
    requires forall e :: s < e < k ==> es[e] != Unsubscribe(i)
    ensures i < |nets[s].peers| && i < |nets[k].peers|
    ensures var from, n := |nets[s].published|, |nets[k].peers[i].log| - |nets[s].peers[i].log|;
            && 0 <= n <= |nets[k].published| - from
            && nets[k].peers[i].log == nets[s].peers[i].log + Range(from, from + n)
            && (!Dead(nets[k].peers[i]) ==> i in nets[k].members && from + n == |nets[k].published|)
  {
    KnownSubscriber(nets, es, s, i);
    hide IsHistory, Next, Publishes, Due, Subscribed, PublishCount, Range;
    LogGrows(nets, es, s, k, i);
    ExactDelivery(nets, es, s, i);
    ExactDelivery(nets, es, k, i);
    DueContiguous(es, s, k, i);
    RangeLength(|nets[s].published|, |nets[k].published|);
    if !Dead(nets[s].peers[i]) {
      var base, log := nets[s].peers[i].log, nets[k].peers[i].log;
      assert log[|base|..] <= Range(|nets[s].published|, |nets[k].published|);
      RangePrefix(|nets[s].published|, |nets[k].published|, log[|base|..]);
      assert log == base + log[|base|..];
    }
  }

  lemma KnownSubscriber<T(!new)>(nets: seq<Net<T>>, es: seq<Event>, s: nat, i: nat)
    requires IsHistory(nets, es) && s < |es| && es[s] == Subscribe(i)
    ensures i < |nets[s].peers|
  {
    HistoryStep(nets, es, s);
  }

  /** From an `Unsubscribe` until it subscribes again an actor receives nothing. */
  lemma {:induction false} SilentUnsubscribed<T(!new)>(nets: seq<Net<T>>, es: seq<Event>, u: nat, k: nat, i: nat)
    requires IsHistory(nets, es) && u < k < |nets| && es[u] == Unsubscribe(i) && i < |nets[u].peers|
    requires forall e :: u < e < k ==> es[e] != Subscribe(i)
    ensures i < |nets[k].peers| && i !in nets[k].members && nets[k].peers[i].log == nets[u].peers[i].log
  {
    var n, m := nets[k - 1], nets[k];
    assert Next(n, m, es[k - 1]);
    if k > u + 1 {
      SilentUnsubscribed(nets, es, u, k - 1, i);
      if es[k - 1].Publish? {
        var msg :| Publishes(n, m, msg);
        assert Delivered(n.peers[i], m.peers[i], i in n.members, |n.published|, msg);
      } else if es[k - 1].Stop? {
        assert OnlyDeclines(n.peers[i], m.peers[i]);
      }
    }
  }

  /**
   * A publication handled after a subscription and before its end reaches the subscriber, unless it has
   * stopped by the time the publication is done.
   */
  lemma SubscribedIsServed<T(!new)>(nets: seq<Net<T>>, es: seq<Event>, s: nat, p: nat, i: nat)
    requires IsHistory(nets, es) && s < p < |es| && es[s] == Subscribe(i) && es[p] == Publish
    requires forall e :: s < e < p ==> es[e] != Unsubscribe(i)
    requires i < |nets[p + 1].peers| && !Dead(nets[p + 1].peers[i])
    ensures |nets[p].published| in nets[p + 1].peers[i].log
  {
    InvHistory(nets, es, p);
    InvHistory(nets, es, p + 1);
    ExactDelivery(nets, es, p, i);
    ExactDelivery(nets, es, p + 1, i);
    DueContiguous(es, s, p, i);
    DueNext(es, p, i);
    assert Due(es, p + 1, i)[|Due(es, p, i)|] == |nets[p].published|;
  }

  // ----- the handlers -----

  /** How far a publication got: the peers `done` were sent it, the others at most stopped meanwhile. */
  ghost predicate Partly<T>(before: seq<Peer<T>>, now: seq<Peer<T>>, done: set<nat>, k: nat, msg: T) {
    && |now| == |before|
    && forall i :: 0 <= i < |before| ==>
         if i in done then Delivered(before[i], now[i], true, k, msg) else OnlyDeclines(before[i], now[i])
  }

  ghost predicate AllDecline<T>(before: seq<Peer<T>>, now: seq<Peer<T>>) {
    |now| == |before| && forall i :: 0 <= i < |before| ==> OnlyDeclines(before[i], now[i])
  }

  /** Mailboxes only close. */
  ghost predicate AllClosing<T>(before: seq<Peer<T>>, now: seq<Peer<T>>) {
    |now| == |before| && forall i :: 0 <= i < |now| && now[i].open ==> before[i].open
  }

  lemma DeclineCloses<T>(before: seq<Peer<T>>, now: seq<Peer<T>>)
    requires AllDecline(before, now)
    ensures AllClosing(before, now)
  {
    forall i | 0 <= i < |now| && now[i].open
      ensures before[i].open
    {
      assert OnlyDeclines(before[i], now[i]);
    }
  }

  lemma PartlyNone<T>(peers: seq<Peer<T>>, msg: T, k: nat)
    ensures Partly(peers, peers, {}, k, msg)
  {
  }

  lemma PartlyDecline<T>(before: seq<Peer<T>>, mid: seq<Peer<T>>, now: seq<Peer<T>>, done: set<nat>, k: nat, msg: T)
    requires Partly(before, mid, done, k, msg) && AllDecline(mid, now)
    ensures Partly(before, now, done, k, msg)
  {
    forall i | 0 <= i < |before|
      ensures if i in done then Delivered(before[i], now[i], true, k, msg) else OnlyDeclines(before[i], now[i])
    {
      assert OnlyDeclines(mid[i], now[i]);
      hide Receive;
    }
  }

  lemma PartlySend<T>(before: seq<Peer<T>>, mid: seq<Peer<T>>, id: nat, done: set<nat>, k: nat, msg: T, q: Peer<T>)
    requires Partly(before, mid, done, k, msg) && id < |before| && id !in done
    requires q == if Dead(mid[id]) then mid[id] else Receive(mid[id], k, msg)
    ensures Partly(before, mid[id := q], done + {id}, k, msg)
  {
    forall i | 0 <= i < |before|
      ensures if i in done + {id} then Delivered(before[i], mid[id := q][i], true, k, msg)
              else OnlyDeclines(before[i], mid[id := q][i])
    {
      if i == id {
        assert OnlyDeclines(before[id], mid[id]);
      }
    }
  }

  /** Sending to every member that could still be upgraded is a publication to all members. */
  lemma PartlyPublishes<T>(
    n: Net<T>, now: seq<Peer<T>>, kept: set<nat>, done: set<nat>, msg: T)
    requires Inv(n) && Partly(n.peers, now, done, |n.published|, msg) && done <= kept <= n.members
    requires forall i :: i in n.members - done && i < |now| ==> !now[i].open
    requires forall i :: i in kept && i < |n.peers| ==> n.peers[i].open
    ensures Publishes(n, Net(now, kept, n.published + [msg]), msg)
  {
    forall i | 0 <= i < |n.peers|
      ensures Delivered(n.peers[i], now[i], i in n.members, |n.published|, msg)
    {
      if i !in done {
        assert OnlyDeclines(n.peers[i], now[i]);
      }
    }
  }

  /** One subscriber's end of a weak sender, shared with the actor behind it. */
  class Subscriber<T> {
    var up: bool
    var open: bool
    var inbox: seq<T>
    ghost var log: seq<nat>

    ghost function View(): Peer<T>
      reads this
    {
      Peer(up, open, inbox, log)
    }

    constructor ()
      ensures View() == Peer(true, true, [], [])
    {
      up, open, inbox, log := true, true, [], [];
    }

    /** A strong sender's `send`, after the upgrade: refused once the flag is down or the mailbox closed. */
    method Send(msg: T, ghost k: nat) returns (ok: bool)
      modifies this
      ensures ok == (old(up) && old(open)) && up == old(up) && open == old(open)
      ensures inbox == old(inbox) + (if ok then [msg] else []) && log == old(log) + (if ok then [k] else [])
    {
      ok := up && open;
      if ok {
        inbox := inbox + [msg];
        log := log + [k];
      }
    }
  }

  /** An external channel: only its receiver closes it. */
  class External<T> {
    var open: bool
    var inbox: seq<T>

    constructor ()
      ensures open && inbox == []
    {
      open, inbox := true, [];
    }
  }

  ghost function Views<T>(all: seq<Subscriber<T>>): (vs: seq<Peer<T>>)
    reads all
    ensures |vs| == |all|
    ensures forall i :: 0 <= i < |all| ==> vs[i] == all[i].View()
  {
    if all == [] then [] else Views(all[..|all| - 1]) + [all[|all| - 1].View()]
  }

  ghost predicate Distinct<X>(xs: seq<X>) {
    forall i, j :: 0 <= i < j < |xs| ==> xs[i] != xs[j]
  }

  /** `x` stands before `y` in `xs`. */
  ghost predicate Before<X>(xs: seq<X>, x: X, y: X) {
    exists i, j :: 0 <= i < j < |xs| && xs[i] == x && xs[j] == y
  }

  /** `ys` keeps some of `xs`, in their order. */
  ghost predicate Keeps<X>(xs: seq<X>, ys: seq<X>) {
    && (forall y :: y in ys ==> y in xs)
    && forall i, j :: 0 <= i < j < |ys| ==> Before(xs, ys[i], ys[j])
  }

  lemma KeepsSkip<X>(xs: seq<X>, ys: seq<X>, x: X)
    requires Keeps(xs, ys)
    ensures Keeps(xs + [x], ys)
  {
    forall i, j | 0 <= i < j < |ys|
      ensures Before(xs + [x], ys[i], ys[j])
    {
      assert Before(xs, ys[i], ys[j]);
      var a, b :| 0 <= a < b < |xs| && xs[a] == ys[i] && xs[b] == ys[j];
      assert (xs + [x])[a] == ys[i] && (xs + [x])[b] == ys[j];
    }
  }

  lemma KeepsMore<X>(xs: seq<X>, ys: seq<X>, x: X)
    requires Keeps(xs, ys)
    ensures Keeps(xs + [x], ys + [x])
  {
    KeepsSkip(xs, ys, x);
    var next := ys + [x];
    forall i, j | 0 <= i < j < |next|
      ensures Before(xs + [x], next[i], next[j])
    {
      if j < |ys| {
        assert Before(xs + [x], ys[i], ys[j]);
      } else {
        assert ys[i] in xs;
        var a :| 0 <= a < |xs| && xs[a] == ys[i];
        assert (xs + [x])[a] == next[i] && (xs + [x])[|xs|] == next[j];
      }
    }
  }

  lemma NothingKept<X>()
    ensures Keeps<X>([], []) && Distinct<X>([])
  {
  }

  lemma NotBefore<X>(xs: seq<X>, i: nat)
    requires Distinct(xs) && i < |xs|
    ensures xs[i] !in xs[..i]
  {
    if k :| 0 <= k < i && xs[k] == xs[i] {
      assert false;
    }
  }

  lemma DistinctSnoc<X>(xs: seq<X>, x: X)
    requires Distinct(xs) && x !in xs
    ensures Distinct(xs + [x])
  {
  }

  ghost predicate Entries<T>(all: seq<Subscriber<T>>, subscribers: map<nat, Subscriber<T>>) {
    forall id :: id in subscribers ==> id < |all| && subscribers[id] == all[id]
  }

  lemma EntryAdded<T>(all: seq<Subscriber<T>>, subscribers: map<nat, Subscriber<T>>, id: nat)
    requires Entries(all, subscribers) && id < |all|
    ensures Entries(all, subscribers[id := all[id]]) && subscribers[id := all[id]].Keys == subscribers.Keys + {id}
  {
  }

  lemma EntryRemoved<T>(all: seq<Subscriber<T>>, subscribers: map<nat, Subscriber<T>>, id: nat)
    requires Entries(all, subscribers)
    ensures Entries(all, subscribers - {id}) && (subscribers - {id}).Keys == subscribers.Keys - {id}
  {
  }

  lemma KnownMembers<T>(n: Net<T>)
    requires Inv(n)
    ensures forall i :: i in n.members ==> i < |n.peers|
  {
  }

  ghost function Ids(live: seq<nat>): set<nat> {
    set id | id in live
  }

  lemma IdsOf(live: seq<nat>, kept: set<nat>)
    requires forall k :: 0 <= k < |live| ==> live[k] in kept
    ensures Ids(live) <= kept
  {
  }

  /** Who was not sent the publication had closed its mailbox before the sends began. */
  lemma OthersClosed<T>(
    members: set<nat>, kept: set<nat>, live: seq<nat>, before: seq<Peer<T>>, mid: seq<Peer<T>>, now: seq<Peer<T>>)
    requires AllDecline(before, mid) && AllClosing(mid, now)
    requires forall id :: id in members - kept && id < |before| ==> !before[id].open
    requires forall id :: id in kept && id !in live && id < |mid| ==> !mid[id].open
    ensures forall id :: id in members - Ids(live) && id < |now| ==> !now[id].open
  {
    DeclineCloses(before, mid);
  }

  class Broker<T(!new)> {
    /** All actors there are; the position of an actor is the id of its context. */
    const all: seq<Subscriber<T>>
    var subscribers: map<nat, Subscriber<T>>
    var external: seq<External<T>>
    ghost var published: seq<T>

    ghost function Now(): Net<T>
      reads this, all
    {
      Net(Views(all), subscribers.Keys, published)
    }

    ghost predicate Valid()
      reads this, all
    {
      Linked() && Inv(Now())
    }

    /** Ids tell actors apart, and the entry under an id is that actor's sender. */
    ghost predicate Linked()
      reads this
    {
      Distinct(all) && Entries(all, subscribers) && Distinct(external)
    }

    constructor (all: seq<Subscriber<T>>)
      requires Distinct(all)
      requires forall i :: 0 <= i < |all| ==> all[i].log == [] && all[i].inbox == []
      ensures Valid() && this.all == all && Now().members == {} && published == [] && external == []
    {
      this.all := all;
      subscribers, external, published := map[], [], [];
    }

    /** Insert or overwrite the entry of the sender's context. */
    method HandleSubscribe(id: nat, sender: Subscriber<T>)
      requires Valid() && id < |all| && all[id] == sender
      modifies this`subscribers
      ensures Valid() && Now() == old(Now()).(members := old(Now()).members + {id}) && subscribers[id] == sender
    {
      hide Inv, Views, Entries, Distinct;
      KnownMembers(Now());
      MembersKeep(Now(), Now().members + {id});
      EntryAdded(all, subscribers, id);
      subscribers := subscribers[id := sender];
    }

    method HandleUnsubscribe(id: nat)
      requires Valid()
      modifies this`subscribers
      ensures Valid() && Now() == old(Now()).(members := old(Now()).members - {id})
    {
      hide Inv, Views, Entries, Distinct;
      KnownMembers(Now());
      MembersKeep(Now(), Now().members - {id});
      EntryRemoved(all, subscribers, id);
      subscribers := subscribers - {id};
    }

    /** Other tasks run: some actors lower their flag or close their mailbox. */
    method Meanwhile(falls: seq<(nat, bool)>)
      requires Distinct(all)
      modifies all
      ensures AllDecline(old(Views(all)), Views(all))
    {
      hide Views;
      var i := 0;
      while i < |falls|
        invariant 0 <= i <= |falls| && AllDecline(old(Views(all)), Views(all))
      {
        var (id, flag) := falls[i];
        if id < |all| {
          var s := all[id];
          if flag {
            s.up := false;
          } else {
            s.open := false;
          }
        }
        i := i + 1;
      }
    }

    /** `retain`: drop exactly the entries that cannot be upgraded any more. */
    method Retain()
      requires Linked()
      modifies this`subscribers
      ensures Linked() && subscribers.Keys <= old(subscribers.Keys)
      ensures forall id :: id in old(subscribers.Keys) && id < |all| ==> (id in subscribers.Keys <==> all[id].open)
    {
      var rest, kept := subscribers.Keys, map[];
      while rest != {}
        invariant rest <= subscribers.Keys && kept.Keys <= subscribers.Keys - rest && Entries(all, kept)
        invariant forall id :: id in subscribers.Keys - rest && id < |all| ==> (id in kept.Keys <==> all[id].open)
        decreases |rest|
      {
        var id :| id in rest;
        rest := rest - {id};
        if subscribers[id].open {
          kept := kept[id := subscribers[id]];
        }
      }
      subscribers := kept;
    }

    /** The strong senders of all entries that can be upgraded, in the order the map yields them. */
    method Live() returns (live: seq<nat>)
      requires Linked()
      ensures Distinct(live) && forall k :: 0 <= k < |live| ==> live[k] in subscribers
      ensures forall id :: id in subscribers && id !in live ==> !all[id].open
    {
      live := [];
      var rest := subscribers.Keys;
      while rest != {}
        invariant rest <= subscribers.Keys && Distinct(live)
        invariant forall k :: 0 <= k < |live| ==> live[k] in subscribers.Keys - rest
        invariant forall id :: id in subscribers.Keys - rest && id !in live ==> !all[id].open
        decreases |rest|
      {
        var id :| id in rest;
        rest := rest - {id};
        if subscribers[id].open {
          live := live + [id];
        }
      }
    }

    /** One send, to the subscriber at `id`. */
    method SendTo(id: nat, msg: T, ghost before: seq<Peer<T>>, ghost done: set<nat>)
      requires Distinct(all) && id < |all| && id !in done && |before| == |all|
      requires Partly(before, Views(all), done, |published|, msg)
      modifies all
      ensures Partly(before, Views(all), done + {id}, |published|, msg)
      ensures AllClosing(old(Views(all)), Views(all))
    {
      hide Views, Delivered;
      var s := all[id];
      assert OnlyDeclines(before[id], Views(all)[id]);
      assert s.View() == Views(all)[id];
      ghost var q := if Dead(s.View()) then s.View() else Receive(s.View(), |published|, msg);
      PartlySend(before, Views(all), id, done, |published|, msg, q);
      ghost var mid := Views(all);
      var _ := s.Send(msg, |published|);
      assert s.View() == q;
      assert Views(all) == mid[id := q];
    }

    /** Send to the live subscribers one after the other, each send awaited while others run. */
    method SendAll(live: seq<nat>, msg: T, falls: seq<seq<(nat, bool)>>, ghost before: seq<Peer<T>>)
      requires Distinct(all) && Distinct(live) && |before| == |all|
      requires forall k :: 0 <= k < |live| ==> live[k] < |all|
      requires Partly(before, Views(all), {}, |published|, msg)
      modifies all
      ensures Partly(before, Views(all), Ids(live), |published|, msg)
      ensures AllClosing(old(Views(all)), Views(all))
    {
      hide Views, Partly, AllDecline;
      var i := 0;
      ghost var done: set<nat> := {};
      while i < |live|
        invariant 0 <= i <= |live| && done == Ids(live[..i])
        invariant Partly(before, Views(all), done, |published|, msg)
        invariant AllClosing(old(Views(all)), Views(all))
      {
        if i < |falls| {
          ghost var mid := Views(all);
          Meanwhile(falls[i]);
          PartlyDecline(before, mid, Views(all), done, |published|, msg);
          DeclineCloses(mid, Views(all));
        }
        SendTo(live[i], msg, before, done);
        assert live[..i + 1] == live[..i] + [live[i]];
        done := done + {live[i]};
        i := i + 1;
      }
      assert live[..i] == live;
    }

    /** The handler of `Publish`, up to the external channels. */
    method PublishToActors(msg: T, falls: seq<seq<(nat, bool)>>)
      requires Valid()
      modifies this`subscribers, this`published, all
      ensures Valid() && Publishes(old(Now()), Now(), msg)
    {
      hide Inv, Views, Entries, Distinct, Partly, Publishes, AllDecline, AllClosing, Ids;
      ghost var n := Now();
      PartlyNone(n.peers, msg, |published|);
      KnownMembers(n);
      Retain();
      Meanwhile(if falls == [] then [] else falls[0]);
      ghost var mid := Views(all);
      PartlyDecline(n.peers, n.peers, mid, {}, |published|, msg);
      var live := Live();
      SendAll(live, msg, falls, n.peers);
      OthersClosed(n.members, subscribers.Keys, live, n.peers, mid, Views(all));
      IdsOf(live, subscribers.Keys);
      PartlyPublishes(n, Views(all), subscribers.Keys, Ids(live), msg);
      PublishKeeps(n, Net(Views(all), subscribers.Keys, n.published + [msg]), msg);
      published := published + [msg];
    }

    /** Send to every external channel, any of which may close meanwhile; then forget the closed ones. */
    method PublishToExternals(msg: T, closes: seq<nat>)
      requires Distinct(external)
      modifies this`external, external
      ensures Distinct(external) && Keeps(old(external), external)
      ensures forall e :: e in old(external) ==> (e in external <==> e.open) && (e.open ==> old(e.open))
      ensures forall e :: e in old(external) ==>
                e.inbox == old(e.inbox) + [msg] || (e.inbox == old(e.inbox) && !e.open)
    {
      var i := 0;
      while i < |external|
        invariant 0 <= i <= |external| && external == old(external)
        invariant forall j :: 0 <= j < i ==>
                    external[j].inbox == old(external[j].inbox) + [msg]
                    || (external[j].inbox == old(external[j].inbox) && !external[j].open)
        invariant forall j :: i <= j < |external| ==> external[j].inbox == old(external[j].inbox)
        invariant forall j :: 0 <= j < |external| ==> external[j].open ==> old(external[j].open)
      {
        if i < |closes| && closes[i] < |external| {
          external[closes[i]].open := false;
        }
        if external[i].open {
          external[i].inbox := external[i].inbox + [msg];
        }
        i := i + 1;
      }
      RetainOpen();
    }

    /** `retain` of the channels that are not closed. */
    method RetainOpen()
      requires Distinct(external)
      modifies this`external
      ensures Distinct(external) && Keeps(old(external), external)
      ensures forall e :: e in external <==> e in old(external) && e.open
    {
      hide Keeps, Distinct;
      var kept := [];
      var i := 0;
      NothingKept<External<T>>();
      assert external[..0] == [];
      while i < |external|
        invariant external == old(external)
        invariant 0 <= i <= |external| && Distinct(kept) && Keeps(external[..i], kept)
        invariant forall e :: e in kept <==> e in external[..i] && e.open
      {
        assert external[..i + 1] == external[..i] + [external[i]];
        var e := external[i];
        NotBefore(external, i);
        if e.open {
          DistinctSnoc(kept, e);
          KeepsMore(external[..i], kept, e);
          kept := kept + [e];
        } else {
          KeepsSkip(external[..i], kept, e);
        }
        i := i + 1;
      }
      assert external[..i] == external;
      external := kept;
    }

    /**
     * The whole handler of `Publish` (src/broker.rs:95-126).  Of the external channels exactly those still
     * open are remembered, in their order, and each of these was sent the message.
     */
    method HandlePublish(msg: T, falls: seq<seq<(nat, bool)>>, closes: seq<nat>)
      requires Valid()
      modifies this, all, external
      ensures Valid() && Publishes(old(Now()), Now(), msg) && Keeps(old(external), external)
      ensures forall e :: e in old(external) ==> (e in external <==> e.open) && (e.open ==> old(e.open))
      ensures forall e :: e in old(external) ==>
                e.inbox == old(e.inbox) + [msg] || (e.inbox == old(e.inbox) && !e.open)
    {
      hide Inv, Views, Keeps, Publishes;
      PublishToActors(msg, falls);
      PublishToExternals(msg, closes);
    }

    /** Two publications in a row: an external channel that stays open has both messages, in order. */
    method PublishTwice(
      first: T, second: T, falls: seq<seq<(nat, bool)>>, falls': seq<seq<(nat, bool)>>, closes: seq<nat>, closes': seq<nat>)
      requires Valid()
      modifies this, all, external
      ensures Valid()
      ensures forall e :: e in old(external) && e.open ==> e.inbox == old(e.inbox) + [first, second] && e in external
    {
      hide Inv, Views, Publishes;
      ghost var was := external;
      HandlePublish(first, falls, closes);
      assert forall k :: 0 <= k < |external| ==> external[k] in external && external[k] in was;
      assert forall e: object :: e in external ==> e in was;
      HandlePublish(second, falls', closes');
    }

    method HandleSubscribeExternal(e: External<T>)
      requires Valid() && e !in external
      modifies this`external
      ensures Valid() && Now() == old(Now()) && external == old(external) + [e]
    {
      external := external + [e];
    }
  }
}
