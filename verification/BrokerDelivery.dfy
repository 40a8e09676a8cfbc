/**
 * The broker as an actor: its handlers run in the turns of an event loop, on payloads that clients sent.
 * What the order of the clients' own calls then says about delivery.
 */
module BrokerDelivery {
  import opened Base
  import opened Mailbox
  import opened Behaviour
  import opened Protocol
  import opened ProtocolInvariants
  import opened ClientInvariants
  import opened ProtocolTheorems
  import B = Broker

  /** Turn `p` ran a handler to its end. */
  ghost predicate Handled<A, R>(s: State<A, R>, p: nat) {
    p < |s.loop.turns| && s.loop.turns[p].work.Run? && s.loop.turns[p].outcome.Completed?
  }

  /**
   * `place` puts the completed handlers of the broker's loop, in turn order, into its history `es`; `means`
   * tells what a handler does there, and whatever is not a handler's doing is an actor that stops.
   */
  ghost predicate Placed<A, R>(s: State<A, R>, es: seq<B.Event>, place: seq<nat>, means: Script<A, R> -> B.Event) {
    && |place| == |s.loop.turns|
    && (forall p :: 0 <= p < |place| && Handled(s, p) ==>
          place[p] < |es| && es[place[p]] == means(s.loop.turns[p].work.script))
    && (forall p, q :: 0 <= p < q < |place| && Handled(s, p) && Handled(s, q) ==> place[p] < place[q])
    && forall k :: 0 <= k < |es| && !es[k].Stop? ==> HasTurn(s, place, k)
  }

  ghost predicate HasTurn<A, R>(s: State<A, R>, place: seq<nat>, k: nat)
    requires |place| == |s.loop.turns|
  {
    exists p :: 0 <= p < |place| && Handled(s, p) && place[p] == k
  }

  /** No payload accepted between entries `d` and `e` ends the subscription of `x`. */
  ghost predicate StaysSubscribed<A, R>(s: State<A, R>, means: Script<A, R> -> B.Event, d: nat, e: nat, x: nat) {
    forall c :: d < c < e && c < |s.led.accepted| && s.led.accepted[c].Task? ==>
      means(s.led.accepted[c].script) != B.Unsubscribe(x)
  }

  /** The turn of an operation's entry runs the operation's own script. */
  lemma OwnScript<A, R>(cfg: Config<A>, ls: seq<Label<A, R>>, s: State<A, R>, o: nat, p: nat)
    requires Reaches(cfg, ls, s) && o < |s.ops| && s.ops[o].entry.Some? && Handles(s, p, s.ops[o].entry.value)
    ensures s.loop.turns[p].work.Run? ==> s.loop.turns[p].work.script == s.ops[o].script
  {
    SequentialRefinement(cfg, ls, s);
    Reachable(cfg, ls);
    OpFacts(s, o);
  }

  lemma MailboxTurn<A, R>(cfg: Config<A>, ls: seq<Label<A, R>>, s: State<A, R>, p: nat) returns (e: nat)
    requires Reaches(cfg, ls, s) && !s.cfg.onStream && p < |s.loop.turns|
    ensures Handles(s, p, e) && e < |s.led.accepted| && s.loop.turns[p].work == WorkOf(s.led.accepted[e])
  {
    SequentialRefinement(cfg, ls, s);
    Reachable(cfg, ls);
    assert s.loop.turns[p].source.Mailbox?;
    e := s.loop.turns[p].source.entry;
    assert Handles(s, p, e);
  }

  /** Between the two turns the broker's history shows no end of the subscription. */
  lemma NoUnsubscribe<A, R>(
    cfg: Config<A>, ls: seq<Label<A, R>>, s: State<A, R>, es: seq<B.Event>, place: seq<nat>,
    means: Script<A, R> -> B.Event, p: nat, q: nat, d: nat, e: nat, x: nat, k: nat)
    requires Reaches(cfg, ls, s) && !s.cfg.onStream && Placed(s, es, place, means)
    requires Handles(s, p, d) && Handles(s, q, e) && Handled(s, p) && Handled(s, q)
    requires StaysSubscribed(s, means, d, e, x) && place[p] < k < place[q]
    ensures es[k] != B.Unsubscribe(x)
  {
    if es[k] == B.Unsubscribe(x) {
      var r, c := TurnBetween(cfg, ls, s, es, place, means, p, q, d, e, k);
      assert false;
    }
  }

  /** What the history shows between two turns was handled between them, and accepted between their entries. */
  lemma TurnBetween<A, R>(
    cfg: Config<A>, ls: seq<Label<A, R>>, s: State<A, R>, es: seq<B.Event>, place: seq<nat>,
    means: Script<A, R> -> B.Event, p: nat, q: nat, d: nat, e: nat, k: nat)
    returns (r: nat, c: nat)
    requires Reaches(cfg, ls, s) && !s.cfg.onStream && Placed(s, es, place, means)
    requires Handles(s, p, d) && Handles(s, q, e) && Handled(s, p) && Handled(s, q)
    requires place[p] < k < place[q] && !es[k].Stop?
    ensures p < r < q && Handled(s, r) && Handles(s, r, c)
    ensures d < c < e && c < |s.led.accepted| && s.led.accepted[c].Task? && means(s.led.accepted[c].script) == es[k]
  {
    assert HasTurn(s, place, k);
    r :| 0 <= r < |place| && Handled(s, r) && place[r] == k;
    c := MailboxTurn(cfg, ls, s, r);
    assert p < r < q;
    SequentialRefinement(cfg, ls, s);
  }

  /**
   * If a `subscribe` for actor `x` returned before a `publish` began, and nothing accepted in between ends
   * the subscription, then the publication reaches `x`, unless it has stopped by the time it is handled.
   */
  lemma ReturnedSubscribeIsServed<A, R, T(!new)>(
    cfg: Config<A>, ls: seq<Label<A, R>>, s: State<A, R>, nets: seq<B.Net<T>>, es: seq<B.Event>,
    place: seq<nat>, means: Script<A, R> -> B.Event, i: nat, j: nat, p: nat, q: nat, x: nat)
    requires Reaches(cfg, ls, s) && !s.cfg.onStream && B.IsHistory(nets, es) && Placed(s, es, place, means)
    requires i < |s.ops| && j < |s.ops| && s.ops[i].pc.Done? && s.ops[i].entry.Some? && s.ops[j].entry.Some?
    requires s.ops[i].ended < s.ops[j].begun
    requires means(s.ops[i].script) == B.Subscribe(x) && means(s.ops[j].script) == B.Publish
    requires Handles(s, p, s.ops[i].entry.value) && Handled(s, p)
    requires Handles(s, q, s.ops[j].entry.value) && Handled(s, q)
    requires StaysSubscribed(s, means, s.ops[i].entry.value, s.ops[j].entry.value, x)
    requires place[q] + 1 < |nets| && x < |nets[place[q] + 1].peers| && !B.Dead(nets[place[q] + 1].peers[x])
    ensures |nets[place[q]].published| in nets[place[q] + 1].peers[x].log
  {
    RealTimeOrder(cfg, ls, s, i, j);
    OwnScript(cfg, ls, s, i, p);
    OwnScript(cfg, ls, s, j, q);
    forall k | place[p] < k < place[q]
      ensures es[k] != B.Unsubscribe(x)
    {
      NoUnsubscribe(cfg, ls, s, es, place, means, p, q, s.ops[i].entry.value, s.ops[j].entry.value, x, k);
    }
    B.SubscribedIsServed(nets, es, place[p], place[q], x);
  }
}
