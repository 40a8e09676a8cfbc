/**
 * What keeps a mailbox open: an operation in progress stands on a live strong handle or holds a
 * reference of its own, so while the receiver is alive the mailbox is closed only when nobody is left.
 */
module ClientInvariants {
  import opened Base
  import opened Mailbox
  import opened Behaviour
  import opened Protocol
  import opened LoopInvariants
  import opened ProtocolInvariants

  ghost predicate BorrowInv<A, R>(s: State<A, R>) {
    forall o :: 0 <= o < |s.ops| && Borrows(s.ops[o]) ==>
      s.ops[o].handle < |s.handles| && s.handles[s.ops[o].handle] == HandleOf(KindOf(s.ops[o].api), true)
  }

  /** While the receiver lives, only the loss of the last strong reference closes the mailbox. */
  ghost predicate ClosedInv<A, R>(s: State<A, R>) {
    s.loop.rx && s.led.box.closed ==> s.led.box.strong == 0
  }

  ghost predicate FullInv<A, R>(s: State<A, R>) {
    Inv(s) && BorrowInv(s) && ClosedInv(s)
  }

  lemma LiveHandleHolds<A, R>(s: State<A, R>, h: nat)
    requires RefInv(s) && h < |s.handles| && HandleRefs(s.handles[h]) > 0
    ensures s.led.box.strong > 0
  {
    HandleRefsUpdate(s.handles, h, s.handles[h]);
  }

  lemma InFlightHolds<A, R>(s: State<A, R>, o: nat)
    requires RefInv(s) && o < |s.ops| && OpRefs(s.ops[o]) > 0
    ensures s.led.box.strong > 0
  {
    OpRefsUpdate(s.ops, o, s.ops[o]);
  }

  /** An operation about to push keeps the mailbox referenced. */
  lemma ClearedHolds<A, R>(s: State<A, R>, o: nat)
    requires RefInv(s) && BorrowInv(s) && o < |s.ops| && s.ops[o].pc.Cleared?
    ensures s.led.box.strong > 0
  {
    if Borrows(s.ops[o]) {
      LiveHandleHolds(s, s.ops[o].handle);
    } else {
      InFlightHolds(s, o);
    }
  }

  lemma BorrowClient<A, R>(s: State<A, R>, l: Label<A, R>)
    requires BorrowInv(s) && Enabled(s, l) && !LoopLabel(l)
    ensures BorrowInv(ClientStep(s, l))
  {
    hide OpRefs, HandleRefs, Refuses, CheckResult, Upgradable;
    if l.Deliver? {
      BorrowDeliver(s, l.op);
    } else if l.Check? || l.Receive? || l.Abandon? {
    } else if l.DropHandle? {
      assert forall o :: 0 <= o < |s.ops| && Borrows(s.ops[o]) ==> s.ops[o].handle != l.handle;
    }
  }

  lemma BorrowDeliver<A, R>(s: State<A, R>, o: nat)
    requires BorrowInv(s) && o < |s.ops| && s.ops[o].pc.Cleared?
    ensures BorrowInv(DoDeliver(s, o))
  {
    hide OpRefs, Full;
    assert forall q :: 0 <= q < |s.ops| ==>
        DoDeliver(s, o).ops[q].handle == s.ops[q].handle && DoDeliver(s, o).ops[q].api == s.ops[q].api;
  }

  lemma BorrowLoop<A, R>(s: State<A, R>, l: Label<A, R>)
    requires BorrowInv(s) && Enabled(s, l) && LoopLabel(l)
    ensures BorrowInv(LoopStep(s, l))
  {
    hide LoopNext, LoopLedger, CurrentReply, LoopEnabled;
  }

  lemma ClosedClient<A, R>(s: State<A, R>, l: Label<A, R>)
    requires ClosedInv(s) && RefInv(s) && MailboxInv(s) && Enabled(s, l) && !LoopLabel(l)
    ensures ClosedInv(ClientStep(s, l))
  {
    hide Conserved, HandleRefsOf, OpRefsOf, RefInv;
    if l.Deliver? {
      DeliverRefs(s, l.op);
    } else if l.Convert? || l.Begin? {
      ClosedAdds(s, l);
    } else {
      ShedCloses(s);
    }
  }

  lemma ClosedAdds<A, R>(s: State<A, R>, l: Label<A, R>)
    requires ClosedInv(s) && RefInv(s) && Enabled(s, l) && (l.Convert? || l.Begin?)
    ensures ClosedInv(ClientStep(s, l))
  {
    hide HandleRefsOf, OpRefsOf, RefInv;
    if l.Convert? && !Weak(s.handles[l.from].kind) {
      LiveHandleHolds(s, l.from);
    } else if l.Begin? && !FromContext(l.api) {
      LiveHandleHolds(s, l.handle);
    }
  }

  lemma ClosedLoop<A, R>(s: State<A, R>, l: Label<A, R>)
    requires ClosedInv(s) && Enabled(s, l) && LoopLabel(l)
    ensures ClosedInv(LoopStep(s, l))
  {
    hide LoopNext, Enabled, LoopSlots;
    LoopLabelEnabled(s, l);
    RxKept(s.cfg, s.loop, s.led, l);
  }

  lemma ShedCloses<A, R>(s: State<A, R>)
    ensures forall n: nat :: Shed(s.led, n).box.closed <==> s.led.box.closed || (0 < n == s.led.box.strong)
  {
  }

  lemma DeliverRefs<A, R>(s: State<A, R>, o: nat)
    requires ClosedInv(s) && o < |s.ops| && s.ops[o].pc.Cleared?
    ensures ClosedInv(DoDeliver(s, o))
  {
  }

  lemma TickKeeps<A, R>(s: State<A, R>, clock: nat)
    requires BorrowInv(s) && ClosedInv(s)
    ensures BorrowInv(s.(clock := clock)) && ClosedInv(s.(clock := clock))
  {
  }

  lemma LoopKeeps<A, R>(s: State<A, R>, l: Label<A, R>)
    requires BorrowInv(s) && ClosedInv(s) && Enabled(s, l) && LoopLabel(l)
    ensures BorrowInv(Step(s, l)) && ClosedInv(Step(s, l))
  {
    hide BorrowInv, ClosedInv, Enabled, ClientStep, LoopStep;
    BorrowLoop(s, l);
    ClosedLoop(s, l);
    TickKeeps(LoopStep(s, l), s.clock + 1);
  }

  lemma ClientKeeps<A, R>(s: State<A, R>, l: Label<A, R>)
    requires BorrowInv(s) && ClosedInv(s) && RefInv(s) && MailboxInv(s) && Enabled(s, l) && !LoopLabel(l)
    ensures BorrowInv(Step(s, l)) && ClosedInv(Step(s, l))
  {
    hide BorrowInv, ClosedInv, RefInv, MailboxInv, Enabled, ClientStep, LoopStep;
    BorrowClient(s, l);
    ClosedClient(s, l);
    TickKeeps(ClientStep(s, l), s.clock + 1);
  }

  lemma FullStep<A, R>(s: State<A, R>, l: Label<A, R>)
    requires FullInv(s) && Enabled(s, l)
    ensures FullInv(Step(s, l))
  {
    InvParts(s);
    hide Inv, RefInv, MailboxInv, BorrowInv, ClosedInv, Enabled, Step;
    InvStep(s, l);
    if LoopLabel(l) {
      LoopKeeps(s, l);
    } else {
      ClientKeeps(s, l);
    }
  }

  lemma InvParts<A, R>(s: State<A, R>)
    requires Inv(s)
    ensures RefInv(s) && MailboxInv(s)
  {
    hide RefInv, MailboxInv;
  }

  lemma {:induction false} FullRun<A, R>(s: State<A, R>, ls: seq<Label<A, R>>)
    requires FullInv(s) && IsRun(s, ls)
    ensures FullInv(After(s, ls))
    decreases |ls|
  {
    hide FullInv, Step, Enabled;
    if ls != [] {
      FullStep(s, ls[0]);
      FullRun(Step(s, ls[0]), ls[1..]);
    }
  }

  /** Every state that any interleaving of any clients, timeouts, panics and restarts can reach. */
  lemma Reachable<A, R>(cfg: Config<A>, ls: seq<Label<A, R>>)
    requires ValidConfig(cfg) && IsRun(InitState(cfg), ls)
    ensures FullInv(After(InitState(cfg), ls))
  {
    InitInv<A, R>(cfg);
    FullRun(InitState(cfg), ls);
  }
}
