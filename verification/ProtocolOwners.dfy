/** Every payload the mailbox ever accepted was sent by exactly one operation. */
module ProtocolOwners {
  import opened Base
  import opened Mailbox
  import opened Behaviour
  import opened Protocol
  import opened LoopInvariants
  import opened ProtocolInvariants
  import opened ClientInvariants

  ghost predicate Owns<A, R>(ops: seq<Op<A, R>>, o: nat, e: nat) {
    o < |ops| && ops[o].entry == Some(e)
  }

  ghost predicate HasOwner<A, R>(ops: seq<Op<A, R>>, e: nat) {
    exists o :: Owns(ops, o, e)
  }

  /** Each of the first `n` entries has exactly one owner, and there are no other entries. */
  ghost predicate Owned<A, R>(ops: seq<Op<A, R>>, n: nat) {
    && (forall e :: 0 <= e < n ==> HasOwner(ops, e))
    && (forall o: nat, e: nat :: Owns(ops, o, e) ==> e < n)
    && forall o: nat, q: nat, e: nat :: Owns(ops, o, e) && Owns(ops, q, e) ==> o == q
  }

  /** No operation changed its entry, and new ones have none. */
  ghost predicate SameEntries<A, R>(ops: seq<Op<A, R>>, oqs: seq<Op<A, R>>) {
    && |ops| <= |oqs|
    && (forall o :: 0 <= o < |ops| ==> oqs[o].entry == ops[o].entry)
    && forall o :: |ops| <= o < |oqs| ==> oqs[o].entry.None?
  }

  lemma OwnedSame<A, R>(ops: seq<Op<A, R>>, oqs: seq<Op<A, R>>, n: nat)
    requires Owned(ops, n) && SameEntries(ops, oqs)
    ensures Owned(oqs, n)
  {
    forall e | 0 <= e < n
      ensures HasOwner(oqs, e)
    {
      assert HasOwner(ops, e);
      var o :| Owns(ops, o, e);
      assert Owns(oqs, o, e);
    }
    forall o: nat, e: nat | Owns(oqs, o, e)
      ensures Owns(ops, o, e)
    {
    }
  }

  lemma OwnedAccept<A, R>(ops: seq<Op<A, R>>, mid: seq<Op<A, R>>, o: nat, op: Op<A, R>, n: nat)
    requires Owned(ops, n) && SameEntries(ops, mid) && o < |ops| == |mid|
    requires ops[o].entry.None? && op.entry == Some(n)
    ensures Owned(mid[o := op], n + 1)
  {
    var oqs := mid[o := op];
    assert Owns(oqs, o, n);
    forall e | 0 <= e < n
      ensures HasOwner(oqs, e)
    {
      assert HasOwner(ops, e);
      var q :| Owns(ops, q, e);
      assert Owns(oqs, q, e);
    }
    forall q: nat, e: nat | Owns(oqs, q, e)
      ensures if q == o then e == n else Owns(ops, q, e)
    {
    }
  }

  lemma SlotEntries<A, R>(ops: seq<Op<A, R>>, r: Option<nat>, slot: Slot<R>)
    ensures SameEntries(ops, SetSlot(ops, r, slot)) && SameEntries(ops, ops)
  {
  }

  lemma LoopEntries<A, R>(s: State<A, R>, l: Label<A, R>)
    requires Enabled(s, l) && LoopLabel(l)
    ensures SameEntries(s.ops, Step(s, l).ops) && Step(s, l).led.accepted == s.led.accepted
  {
    StepLoop(s, l);
    hide LoopNext, Enabled, CurrentReply, SetSlot, Step, SameEntries;
    SlotEntries(s.ops, CurrentReply(s), Lost);
    if l.Complete? {
      SlotEntries(s.ops, CurrentReply(s), Sent(Last(s.loop).work.script.answer(s.loop.actor)));
    }
  }

  lemma QuietEntries<A, R>(s: State<A, R>, l: Label<A, R>)
    requires Enabled(s, l) && !LoopLabel(l) && !l.Deliver?
    ensures SameEntries(s.ops, ClientStep(s, l).ops)
  {
    hide LoopStep, OpRefs, HandleRefs, CheckResult, Upgradable, DoDeliver;
    if l.LoseQueued? {
      SlotEntries(s.ops, ReplyOf(s.led.accepted[l.entry]), Lost);
    }
  }

  lemma DeliverOwned<A, R>(s: State<A, R>, o: nat)
    requires OpInv(s) && MailboxInv(s) && Enabled(s, Label.Deliver(o)) && Owned(s.ops, |s.led.accepted|)
    ensures Owned(DoDeliver(s, o).ops, |DoDeliver(s, o).led.accepted|)
  {
    PcAt(s, o);
    DeliverCases(s, o);
    hide Enabled, OpRefs, Owned;
    if Refuses(s, o) {
      hide OpInv, MailboxInv;
      OwnedSame(s.ops, DoDeliver(s, o).ops, |s.led.accepted|);
    } else {
      AcceptShape(s, o);
      hide OpInv, MailboxInv, DoDeliver;
      SlotEntries(s.ops, Victim(s, o), Lost);
      hide SetSlot, Victim, Refuses, SameEntries;
      OwnedAccept(s.ops, SetSlot(s.ops, Victim(s, o), Lost), o, Pushed(s, o), |s.led.accepted|);
    }
  }

  lemma OwnedStep<A, R>(s: State<A, R>, l: Label<A, R>)
    requires FullInv(s) && Enabled(s, l) && Owned(s.ops, |s.led.accepted|)
    ensures Owned(Step(s, l).ops, |Step(s, l).led.accepted|)
  {
    assert OpInv(s) && MailboxInv(s);
    hide FullInv, OpInv, MailboxInv, Owned, LoopStep;
    if LoopLabel(l) {
      hide Step;
      LoopEntries(s, l);
      OwnedSame(s.ops, Step(s, l).ops, |s.led.accepted|);
    } else if l.Deliver? {
      DeliverOwned(s, l.op);
      StepDeliver(s, l.op);
      hide Step, DoDeliver;
    } else {
      QuietEntries(s, l);
      QuietClient(s, l);
      hide ClientStep, Enabled, SameEntries;
      OwnedSame(s.ops, Step(s, l).ops, |s.led.accepted|);
    }
  }

  lemma {:induction false} OwnedRun<A, R>(s: State<A, R>, ls: seq<Label<A, R>>)
    requires FullInv(s) && IsRun(s, ls) && Owned(s.ops, |s.led.accepted|)
    ensures Owned(After(s, ls).ops, |After(s, ls).led.accepted|)
    decreases |ls|
  {
    hide FullInv, Step, Enabled, Owned;
    if ls != [] {
      OwnedStep(s, ls[0]);
      FullStep(s, ls[0]);
      OwnedRun(Step(s, ls[0]), ls[1..]);
    }
  }

  lemma OwnedReachable<A, R>(cfg: Config<A>, ls: seq<Label<A, R>>)
    requires ValidConfig(cfg) && IsRun(InitState(cfg), ls)
    ensures Owned(After(InitState(cfg), ls).ops, |After(InitState(cfg), ls).led.accepted|)
  {
    Reachable<A, R>(cfg, []);
    InitInv<A, R>(cfg);
    assert Owned(InitState<A, R>(cfg).ops, 0);
    hide FullInv;
    OwnedRun(InitState(cfg), ls);
  }
}
