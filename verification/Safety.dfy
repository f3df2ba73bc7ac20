/** What every reachable state of the protocol satisfies. */
module Safety {
  import opened Messages
  import opened Delivery
  import opened Counting
  import opened Protocol

  // ---- sent or duplicate only after a successful webhook response

  ghost predicate SentInv(s: State) {
    && SentDocs(s.w.docs, s.w.calls) && SentInbox(s.w.inbox, s.w.calls)
    && (forall c :: 0 <= c < |s.consumers| ==> PastDelivery(s.w.calls, s.consumers[c].pc))
  }

  ghost predicate SentDocs(docs: Docs, calls: seq<Call>) {
    forall oid :: oid in docs && (docs[oid].status.Sent? || docs[oid].status.Duplicate?) ==> Delivered(calls, oid)
  }

  ghost predicate SentInbox(inbox: map<MessageId, nat>, calls: seq<Call>) {
    forall id :: id in inbox ==> id.Hex? && Delivered(calls, id.oid)
  }

  ghost predicate PastDelivery(calls: seq<Call>, pc: Pc) {
    pc.SetDuplicate? || pc.MarkInbox? || pc.SetSent? ==> Delivered(calls, pc.oid)
  }

  lemma DeliveredStays(calls: seq<Call>, calls': seq<Call>)
    requires calls <= calls'
    ensures forall oid :: Delivered(calls, oid) ==> Delivered(calls', oid)
  {
    forall oid | Delivered(calls, oid)
      ensures Delivered(calls', oid)
    {
      var k :| 0 <= k < |calls| && calls[k].oid == oid && calls[k].ok;
      assert calls'[k] == calls[k];
    }
  }

  lemma SentConsumer(w: World, pc: Pc, reply: Reply, maxRetries: int)
    requires SentDocs(w.docs, w.calls) && SentInbox(w.inbox, w.calls) && PastDelivery(w.calls, pc)
    ensures var (w', pc') := Step(w, pc, reply, maxRetries);
            && SentDocs(w'.docs, w'.calls) && SentInbox(w'.inbox, w'.calls) && PastDelivery(w'.calls, pc')
            && w.calls <= w'.calls
  {
    var (w', pc') := Step(w, pc, reply, maxRetries);
    DeliveredStays(w.calls, w'.calls);
    if pc.Send? {
      assert w'.calls[|w.calls|].oid == pc.oid;
    }
  }

  lemma SentConsume(cfg: Config, s: State, c: nat, reply: Reply)
    requires SentInv(s) && Enabled(cfg, s, Consume(c, reply))
    ensures SentInv(Consumed(cfg, s, c, reply))
  {
    SentConsumer(s.w, s.consumers[c].pc, reply, cfg.maxRetries);
    DeliveredStays(s.w.calls, Consumed(cfg, s, c, reply).w.calls);
  }

  lemma SentStep(cfg: Config, s: State, a: Action)
    requires SentInv(s)
    ensures SentInv(Apply(cfg, s, a))
  {
    if Enabled(cfg, s, a) && a.Consume? {
      SentConsume(cfg, s, a.c, a.reply);
    }
  }

  // ---- failed only with a dead letter

  ghost predicate FailedInv(s: State) {
    && FailedDocs(s.w.docs, s.w.dlq, s.h.unburied)
    && (forall c :: 0 <= c < |s.consumers| ==> PastBurial(s.w.dlq, s.h.unburied, s.consumers[c].pc))
    && (forall m :: 0 <= m < |s.monitors| ==> PastRecovery(s.w.dlq, s.monitors[m]))
  }

  ghost predicate Buried(dlq: seq<Body>, unburied: set<ObjectId>, oid: ObjectId) {
    DeadLettered(dlq, oid) || oid in unburied
  }

  ghost predicate FailedDocs(docs: Docs, dlq: seq<Body>, unburied: set<ObjectId>) {
    forall oid :: oid in docs && docs[oid].status.Failed? ==> Buried(dlq, unburied, oid)
  }

  ghost predicate PastBurial(dlq: seq<Body>, unburied: set<ObjectId>, pc: Pc) {
    CarriesOwnId(pc) && (pc.SetFailed? ==> Buried(dlq, unburied, pc.oid))
  }

  ghost predicate PastRecovery(dlq: seq<Body>, x: Monitor) {
    x.Condemn? ==> DeadLettered(dlq, x.oid)
  }

  lemma DeadLetteredStays(dlq: seq<Body>, dlq': seq<Body>)
    requires dlq <= dlq'
    ensures forall oid :: DeadLettered(dlq, oid) ==> DeadLettered(dlq', oid)
  {
    forall oid | DeadLettered(dlq, oid)
      ensures DeadLettered(dlq', oid)
    {
      var k :| 0 <= k < |dlq| && dlq[k].Names(oid);
      assert dlq'[k] == dlq[k];
    }
  }

  lemma FailedConsumer(w: World, unburied: set<ObjectId>, pc: Pc, reply: Reply, maxRetries: int)
    requires FailedDocs(w.docs, w.dlq, unburied) && PastBurial(w.dlq, unburied, pc)
    ensures var (w', pc') := Step(w, pc, reply, maxRetries);
            var unburied' := if pc.Bury? && !reply.Took() then unburied + {pc.oid} else unburied;
            && FailedDocs(w'.docs, w'.dlq, unburied') && PastBurial(w'.dlq, unburied', pc')
            && w.dlq <= w'.dlq
  {
    var (w', pc') := Step(w, pc, reply, maxRetries);
    DeadLetteredStays(w.dlq, w'.dlq);
    if pc.Bury? && reply.Took() {
      assert w'.dlq[|w.dlq|].Names(pc.oid);
    }
  }

  lemma FailedMonitor(w: World, unburied: set<ObjectId>, x: Monitor, reply: Reply)
    requires FailedDocs(w.docs, w.dlq, unburied) && PastRecovery(w.dlq, x)
    ensures var (w', x') := MonitorStep(w, x, reply);
            && FailedDocs(w'.docs, w'.dlq, unburied) && PastRecovery(w'.dlq, x')
            && w.dlq <= w'.dlq
  {
    var (w', x') := MonitorStep(w, x, reply);
    DeadLetteredStays(w.dlq, w'.dlq);
    if x.Recover? && x.batch != [] && reply.Took() {
      assert w'.dlq[|w.dlq|].Names(x.batch[0].oid);
    }
  }

  lemma FailedConsume(cfg: Config, s: State, c: nat, reply: Reply)
    requires FailedInv(s) && Enabled(cfg, s, Consume(c, reply))
    ensures FailedInv(Consumed(cfg, s, c, reply))
  {
    FailedConsumer(s.w, s.h.unburied, s.consumers[c].pc, reply, cfg.maxRetries);
    DeadLetteredStays(s.w.dlq, Consumed(cfg, s, c, reply).w.dlq);
  }

  lemma FailedHeal(cfg: Config, s: State, m: nat, reply: Reply)
    requires FailedInv(s) && Enabled(cfg, s, Heal(m, reply))
    ensures FailedInv(Do(cfg, s, Heal(m, reply)))
  {
    FailedMonitor(s.w, s.h.unburied, s.monitors[m], reply);
    DeadLetteredStays(s.w.dlq, Do(cfg, s, Heal(m, reply)).w.dlq);
  }

  lemma FailedSend(cfg: Config, s: State, r: nat, reply: Reply)
    requires FailedInv(s) && Enabled(cfg, s, Action.Send(r, reply))
    ensures FailedInv(Do(cfg, s, Action.Send(r, reply)))
  {
  }

  lemma FailedStep(cfg: Config, s: State, a: Action)
    requires FailedInv(s)
    ensures FailedInv(Apply(cfg, s, a))
  {
    if Enabled(cfg, s, a) {
      match a
      case Consume(c, reply) => FailedConsume(cfg, s, c, reply);
      case Heal(m, reply) => FailedHeal(cfg, s, m, reply);
      case Send(r, reply) => FailedSend(cfg, s, r, reply);
      case _ =>
    }
  }

  // ---- copies are conserved

  function Same(b: Body): Queued -> bool {
    (x: Queued) => x.body == b
  }

  function InHandOf(b: Body): Consumer -> bool {
    (k: Consumer) => Holds(k.pc) && BodyOf(k.pc) == b
  }

  /** Copies of `b` that ended: delivered, skipped as duplicates, dead-lettered, or lost to an error or a crash. */
  function Ended(ended: multiset<(Fate, Body)>, b: Body): nat {
    ended[(Done, b)] + ended[(Skipped, b)] + ended[(Moved, b)] + ended[(Dropped, b)]
  }

  function Dead(dlq: seq<Body>, b: Body): nat {
    multiset(dlq)[b]
  }

  ghost predicate CopiesInv(s: State, b: Body) {
    && s.h.enqueued[b] + s.h.redelivered[b]
       == Count(s.w.main, Same(b)) + Count(s.w.retry, Same(b)) + Count(s.consumers, InHandOf(b)) + Ended(s.h.ended, b)
    && Dead(s.w.dlq, b) == s.h.ended[(Moved, b)] + s.h.recovered[b]
  }

  lemma EndedOnce(ended: multiset<(Fate, Body)>, pc: Pc, fate: Fate, b: Body)
    requires Holds(pc)
    ensures Ended(NoteEnd(ended, pc, fate), b) == Ended(ended, b) + Bit(!fate.InHand? && BodyOf(pc) == b)
  {
  }

  function Claim(pc: Pc, b: Body): nat {
    Bit(Holds(pc) && BodyOf(pc) == b)
  }

  /** A consumer step passes its copy on, or ends it, exactly once. */
  lemma CopiesConsumer(w: World, ended: multiset<(Fate, Body)>, pc: Pc, reply: Reply, maxRetries: int, b: Body)
    ensures var (w', pc') := Step(w, pc, reply, maxRetries);
            var ended' := if Holds(pc) then NoteEnd(ended, pc, FateOf(w, pc, reply)) else ended;
            && w'.main == w.main
            && Count(w.retry, Same(b)) + Ended(ended, b) + Claim(pc, b)
               == Count(w'.retry, Same(b)) + Ended(ended', b) + Claim(pc', b)
            && Dead(w'.dlq, b) + ended[(Moved, b)] == Dead(w.dlq, b) + ended'[(Moved, b)]
  {
    if Holds(pc) {
      EndedOnce(ended, pc, FateOf(w, pc, reply), b);
      Passed(w, pc, reply, maxRetries, b);
      Moves(w, pc, reply, maxRetries, b);
    }
  }

  /** The copy stays in hand, is back in the retry queue, or ends. */
  lemma Passed(w: World, pc: Pc, reply: Reply, maxRetries: int, b: Body)
    requires Holds(pc)
    ensures var (w', pc') := Step(w, pc, reply, maxRetries);
            && w'.main == w.main
            && Count(w.retry, Same(b)) + Bit(BodyOf(pc) == b)
               == Count(w'.retry, Same(b)) + Bit(!FateOf(w, pc, reply).InHand? && BodyOf(pc) == b) + Claim(pc', b)
  {
    if pc.Requeue? {
      CountAppend(w.retry, Queued(pc.body, w.now), Same(b));
    }
  }

  lemma Moves(w: World, pc: Pc, reply: Reply, maxRetries: int, b: Body)
    requires Holds(pc)
    ensures Dead(Step(w, pc, reply, maxRetries).0.dlq, b)
            == Dead(w.dlq, b) + Bit(FateOf(w, pc, reply).Moved? && BodyOf(pc) == b)
  {
  }

  /** It is enough that the books balance around the one consumer that changed. */
  lemma CopiesReplace(s: State, s': State, c: nat, b: Body)
    requires CopiesInv(s, b)
    requires c < |s.consumers| == |s'.consumers| && s'.consumers == s.consumers[c := s'.consumers[c]]
    requires s'.h.enqueued == s.h.enqueued && s'.h.recovered == s.h.recovered
    requires Dead(s'.w.dlq, b) + s.h.ended[(Moved, b)] == Dead(s.w.dlq, b) + s'.h.ended[(Moved, b)]
    requires Count(s.w.main, Same(b)) + Count(s.w.retry, Same(b)) + Ended(s.h.ended, b)
             + Claim(s.consumers[c].pc, b) + s'.h.redelivered[b]
          == Count(s'.w.main, Same(b)) + Count(s'.w.retry, Same(b)) + Ended(s'.h.ended, b)
             + Claim(s'.consumers[c].pc, b) + s.h.redelivered[b]
    ensures CopiesInv(s', b)
  {
    CountUpdate(s.consumers, c, s'.consumers[c], InHandOf(b));
  }

  lemma CopiesConsume(cfg: Config, s: State, c: nat, reply: Reply, b: Body)
    requires CopiesInv(s, b) && Enabled(cfg, s, Consume(c, reply))
    ensures CopiesInv(Consumed(cfg, s, c, reply), b)
  {
    CopiesConsumer(s.w, s.h.ended, s.consumers[c].pc, reply, cfg.maxRetries, b);
    CopiesReplace(s, Consumed(cfg, s, c, reply), c, b);
  }

  lemma CopiesKill(cfg: Config, s: State, c: nat, b: Body)
    requires CopiesInv(s, b) && Enabled(cfg, s, KillConsumer(c))
    ensures CopiesInv(Do(cfg, s, KillConsumer(c)), b)
  {
    if Holds(s.consumers[c].pc) {
      EndedOnce(s.h.ended, s.consumers[c].pc, Dropped, b);
    }
    CopiesReplace(s, Do(cfg, s, KillConsumer(c)), c, b);
  }

  lemma CopiesDeliver(cfg: Config, s: State, c: nat, ack: Reply, b: Body)
    requires CopiesInv(s, b) && Enabled(cfg, s, Deliver(c, ack))
    ensures CopiesInv(Do(cfg, s, Deliver(c, ack)), b)
  {
    CopiesReplace(s, Do(cfg, s, Deliver(c, ack)), c, b);
  }

  lemma CopiesSend(cfg: Config, s: State, r: nat, reply: Reply, b: Body)
    requires CopiesInv(s, b) && Enabled(cfg, s, Action.Send(r, reply))
    ensures CopiesInv(Do(cfg, s, Action.Send(r, reply)), b)
  {
    if s.senders[r].Publish? {
      CountAppend(s.w.main, Queued(OutboxBody(s.senders[r].batch[0]), s.w.now), Same(b));
    }
  }

  /** A monitor step writes a dead letter exactly when it notes one. */
  lemma CopiesMonitor(w: World, h: History, x: Monitor, reply: Reply, b: Body)
    ensures var w' := MonitorStep(w, x, reply).0;
            && w'.main == w.main && w'.retry == w.retry
            && Dead(w'.dlq, b) + h.recovered[b] == Dead(w.dlq, b) + NoteMonitor(h, x, reply).recovered[b]
  {
  }

  lemma CopiesHeal(cfg: Config, s: State, m: nat, reply: Reply, b: Body)
    requires CopiesInv(s, b) && Enabled(cfg, s, Heal(m, reply))
    ensures CopiesInv(Do(cfg, s, Heal(m, reply)), b)
  {
    CopiesMonitor(s.w, s.h.(step := s.h.step + 1), s.monitors[m], reply, b);
  }

  lemma CopiesQueue(cfg: Config, s: State, a: Action, b: Body)
    requires CopiesInv(s, b) && Enabled(cfg, s, a) && (a.Inject? || a.Expire?)
    ensures CopiesInv(Do(cfg, s, a), b)
  {
    CountAppend(s.w.main, Queued(if a.Inject? then a.body else s.w.retry[0].body, s.w.now), Same(b));
  }

  lemma CopiesStep(cfg: Config, s: State, a: Action, b: Body)
    requires CopiesInv(s, b)
    ensures CopiesInv(Apply(cfg, s, a), b)
  {
    if Enabled(cfg, s, a) {
      match a
      case Inject(body) => CopiesQueue(cfg, s, a, b);
      case Expire => CopiesQueue(cfg, s, a, b);
      case Deliver(c, ack) => CopiesDeliver(cfg, s, c, ack, b);
      case Consume(c, reply) => CopiesConsume(cfg, s, c, reply, b);
      case KillConsumer(c) => CopiesKill(cfg, s, c, b);
      case Send(r, reply) => CopiesSend(cfg, s, r, reply, b);
      case Heal(m, reply) => CopiesHeal(cfg, s, m, reply, b);
      case _ =>
    }
  }
}
