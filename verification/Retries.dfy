/** How far a retry count can go. */
module Retries {
  import opened Messages
  import opened Delivery
  import opened Counting
  import opened Protocol
  import opened Documents

  function RetriesOf(docs: Docs, oid: ObjectId): nat {
    if oid in docs then docs[oid].retryCount else 0
  }

  /** A consumer that has read a count below the limit and has not incremented it yet. */
  predicate InWindow(pc: Pc, maxRetries: int, oid: ObjectId) {
    || (pc.Gate? && pc.oid == oid && pc.doc.retryCount < maxRetries)
    || (pc.Send? && pc.oid == oid)
    || (pc.Increment? && pc.oid == oid)
  }

  function Window(maxRetries: int, oid: ObjectId): Consumer -> bool {
    (k: Consumer) => InWindow(k.pc, maxRetries, oid)
  }

  /** With several consumers each may have read the count before any of them raises it. */
  function Limit(maxRetries: int, consumers: nat): nat {
    if maxRetries >= 1 then maxRetries - 1 + consumers else 0
  }

  ghost predicate RetryInv(cfg: Config, s: State, oid: ObjectId) {
    RetriesOf(s.w.docs, oid) + Count(s.consumers, Window(cfg.maxRetries, oid)) <= Limit(cfg.maxRetries, |s.consumers|)
  }

  /** A step opens the window only on a count below the limit, and raises the count only by closing it. */
  lemma RetryConsumer(w: World, pc: Pc, reply: Reply, maxRetries: int, oid: ObjectId)
    ensures var (w', pc') := Step(w, pc, reply, maxRetries);
            || RetriesOf(w'.docs, oid) + Bit(InWindow(pc', maxRetries, oid))
               <= RetriesOf(w.docs, oid) + Bit(InWindow(pc, maxRetries, oid))
            || (maxRetries >= 1 && RetriesOf(w'.docs, oid) <= maxRetries - 1)
  {
  }

  lemma RetryConsume(cfg: Config, s: State, c: nat, reply: Reply, oid: ObjectId)
    requires RetryInv(cfg, s, oid) && Enabled(cfg, s, Consume(c, reply))
    ensures RetryInv(cfg, Consumed(cfg, s, c, reply), oid)
  {
    RetryConsumer(s.w, s.consumers[c].pc, reply, cfg.maxRetries, oid);
    RetryReplace(cfg, s, Consumed(cfg, s, c, reply), c, oid);
  }

  lemma RetryReplace(cfg: Config, s: State, s': State, c: nat, oid: ObjectId)
    requires RetryInv(cfg, s, oid)
    requires c < |s.consumers| == |s'.consumers| && s'.consumers == s.consumers[c := s'.consumers[c]]
    requires || RetriesOf(s'.w.docs, oid) + Bit(InWindow(s'.consumers[c].pc, cfg.maxRetries, oid))
                <= RetriesOf(s.w.docs, oid) + Bit(InWindow(s.consumers[c].pc, cfg.maxRetries, oid))
             || (cfg.maxRetries >= 1 && RetriesOf(s'.w.docs, oid) <= cfg.maxRetries - 1)
    ensures RetryInv(cfg, s', oid)
  {
    CountUpdate(s.consumers, c, s'.consumers[c], Window(cfg.maxRetries, oid));
  }

  lemma RetryDeliver(cfg: Config, s: State, a: Action, oid: ObjectId)
    requires RetryInv(cfg, s, oid) && Enabled(cfg, s, a) && (a.Deliver? || a.KillConsumer?)
    ensures RetryInv(cfg, Do(cfg, s, a), oid)
  {
    RetryReplace(cfg, s, Do(cfg, s, a), a.c, oid);
  }

  lemma RetryStep(cfg: Config, s: State, a: Action, oid: ObjectId)
    requires RetryInv(cfg, s, oid)
    ensures RetryInv(cfg, Apply(cfg, s, a), oid)
  {
    if Enabled(cfg, s, a) {
      match a
      case Consume(c, reply) => RetryConsume(cfg, s, c, reply, oid);
      case Deliver(_, _) => RetryDeliver(cfg, s, a, oid);
      case KillConsumer(_) => RetryDeliver(cfg, s, a, oid);
      case _ =>
    }
  }

  // ---- failed webhook calls and retry counts agree

  function FailedCall(oid: ObjectId): Call -> bool {
    (x: Call) => x.oid == oid && !x.ok
  }

  function Pending(oid: ObjectId): Consumer -> bool {
    (k: Consumer) => k.pc.Increment? && k.pc.oid == oid
  }

  ghost predicate FailuresInv(s: State, oid: ObjectId) {
    Count(s.w.calls, FailedCall(oid))
    == RetriesOf(s.w.docs, oid) + s.h.lost[oid] + Count(s.consumers, Pending(oid))
  }

  lemma FailuresConsumer(w: World, lost: multiset<ObjectId>, pc: Pc, reply: Reply, maxRetries: int, oid: ObjectId)
    requires PcQuotes(w.docs, pc)
    ensures var (w', pc') := Step(w, pc, reply, maxRetries);
            Count(w'.calls, FailedCall(oid)) + RetriesOf(w.docs, oid) + lost[oid] + Bit(pc.Increment? && pc.oid == oid)
            == Count(w.calls, FailedCall(oid)) + RetriesOf(w'.docs, oid) + NoteLost(lost, pc, reply)[oid]
               + Bit(pc'.Increment? && pc'.oid == oid)
  {
    if pc.Send? {
      CountAppend(w.calls, Call(pc.oid, pc.doc.content, pc.doc.to, w.now, reply.Ok?), FailedCall(oid));
    }
  }

  lemma FailuresReplace(s: State, s': State, c: nat, oid: ObjectId)
    requires FailuresInv(s, oid)
    requires c < |s.consumers| == |s'.consumers| && s'.consumers == s.consumers[c := s'.consumers[c]]
    requires var pc, pc' := s.consumers[c].pc, s'.consumers[c].pc;
             Count(s'.w.calls, FailedCall(oid)) + RetriesOf(s.w.docs, oid) + s.h.lost[oid]
             + Bit(pc.Increment? && pc.oid == oid)
             == Count(s.w.calls, FailedCall(oid)) + RetriesOf(s'.w.docs, oid) + s'.h.lost[oid]
                + Bit(pc'.Increment? && pc'.oid == oid)
    ensures FailuresInv(s', oid)
  {
    CountUpdate(s.consumers, c, s'.consumers[c], Pending(oid));
  }

  lemma FailuresConsume(cfg: Config, s: State, c: nat, reply: Reply, oid: ObjectId)
    requires FailuresInv(s, oid) && QuotesInv(s) && Enabled(cfg, s, Consume(c, reply))
    ensures FailuresInv(Consumed(cfg, s, c, reply), oid)
  {
    FailuresConsumer(s.w, s.h.lost, s.consumers[c].pc, reply, cfg.maxRetries, oid);
    FailuresReplace(s, Consumed(cfg, s, c, reply), c, oid);
  }

  lemma FailuresDeliver(cfg: Config, s: State, a: Action, oid: ObjectId)
    requires FailuresInv(s, oid) && Enabled(cfg, s, a) && (a.Deliver? || a.KillConsumer?)
    ensures FailuresInv(Do(cfg, s, a), oid)
  {
    FailuresReplace(s, Do(cfg, s, a), a.c, oid);
  }

  lemma RetriesElsewhere(cfg: Config, s: State, a: Action, oid: ObjectId)
    requires Enabled(cfg, s, a) && !a.Consume?
    ensures RetriesOf(Do(cfg, s, a).w.docs, oid) == RetriesOf(s.w.docs, oid)
  {
  }

  /** What the books depend on. */
  lemma FailuresFrame(s: State, s': State, oid: ObjectId)
    requires FailuresInv(s, oid)
    requires s'.consumers == s.consumers && s'.w.calls == s.w.calls && s'.h.lost == s.h.lost
    requires RetriesOf(s'.w.docs, oid) == RetriesOf(s.w.docs, oid)
    ensures FailuresInv(s', oid)
  {
  }

  lemma FailuresWork(cfg: Config, s: State, a: Action, oid: ObjectId)
    requires FailuresInv(s, oid) && Enabled(cfg, s, a) && (a.Send? || a.Heal?)
    ensures FailuresInv(Do(cfg, s, a), oid)
  {
    RetriesElsewhere(cfg, s, a, oid);
    FailuresFrame(s, Do(cfg, s, a), oid);
  }

  lemma FailuresElsewhere(cfg: Config, s: State, a: Action, oid: ObjectId)
    requires FailuresInv(s, oid) && Enabled(cfg, s, a)
    requires !a.Deliver? && !a.Consume? && !a.KillConsumer? && !a.Send? && !a.Heal?
    ensures FailuresInv(Do(cfg, s, a), oid)
  {
    RetriesElsewhere(cfg, s, a, oid);
    FailuresFrame(s, Do(cfg, s, a), oid);
  }

  lemma FailuresStep(cfg: Config, s: State, a: Action, oid: ObjectId)
    requires FailuresInv(s, oid) && QuotesInv(s)
    ensures FailuresInv(Apply(cfg, s, a), oid)
  {
    if Enabled(cfg, s, a) {
      match a
      case Consume(c, reply) => FailuresConsume(cfg, s, c, reply, oid);
      case Deliver(_, _) => FailuresDeliver(cfg, s, a, oid);
      case KillConsumer(_) => FailuresDeliver(cfg, s, a, oid);
      case Send(_, _) => FailuresWork(cfg, s, a, oid);
      case Heal(_, _) => FailuresWork(cfg, s, a, oid);
      case _ => FailuresElsewhere(cfg, s, a, oid);
    }
  }
}
