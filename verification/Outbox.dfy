/** How often a message is published: every publish whose update to processing goes through
    is the last one its runner makes, so only unconfirmed publishes repeat. */
module Outbox {
  import opened Messages
  import opened Counting
  import opened Protocol
  import opened Documents
  import opened Sweeps

  /** A runner that may still publish or confirm `oid`. */
  ghost predicate Wants(x: Sender, oid: ObjectId) {
    match x
    case Publish(batch) => Listed(batch, oid)
    case Confirm(o, rest) => o == oid || Listed(rest, oid)
  }

  ghost function Wanting(oid: ObjectId): Sender -> bool {
    x => Wants(x, oid)
  }

  function Confirming(oid: ObjectId): Sender -> bool {
    (x: Sender) => x.Confirm? && x.oid == oid
  }

  ghost predicate SenderOk(docs: Docs, x: Sender) {
    match x
    case Publish(batch) => Distinct(batch) && (forall i :: 0 <= i < |batch| ==> batch[i].oid in docs)
    case Confirm(o, rest) =>
      && o in docs && !Listed(rest, o)
      && Distinct(rest) && (forall i :: 0 <= i < |rest| ==> rest[i].oid in docs)
  }

  predicate Waiting(docs: Docs, oid: ObjectId) {
    oid in docs ==> docs[oid].status.Unsent?
  }

  ghost predicate OutboxInv(s: State, oid: ObjectId) {
    && (forall r :: 0 <= r < |s.senders| ==> SenderOk(s.w.docs, s.senders[r]))
    && (Waiting(s.w.docs, oid) ==> s.h.confirmed[oid] == 0)
    && s.h.confirmed[oid] + Count(s.senders, Wanting(oid)) <= |s.senders|
    && s.h.confirmed[oid] + Count(s.senders, Confirming(oid)) <= s.h.published[oid]
  }

  /** What one call of a runner does to its claim on `oid`. */
  lemma OutboxSender(w: World, x: Sender, reply: Reply, oid: ObjectId)
    requires SenderOk(w.docs, x)
    ensures var (w', x') := SenderStep(w, x, reply);
            && SenderOk(w'.docs, x')
            && Bit(Wants(x', oid)) + Bit(x.Confirm? && x.oid == oid && reply.Took()) <= Bit(Wants(x, oid))
  {
    if x.Publish? && x.batch != [] {
      ListedCons(x.batch);
    }
  }

  lemma OutboxReplace(s: State, s': State, r: nat, oid: ObjectId)
    requires OutboxInv(s, oid) && r < |s.senders| == |s'.senders|
    requires s'.senders == s.senders[r := s'.senders[r]]
    requires forall o :: o in s.w.docs ==> o in s'.w.docs
    requires SenderOk(s'.w.docs, s'.senders[r])
    requires Waiting(s'.w.docs, oid) ==> s'.h.confirmed[oid] == 0
    requires s'.h.confirmed[oid] == 0
             || s'.h.confirmed[oid] + Bit(Wants(s'.senders[r], oid))
                <= s.h.confirmed[oid] + Bit(Wants(s.senders[r], oid))
    requires s'.h.confirmed[oid] + Bit(Confirming(oid)(s'.senders[r])) + s.h.published[oid]
             <= s.h.confirmed[oid] + Bit(Confirming(oid)(s.senders[r])) + s'.h.published[oid]
    ensures OutboxInv(s', oid)
  {
    CountUpdate(s.senders, r, s'.senders[r], Wanting(oid));
    CountUpdate(s.senders, r, s'.senders[r], Confirming(oid));
  }

  lemma OutboxSend(cfg: Config, s: State, r: nat, reply: Reply, oid: ObjectId)
    requires OutboxInv(s, oid) && Enabled(cfg, s, Action.Send(r, reply))
    ensures OutboxInv(Do(cfg, s, Action.Send(r, reply)), oid)
  {
    OutboxSender(s.w, s.senders[r], reply, oid);
    OutboxReplace(s, Do(cfg, s, Action.Send(r, reply)), r, oid);
  }

  lemma OutboxFind(cfg: Config, s: State, a: Action, oid: ObjectId)
    requires OutboxInv(s, oid) && Enabled(cfg, s, a) && (a.Find? || a.KillSender?)
    ensures OutboxInv(Do(cfg, s, a), oid)
  {
    OutboxReplace(s, Do(cfg, s, a), a.r, oid);
  }

  lemma OutboxElsewhere(s: State, s': State, oid: ObjectId)
    requires OutboxInv(s, oid) && s'.senders == s.senders
    requires s'.h.confirmed == s.h.confirmed && s'.h.published == s.h.published
    requires forall o :: o in s.w.docs ==> o in s'.w.docs
    requires Waiting(s'.w.docs, oid) ==> Waiting(s.w.docs, oid)
    ensures OutboxInv(s', oid)
  {
  }

  lemma OutboxStep(cfg: Config, s: State, a: Action, oid: ObjectId)
    requires OutboxInv(s, oid)
    ensures OutboxInv(Apply(cfg, s, a), oid)
  {
    if Enabled(cfg, s, a) {
      match a
      case Send(r, reply) => OutboxSend(cfg, s, r, reply, oid);
      case Find(_, _) => OutboxFind(cfg, s, a, oid);
      case KillSender(_) => OutboxFind(cfg, s, a, oid);
      case _ =>
        OnwardStep(cfg, s, a);
        OutboxElsewhere(s, Do(cfg, s, a), oid);
    }
  }
}
