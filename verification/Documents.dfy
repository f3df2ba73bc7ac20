/** What the collection and the copies say about each other: texts never change, no message
    becomes unsent again, and every copy the sender made names a stored document. */
module Documents {
  import opened Messages
  import opened Delivery
  import opened Protocol

  // ---- documents only ever move forward

  /** Every document is still there, with its text, a retry count that has not fallen, and
      no way back to unsent. */
  ghost predicate Onward(docs: Docs, docs': Docs) {
    forall oid :: oid in docs ==>
      && oid in docs'
      && docs'[oid].content == docs[oid].content && docs'[oid].to == docs[oid].to
      && docs'[oid].createdAt == docs[oid].createdAt
      && docs'[oid].retryCount >= docs[oid].retryCount
      && (docs'[oid].status.Unsent? ==> docs[oid].status.Unsent?)
  }

  lemma OnwardConsumer(w: World, pc: Pc, reply: Reply, maxRetries: int)
    ensures Onward(w.docs, Step(w, pc, reply, maxRetries).0.docs)
  {
    var docs := Step(w, pc, reply, maxRetries).0.docs;
    assert docs == w.docs || docs == CountRetry(w.docs, pc.oid, w.now)
      || exists status: Status :: !status.Unsent? && docs == SetStatus(w.docs, pc.oid, status, w.now);
  }

  lemma OnwardStep(cfg: Config, s: State, a: Action)
    ensures Onward(s.w.docs, Apply(cfg, s, a).w.docs)
  {
    if Enabled(cfg, s, a) && a.Consume? {
      OnwardConsumer(s.w, s.consumers[a.c].pc, a.reply, cfg.maxRetries);
    }
  }

  // ---- what is quoted from a document is what it says

  ghost predicate Quotes(docs: Docs, oid: ObjectId, content: string, to: string) {
    oid in docs && docs[oid].content == content && docs[oid].to == to
  }

  ghost predicate QuotesAll(docs: Docs, batch: seq<Entry>) {
    forall i :: 0 <= i < |batch| ==> Quotes(docs, batch[i].oid, batch[i].doc.content, batch[i].doc.to)
  }

  predicate PastLoad(pc: Pc) {
    !(pc.Idle? || pc.CheckInbox? || pc.BuryPoison? || pc.SetDuplicate? || pc.Load?)
  }

  ghost predicate PcQuotes(docs: Docs, pc: Pc) {
    && (pc.Gate? || pc.Send? ==> Quotes(docs, pc.oid, pc.doc.content, pc.doc.to))
    && (PastLoad(pc) ==> pc.oid in docs)
  }

  ghost predicate SenderQuotes(docs: Docs, x: Sender) {
    match x
    case Publish(batch) => QuotesAll(docs, batch)
    case Confirm(oid, rest) => oid in docs && QuotesAll(docs, rest)
  }

  ghost predicate QuotesInv(s: State) {
    && (forall k :: 0 <= k < |s.w.calls| ==>
          Quotes(s.w.docs, s.w.calls[k].oid, s.w.calls[k].content, s.w.calls[k].to))
    && (forall c :: 0 <= c < |s.consumers| ==> PcQuotes(s.w.docs, s.consumers[c].pc))
    && (forall r :: 0 <= r < |s.senders| ==> SenderQuotes(s.w.docs, s.senders[r]))
  }

  lemma QuotesOnward(s: State, docs: Docs)
    requires QuotesInv(s) && Onward(s.w.docs, docs)
    ensures QuotesInv(s.(w := s.w.(docs := docs)))
  {
  }

  lemma QuotesConsumer(w: World, pc: Pc, reply: Reply, maxRetries: int)
    requires PcQuotes(w.docs, pc)
    ensures var (w', pc') := Step(w, pc, reply, maxRetries);
            && PcQuotes(w'.docs, pc')
            && (w'.calls == w.calls
                || exists x :: w'.calls == w.calls + [x] && Quotes(w'.docs, x.oid, x.content, x.to))
  {
    var (w', pc') := Step(w, pc, reply, maxRetries);
    if pc.Send? {
      assert w'.calls == w.calls + [Call(pc.oid, pc.doc.content, pc.doc.to, w.now, reply.Ok?)];
    }
  }

  lemma QuotesConsume(cfg: Config, s: State, c: nat, reply: Reply)
    requires QuotesInv(s) && Enabled(cfg, s, Consume(c, reply))
    ensures QuotesInv(Consumed(cfg, s, c, reply))
  {
    OnwardConsumer(s.w, s.consumers[c].pc, reply, cfg.maxRetries);
    QuotesConsumer(s.w, s.consumers[c].pc, reply, cfg.maxRetries);
    QuotesOnward(s, Consumed(cfg, s, c, reply).w.docs);
  }

  lemma QuotesSend(cfg: Config, s: State, r: nat, reply: Reply)
    requires QuotesInv(s) && Enabled(cfg, s, Action.Send(r, reply))
    ensures QuotesInv(Do(cfg, s, Action.Send(r, reply)))
  {
    OnwardStep(cfg, s, Action.Send(r, reply));
    QuotesOnward(s, Do(cfg, s, Action.Send(r, reply)).w.docs);
  }

  lemma QuotesElsewhere(cfg: Config, s: State, a: Action)
    requires QuotesInv(s) && Enabled(cfg, s, a) && !a.Consume? && !a.Send?
    ensures QuotesInv(Do(cfg, s, a))
  {
    OnwardStep(cfg, s, a);
    QuotesOnward(s, Do(cfg, s, a).w.docs);
  }

  lemma QuotesStep(cfg: Config, s: State, a: Action)
    requires QuotesInv(s)
    ensures QuotesInv(Apply(cfg, s, a))
  {
    if Enabled(cfg, s, a) {
      match a
      case Consume(c, reply) => QuotesConsume(cfg, s, c, reply);
      case Send(r, reply) => QuotesSend(cfg, s, r, reply);
      case _ => QuotesElsewhere(cfg, s, a);
    }
  }

  // ---- while the sender is the only publisher

  /** A body the sender wrote for a stored document. */
  ghost predicate Genuine(docs: Docs, body: Body) {
    body.Json? && body.msg.id.Hex? && Quotes(docs, body.msg.id.oid, body.msg.content, body.msg.to)
  }

  ghost predicate GenuineQueue(docs: Docs, q: seq<Queued>) {
    forall i :: 0 <= i < |q| ==> Genuine(docs, q[i].body)
  }

  ghost predicate GenuinePc(docs: Docs, pc: Pc) {
    Holds(pc) ==> Genuine(docs, BodyOf(pc)) && CarriesOwnId(pc)
  }

  ghost predicate GenuineInv(s: State) {
    && GenuineQueue(s.w.docs, s.w.main) && GenuineQueue(s.w.docs, s.w.retry)
    && GenuinePcs(s.w.docs, s.consumers)
    && s.h.panics == multiset{}
  }

  ghost predicate GenuinePcs(docs: Docs, consumers: seq<Consumer>) {
    forall c :: 0 <= c < |consumers| ==> GenuinePc(docs, consumers[c].pc)
  }

  lemma GenuineOnward(s: State, docs: Docs)
    requires GenuineInv(s) && Onward(s.w.docs, docs)
    ensures GenuineInv(s.(w := s.w.(docs := docs)))
  {
  }

  lemma GenuineConsumer(w: World, h: History, pc: Pc, reply: Reply, maxRetries: int)
    requires GenuinePc(w.docs, pc) && GenuineQueue(w.docs, w.retry) && h.panics == multiset{}
    ensures var (w', pc') := Step(w, pc, reply, maxRetries);
            && GenuinePc(w'.docs, pc') && GenuineQueue(w'.docs, w'.retry)
            && NotePanic(h.panics, w, pc, reply) == multiset{}
  {
    OnwardConsumer(w, pc, reply, maxRetries);
  }

  lemma GenuineUpdate(docs: Docs, docs': Docs, consumers: seq<Consumer>, c: nat, k: Consumer)
    requires GenuinePcs(docs, consumers) && Onward(docs, docs') && GenuinePc(docs', k.pc) && c < |consumers|
    ensures GenuinePcs(docs', consumers[c := k])
  {
  }

  lemma GenuineConsume(cfg: Config, s: State, c: nat, reply: Reply)
    requires GenuineInv(s) && c < |s.consumers|
    ensures GenuineInv(Consumed(cfg, s, c, reply))
  {
    var s', h1, k := Consumed(cfg, s, c, reply), s.h.(step := s.h.step + 1), s.consumers[c];
    var w' := Step(s.w, k.pc, reply, cfg.maxRetries).0;
    assert s'.consumers == s.consumers[c := Advance(h1, s.w, k, Step(s.w, k.pc, reply, cfg.maxRetries).1)];
    assert s'.w == w' && s'.h == Note(h1, s.w, k, reply);
    OnwardConsumer(s.w, k.pc, reply, cfg.maxRetries);
    GenuineConsumer(s.w, s.h, k.pc, reply, cfg.maxRetries);
    GenuineUpdate(s.w.docs, w'.docs, s.consumers, c, s'.consumers[c]);
    GenuineMain(s.w, k.pc, reply, cfg.maxRetries);
  }

  lemma GenuineMain(w: World, pc: Pc, reply: Reply, maxRetries: int)
    requires GenuineQueue(w.docs, w.main)
    ensures var w' := Step(w, pc, reply, maxRetries).0; GenuineQueue(w'.docs, w'.main)
  {
    OnwardConsumer(w, pc, reply, maxRetries);
  }

  lemma GenuineSend(cfg: Config, s: State, r: nat, reply: Reply)
    requires GenuineInv(s) && QuotesInv(s) && Enabled(cfg, s, Action.Send(r, reply))
    ensures GenuineInv(Do(cfg, s, Action.Send(r, reply)))
  {
    OnwardStep(cfg, s, Action.Send(r, reply));
    GenuineOnward(s, Do(cfg, s, Action.Send(r, reply)).w.docs);
  }

  lemma GenuineDeliver(cfg: Config, s: State, c: nat, ack: Reply)
    requires GenuineInv(s) && Enabled(cfg, s, Deliver(c, ack))
    ensures GenuineInv(Do(cfg, s, Deliver(c, ack)))
  {
  }

  lemma GenuineElsewhere(cfg: Config, s: State, a: Action)
    requires GenuineInv(s) && Enabled(cfg, s, a) && !a.Deliver? && !a.Consume? && !a.Send?
    ensures Do(cfg, s, a).h.foreign || GenuineInv(Do(cfg, s, a))
  {
    OnwardStep(cfg, s, a);
    GenuineOnward(s, Do(cfg, s, a).w.docs);
  }

  lemma GenuineStep(cfg: Config, s: State, a: Action)
    requires GenuineInv(s) && QuotesInv(s)
    ensures Apply(cfg, s, a).h.foreign || GenuineInv(Apply(cfg, s, a))
  {
    if Enabled(cfg, s, a) {
      match a
      case Consume(c, reply) => GenuineConsume(cfg, s, c, reply);
      case Send(r, reply) => GenuineSend(cfg, s, r, reply);
      case Deliver(c, ack) => GenuineDeliver(cfg, s, c, ack);
      case _ => GenuineElsewhere(cfg, s, a);
    }
  }
}
