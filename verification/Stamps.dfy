/** What a step of the protocol does to a document, whichever actor takes it. */
module Stamps {
  import opened Messages
  import opened Delivery
  import opened Runs
  import opened Protocol
  import G = Guarantees

  /** Whatever changes a document, or creates it, dates it. */
  ghost predicate ChangesDated(docs: Docs, docs': Docs, now: nat) {
    forall oid :: oid in docs' && (oid in docs ==> docs'[oid] != docs[oid]) ==> docs'[oid].updatedAt == now
  }

  predicate Changed(docs: Docs, docs': Docs, oid: ObjectId) {
    oid in docs && oid in docs' && docs'[oid] != docs[oid]
  }

  /** One document at most changes, and of it either the status or the retry count, by one. */
  ghost predicate ChangesOne(docs: Docs, docs': Docs) {
    && (forall i, j :: Changed(docs, docs', i) && Changed(docs, docs', j) ==> i == j)
    && (forall oid :: oid in docs && oid in docs' ==>
          || docs'[oid].retryCount == docs[oid].retryCount
          || (docs'[oid].retryCount == docs[oid].retryCount + 1 && docs'[oid].status == docs[oid].status))
  }

  lemma ConsumerStamps(w: World, pc: Pc, reply: Reply, maxRetries: int)
    ensures var w' := Step(w, pc, reply, maxRetries).0;
            ChangesDated(w.docs, w'.docs, w.now) && ChangesOne(w.docs, w'.docs) && w'.now == w.now
  {
  }

  lemma RunnerStamps(w: World, x: Sender, reply: Reply)
    ensures var w' := SenderStep(w, x, reply).0;
            ChangesDated(w.docs, w'.docs, w.now) && ChangesOne(w.docs, w'.docs) && w'.now == w.now
  {
  }

  lemma MonitorStamps(w: World, x: Monitor, reply: Reply)
    ensures var w' := MonitorStep(w, x, reply).0;
            ChangesDated(w.docs, w'.docs, w.now) && ChangesOne(w.docs, w'.docs) && w'.now == w.now
  {
  }

  /** Every update refreshes the time of the last one: a document any step changes carries the clock. */
  lemma ChangedIsDated(cfg: Config, s: State, a: Action)
    ensures var s' := Apply(cfg, s, a); ChangesDated(s.w.docs, s'.w.docs, s'.w.now) && ChangesOne(s.w.docs, s'.w.docs)
  {
    if Enabled(cfg, s, a) {
      match a
      case Consume(c, reply) => ConsumerStamps(s.w, s.consumers[c].pc, reply, cfg.maxRetries);
      case Send(r, reply) => RunnerStamps(s.w, s.senders[r], reply);
      case Heal(m, reply) => MonitorStamps(s.w, s.monitors[m], reply);
      case _ =>
    }
  }

  /** A message is created unsent, with no retries and dated by the clock, and keeps its text and the time
      of its creation along any run. */
  lemma CreatedAsGiven(cfg: Config, s: State, oid: ObjectId, content: string, to: string, run: seq<Action>)
    requires oid !in s.w.docs
    ensures var s1 := Apply(cfg, s, Create(oid, content, to));
            && s1.w.docs.Keys == s.w.docs.Keys + {oid} && s1.w.docs[oid].status.Unsent?
            && s1.w.docs[oid].retryCount == 0 && s1.w.docs[oid].updatedAt == s.w.now
            && var docs := Exec(Steps(cfg), s1, run).w.docs;
               && oid in docs && docs[oid].createdAt == s.w.now
               && docs[oid].content == content && docs[oid].to == to
  {
    G.OnwardRun(cfg, Apply(cfg, s, Create(oid, content, to)), run);
  }

  /** In every reachable state a document was last updated between its creation and now. */
  lemma DatedAlways(cfg: Config, n: nat, r: nat, m: nat, run: seq<Action>, oid: ObjectId)
    requires oid in After(cfg, n, r, m, run).w.docs
    ensures var w := After(cfg, n, r, m, run).w; w.docs[oid].createdAt <= w.docs[oid].updatedAt <= w.now
  {
    G.DatedRun(cfg, Init(n, r, m), run);
  }

  // ---- the inbox mark comes before the sent status

  ghost predicate MarkedInv(s: State) {
    && SentMarked(s.w)
    && (forall c :: 0 <= c < |s.consumers| ==> MarkedPc(s.w.inbox, s.consumers[c].pc))
  }

  ghost predicate SentMarked(w: World) {
    forall oid :: oid in w.docs && w.docs[oid].status.Sent? ==> Hex(oid) in w.inbox
  }

  predicate MarkedPc(inbox: map<MessageId, nat>, pc: Pc) {
    pc.SetSent? ==> Hex(pc.oid) in inbox
  }

  lemma MarkedConsumer(w: World, pc: Pc, reply: Reply, maxRetries: int)
    requires SentMarked(w) && MarkedPc(w.inbox, pc)
    ensures var (w', pc') := Step(w, pc, reply, maxRetries);
            SentMarked(w') && MarkedPc(w'.inbox, pc') && w.inbox.Keys <= w'.inbox.Keys
  {
  }

  lemma MarkedConsume(cfg: Config, s: State, c: nat, reply: Reply)
    requires MarkedInv(s) && c < |s.consumers|
    ensures MarkedInv(Consumed(cfg, s, c, reply))
  {
    var s', h1, k := Consumed(cfg, s, c, reply), s.h.(step := s.h.step + 1), s.consumers[c];
    MarkedConsumer(s.w, k.pc, reply, cfg.maxRetries);
    assert s'.consumers == s.consumers[c := Advance(h1, s.w, k, Step(s.w, k.pc, reply, cfg.maxRetries).1)];
    assert s'.w == Step(s.w, k.pc, reply, cfg.maxRetries).0;
  }

  lemma MarkedStep(cfg: Config, s: State, a: Action)
    requires MarkedInv(s)
    ensures MarkedInv(Apply(cfg, s, a))
  {
    if Enabled(cfg, s, a) && a.Consume? {
      MarkedConsume(cfg, s, a.c, a.reply);
    }
  }

  /** Any number of consumers, all faults: a message is marked sent only after its id is in the inbox. */
  lemma SentMeansMarked(cfg: Config, n: nat, r: nat, m: nat, run: seq<Action>, oid: ObjectId)
    requires oid in After(cfg, n, r, m, run).w.docs && After(cfg, n, r, m, run).w.docs[oid].status.Sent?
    ensures Hex(oid) in After(cfg, n, r, m, run).w.inbox
  {
    forall s, a | MarkedInv(s) ensures MarkedInv(Steps(cfg)(s, a)) {
      MarkedStep(cfg, s, a);
    }
    Keeps(Steps(cfg), (s: State) => MarkedInv(s), Init(n, r, m), run);
  }
}
