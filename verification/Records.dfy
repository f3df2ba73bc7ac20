/** That the history is a true record: what it counts is what the stores show, and what the
    guarantees except is there only because of a fault. */
module Records {
  import opened Messages
  import opened Delivery
  import opened Counting
  import opened Runs
  import opened Protocol
  import opened Once
  import G = Guarantees

  /** No crash, no call that fails or loses its reply; the webhook may refuse. */
  predicate Faultless(s: State, a: Action) {
    match a
    case Deliver(_, ack) => ack.Ok?
    case Consume(c, reply) => reply.Ok? || (c < |s.consumers| && s.consumers[c].pc.Send?)
    case Send(_, reply) => reply.Ok?
    case Heal(_, reply) => reply.Ok?
    case KillConsumer(_) => false
    case KillSender(_) => false
    case KillMonitor(_) => false
    case _ => true
  }

  ghost predicate NoException(h: History, h': History, b: Body) {
    && h'.unburied == h.unburied && h'.lost == h.lost && h'.unmarked == h.unmarked
    && h'.redelivered == h.redelivered
    && (h'.ended[(Dropped, b)] > h.ended[(Dropped, b)] ==> h'.panics != h.panics)
  }

  lemma FaultlessConsumer(h: History, w: World, k: Consumer, reply: Reply, b: Body)
    requires reply.Ok? || k.pc.Send?
    ensures var h' := Note(h, w, k, reply);
            NoException(h, h', b)
  {
    if (k.pc.Load? || k.pc.Reload?) && k.pc.oid !in w.docs {
      assert Note(h, w, k, reply).panics[k.pc.oid] == h.panics[k.pc.oid] + 1;
    }
  }

  lemma FaultlessWork(cfg: Config, s: State, a: Action, b: Body)
    requires Faultless(s, a) && Enabled(cfg, s, a) && (a.Send? || a.Heal?)
    ensures NoException(s.h, Do(cfg, s, a).h, b)
  {
  }

  lemma FaultlessElsewhere(cfg: Config, s: State, a: Action, b: Body)
    requires Faultless(s, a) && Enabled(cfg, s, a) && !a.Consume? && !a.Send? && !a.Heal?
    ensures NoException(s.h, Do(cfg, s, a).h, b)
  {
  }

  /** What the guarantees except comes of faults: a step without one adds no unwritten dead letter, lost
      increment, missing mark or second delivery of a copy, and drops a copy only when it names no document. */
  lemma ExceptionsNeedFaults(cfg: Config, s: State, a: Action, b: Body)
    requires Faultless(s, a)
    ensures NoException(s.h, Apply(cfg, s, a).h, b)
  {
    if Enabled(cfg, s, a) {
      if a.Consume? {
        var h1 := s.h.(step := s.h.step + 1);
        FaultlessConsumer(h1, s.w, s.consumers[a.c], a.reply, b);
        assert Consumed(cfg, s, a.c, a.reply).h == Note(h1, s.w, s.consumers[a.c], a.reply);
      } else if a.Send? || a.Heal? {
        FaultlessWork(cfg, s, a, b);
      } else {
        FaultlessElsewhere(cfg, s, a, b);
      }
    }
  }

  /** A publish is counted if and only if the main queue gains a copy of the message, and a confirmation
      if and only if the update to processing of a message just published takes effect. */
  lemma PublishesCounted(cfg: Config, s: State, r: nat, reply: Reply, oid: ObjectId)
    requires Enabled(cfg, s, Action.Send(r, reply))
    ensures var s' := Apply(cfg, s, Action.Send(r, reply));
            && s'.h.published[oid] + Count(s.w.main, Naming(oid)) == s.h.published[oid] + Count(s'.w.main, Naming(oid))
            && s'.h.confirmed[oid] == s.h.confirmed[oid]
                 + Bit(s.senders[r].Confirm? && s.senders[r].oid == oid && reply.Took())
            && (s'.h.confirmed[oid] > s.h.confirmed[oid] && oid in s.w.docs ==>
                  s'.w.docs[oid] == s.w.docs[oid].(status := Processing, updatedAt := s.w.now))
  {
    var x := s.senders[r];
    if x.Publish? {
      CountAppend(s.w.main, Queued(OutboxBody(x.batch[0]), s.w.now), Naming(oid));
    }
  }

  /** Nobody else publishes for the outbox or confirms. */
  lemma OnlyRunnersPublish(cfg: Config, s: State, a: Action)
    requires !a.Send?
    ensures var h, h' := s.h, Apply(cfg, s, a).h; h'.published == h.published && h'.confirmed == h.confirmed
  {
  }

  lemma ConsumerKeepsRetries(w: World, pc: Pc, reply: Reply, maxRetries: int)
    ensures w.retry <= Step(w, pc, reply, maxRetries).0.retry
  {
  }

  lemma OthersKeepRetries(cfg: Config, s: State, a: Action)
    requires Enabled(cfg, s, a) && !a.Consume? && !a.Expire?
    ensures Do(cfg, s, a).w.retry == s.w.retry
  {
  }

  /** Only the broker takes copies off the retry queue: the first one, ten seconds after it came, to the
      end of the main queue and with its body as it was. */
  lemma ReturnsNoEarlier(cfg: Config, s: State, a: Action)
    requires var w' := Apply(cfg, s, a).w; !(s.w.retry <= w'.retry)
    ensures var w' := Apply(cfg, s, a).w;
            && s.w.retry != [] && s.w.retry[0].since + 10_000 <= s.w.now
            && w' == s.w.(retry := s.w.retry[1..], main := s.w.main + [Queued(s.w.retry[0].body, s.w.now)])
  {
    if !a.Expire? {
      if a.Consume? {
        ConsumerKeepsRetries(s.w, s.consumers[a.c].pc, a.reply, cfg.maxRetries);
      } else {
        OthersKeepRetries(cfg, s, a);
      }
      assert false;
    }
  }

  // ---- how long a mark lasts

  /** Every key in the inbox is that of a call, and expires as the mark of that call says. */
  ghost predicate LifeInv(s: State) {
    && LifeOk(s.w.inbox, s.w.calls, s.h.marks)
    && (forall c :: 0 <= c < |s.consumers| ==> LifePc(s.w.calls, s.consumers[c]))
  }

  ghost predicate LifeOk(inbox: map<MessageId, nat>, calls: seq<Call>, marks: map<nat, Check>) {
    forall id :: id in inbox ==> exists i: nat :: Dates(inbox, calls, marks, id, i)
  }

  predicate Dates(inbox: map<MessageId, nat>, calls: seq<Call>, marks: map<nat, Check>, id: MessageId, i: nat) {
    i in marks && i < |calls| && Hex(calls[i].oid) == id && id in inbox && inbox[id] == marks[i].at + INBOX_TTL
  }

  predicate LifePc(calls: seq<Call>, k: Consumer) {
    k.pc.MarkInbox? ==> k.call < |calls| && calls[k.call].oid == k.pc.oid
  }

  lemma LifeLonger(inbox: map<MessageId, nat>, calls: seq<Call>, calls': seq<Call>, marks: map<nat, Check>)
    requires LifeOk(inbox, calls, marks) && calls <= calls'
    ensures LifeOk(inbox, calls', marks)
  {
    forall id | id in inbox
      ensures exists i: nat :: Dates(inbox, calls', marks, id, i)
    {
      var i: nat :| Dates(inbox, calls, marks, id, i);
      assert Dates(inbox, calls', marks, id, i);
    }
  }

  lemma LifeMarked(inbox: map<MessageId, nat>, calls: seq<Call>, marks: map<nat, Check>, call: nat, check: Check)
    requires LifeOk(inbox, calls, marks) && call < |calls|
    ensures LifeOk(inbox[Hex(calls[call].oid) := check.at + INBOX_TTL], calls, marks[call := check])
  {
    var inbox', marks' := inbox[Hex(calls[call].oid) := check.at + INBOX_TTL], marks[call := check];
    forall id | id in inbox'
      ensures exists i: nat :: Dates(inbox', calls, marks', id, i)
    {
      if id == Hex(calls[call].oid) {
        assert Dates(inbox', calls, marks', id, call);
      } else {
        var i: nat :| Dates(inbox, calls, marks, id, i);
        assert Dates(inbox', calls, marks', id, i);
      }
    }
  }

  lemma LifeElsewhere(w: World, k: Consumer, reply: Reply, maxRetries: int)
    requires !k.pc.MarkInbox?
    ensures var (w', pc') := Step(w, k.pc, reply, maxRetries);
            && w'.inbox == w.inbox && w.calls <= w'.calls
            && (pc'.MarkInbox? ==> k.pc.Send? && |w.calls| < |w'.calls| && w'.calls[|w.calls|].oid == pc'.oid)
  {
  }

  lemma LifeLocal(w: World, h: History, k: Consumer, reply: Reply, maxRetries: int)
    requires LifeOk(w.inbox, w.calls, h.marks) && LifePc(w.calls, k)
    ensures var h1 := h.(step := h.step + 1);
            var (w', pc') := Step(w, k.pc, reply, maxRetries);
            && LifeOk(w'.inbox, w'.calls, Note(h1, w, k, reply).marks)
            && LifePc(w'.calls, Advance(h1, w, k, pc')) && w.calls <= w'.calls
  {
    if k.pc.MarkInbox? {
      LifeMarked(w.inbox, w.calls, h.marks, k.call, Check(h.step + 1, w.now));
    } else {
      LifeElsewhere(w, k, reply, maxRetries);
      LifeLonger(w.inbox, w.calls, Step(w, k.pc, reply, maxRetries).0.calls, h.marks);
    }
  }

  lemma LifeConsume(cfg: Config, s: State, c: nat, reply: Reply)
    requires LifeInv(s) && c < |s.consumers|
    ensures LifeInv(Consumed(cfg, s, c, reply))
  {
    var s', h1, k := Consumed(cfg, s, c, reply), s.h.(step := s.h.step + 1), s.consumers[c];
    LifeLocal(s.w, s.h, k, reply, cfg.maxRetries);
    assert s'.consumers == s.consumers[c := Advance(h1, s.w, k, Step(s.w, k.pc, reply, cfg.maxRetries).1)];
    assert s'.w == Step(s.w, k.pc, reply, cfg.maxRetries).0 && s'.h == Note(h1, s.w, k, reply);
  }

  lemma LifeStep(cfg: Config, s: State, a: Action)
    requires LifeInv(s)
    ensures LifeInv(Apply(cfg, s, a))
  {
    if Enabled(cfg, s, a) {
      if a.Consume? {
        LifeConsume(cfg, s, a.c, a.reply);
      } else {
        QuietStep(cfg, s, a);
      }
    }
  }

  lemma LifeRun(cfg: Config, s: State, run: seq<Action>)
    requires LifeInv(s)
    ensures LifeInv(Exec(Steps(cfg), s, run))
  {
    forall s, a | LifeInv(s) ensures LifeInv(Steps(cfg)(s, a)) {
      LifeStep(cfg, s, a);
    }
    Keeps(Steps(cfg), (s: State) => LifeInv(s), s, run);
  }

  /** Any number of actors, all faults: a message is taken for a duplicate if and only if a mark of one of its
      calls was written less than 24 hours ago. */
  lemma DuplicateIffMarkedToday(cfg: Config, n: nat, r: nat, m: nat, run: seq<Action>, oid: ObjectId)
    ensures var s := After(cfg, n, r, m, run);
            InInbox(s.w, Hex(oid))
            <==> exists i :: i in s.h.marks && i < |s.w.calls| && s.w.calls[i].oid == oid
                             && s.w.now < s.h.marks[i].at + 86_400_000
  {
    var s := After(cfg, n, r, m, run);
    LifeRun(cfg, Init(n, r, m), run);
    G.OnceRun(cfg, Init(n, r, m), run);
    if InInbox(s.w, Hex(oid)) {
      var i: nat :| Dates(s.w.inbox, s.w.calls, s.h.marks, Hex(oid), i);
      assert i in s.h.marks && s.w.calls[i].oid == oid;
    }
  }
}
