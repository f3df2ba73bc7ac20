/** What an error after the ack costs: exactly when a delivery leaves no trace of its copy, and
    that nothing else loses a message. */
module Losses {
  import opened Messages
  import opened Delivery
  import opened Counting
  import opened Runs
  import opened Protocol
  import opened Safety
  import G = Guarantees
  import K = Pace
  import L = Limits

  // ---- one delivery

  /** After a turn the head copy is nowhere: it is off the main queue, no queue has gained one, the
      webhook has not accepted the message, and it was not skipped as a duplicate. */
  ghost predicate Vanished(w: World, w': World, oid: ObjectId, turn: Turn)
    requires w.main != []
  {
    && w'.main == w.main[1..] && w'.retry == w.retry && w'.dlq == w.dlq
    && (forall i :: |w.calls| <= i < |w'.calls| ==> !w'.calls[i].ok)
    && !(turn.script.isProcessed.Ok? && InInbox(w, Hex(oid)))
  }

  /** The replies that lose the copy of a stored message. */
  predicate Loses(w: World, oid: ObjectId, x: Script, maxRetries: int)
    requires oid in w.docs
  {
    || !x.isProcessed.Ok?
    || (&& !InInbox(w, Hex(oid))
        && (|| !x.getByID.Ok?
            || (if ShouldProcess(w.docs[oid], maxRetries, w.now).Proceed?
                then !x.sendMessage.Ok? && LosesRetry(w.docs[oid], x, maxRetries)
                else !x.moveToDeadLetter.Took())))
  }

  /** After a webhook error: any of the three repository calls fails, or the last publish does. */
  predicate LosesRetry(doc: Message, x: Script, maxRetries: int) {
    || !x.incrementRetryCount.Ok? || !x.setProcessing.Ok? || !x.reload.Ok?
    || (if doc.retryCount + 1 >= maxRetries then !x.moveToDeadLetter.Took() else !x.moveToRetryQueue.Took())
  }

  /** An inbox or repository error before the gate leaves every store as it was: the Nack that
      follows it has nothing left to put back. */
  lemma NackPutsNothingBack(w: World, body: Body, oid: ObjectId, x: Script, maxRetries: int)
    requires body.Names(oid)
    requires !x.isProcessed.Ok? || (!InInbox(w, Hex(oid)) && !x.getByID.Ok?)
    ensures Finish(w, Opening(body), x, maxRetries) == (w, Error)
  {
    Unroll(w, Opening(body), x, maxRetries);
    if x.isProcessed.Ok? {
      Unroll(w, Load(body, oid), x, maxRetries);
    }
  }

  lemma BuryEnds(w: World, body: Body, oid: ObjectId, x: Script, maxRetries: int)
    ensures var w' := Finish(w, Bury(body, oid), x, maxRetries).0;
            && w'.main == w.main && w'.retry == w.retry && w'.calls == w.calls
            && w'.dlq == w.dlq + if x.moveToDeadLetter.Took() then [body] else []
  {
    Unroll(w, Bury(body, oid), x, maxRetries);
    Unroll(WithDeadLetter(w, body, x.moveToDeadLetter), SetFailed(oid), x, maxRetries);
  }

  lemma DeliveredEnds(w: World, oid: ObjectId, x: Script, maxRetries: int)
    ensures var w' := Finish(w, MarkInbox(oid), x, maxRetries).0; w'.main == w.main && w'.calls == w.calls
  {
    var (w1, pc1) := Step(w, MarkInbox(oid), x.markAsProcessed, maxRetries);
    Unroll(w, MarkInbox(oid), x, maxRetries);
    if !pc1.Idle? {
      Unroll(w1, pc1, x, maxRetries);
    }
  }

  /** What the error path leaves of a copy: nothing, a dead letter, or a copy in the retry queue. */
  lemma ErrorEnds(w: World, body: Body, oid: ObjectId, x: Script, maxRetries: int)
    requires oid in w.docs
    ensures var w' := Finish(w, Increment(body, oid), x, maxRetries).0;
            && w'.main == w.main && w'.calls == w.calls
            && (LosesRetry(w.docs[oid], x, maxRetries) <==> w'.retry == w.retry && w'.dlq == w.dlq)
  {
    Unroll(w, Increment(body, oid), x, maxRetries);
    if x.incrementRetryCount.Ok? {
      var w1 := w.(docs := CountRetry(w.docs, oid, w.now));
      Unroll(w1, SetProcessing(body, oid), x, maxRetries);
      if x.setProcessing.Ok? {
        var w2 := w1.(docs := SetStatus(w1.docs, oid, Processing, w.now));
        Unroll(w2, Reload(body, oid), x, maxRetries);
        if x.reload.Ok? {
          if w2.docs[oid].retryCount >= maxRetries {
            BuryEnds(w2, body, oid, x, maxRetries);
          } else {
            Unroll(w2, Requeue(body, oid), x, maxRetries);
          }
        }
      }
    }
  }

  lemma LostPastGate(w: World, body: Body, oid: ObjectId, x: Script, maxRetries: int)
    requires oid in w.docs
    ensures var w', doc := Finish(w, Gate(body, oid, w.docs[oid]), x, maxRetries).0, w.docs[oid];
            && w'.main == w.main
            && ((if ShouldProcess(doc, maxRetries, w.now).Proceed?
                 then !x.sendMessage.Ok? && LosesRetry(doc, x, maxRetries) else !x.moveToDeadLetter.Took())
                <==> w'.retry == w.retry && w'.dlq == w.dlq
                     && forall i :: |w.calls| <= i < |w'.calls| ==> !w'.calls[i].ok)
  {
    var doc := w.docs[oid];
    Unroll(w, Gate(body, oid, doc), x, maxRetries);
    if ShouldProcess(doc, maxRetries, w.now).Proceed? {
      var w1 := w.(calls := w.calls + [Call(oid, doc.content, doc.to, w.now, x.sendMessage.Ok?)]);
      Unroll(w, Pc.Send(body, oid, doc), x, maxRetries);
      if x.sendMessage.Ok? {
        DeliveredEnds(w1, oid, x, maxRetries);
        assert w1.calls[|w.calls|].ok;
      } else {
        ErrorEnds(w1, body, oid, x, maxRetries);
      }
    } else {
      BuryEnds(w, body, oid, x, maxRetries);
    }
  }

  lemma LostPastAck(w: World, body: Body, oid: ObjectId, x: Script, maxRetries: int)
    requires body.Names(oid) && oid in w.docs && (x.isProcessed.Ok? ==> !InInbox(w, Hex(oid)))
    ensures var w' := Finish(w, Opening(body), x, maxRetries).0;
            && w'.main == w.main
            && (Loses(w, oid, x, maxRetries)
                <==> w'.retry == w.retry && w'.dlq == w.dlq
                     && forall i :: |w.calls| <= i < |w'.calls| ==> !w'.calls[i].ok)
  {
    if !x.isProcessed.Ok? || !x.getByID.Ok? {
      NackPutsNothingBack(w, body, oid, x, maxRetries);
    } else {
      Unroll(w, Opening(body), x, maxRetries);
      Unroll(w, Load(body, oid), x, maxRetries);
      LostPastGate(w, body, oid, x, maxRetries);
    }
  }

  /** For all replies: a turn leaves no trace of the copy of a stored message if and only if its ack
      took effect and the replies after it are among those `Loses` lists. */
  lemma CopyLostIff(w: World, turn: Turn, maxRetries: int, oid: ObjectId)
    requires w.main != [] && w.main[0].body.Names(oid) && oid in w.docs
    ensures Vanished(w, Serve(w, turn, maxRetries).0, oid, turn)
       <==> turn.ack.Took() && Loses(w, oid, turn.script, maxRetries)
  {
    var body, w0 := w.main[0].body, if turn.ack.Took() then w.(main := w.main[1..]) else w;
    FinishKeepsMain(w0, Opening(body), turn.script, maxRetries);
    if !(turn.script.isProcessed.Ok? && InInbox(w, Hex(oid))) {
      LostPastAck(w0, body, oid, turn.script, maxRetries);
    }
  }

  // ---- every run

  /** A copy that ended as delivered or skipped stands for a delivery. */
  ghost predicate EndsInv(s: State, b: Body, oid: ObjectId) {
    EndsOk(s.h.ended, s.w.calls, b, oid)
  }

  ghost predicate EndsOk(ended: multiset<(Fate, Body)>, calls: seq<Call>, b: Body, oid: ObjectId) {
    ended[(Done, b)] > 0 || ended[(Skipped, b)] > 0 ==> Delivered(calls, oid)
  }

  lemma EndsConsumer(
      w: World, ended: multiset<(Fate, Body)>, pc: Pc, reply: Reply, maxRetries: int, b: Body, oid: ObjectId)
    requires b.Names(oid) && SentInbox(w.inbox, w.calls) && CarriesOwnId(pc) && EndsOk(ended, w.calls, b, oid)
    ensures var ended' := if Holds(pc) then NoteEnd(ended, pc, FateOf(w, pc, reply)) else ended;
            EndsOk(ended', Step(w, pc, reply, maxRetries).0.calls, b, oid)
  {
    var w' := Step(w, pc, reply, maxRetries).0;
    assert w.calls <= w'.calls;
    DeliveredStays(w.calls, w'.calls);
    if pc.Send? {
      assert w'.calls[|w.calls|] == Call(pc.oid, pc.doc.content, pc.doc.to, w.now, reply.Ok?);
    }
  }

  lemma EndsConsume(cfg: Config, s: State, c: nat, reply: Reply, b: Body, oid: ObjectId)
    requires EndsInv(s, b, oid) && SentInbox(s.w.inbox, s.w.calls) && b.Names(oid)
    requires c < |s.consumers| && CarriesOwnId(s.consumers[c].pc)
    ensures EndsInv(Consumed(cfg, s, c, reply), b, oid)
  {
    var s', k := Consumed(cfg, s, c, reply), s.consumers[c];
    EndsConsumer(s.w, s.h.ended, k.pc, reply, cfg.maxRetries, b, oid);
    assert s'.w == Step(s.w, k.pc, reply, cfg.maxRetries).0;
    assert s'.h == Note(s.h.(step := s.h.step + 1), s.w, k, reply);
  }

  lemma EndsStep(cfg: Config, s: State, a: Action, b: Body, oid: ObjectId)
    requires EndsInv(s, b, oid) && SentInv(s) && FailedInv(s) && b.Names(oid)
    ensures EndsInv(Apply(cfg, s, a), b, oid)
  {
    if Enabled(cfg, s, a) && a.Consume? {
      assert PastBurial(s.w.dlq, s.h.unburied, s.consumers[a.c].pc);
      EndsConsume(cfg, s, a.c, a.reply, b, oid);
    }
  }

  ghost predicate Accounted(s: State, b: Body, oid: ObjectId) {
    EndsInv(s, b, oid) && SentInv(s) && FailedInv(s)
  }

  lemma AccountedRun(cfg: Config, s: State, run: seq<Action>, b: Body, oid: ObjectId)
    requires Accounted(s, b, oid) && b.Names(oid)
    ensures Accounted(Exec(Steps(cfg), s, run), b, oid)
  {
    forall s, a | Accounted(s, b, oid) ensures Accounted(Steps(cfg)(s, a), b, oid) {
      EndsStep(cfg, s, a, b, oid);
      SentStep(cfg, s, a);
      FailedStep(cfg, s, a);
    }
    Keeps(Steps(cfg), (s: State) => Accounted(s, b, oid), s, run);
  }

  /** The body was put into the main queue, or back into it, and has no copy in a queue or in hand. */
  ghost predicate Gone(s: State, b: Body) {
    && s.h.enqueued[b] + s.h.redelivered[b] > 0
    && Count(s.w.main, Same(b)) == 0 && Count(s.w.retry, Same(b)) == 0 && Count(s.consumers, InHandOf(b)) == 0
  }

  /** Any number of actors, all faults: a body that is gone stands for a delivery or a dead letter, or
      one of its copies was dropped. */
  lemma OnlyDropsLose(cfg: Config, n: nat, r: nat, m: nat, run: seq<Action>, b: Body, oid: ObjectId)
    requires b.Names(oid) && Gone(After(cfg, n, r, m, run), b)
    ensures var s := After(cfg, n, r, m, run);
            Delivered(s.w.calls, oid) || DeadLettered(s.w.dlq, oid) || s.h.ended[(Dropped, b)] > 0
  {
    var s := After(cfg, n, r, m, run);
    AccountedRun(cfg, Init(n, r, m), run, b, oid);
    G.CopiesConserved(cfg, n, r, m, run, b);
    if s.h.ended[(Moved, b)] > 0 {
      assert b in multiset(s.w.dlq);
      var k :| 0 <= k < |s.w.dlq| && s.w.dlq[k] == b;
      assert s.w.dlq[k].Names(oid);
    }
  }

  // ---- that it does happen

  /** The first consumer stands at `pc`, with the one copy in hand that there was. */
  ghost predicate Alone(s: State, n: nat, now: nat, pc: Pc) {
    && s.w == World(now, map[0 := K.Tried(0)], [], [], [], map[], [])
    && |s.consumers| == n && n >= 1 && s.consumers[0].pc == pc
    && (forall c :: 1 <= c < n ==> s.consumers[c].pc.Idle?)
    && s.h.enqueued[K.COPY] + s.h.redelivered[K.COPY] > 0
  }

  lemma HandedOver(cfg: Config, n: nat, ms: nat) returns (run: seq<Action>)
    requires n >= 1
    ensures Alone(After(cfg, n, 1, 1, run), n, ms, CheckInbox(K.COPY.msg))
  {
    run := L.Ready(cfg, n, 0);
    G.CopiesConserved(cfg, n, 1, 1, run, K.COPY);
    assert Count(After(cfg, n, 1, 1, run).w.main, Same(K.COPY)) > 0;
    run := L.Then(cfg, n, run, Tick(ms));
    run := L.Then(cfg, n, run, Deliver(0, Ok));
  }

  /** It makes a call that leaves the stores alone. */
  lemma GoesOn(cfg: Config, n: nat, before: seq<Action>, now: nat, pc: Pc, reply: Reply, next: Pc)
    returns (run: seq<Action>)
    requires Alone(After(cfg, n, 1, 1, before), n, now, pc) && !pc.Idle?
    requires var w := After(cfg, n, 1, 1, before).w; Step(w, pc, reply, cfg.maxRetries) == (w, next)
    ensures Alone(After(cfg, n, 1, 1, run), n, now, next)
  {
    run := L.Takes(cfg, n, before, 0, reply);
  }

  /** One failed inbox check, with no other fault: the message is still in processing, with no copy
      anywhere, no delivery and no dead letter. */
  lemma FailedCheckLosesCopy(cfg: Config, n: nat) returns (run: seq<Action>)
    requires n >= 1
    ensures Alone(After(cfg, n, 1, 1, run), n, 0, Idle(Error)) && Gone(After(cfg, n, 1, 1, run), K.COPY)
  {
    run := HandedOver(cfg, n, 0);
    run := GoesOn(cfg, n, run, 0, CheckInbox(K.COPY.msg), Refused, Idle(Error));
    var s := After(cfg, n, 1, 1, run);
    CountZero(s.consumers, InHandOf(K.COPY));
  }

  /** A dead-letter publish that is refused is not noticed: the message is marked failed. */
  lemma FailsWithoutDeadLetter(cfg: Config, n: nat) returns (run: seq<Action>)
    requires n >= 1
    ensures var w := After(cfg, n, 1, 1, run).w; 0 in w.docs && w.docs[0].status.Failed? && w.dlq == []
  {
    var late, doc := STALE_AFTER + 1, K.Tried(0);
    run := HandedOver(cfg, n, late);
    run := GoesOn(cfg, n, run, late, CheckInbox(K.COPY.msg), Ok, Load(K.COPY, 0));
    run := GoesOn(cfg, n, run, late, Load(K.COPY, 0), Ok, Gate(K.COPY, 0, doc));
    run := GoesOn(cfg, n, run, late, Gate(K.COPY, 0, doc), Ok, Bury(K.COPY, 0));
    run := GoesOn(cfg, n, run, late, Bury(K.COPY, 0), Refused, SetFailed(0));
    run := L.Takes(cfg, n, run, 0, Ok);
  }

  /** Without a consumer no copy ends and no dead-letter publish of one is refused. */
  ghost predicate Untouched(s: State) {
    |s.consumers| == 0 ==> s.h.ended == multiset{} && s.h.unburied == {}
  }

  lemma UntouchedRun(cfg: Config, s: State, run: seq<Action>)
    requires Untouched(s)
    ensures Untouched(Exec(Steps(cfg), s, run))
  {
    Keeps(Steps(cfg), (s: State) => Untouched(s), s, run);
  }

  ghost predicate NothingLost(s: State) {
    forall b: Body, oid :: b.Names(oid) && Gone(s, b) ==> Delivered(s.w.calls, oid) || DeadLettered(s.w.dlq, oid)
  }

  ghost predicate AllBuried(s: State) {
    forall oid :: oid in s.w.docs && s.w.docs[oid].status.Failed? ==> DeadLettered(s.w.dlq, oid)
  }

  ghost predicate LosesNothing(cfg: Config, n: nat) {
    forall r, m, run :: NothingLost(After(cfg, n, r, m, run))
  }

  ghost predicate BuriesAll(cfg: Config, n: nat) {
    forall r, m, run :: AllBuried(After(cfg, n, r, m, run))
  }

  lemma NoConsumerLosesNothing(cfg: Config, r: nat, m: nat, run: seq<Action>)
    ensures NothingLost(After(cfg, 0, r, m, run)) && AllBuried(After(cfg, 0, r, m, run))
  {
    var s := After(cfg, 0, r, m, run);
    G.SizesRun(cfg, Init(0, r, m), run);
    UntouchedRun(cfg, Init(0, r, m), run);
    forall b: Body, oid | b.Names(oid) && Gone(s, b)
      ensures Delivered(s.w.calls, oid) || DeadLettered(s.w.dlq, oid)
    {
      OnlyDropsLose(cfg, 0, r, m, run, b, oid);
    }
    forall oid | oid in s.w.docs && s.w.docs[oid].status.Failed?
      ensures DeadLettered(s.w.dlq, oid)
    {
      G.FailedMeansDeadLettered(cfg, 0, r, m, run, oid);
    }
  }

  /** With faults, any consumer at all can lose a message, for which only the monitor is left. */
  lemma LosesNothingIff(cfg: Config, n: nat)
    ensures LosesNothing(cfg, n) <==> n == 0
  {
    if n == 0 {
      forall r, m, run
        ensures NothingLost(After(cfg, n, r, m, run))
      {
        NoConsumerLosesNothing(cfg, r, m, run);
      }
    } else {
      var run := FailedCheckLosesCopy(cfg, n);
      assert K.COPY.Names(0) && !NothingLost(After(cfg, n, 1, 1, run));
    }
  }

  /** Any consumer at all needs the exception of FailedMeansDeadLettered. */
  lemma BuriesAllIff(cfg: Config, n: nat)
    ensures BuriesAll(cfg, n) <==> n == 0
  {
    if n == 0 {
      forall r, m, run
        ensures AllBuried(After(cfg, n, r, m, run))
      {
        NoConsumerLosesNothing(cfg, r, m, run);
      }
    } else {
      var run := FailsWithoutDeadLetter(cfg, n);
      assert !AllBuried(After(cfg, n, 1, 1, run));
    }
  }
}
