/** When a sent message can be marked as something else again. */
module Finality {
  import opened Messages
  import opened Delivery
  import opened Runs
  import opened Protocol
  import opened Safety
  import G = Guarantees
  import O = Outbox

  /** A consumer whose calls ahead may write another status for `oid` than sent. */
  predicate Handles(pc: Pc, oid: ObjectId) {
    if pc.CheckInbox? then pc.msg.id == Hex(oid)
    else !(pc.Idle? || pc.BuryPoison? || pc.MarkInbox? || pc.SetSent?) && pc.oid == oid
  }

  /** A monitor that has still to fail `oid`. */
  ghost predicate Dooms(x: Monitor, oid: ObjectId) {
    match x
    case Recover(batch) => Listed(batch, oid)
    case Condemn(o, rest) => o == oid || Listed(rest, oid)
  }

  predicate InQueue(q: seq<Queued>, oid: ObjectId) {
    exists i :: 0 <= i < |q| && q[i].body.Names(oid)
  }

  /** Somebody has still business with the message: a runner that has to publish or to confirm it,
      a monitor that has to fail it, a consumer with a copy in hand, or a copy that a consumer can get. */
  ghost predicate Unfinished(s: State, oid: ObjectId) {
    || (exists r :: 0 <= r < |s.senders| && O.Wants(s.senders[r], oid))
    || (exists m :: 0 <= m < |s.monitors| && Dooms(s.monitors[m], oid))
    || (exists c :: 0 <= c < |s.consumers| && Handles(s.consumers[c].pc, oid))
    || (s.consumers != [] && (InQueue(s.w.main, oid) || InQueue(s.w.retry, oid)))
  }

  predicate IsSent(docs: Docs, oid: ObjectId) {
    oid in docs && docs[oid].status.Sent?
  }

  /** Nobody but the services puts anything into the main queue. */
  predicate Own(run: seq<Action>) {
    forall i :: 0 <= i < |run| ==> !run[i].Inject?
  }

  ghost predicate CanChange(cfg: Config, s: State, oid: ObjectId) {
    exists run :: Own(run) && !IsSent(Exec(Steps(cfg), s, run).w.docs, oid)
  }

  // ---- a finished message stays sent

  ghost predicate Finished(s: State, oid: ObjectId) {
    FailedInv(s) && IsSent(s.w.docs, oid) && !Unfinished(s, oid)
  }

  lemma FinishedConsumer(w: World, pc: Pc, reply: Reply, maxRetries: int, oid: ObjectId)
    requires IsSent(w.docs, oid) && !Handles(pc, oid) && CarriesOwnId(pc) && !InQueue(w.retry, oid)
    ensures var (w', pc') := Step(w, pc, reply, maxRetries);
            && IsSent(w'.docs, oid) && !Handles(pc', oid)
            && w'.main == w.main && !InQueue(w'.retry, oid)
  {
    var w' := Step(w, pc, reply, maxRetries).0;
    if pc.Requeue? && reply.Took() {
      assert forall i :: 0 <= i < |w'.retry| ==>
        w'.retry[i] == if i < |w.retry| then w.retry[i] else Queued(pc.body, w.now);
    }
  }

  lemma FinishedConsume(cfg: Config, s: State, c: nat, reply: Reply, oid: ObjectId)
    requires Finished(s, oid) && Enabled(cfg, s, Consume(c, reply))
    ensures IsSent(Consumed(cfg, s, c, reply).w.docs, oid) && !Unfinished(Consumed(cfg, s, c, reply), oid)
  {
    var s', h1, k := Consumed(cfg, s, c, reply), s.h.(step := s.h.step + 1), s.consumers[c];
    assert PastBurial(s.w.dlq, s.h.unburied, k.pc) && !Handles(k.pc, oid);
    FinishedConsumer(s.w, k.pc, reply, cfg.maxRetries, oid);
    assert s'.consumers == s.consumers[c := Advance(h1, s.w, k, Step(s.w, k.pc, reply, cfg.maxRetries).1)];
    assert s'.w == Step(s.w, k.pc, reply, cfg.maxRetries).0 && s'.senders == s.senders && s'.monitors == s.monitors;
  }

  lemma FinishedSend(cfg: Config, s: State, r: nat, reply: Reply, oid: ObjectId)
    requires Finished(s, oid) && Enabled(cfg, s, Action.Send(r, reply))
    ensures var s' := Do(cfg, s, Action.Send(r, reply)); IsSent(s'.w.docs, oid) && !Unfinished(s', oid)
  {
    var x, s' := s.senders[r], Do(cfg, s, Action.Send(r, reply));
    assert !O.Wants(x, oid);
    if x.Publish? {
      assert x.batch[0].oid != oid;
      assert forall i :: 0 <= i < |x.batch[1..]| ==> x.batch[1..][i] == x.batch[i + 1];
      assert forall i :: 0 <= i < |s'.w.main| ==>
        s'.w.main[i] == if i < |s.w.main| then s.w.main[i] else Queued(OutboxBody(x.batch[0]), s.w.now);
    }
  }

  lemma FinishedHeal(cfg: Config, s: State, m: nat, reply: Reply, oid: ObjectId)
    requires Finished(s, oid) && Enabled(cfg, s, Heal(m, reply))
    ensures var s' := Do(cfg, s, Heal(m, reply)); IsSent(s'.w.docs, oid) && !Unfinished(s', oid)
  {
    var x := s.monitors[m];
    assert !Dooms(x, oid);
    if x.Recover? {
      assert x.batch[0].oid != oid;
      assert forall i :: 0 <= i < |x.batch[1..]| ==> x.batch[1..][i] == x.batch[i + 1];
    }
  }

  /** Copies move between the queues and into hands. */
  lemma FinishedMove(cfg: Config, s: State, a: Action, oid: ObjectId)
    requires Finished(s, oid) && Enabled(cfg, s, a) && (a.Expire? || a.Deliver? || a.KillConsumer?)
    ensures var s' := Do(cfg, s, a); IsSent(s'.w.docs, oid) && !Unfinished(s', oid)
  {
    var s' := Do(cfg, s, a);
    if a.Expire? {
      assert forall i :: 0 <= i < |s'.w.retry| ==> s'.w.retry[i] == s.w.retry[i + 1];
      assert forall i :: 0 <= i < |s'.w.main| ==>
        s'.w.main[i] == if i < |s.w.main| then s.w.main[i] else Queued(s.w.retry[0].body, s.w.now);
    } else if a.Deliver? {
      assert !s.w.main[0].body.Names(oid);
      assert forall i :: 0 <= i < |s.w.main[1..]| ==> s.w.main[1..][i] == s.w.main[i + 1];
    }
  }

  lemma FinishedStep(cfg: Config, s: State, a: Action, oid: ObjectId)
    requires Finished(s, oid) && !a.Inject?
    ensures Finished(Apply(cfg, s, a), oid)
  {
    FailedStep(cfg, s, a);
    if Enabled(cfg, s, a) {
      match a
      case Consume(c, reply) => FinishedConsume(cfg, s, c, reply, oid);
      case Send(r, reply) => FinishedSend(cfg, s, r, reply, oid);
      case Heal(m, reply) => FinishedHeal(cfg, s, m, reply, oid);
      case Expire => FinishedMove(cfg, s, a, oid);
      case Deliver(_, _) => FinishedMove(cfg, s, a, oid);
      case KillConsumer(_) => FinishedMove(cfg, s, a, oid);
      case Find(_, found) => assert !Listed(found, oid);
      case Scan(_, found) => assert !Listed(found, oid);
      case _ =>
    }
  }

  lemma {:induction false} FinishedRun(cfg: Config, s: State, run: seq<Action>, oid: ObjectId)
    requires Finished(s, oid) && Own(run)
    ensures Finished(Exec(Steps(cfg), s, run), oid)
    decreases |run|
  {
    if run != [] {
      FinishedStep(cfg, s, run[0], oid);
      assert forall i :: 0 <= i < |run[1..]| ==> run[1..][i] == run[i + 1];
      FinishedRun(cfg, Apply(cfg, s, run[0]), run[1..], oid);
    }
  }

  // ---- an unfinished one can be changed

  lemma Back(cfg: Config, s: State, a: Action, oid: ObjectId)
    requires CanChange(cfg, Apply(cfg, s, a), oid) && !a.Inject?
    ensures CanChange(cfg, s, oid)
  {
    var rest :| Own(rest) && !IsSent(Exec(Steps(cfg), Apply(cfg, s, a), rest).w.docs, oid);
    var run := [a] + rest;
    assert run[1..] == rest;
    assert Own(run) && !IsSent(Exec(Steps(cfg), s, run).w.docs, oid);
  }

  lemma Changed(cfg: Config, s: State, oid: ObjectId)
    requires !IsSent(s.w.docs, oid)
    ensures CanChange(cfg, s, oid)
  {
    assert Own([]) && !IsSent(Exec(Steps(cfg), s, []).w.docs, oid);
  }

  lemma {:induction false} RunnerChanges(cfg: Config, s: State, r: nat, oid: ObjectId)
    requires r < |s.senders| && O.Wants(s.senders[r], oid) && oid in s.w.docs
    ensures CanChange(cfg, s, oid)
    decreases if s.senders[r].Publish? then 2 * |s.senders[r].batch| else 2 * |s.senders[r].rest| + 1
  {
    var x := s.senders[r];
    var mine := if x.Publish? then x.batch[0].oid == oid else x.oid == oid;
    var list := if x.Publish? then x.batch[1..] else x.rest;
    if x.Publish? && !mine {
      var i :| 0 <= i < |x.batch| && x.batch[i].oid == oid;
      assert list[i - 1].oid == oid;
    }
    var a := Action.Send(r, if mine then Ok else Refused);
    var s1 := Apply(cfg, s, a);
    assert s1.senders[r] == if mine && x.Publish? then Confirm(oid, list) else Publish(list);
    if mine && x.Confirm? {
      Changed(cfg, s1, oid);
    } else {
      RunnerChanges(cfg, s1, r, oid);
    }
    Back(cfg, s, a, oid);
  }

  lemma {:induction false} MonitorChanges(cfg: Config, s: State, m: nat, oid: ObjectId)
    requires m < |s.monitors| && Dooms(s.monitors[m], oid) && oid in s.w.docs
    ensures CanChange(cfg, s, oid)
    decreases if s.monitors[m].Recover? then 2 * |s.monitors[m].batch| else 2 * |s.monitors[m].rest| + 1
  {
    var x := s.monitors[m];
    var mine := if x.Recover? then x.batch[0].oid == oid else x.oid == oid;
    var list := if x.Recover? then x.batch[1..] else x.rest;
    if x.Recover? && !mine {
      var i :| 0 <= i < |x.batch| && x.batch[i].oid == oid;
      assert list[i - 1].oid == oid;
    }
    var a := Heal(m, if mine then Ok else Refused);
    var s1 := Apply(cfg, s, a);
    assert s1.monitors[m] == if mine && x.Recover? then Condemn(oid, list) else Recover(list);
    if mine && x.Condemn? {
      Changed(cfg, s1, oid);
    } else {
      MonitorChanges(cfg, s1, m, oid);
    }
    Back(cfg, s, a, oid);
  }

  /** The reply that leads a delivery to a write. */
  function Lead(pc: Pc): Reply {
    if pc.Send? then Refused else Ok
  }

  predicate BeforeRequeue(pc: Pc) {
    !pc.Reload? && !pc.Requeue?
  }

  lemma Leads(w: World, pc: Pc, maxRetries: int, oid: ObjectId)
    requires Handles(pc, oid) && BeforeRequeue(pc) && oid in w.docs
    ensures var (w', pc') := Step(w, pc, Lead(pc), maxRetries);
            || !IsSent(w'.docs, oid)
            || (Handles(pc', oid) && BeforeRequeue(pc') && oid in w'.docs && Ahead(pc') < Ahead(pc))
  {
  }

  lemma ConsumerSteps(cfg: Config, s: State, c: nat, reply: Reply)
    requires c < |s.consumers| && !s.consumers[c].pc.Idle?
    ensures var s', x := Apply(cfg, s, Consume(c, reply)), Step(s.w, s.consumers[c].pc, reply, cfg.maxRetries);
            s'.w == x.0 && |s'.consumers| == |s.consumers| && s'.consumers[c].pc == x.1
  {
  }

  lemma {:induction false} ConsumerChanges(cfg: Config, s: State, c: nat, oid: ObjectId)
    requires c < |s.consumers| && Handles(s.consumers[c].pc, oid) && BeforeRequeue(s.consumers[c].pc) && oid in s.w.docs
    ensures CanChange(cfg, s, oid)
    decreases Ahead(s.consumers[c].pc)
  {
    var pc := s.consumers[c].pc;
    var a := Consume(c, Lead(pc));
    var s1 := Apply(cfg, s, a);
    Leads(s.w, pc, cfg.maxRetries, oid);
    ConsumerSteps(cfg, s, c, Lead(pc));
    if !IsSent(s1.w.docs, oid) {
      Changed(cfg, s1, oid);
    } else {
      ConsumerChanges(cfg, s1, c, oid);
    }
    Back(cfg, s, a, oid);
  }

  /** The first consumer is restarted and handed the head of the main queue. */
  lemma HeadHanded(cfg: Config, s: State)
    requires s.consumers != [] && s.w.main != []
    ensures var s' := Apply(cfg, Apply(cfg, s, KillConsumer(0)), Deliver(0, Ok));
            && s'.w == s.w.(main := s.w.main[1..]) && |s'.consumers| == |s.consumers|
            && s'.consumers[0].pc == Opening(s.w.main[0].body)
  {
  }

  lemma {:induction false} MainChanges(cfg: Config, s: State, i: nat, oid: ObjectId)
    requires s.consumers != [] && i < |s.w.main| && s.w.main[i].body.Names(oid) && oid in s.w.docs
    ensures CanChange(cfg, s, oid)
    decreases i
  {
    var s1 := Apply(cfg, s, KillConsumer(0));
    var s2 := Apply(cfg, s1, Deliver(0, Ok));
    HeadHanded(cfg, s);
    if i == 0 {
      ConsumerChanges(cfg, s2, 0, oid);
    } else {
      MainChanges(cfg, s2, i - 1, oid);
    }
    Back(cfg, s1, Deliver(0, Ok), oid);
    Back(cfg, s, KillConsumer(0), oid);
  }

  /** Time passes until the head of the retry queue returns. */
  lemma HeadReturns(cfg: Config, s: State)
    requires s.w.retry != []
    ensures var s1 := Apply(cfg, s, Tick(s.w.retry[0].since + RETRY_TTL));
            var s2 := Apply(cfg, s1, Expire);
            && s2.w == s1.w.(retry := s.w.retry[1..], main := s.w.main + [Queued(s.w.retry[0].body, s1.w.now)])
            && s1.w.docs == s.w.docs && s2.consumers == s.consumers
  {
  }

  lemma {:induction false} RetryChanges(cfg: Config, s: State, i: nat, oid: ObjectId)
    requires s.consumers != [] && i < |s.w.retry| && s.w.retry[i].body.Names(oid) && oid in s.w.docs
    ensures CanChange(cfg, s, oid)
    decreases i
  {
    var tick := Tick(s.w.retry[0].since + RETRY_TTL);
    var s1 := Apply(cfg, s, tick);
    var s2 := Apply(cfg, s1, Expire);
    HeadReturns(cfg, s);
    if i == 0 {
      MainChanges(cfg, s2, |s.w.main|, oid);
    } else {
      RetryChanges(cfg, s2, i - 1, oid);
    }
    Back(cfg, s1, Expire, oid);
    Back(cfg, s, tick, oid);
  }

  /** A consumer about to put its copy back. */
  lemma RequeueChanges(cfg: Config, s: State, c: nat, oid: ObjectId)
    requires c < |s.consumers| && s.consumers[c].pc.Requeue? && s.consumers[c].pc.body.Names(oid) && oid in s.w.docs
    ensures CanChange(cfg, s, oid)
  {
    var s1 := Apply(cfg, s, Consume(c, Ok));
    ConsumerSteps(cfg, s, c, Ok);
    RetryChanges(cfg, s1, |s.w.retry|, oid);
    Back(cfg, s, Consume(c, Ok), oid);
  }

  lemma HandChanges(cfg: Config, s: State, c: nat, oid: ObjectId)
    requires c < |s.consumers| && Handles(s.consumers[c].pc, oid) && CarriesOwnId(s.consumers[c].pc) && oid in s.w.docs
    ensures CanChange(cfg, s, oid)
  {
    var pc := s.consumers[c].pc;
    if pc.Requeue? {
      RequeueChanges(cfg, s, c, oid);
    } else if pc.Reload? {
      var s1 := Apply(cfg, s, Consume(c, Ok));
      ConsumerSteps(cfg, s, c, Ok);
      if s1.consumers[c].pc.Requeue? {
        RequeueChanges(cfg, s1, c, oid);
      } else {
        ConsumerChanges(cfg, s1, c, oid);
      }
      Back(cfg, s, Consume(c, Ok), oid);
    } else {
      ConsumerChanges(cfg, s, c, oid);
    }
  }

  lemma UnfinishedChanges(cfg: Config, s: State, oid: ObjectId)
    requires Unfinished(s, oid) && FailedInv(s) && oid in s.w.docs
    ensures CanChange(cfg, s, oid)
  {
    if r :| 0 <= r < |s.senders| && O.Wants(s.senders[r], oid) {
      RunnerChanges(cfg, s, r, oid);
    } else if m :| 0 <= m < |s.monitors| && Dooms(s.monitors[m], oid) {
      MonitorChanges(cfg, s, m, oid);
    } else if c :| 0 <= c < |s.consumers| && Handles(s.consumers[c].pc, oid) {
      assert PastBurial(s.w.dlq, s.h.unburied, s.consumers[c].pc);
      HandChanges(cfg, s, c, oid);
    } else if i :| 0 <= i < |s.w.main| && s.w.main[i].body.Names(oid) {
      MainChanges(cfg, s, i, oid);
    } else {
      var i :| 0 <= i < |s.w.retry| && s.w.retry[i].body.Names(oid);
      RetryChanges(cfg, s, i, oid);
    }
  }

  /** From any reachable state, with nobody else publishing: a sent message can be marked as something
      else if and only if somebody has still business with it. */
  lemma SentIsFinalIff(cfg: Config, n: nat, r: nat, m: nat, before: seq<Action>, oid: ObjectId)
    requires IsSent(After(cfg, n, r, m, before).w.docs, oid)
    ensures CanChange(cfg, After(cfg, n, r, m, before), oid) <==> Unfinished(After(cfg, n, r, m, before), oid)
  {
    var s := After(cfg, n, r, m, before);
    G.FailedRun(cfg, Init(n, r, m), before);
    if Unfinished(s, oid) {
      UnfinishedChanges(cfg, s, oid);
    } else if CanChange(cfg, s, oid) {
      var run :| Own(run) && !IsSent(Exec(Steps(cfg), s, run).w.docs, oid);
      FinishedRun(cfg, s, run, oid);
    }
  }
}
