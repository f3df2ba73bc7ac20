/** What the retry delay guarantees, and what it takes for no message to be called stale. */
module Timing {
  import opened Messages
  import opened Delivery
  import opened Counting
  import opened Runs
  import opened Sweeps
  import opened Atomic
  import opened ExactlyOnce

  // ---- attempts are spaced by the retry delay

  /** One TTL for the whole queue and a clock that does not go back: the queue is in expiry order. */
  ghost predicate InOrder(q: seq<Queued>) {
    forall i, j :: 0 <= i < j < |q| ==> q[i].since <= q[j].since
  }

  /** Calls for `oid` are a retry delay apart, and its copy keeps the next one so. */
  ghost predicate Spaced(w: World, oid: ObjectId) {
    && SpacedCalls(w.calls, oid)
    && (forall k :: 0 <= k < |w.calls| && w.calls[k].oid == oid ==>
          && w.calls[k].at <= w.now
          && (forall i :: 0 <= i < |w.retry| && w.retry[i].body.Names(oid) ==> w.calls[k].at <= w.retry[i].since)
          && (forall i :: 0 <= i < |w.main| && w.main[i].body.Names(oid) ==> w.calls[k].at + RETRY_TTL <= w.now))
  }

  ghost predicate SpacedCalls(calls: seq<Call>, oid: ObjectId) {
    forall i, j :: 0 <= i < j < |calls| && calls[i].oid == oid && calls[j].oid == oid
                   ==> calls[i].at + RETRY_TTL <= calls[j].at
  }

  ghost predicate SpacedInv(x: System) {
    Inv(x) && InOrder(x.w.retry) && forall oid :: Spaced(x.w, oid)
  }

  lemma NoCopies(w: World, oid: ObjectId)
    requires Copies(w, oid) == 0
    ensures forall i :: 0 <= i < |w.main| ==> !w.main[i].body.Names(oid)
    ensures forall i :: 0 <= i < |w.retry| ==> !w.retry[i].body.Names(oid)
  {
    CountZero(w.main, Naming(oid));
    CountZero(w.retry, Naming(oid));
    assert forall i :: 0 <= i < |w.main| ==> !Naming(oid)(w.main[i]);
    assert forall i :: 0 <= i < |w.retry| ==> !Naming(oid)(w.retry[i]);
  }

  /** What happens to one message does not concern the spacing of another. */
  lemma SpacedElsewhere(w: World, id: ObjectId, body: Body, accepted: bool, maxRetries: int, oid: ObjectId)
    requires Spaced(w, oid) && id in w.docs && body.Names(id) && oid != id
    ensures Spaced(Outcome(w, id, body, accepted, maxRetries), oid)
  {
  }

  /** An attempt for the message in hand comes a retry delay after the ones before. */
  lemma SpacedHere(w: World, id: ObjectId, body: Body, accepted: bool, maxRetries: int)
    requires SpacedCalls(w.calls, id) && id in w.docs
    requires forall k :: 0 <= k < |w.calls| && w.calls[k].oid == id ==> w.calls[k].at + RETRY_TTL <= w.now
    requires forall i :: 0 <= i < |w.main| ==> !w.main[i].body.Names(id)
    requires forall i :: 0 <= i < |w.retry| ==> !w.retry[i].body.Names(id)
    ensures Spaced(Outcome(w, id, body, accepted, maxRetries), id)
  {
  }

  lemma SpacedConsume(x: System, accepted: bool, maxRetries: int, oid: ObjectId)
    requires Inv(x) && x.w.main != [] && Spaced(x.w, oid)
    ensures var w0 := x.w.(main := x.w.main[1..]);
            HeadId(x.w) in x.w.docs && Spaced(Outcome(w0, HeadId(x.w), x.w.main[0].body, accepted, maxRetries), oid)
  {
    HeadStatus(x);
    var w0, id := x.w.(main := x.w.main[1..]), HeadId(x.w);
    assert forall i :: 0 <= i < |w0.main| ==> w0.main[i] == x.w.main[i + 1];
    if oid == id {
      assert Ledger(x.w, id);
      assert Copies(w0, id) == 0;
      NoCopies(w0, id);
      SpacedHere(w0, id, x.w.main[0].body, accepted, maxRetries);
    } else {
      SpacedElsewhere(w0, id, x.w.main[0].body, accepted, maxRetries, oid);
    }
  }

  lemma SpacedSend(x: System, oid: ObjectId)
    requires Inv(x) && x.batch != [] && Spaced(x.w, oid)
    ensures Spaced(SendItem(x.w, x.batch[0], RELIABLE(x.batch[0].oid)), oid)
  {
    assert Ledger(x.w, oid);
    CountZero(x.w.calls, CallFor(oid));
    assert forall k :: 0 <= k < |x.w.calls| && x.w.calls[k].oid == oid ==> CallFor(oid)(x.w.calls[k]);
  }

  lemma SpacedConsumed(cfg: Config, x: System, accepted: bool)
    requires SpacedInv(x) && x.w.main != []
    ensures var w' := Handled(x.w, accepted, cfg.maxRetries);
            InOrder(w'.retry) && forall oid :: Spaced(w', oid)
  {
    HeadStatus(x);
    HandledIsOutcome(x.w, HeadId(x.w), accepted, cfg.maxRetries);
    forall oid ensures Spaced(Handled(x.w, accepted, cfg.maxRetries), oid) {
      SpacedConsume(x, accepted, cfg.maxRetries, oid);
    }
  }

  lemma SpacedExpire(w: World)
    requires InOrder(w.retry) && w.retry != [] && w.retry[0].since + RETRY_TTL <= w.now
    requires forall oid :: Spaced(w, oid)
    ensures InOrder(Expired(w).retry) && forall oid :: Spaced(Expired(w), oid)
  {
    forall oid ensures Spaced(Expired(w), oid) {
      assert Spaced(w, oid);
    }
  }

  lemma SpacedSweep(w: World, found: seq<Entry>)
    requires Distinct(found) && forall oid :: Spaced(w, oid)
    ensures RecoverAll(w, found, RELIABLE).retry == w.retry
    ensures forall oid :: Spaced(RecoverAll(w, found, RELIABLE), oid)
  {
    RecoverAllSweeps(w, found, RELIABLE);
    forall oid ensures Spaced(RecoverAll(w, found, RELIABLE), oid) {
      assert Spaced(w, oid);
    }
  }

  lemma SpacedEvent(cfg: Config, x: System, e: Event)
    requires SpacedInv(x)
    ensures SpacedInv(Apply(cfg, x, e))
  {
    InvEvent(cfg, x, e);
    if Enabled(cfg, x, e) {
      var x' := Do(cfg, x, e);
      match e
      case Consume(accepted) => SpacedConsumed(cfg, x, accepted);
      case Send =>
        forall oid ensures Spaced(x'.w, oid) {
          SpacedSend(x, oid);
        }
      case Sweep(found) => SpacedSweep(x.w, found);
      case Expire => SpacedExpire(x.w);
      case _ =>
        forall oid ensures Spaced(x'.w, oid) {
          assert Spaced(x.w, oid);
        }
    }
  }

  lemma SpacedRun(cfg: Config, x: System, run: seq<Event>)
    requires SpacedInv(x)
    ensures SpacedInv(Exec(Events(cfg), x, run))
  {
    forall x, e | SpacedInv(x) ensures SpacedInv(Events(cfg)(x, e)) {
      SpacedEvent(cfg, x, e);
    }
    Keeps(Events(cfg), (x: System) => SpacedInv(x), x, run);
  }

  lemma {:induction false} SpacedFrom(calls: seq<Call>, oid: ObjectId, m: nat, j: nat, t: nat)
    requires m <= j < |calls| && calls[j].oid == oid && SpacedCalls(calls, oid)
    requires forall k :: m <= k <= j && calls[k].oid == oid ==> t <= calls[k].at
    ensures t + RETRY_TTL * Count(calls[m..j], CallFor(oid)) <= calls[j].at
    decreases j - m
  {
    if m < j {
      assert calls[m..j][1..] == calls[m + 1..j];
      SpacedFrom(calls, oid, m + 1, j, if calls[m].oid == oid then t + RETRY_TTL else t);
    } else {
      assert calls[m..j] == [];
    }
  }

  /** The k-th webhook attempt after a given one for the same message comes at least k retry delays later. */
  lemma AttemptsSpaced(cfg: Config, run: seq<Event>, i: nat, j: nat)
    requires var calls := After(cfg, run).w.calls; i <= j < |calls| && calls[i].oid == calls[j].oid
    ensures var calls := After(cfg, run).w.calls;
            calls[i].at + 10_000 * Count(calls[i..j], CallFor(calls[i].oid)) <= calls[j].at
  {
    SpacedRun(cfg, EMPTY, run);
    var calls := After(cfg, run).w.calls;
    assert Spaced(After(cfg, run).w, calls[i].oid);
    SpacedFrom(calls, calls[i].oid, i, j, calls[i].at);
  }

  /** Copies return to the main queue in the order they failed: the head is always the first to expire. */
  lemma HeadExpiresFirst(cfg: Config, run: seq<Event>, i: nat)
    requires i < |After(cfg, run).w.retry|
    requires After(cfg, run).w.retry[i].since + RETRY_TTL <= After(cfg, run).w.now
    ensures Enabled(cfg, After(cfg, run), Expire)
  {
    SpacedRun(cfg, EMPTY, run);
  }

  // ---- the gate

  /** Its two refusals are told apart: spent retries stay spent however recent the last update, and a
      message that is only too old would have been let through right after an update. */
  lemma RefusalsDiffer(doc: Message, maxRetries: int, now: nat, later: nat, updatedAt: nat)
    ensures ShouldProcess(doc, maxRetries, now).RetriesSpent? ==>
              ShouldProcess(doc.(updatedAt := updatedAt), maxRetries, later).RetriesSpent?
    ensures ShouldProcess(doc, maxRetries, now).TooOld? ==>
              ShouldProcess(doc.(updatedAt := now), maxRetries, now).Proceed?
    ensures ShouldProcess(doc, maxRetries, now).Proceed? && now <= later ==>
              !ShouldProcess(doc, maxRetries, later).RetriesSpent?
    ensures ShouldProcess(doc, maxRetries, doc.updatedAt).Proceed? ==>
              (ShouldProcess(doc, maxRetries, now).TooOld? <==> now > doc.updatedAt + 240_000)
  {
  }

  // ---- no message is stale while the consumer keeps up

  /** Time does not pass a copy's deadline: `slack` in the main queue, its expiry in the retry queue. */
  ghost predicate Prompt(w: World, now: nat, slack: nat) {
    && (forall i :: 0 <= i < |w.main| ==> now <= w.main[i].since + slack)
    && (forall i :: 0 <= i < |w.retry| ==> now <= w.retry[i].since + RETRY_TTL)
  }

  ghost predicate PromptRun(cfg: Config, x: System, run: seq<Event>, slack: nat)
    decreases |run|
  {
    run != [] ==>
      && (run[0].Tick? ==> Prompt(x.w, x.w.now + run[0].ms, slack))
      && PromptRun(cfg, Apply(cfg, x, run[0]), run[1..], slack)
  }

  function Ceiling(maxRetries: int): nat {
    if maxRetries > 0 then maxRetries else 0
  }

  /** How long after its last update a message's copy may enter the main queue: a copy
      goes round by the retry queue only if more than one attempt is allowed. */
  function Lag(maxRetries: int): nat {
    if maxRetries >= 2 then RETRY_TTL else 0
  }

  /** A message in a queue has been updated recently, and a failed one has spent its retries. */
  ghost predicate Fresh(w: World, maxRetries: int, oid: ObjectId) {
    && (oid in w.docs ==>
          && w.docs[oid].retryCount <= Ceiling(maxRetries)
          && (w.docs[oid].status.Failed? ==> Copies(w, oid) == 0 && w.docs[oid].retryCount == Ceiling(maxRetries))
          && (forall i :: 0 <= i < |w.main| && w.main[i].body.Names(oid) ==>
                w.main[i].since <= w.docs[oid].updatedAt + Lag(maxRetries))
          && (forall i :: 0 <= i < |w.retry| && w.retry[i].body.Names(oid) ==>
                w.retry[i].since <= w.docs[oid].updatedAt && maxRetries >= 2))
    && (DeadLettered(w.dlq, oid) ==> oid in w.docs && w.docs[oid].status.Failed?)
  }

  ghost predicate FreshInv(x: System, maxRetries: int, slack: nat) {
    Inv(x) && Prompt(x.w, x.w.now, slack) && forall oid :: Fresh(x.w, maxRetries, oid)
  }

  /** A message with a copy is not stale, for the gate or for the monitor. */
  lemma FreshNotStale(x: System, maxRetries: int, slack: nat, oid: ObjectId)
    requires FreshInv(x, maxRetries, slack) && slack + Lag(maxRetries) <= STALE_AFTER
    requires oid in x.w.docs && Copies(x.w, oid) > 0
    ensures !IsStale(x.w.docs[oid], x.w.now)
  {
    assert Fresh(x.w, maxRetries, oid);
    if forall i :: 0 <= i < |x.w.main| ==> !x.w.main[i].body.Names(oid) {
      CountZero(x.w.main, Naming(oid));
      CountZero(x.w.retry, Naming(oid));
      var i :| 0 <= i < |x.w.retry| && Naming(oid)(x.w.retry[i]);
      assert x.w.retry[i].body.Names(oid);
    }
  }

  lemma DeadLetteredAppend(dlq: seq<Body>, body: Body)
    ensures forall oid :: DeadLettered(dlq + [body], oid) <==> DeadLettered(dlq, oid) || body.Names(oid)
  {
    forall oid
      ensures DeadLettered(dlq + [body], oid) <==> DeadLettered(dlq, oid) || body.Names(oid)
    {
      if DeadLettered(dlq, oid) {
        var k :| 0 <= k < |dlq| && dlq[k].Names(oid);
        assert (dlq + [body])[k].Names(oid);
      }
      if body.Names(oid) {
        assert (dlq + [body])[|dlq|].Names(oid);
      }
    }
  }

  /** What happens to one message does not make another one less fresh. */
  lemma FreshElsewhere(w: World, id: ObjectId, body: Body, accepted: bool, maxRetries: int, oid: ObjectId)
    requires Fresh(w, maxRetries, oid) && id in w.docs && body.Names(id) && oid != id
    ensures Fresh(Outcome(w, id, body, accepted, maxRetries), maxRetries, oid)
  {
    DeadLetteredAppend(w.dlq, body);
    CountAppend(w.retry, Queued(body, w.now), Naming(oid));
  }

  /** A message that is not stale and has no copy but the one in hand fails only with its retries spent. */
  lemma FreshHere(w: World, id: ObjectId, body: Body, accepted: bool, maxRetries: int)
    requires id in w.docs && body.Names(id) && !IsStale(w.docs[id], w.now) && Hex(id) !in w.inbox
    requires w.docs[id].status.Processing? && w.docs[id].retryCount <= Ceiling(maxRetries)
    requires !DeadLettered(w.dlq, id) && Copies(w, id) == 0
    ensures Fresh(Outcome(w, id, body, accepted, maxRetries), maxRetries, id)
  {
    DeadLetteredAppend(w.dlq, body);
    CountAppend(w.retry, Queued(body, w.now), Naming(id));
    NoCopies(w, id);
  }

  lemma FreshConsume(x: System, accepted: bool, maxRetries: int, slack: nat, oid: ObjectId)
    requires FreshInv(x, maxRetries, slack) && slack + Lag(maxRetries) <= STALE_AFTER && x.w.main != []
    ensures HeadId(x.w) in x.w.docs
    ensures var w0 := x.w.(main := x.w.main[1..]);
            Fresh(Outcome(w0, HeadId(x.w), x.w.main[0].body, accepted, maxRetries), maxRetries, oid)
  {
    HeadStatus(x);
    var w0, id := x.w.(main := x.w.main[1..]), HeadId(x.w);
    assert Fresh(x.w, maxRetries, oid);
    if oid == id {
      FreshNotStale(x, maxRetries, slack, id);
      assert Ledger(x.w, id);
      assert Copies(w0, id) == 0;
      FreshHere(w0, id, x.w.main[0].body, accepted, maxRetries);
    } else {
      FreshRest(x.w, maxRetries, oid);
      FreshElsewhere(w0, id, x.w.main[0].body, accepted, maxRetries, oid);
    }
  }

  lemma FreshRest(w: World, maxRetries: int, oid: ObjectId)
    requires Fresh(w, maxRetries, oid) && w.main != [] && !w.main[0].body.Names(oid)
    ensures Fresh(w.(main := w.main[1..]), maxRetries, oid)
  {
    assert forall i :: 0 <= i < |w.main[1..]| ==> w.main[1..][i] == w.main[i + 1];
  }

  lemma FreshEvent(cfg: Config, x: System, e: Event, slack: nat)
    requires FreshInv(x, cfg.maxRetries, slack) && slack + Lag(cfg.maxRetries) <= STALE_AFTER
    requires e.Tick? ==> Prompt(x.w, x.w.now + e.ms, slack)
    ensures FreshInv(Apply(cfg, x, e), cfg.maxRetries, slack)
  {
    InvEvent(cfg, x, e);
    if Enabled(cfg, x, e) {
      match e
      case Create(oid, _, _) => FreshCreate(cfg, x, e, slack);
      case Consume(accepted) => FreshConsumed(cfg, x, accepted, slack);
      case Sweep(found) => FreshSweep(cfg, x, found, slack);
      case Send => FreshSend(cfg, x, slack);
      case Expire => FreshExpire(cfg, x, slack);
      case _ =>
        var x' := Do(cfg, x, e);
        forall oid ensures Fresh(x'.w, cfg.maxRetries, oid) {
          assert Fresh(x.w, cfg.maxRetries, oid);
        }
    }
  }

  lemma FreshCreate(cfg: Config, x: System, e: Event, slack: nat)
    requires FreshInv(x, cfg.maxRetries, slack) && e.Create? && Enabled(cfg, x, e)
    ensures FreshInv(Do(cfg, x, e), cfg.maxRetries, slack)
  {
    InvEvent(cfg, x, e);
    var x' := Do(cfg, x, e);
    forall oid ensures Fresh(x'.w, cfg.maxRetries, oid) {
      assert Fresh(x.w, cfg.maxRetries, oid) && Ledger(x.w, oid);
      if oid == e.oid {
        NoCopies(x.w, oid);
      }
    }
  }

  lemma FreshConsumed(cfg: Config, x: System, accepted: bool, slack: nat)
    requires FreshInv(x, cfg.maxRetries, slack) && slack + Lag(cfg.maxRetries) <= STALE_AFTER && x.w.main != []
    ensures FreshInv(Do(cfg, x, Consume(accepted)), cfg.maxRetries, slack)
  {
    InvEvent(cfg, x, Consume(accepted));
    HeadStatus(x);
    var x' := Do(cfg, x, Consume(accepted));
    HandledIsOutcome(x.w, HeadId(x.w), accepted, cfg.maxRetries);
    forall oid ensures Fresh(x'.w, cfg.maxRetries, oid) {
      FreshConsume(x, accepted, cfg.maxRetries, slack, oid);
    }
  }

  /** The monitor finds nothing. */
  lemma FreshSweep(cfg: Config, x: System, found: seq<Entry>, slack: nat)
    requires FreshInv(x, cfg.maxRetries, slack) && slack + Lag(cfg.maxRetries) <= STALE_AFTER
    requires IsStaleBatch(x.w.docs, found, x.w.now)
    ensures found == []
  {
    if found != [] {
      assert Ledger(x.w, found[0].oid);
      FreshNotStale(x, cfg.maxRetries, slack, found[0].oid);
    }
  }

  lemma FreshSend(cfg: Config, x: System, slack: nat)
    requires FreshInv(x, cfg.maxRetries, slack) && x.batch != []
    ensures FreshInv(Do(cfg, x, Event.Send), cfg.maxRetries, slack)
  {
    InvEvent(cfg, x, Event.Send);
    var x' := Do(cfg, x, Event.Send);
    forall oid ensures Fresh(x'.w, cfg.maxRetries, oid) {
      assert Fresh(x.w, cfg.maxRetries, oid) && Ledger(x.w, oid);
      CountAppend(x.w.main, Queued(OutboxBody(x.batch[0]), x.w.now), Naming(oid));
      if oid == x.batch[0].oid {
        NoCopies(x.w, oid);
      }
    }
  }

  lemma FreshExpire(cfg: Config, x: System, slack: nat)
    requires FreshInv(x, cfg.maxRetries, slack) && Enabled(cfg, x, Expire)
    ensures FreshInv(Do(cfg, x, Expire), cfg.maxRetries, slack)
  {
    InvEvent(cfg, x, Expire);
    var x' := Do(cfg, x, Expire);
    forall oid ensures Fresh(x'.w, cfg.maxRetries, oid) {
      assert Fresh(x.w, cfg.maxRetries, oid);
      CountAppend(x.w.main, Queued(x.w.retry[0].body, x.w.now), Naming(oid));
    }
  }

  lemma {:induction false} FreshRun(cfg: Config, x: System, run: seq<Event>, slack: nat)
    requires FreshInv(x, cfg.maxRetries, slack) && slack + Lag(cfg.maxRetries) <= STALE_AFTER
    requires PromptRun(cfg, x, run, slack)
    ensures FreshInv(Exec(Events(cfg), x, run), cfg.maxRetries, slack)
    decreases |run|
  {
    if run != [] {
      FreshEvent(cfg, x, run[0], slack);
      FreshRun(cfg, Apply(cfg, x, run[0]), run[1..], slack);
    }
  }

  /** If no copy waits in the main queue longer than `slack`, retries return on time, and `slack`
      plus the retry delay, if there are retries, is within the stale limit, then nothing is ever declared stale,
      a message fails only with its retries spent, and never is one both delivered and dead-lettered. */
  lemma PromptMeansNeverStale(cfg: Config, run: seq<Event>, slack: nat, oid: ObjectId)
    requires slack + (if cfg.maxRetries >= 2 then 10_000 else 0) <= 240_000 && PromptRun(cfg, EMPTY, run, slack)
    requires oid in After(cfg, run).w.docs
    ensures var w := After(cfg, run).w;
            && (w.docs[oid].status.Processing? ==> !IsStale(w.docs[oid], w.now))
            && (Copies(w, oid) > 0 ==>
                  !IsStale(w.docs[oid], w.now) && !ShouldProcess(w.docs[oid], cfg.maxRetries, w.now).TooOld?)
            && (w.docs[oid].status.Failed? ==> w.docs[oid].retryCount == Ceiling(cfg.maxRetries))
            && !(Delivered(w.calls, oid) && DeadLettered(w.dlq, oid))
  {
    FreshRun(cfg, EMPTY, run, slack);
    var x := After(cfg, run);
    assert Fresh(x.w, cfg.maxRetries, oid) && Ledger(x.w, oid);
    if Copies(x.w, oid) > 0 {
      FreshNotStale(x, cfg.maxRetries, slack, oid);
    }
    if Delivered(x.w.calls, oid) {
      CountZero(x.w.calls, SuccessFor(oid));
      var k :| 0 <= k < |x.w.calls| && x.w.calls[k].oid == oid && x.w.calls[k].ok;
      assert SuccessFor(oid)(x.w.calls[k]);
    }
  }
}
