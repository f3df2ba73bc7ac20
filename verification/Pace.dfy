/** The pace of the attempts for one message: never more than the retry limit, and a fixed
    delay apart however many there have been. */
module Pace {
  import opened Messages
  import opened Delivery
  import opened Counting
  import opened Runs
  import opened Sweeps
  import opened Atomic
  import opened ExactlyOnce
  import opened Timing

  // ---- no more attempts than the limit

  /** Attempts are counted retries and a delivery. */
  ghost predicate Counted(w: World, maxRetries: int, oid: ObjectId) {
    oid in w.docs ==>
      && Count(w.calls, CallFor(oid)) == w.docs[oid].retryCount + Count(w.calls, SuccessFor(oid))
      && Count(w.calls, CallFor(oid)) <= Ceiling(maxRetries)
  }

  ghost predicate CountedInv(x: System, maxRetries: int) {
    Inv(x) && forall oid :: Counted(x.w, maxRetries, oid)
  }

  lemma CountedElsewhere(w: World, id: ObjectId, accepted: bool, maxRetries: int, oid: ObjectId)
    requires w.main != [] && id in w.docs && oid != id && Counted(w, maxRetries, oid)
    ensures Counted(Outcome(w.(main := w.main[1..]), id, w.main[0].body, accepted, maxRetries), maxRetries, oid)
  {
    var call := Call(id, w.docs[id].content, w.docs[id].to, w.now, accepted);
    CountAppend(w.calls, call, SuccessFor(oid));
    CountAppend(w.calls, call, CallFor(oid));
  }

  /** Not delivered yet, so the attempt is within the limit if the retries are. */
  lemma CountedHere(w: World, id: ObjectId, accepted: bool, maxRetries: int)
    requires w.main != [] && id in w.docs && Counted(w, maxRetries, id) && Count(w.calls, SuccessFor(id)) == 0
    ensures Counted(Outcome(w.(main := w.main[1..]), id, w.main[0].body, accepted, maxRetries), maxRetries, id)
  {
    var call := Call(id, w.docs[id].content, w.docs[id].to, w.now, accepted);
    CountAppend(w.calls, call, SuccessFor(id));
    CountAppend(w.calls, call, CallFor(id));
  }

  lemma CountedOutcome(w: World, id: ObjectId, accepted: bool, maxRetries: int, oid: ObjectId)
    requires w.main != [] && id in w.docs && Ledger(w, id) && Counted(w, maxRetries, oid)
    requires w.docs[id].status in {Processing, Failed}
    ensures Counted(Outcome(w.(main := w.main[1..]), id, w.main[0].body, accepted, maxRetries), maxRetries, oid)
  {
    if oid == id {
      CountedHere(w, id, accepted, maxRetries);
    } else {
      CountedElsewhere(w, id, accepted, maxRetries, oid);
    }
  }

  lemma CountedEvent(cfg: Config, x: System, e: Event)
    requires CountedInv(x, cfg.maxRetries)
    ensures CountedInv(Apply(cfg, x, e), cfg.maxRetries)
  {
    InvEvent(cfg, x, e);
    var w' := Apply(cfg, x, e).w;
    if Enabled(cfg, x, e) && e.Consume? {
      HeadStatus(x);
      HandledIsOutcome(x.w, HeadId(x.w), e.accepted, cfg.maxRetries);
    }
    if Enabled(cfg, x, e) && e.Sweep? {
      RecoverAllSweeps(x.w, e.found, RELIABLE);
    }
    forall oid
      ensures Counted(w', cfg.maxRetries, oid)
    {
      assert Counted(x.w, cfg.maxRetries, oid) && Ledger(x.w, oid);
      if Enabled(cfg, x, e) && e.Consume? {
        assert Ledger(x.w, HeadId(x.w));
        CountedOutcome(x.w, HeadId(x.w), e.accepted, cfg.maxRetries, oid);
      }
    }
  }

  /** In every run a message is attempted at most as often as the limit allows, delivery included. */
  lemma AttemptsBounded(cfg: Config, run: seq<Event>, oid: ObjectId)
    ensures Count(After(cfg, run).w.calls, CallFor(oid)) <= Ceiling(cfg.maxRetries)
  {
    forall x, e | CountedInv(x, cfg.maxRetries) ensures CountedInv(Events(cfg)(x, e), cfg.maxRetries) {
      CountedEvent(cfg, x, e);
    }
    Keeps(Events(cfg), (x: System) => CountedInv(x, cfg.maxRetries), EMPTY, run);
    assert Counted(After(cfg, run).w, cfg.maxRetries, oid) && Ledger(After(cfg, run).w, oid);
  }

  // ---- a message that keeps failing

  const DOC: Message := NewMessage("text", "to", 0)
  const COPY: Body := OutboxBody(Entry(0, DOC))

  /** The document after `k` failed attempts. */
  function Tried(k: nat): Message {
    DOC.(status := Processing, retryCount := k, updatedAt := if k == 0 then 0 else RETRY_TTL * (k - 1))
  }

  /** Its copy is back in the main queue after `k` failed attempts, a retry delay apart. */
  ghost predicate Failing(w: World, k: nat) {
    && w == World(RETRY_TTL * k, map[0 := Tried(k)], [Queued(COPY, RETRY_TTL * k)], [], [], map[], w.calls)
    && |w.calls| == k && forall i :: 0 <= i < k ==> w.calls[i].oid == 0 && w.calls[i].at == RETRY_TTL * i
  }

  /** `k` attempts for one message, each exactly a retry delay after the one before. */
  predicate OnPace(calls: seq<Call>, k: nat) {
    && |calls| == k
    && forall i :: 0 <= i < k ==> calls[i].oid == calls[0].oid && calls[i].at == calls[0].at + 10_000 * i
  }

  /** A run that keeps the deadlines goes on with one more event. */
  lemma Then(cfg: Config, run: seq<Event>, e: Event, slack: nat) returns (longer: seq<Event>)
    requires PromptRun(cfg, EMPTY, run, slack)
    requires e.Tick? ==> Prompt(After(cfg, run).w, After(cfg, run).w.now + e.ms, slack)
    ensures PromptRun(cfg, EMPTY, longer, slack) && After(cfg, longer) == Apply(cfg, After(cfg, run), e)
  {
    longer := run + [e];
    Snoc(Events(cfg), EMPTY, run, e);
    PromptSnoc(cfg, EMPTY, run, e, slack);
  }

  lemma {:induction false} PromptSnoc(cfg: Config, x: System, run: seq<Event>, e: Event, slack: nat)
    requires PromptRun(cfg, x, run, slack)
    requires var x' := Exec(Events(cfg), x, run); e.Tick? ==> Prompt(x'.w, x'.w.now + e.ms, slack)
    ensures PromptRun(cfg, x, run + [e], slack)
    decreases |run|
  {
    if run == [] {
      assert (run + [e])[1..] == [];
    } else {
      assert (run + [e])[1..] == run[1..] + [e];
      PromptSnoc(cfg, Apply(cfg, x, run[0]), run[1..], e, slack);
    }
  }

  lemma Publishing(cfg: Config, slack: nat) returns (run: seq<Event>)
    ensures PromptRun(cfg, EMPTY, run, slack) && After(cfg, run).batch == [] && Failing(After(cfg, run).w, 0)
  {
    run := Then(cfg, [], Create(0, "text", "to"), slack);
    var found := [Entry(0, DOC)];
    assert After(cfg, run) == System(World(0, map[0 := DOC], [], [], [], map[], []), []);
    assert IsUnsentBatch(map[0 := DOC], found, cfg.batchSize) by {
      assert found[0].oid == 0;
    }
    run := Then(cfg, run, Find(found), slack);
    run := Then(cfg, run, Event.Send, slack);
  }

  /** One more failed attempt. */
  lemma Fails(w: World, k: nat, maxRetries: int)
    requires Failing(w, k) && k < maxRetries
    ensures var w' := Handled(w, false, maxRetries);
            && w'.calls == w.calls + [Call(0, "text", "to", w.now, false)]
            && (k + 1 < maxRetries ==>
                  w' == World(w.now, map[0 := Tried(k + 1)], [], [Queued(COPY, w.now)], [], map[], w'.calls))
  {
    HandledIsOutcome(w, 0, false, maxRetries);
    assert w.docs[0].updatedAt + STALE_AFTER >= w.now;
    if k + 1 < maxRetries {
      assert Handled(w, false, maxRetries).docs == map[0 := Tried(k + 1)];
    }
  }

  /** And then the retry delay. */
  lemma FailsOnceMore(cfg: Config, before: seq<Event>, k: nat, slack: nat) returns (run: seq<Event>)
    requires PromptRun(cfg, EMPTY, before, slack) && After(cfg, before).batch == []
    requires Failing(After(cfg, before).w, k) && k + 1 < cfg.maxRetries
    ensures PromptRun(cfg, EMPTY, run, slack) && After(cfg, run).batch == [] && Failing(After(cfg, run).w, k + 1)
  {
    Fails(After(cfg, before).w, k, cfg.maxRetries);
    run := Then(cfg, before, Consume(false), slack);
    run := Then(cfg, run, Tick(RETRY_TTL), slack);
    run := Then(cfg, run, Expire, slack);
  }

  /** As often as the limit allows, and whatever the deadlines. */
  lemma {:induction false} KeepsFailing(cfg: Config, k: nat, slack: nat) returns (run: seq<Event>)
    requires k == 0 || k < cfg.maxRetries
    ensures PromptRun(cfg, EMPTY, run, slack) && After(cfg, run).batch == [] && Failing(After(cfg, run).w, k)
  {
    if k == 0 {
      run := Publishing(cfg, slack);
    } else {
      run := KeepsFailing(cfg, k - 1, slack);
      run := FailsOnceMore(cfg, run, k - 1, slack);
    }
  }

  ghost predicate CanPace(cfg: Config, k: nat) {
    exists run :: OnPace(After(cfg, run).w.calls, k)
  }

  lemma {:induction false} CountAll(calls: seq<Call>, oid: ObjectId)
    requires forall i :: 0 <= i < |calls| ==> calls[i].oid == oid
    ensures Count(calls, CallFor(oid)) == |calls|
  {
    if calls != [] {
      CountAll(calls[1..], oid);
    }
  }

  /** The delay does not grow: a message can be attempted `k` times exactly a retry delay apart if
      and only if it can be attempted `k` times at all. */
  lemma PaceIsFixed(cfg: Config, k: nat)
    ensures CanPace(cfg, k) <==> k <= Ceiling(cfg.maxRetries)
  {
    if k == 0 {
      assert OnPace(After(cfg, []).w.calls, 0);
    } else if k <= Ceiling(cfg.maxRetries) {
      var run := KeepsFailing(cfg, k - 1, 0);
      Fails(After(cfg, run).w, k - 1, cfg.maxRetries);
      run := Then(cfg, run, Consume(false), 0);
      assert OnPace(After(cfg, run).w.calls, k);
    } else if CanPace(cfg, k) {
      var run :| OnPace(After(cfg, run).w.calls, k);
      var calls := After(cfg, run).w.calls;
      CountAll(calls, calls[0].oid);
      AttemptsBounded(cfg, run, calls[0].oid);
    }
  }
}
