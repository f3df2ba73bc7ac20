/** What goes wrong with atomic handlers when the consumer does not keep up, and exactly when. */
module Slow {
  import opened Messages
  import opened Delivery
  import opened Counting
  import opened Atomic
  import opened ExactlyOnce
  import opened Timing
  import opened Pace

  ghost predicate HasStale(w: World) {
    exists oid :: oid in w.docs && w.docs[oid].status.Processing? && IsStale(w.docs[oid], w.now)
  }

  ghost predicate HasBoth(w: World) {
    exists oid :: Delivered(w.calls, oid) && DeadLettered(w.dlq, oid)
  }

  /** Some run that keeps every deadline reaches a message the monitor calls stale. */
  ghost predicate CanGoStale(cfg: Config, slack: nat) {
    exists run :: PromptRun(cfg, EMPTY, run, slack) && HasStale(After(cfg, run).w)
  }

  /** Some run that keeps every deadline reaches a message both delivered and dead-lettered. */
  ghost predicate CanBoth(cfg: Config, slack: nat) {
    exists run :: PromptRun(cfg, EMPTY, run, slack) && HasBoth(After(cfg, run).w)
  }

  /** The failed attempts after which a copy comes back latest, counted from the last update. */
  function Detour(maxRetries: int): nat {
    if maxRetries >= 2 then 1 else 0
  }

  /** A copy that comes back by the retry queue, if it can, and then waits as long as it may. */
  lemma WaitsTooLong(cfg: Config, slack: nat) returns (run: seq<Event>)
    requires slack + Lag(cfg.maxRetries) > STALE_AFTER
    ensures PromptRun(cfg, EMPTY, run, slack)
    ensures var w, doc := After(cfg, run).w, Tried(Detour(cfg.maxRetries));
            && w == World(w.now, map[0 := doc], w.main, [], [], map[], w.calls) && IsStale(doc, w.now)
            && |w.main| == 1 && w.main[0].body == COPY
  {
    run := KeepsFailing(cfg, Detour(cfg.maxRetries), slack);
    run := Then(cfg, run, Tick(slack), slack);
  }

  /** The bound of PromptMeansNeverStale is the exact one, whatever the retry limit. */
  lemma StaleIffSlow(cfg: Config, slack: nat)
    ensures CanGoStale(cfg, slack) <==> slack + (if cfg.maxRetries >= 2 then 10_000 else 0) > 240_000
  {
    if slack + Lag(cfg.maxRetries) > STALE_AFTER {
      var run := WaitsTooLong(cfg, slack);
      assert 0 in After(cfg, run).w.docs;
    } else if CanGoStale(cfg, slack) {
      var run :| PromptRun(cfg, EMPTY, run, slack) && HasStale(After(cfg, run).w);
      var w := After(cfg, run).w;
      var oid :| oid in w.docs && w.docs[oid].status.Processing? && IsStale(w.docs[oid], w.now);
      PromptMeansNeverStale(cfg, run, slack, oid);
    }
  }

  /** What the monitor makes of such a message. */
  lemma SweptTooEarly(cfg: Config, x: System, doc: Message)
    requires x.w.docs == map[0 := doc] && doc.status.Processing? && IsStale(doc, x.w.now)
    ensures var e := Entry(0, doc);
            Apply(cfg, x, Sweep([e])).w
            == x.w.(docs := map[0 := doc.(status := Failed, updatedAt := x.w.now)], dlq := x.w.dlq + [RecoveryBody(e)])
  {
    var found := [Entry(0, doc)];
    assert IsStaleBatch(x.w.docs, found, x.w.now) by {
      assert found[0].oid == 0;
    }
    assert found[1..] == [];
    assert RecoverAll(x.w, found, RELIABLE) == RecoverItem(x.w, found[0], ItemReplies(Ok, Ok));
  }

  /** The monitor gives up on a message whose copy is then delivered: it ends sent, and dead-lettered. */
  lemma DeliveredAfterDeadLetter(cfg: Config, slack: nat) returns (run: seq<Event>)
    requires cfg.maxRetries >= 1 && slack + Lag(cfg.maxRetries) > STALE_AFTER
    ensures PromptRun(cfg, EMPTY, run, slack)
    ensures var w := After(cfg, run).w;
            0 in w.docs && w.docs[0].status.Sent? && Delivered(w.calls, 0) && DeadLettered(w.dlq, 0)
  {
    run := WaitsTooLong(cfg, slack);
    var doc := Tried(Detour(cfg.maxRetries));
    SweptTooEarly(cfg, After(cfg, run), doc);
    run := Then(cfg, run, Sweep([Entry(0, doc)]), slack);
    var w := After(cfg, run).w;
    HandledIsOutcome(w, 0, true, cfg.maxRetries);
    run := Then(cfg, run, Consume(true), slack);
    assert After(cfg, run).w.dlq[0].Names(0) && After(cfg, run).w.calls[|w.calls|].ok;
  }

  lemma DeliveredIsCounted(cfg: Config, run: seq<Event>, oid: ObjectId)
    requires Delivered(After(cfg, run).w.calls, oid)
    ensures cfg.maxRetries >= 1 && oid in After(cfg, run).w.docs
  {
    var calls := After(cfg, run).w.calls;
    var k :| 0 <= k < |calls| && calls[k].oid == oid && calls[k].ok;
    CountZero(calls, CallFor(oid));
    assert CallFor(oid)(calls[k]);
    AttemptsBounded(cfg, run, oid);
    InvRun(cfg, EMPTY, run);
    assert Ledger(After(cfg, run).w, oid);
  }

  /** A message can be both delivered and dead-lettered if and only if it can be attempted at all
      and its copies may wait so long that it goes stale. */
  lemma BothIffSlow(cfg: Config, slack: nat)
    ensures CanBoth(cfg, slack)
       <==> cfg.maxRetries >= 1 && slack + (if cfg.maxRetries >= 2 then 10_000 else 0) > 240_000
  {
    if cfg.maxRetries >= 1 && slack + Lag(cfg.maxRetries) > STALE_AFTER {
      var run := DeliveredAfterDeadLetter(cfg, slack);
      assert HasBoth(After(cfg, run).w);
    } else if CanBoth(cfg, slack) {
      var run :| PromptRun(cfg, EMPTY, run, slack) && HasBoth(After(cfg, run).w);
      var w := After(cfg, run).w;
      var oid :| Delivered(w.calls, oid) && DeadLettered(w.dlq, oid);
      DeliveredIsCounted(cfg, run, oid);
      PromptMeansNeverStale(cfg, run, slack, oid);
    }
  }
}
