/** The guarantees of the protocol: for every number of actors and every run. */
module Guarantees {
  import opened Messages
  import opened Delivery
  import opened Counting
  import opened Runs
  import opened Protocol
  import opened Safety
  import opened Documents
  import opened Retries
  import opened Once
  import opened Outbox

  // ---- the invariants hold along every run

  lemma SizesStep(cfg: Config, s: State, a: Action)
    ensures var s' := Apply(cfg, s, a);
            && |s'.consumers| == |s.consumers| && |s'.senders| == |s.senders| && |s'.monitors| == |s.monitors|
            && (s'.h.foreign == (s.h.foreign || a.Inject?))
  {
  }

  lemma {:induction false} SizesRun(cfg: Config, s: State, run: seq<Action>)
    ensures var s' := Exec(Steps(cfg), s, run);
            && |s'.consumers| == |s.consumers| && |s'.senders| == |s.senders| && |s'.monitors| == |s.monitors|
            && (s'.h.foreign ==> s.h.foreign || exists i :: 0 <= i < |run| && run[i].Inject?)
    decreases |run|
  {
    if run != [] {
      SizesStep(cfg, s, run[0]);
      SizesRun(cfg, Apply(cfg, s, run[0]), run[1..]);
      assert forall i :: 0 <= i < |run[1..]| ==> run[1..][i] == run[i + 1];
    }
  }

  lemma SentRun(cfg: Config, s: State, run: seq<Action>)
    requires SentInv(s)
    ensures SentInv(Exec(Steps(cfg), s, run))
  {
    forall s, a | SentInv(s) ensures SentInv(Steps(cfg)(s, a)) {
      SentStep(cfg, s, a);
    }
    Keeps(Steps(cfg), (s: State) => SentInv(s), s, run);
  }

  lemma FailedRun(cfg: Config, s: State, run: seq<Action>)
    requires FailedInv(s)
    ensures FailedInv(Exec(Steps(cfg), s, run))
  {
    forall s, a | FailedInv(s) ensures FailedInv(Steps(cfg)(s, a)) {
      FailedStep(cfg, s, a);
    }
    Keeps(Steps(cfg), (s: State) => FailedInv(s), s, run);
  }

  lemma CopiesRun(cfg: Config, s: State, run: seq<Action>, b: Body)
    requires CopiesInv(s, b)
    ensures CopiesInv(Exec(Steps(cfg), s, run), b)
  {
    forall s, a | CopiesInv(s, b) ensures CopiesInv(Steps(cfg)(s, a), b) {
      CopiesStep(cfg, s, a, b);
    }
    Keeps(Steps(cfg), (s: State) => CopiesInv(s, b), s, run);
  }

  lemma QuotesRun(cfg: Config, s: State, run: seq<Action>)
    requires QuotesInv(s)
    ensures QuotesInv(Exec(Steps(cfg), s, run))
  {
    forall s, a | QuotesInv(s) ensures QuotesInv(Steps(cfg)(s, a)) {
      QuotesStep(cfg, s, a);
    }
    Keeps(Steps(cfg), (s: State) => QuotesInv(s), s, run);
  }

  ghost predicate OwnCopies(s: State) {
    QuotesInv(s) && (s.h.foreign || GenuineInv(s))
  }

  lemma GenuineRun(cfg: Config, s: State, run: seq<Action>)
    requires OwnCopies(s)
    ensures OwnCopies(Exec(Steps(cfg), s, run))
  {
    forall s, a | OwnCopies(s) ensures OwnCopies(Steps(cfg)(s, a)) {
      QuotesStep(cfg, s, a);
      SizesStep(cfg, s, a);
      if !s.h.foreign {
        GenuineStep(cfg, s, a);
      }
    }
    Keeps(Steps(cfg), (s: State) => OwnCopies(s), s, run);
  }

  lemma RetryRun(cfg: Config, s: State, run: seq<Action>, oid: ObjectId)
    requires RetryInv(cfg, s, oid)
    ensures RetryInv(cfg, Exec(Steps(cfg), s, run), oid)
  {
    forall s, a | RetryInv(cfg, s, oid) ensures RetryInv(cfg, Steps(cfg)(s, a), oid) {
      RetryStep(cfg, s, a, oid);
    }
    Keeps(Steps(cfg), (s: State) => RetryInv(cfg, s, oid), s, run);
  }

  ghost predicate Failures(s: State, oid: ObjectId) {
    QuotesInv(s) && FailuresInv(s, oid)
  }

  lemma FailuresRun(cfg: Config, s: State, run: seq<Action>, oid: ObjectId)
    requires Failures(s, oid)
    ensures Failures(Exec(Steps(cfg), s, run), oid)
  {
    forall s, a | Failures(s, oid) ensures Failures(Steps(cfg)(s, a), oid) {
      QuotesStep(cfg, s, a);
      FailuresStep(cfg, s, a, oid);
    }
    Keeps(Steps(cfg), (s: State) => Failures(s, oid), s, run);
  }

  lemma OnceRun(cfg: Config, s: State, run: seq<Action>)
    requires OnceInv(s)
    ensures OnceInv(Exec(Steps(cfg), s, run))
  {
    forall s, a | OnceInv(s) ensures OnceInv(Steps(cfg)(s, a)) {
      OnceStep(cfg, s, a);
    }
    Keeps(Steps(cfg), (s: State) => OnceInv(s), s, run);
  }

  lemma BooksRun(cfg: Config, s: State, run: seq<Action>)
    requires OnceInv(s) && BooksInv(s)
    ensures BooksInv(Exec(Steps(cfg), s, run))
  {
    forall s, a | OnceInv(s) && BooksInv(s) ensures OnceInv(Steps(cfg)(s, a)) && BooksInv(Steps(cfg)(s, a)) {
      OnceStep(cfg, s, a);
      BooksStep(cfg, s, a);
    }
    Keeps(Steps(cfg), (s: State) => OnceInv(s) && BooksInv(s), s, run);
  }

  lemma OneRun(cfg: Config, s: State, run: seq<Action>)
    requires OneInv(s)
    ensures OneInv(Exec(Steps(cfg), s, run))
  {
    forall s, a | OneInv(s) ensures OneInv(Steps(cfg)(s, a)) {
      OneStep(cfg, s, a);
    }
    Keeps(Steps(cfg), (s: State) => OneInv(s), s, run);
  }

  lemma OutboxRun(cfg: Config, s: State, run: seq<Action>, oid: ObjectId)
    requires OutboxInv(s, oid)
    ensures OutboxInv(Exec(Steps(cfg), s, run), oid)
  {
    forall s, a | OutboxInv(s, oid) ensures OutboxInv(Steps(cfg)(s, a), oid) {
      OutboxStep(cfg, s, a, oid);
    }
    Keeps(Steps(cfg), (s: State) => OutboxInv(s, oid), s, run);
  }

  /** No document was updated before it was created, or in the future. */
  ghost predicate Dated(w: World) {
    forall oid :: oid in w.docs ==> w.docs[oid].createdAt <= w.docs[oid].updatedAt <= w.now
  }

  lemma DatedConsumer(w: World, pc: Pc, reply: Reply, maxRetries: int)
    requires Dated(w)
    ensures Dated(Step(w, pc, reply, maxRetries).0)
  {
  }

  lemma DatedStep(cfg: Config, s: State, a: Action)
    requires Dated(s.w)
    ensures Dated(Apply(cfg, s, a).w)
  {
    if Enabled(cfg, s, a) && a.Consume? {
      DatedConsumer(s.w, s.consumers[a.c].pc, a.reply, cfg.maxRetries);
    }
  }

  lemma DatedRun(cfg: Config, s: State, run: seq<Action>)
    requires Dated(s.w)
    ensures Dated(Exec(Steps(cfg), s, run).w)
  {
    forall s: State, a | Dated(s.w) ensures Dated(Steps(cfg)(s, a).w) {
      DatedStep(cfg, s, a);
    }
    Keeps(Steps(cfg), (s: State) => Dated(s.w), s, run);
  }

  lemma {:induction false} OnwardRun(cfg: Config, s: State, run: seq<Action>)
    ensures Onward(s.w.docs, Exec(Steps(cfg), s, run).w.docs)
    decreases |run|
  {
    if run != [] {
      OnwardStep(cfg, s, run[0]);
      OnwardRun(cfg, Apply(cfg, s, run[0]), run[1..]);
    }
  }

  // ---- the theorems

  /** A message is marked sent or duplicate only after the webhook has accepted it. */
  lemma SentMeansDelivered(cfg: Config, n: nat, r: nat, m: nat, run: seq<Action>, oid: ObjectId)
    requires oid in After(cfg, n, r, m, run).w.docs
    requires After(cfg, n, r, m, run).w.docs[oid].status in {Sent, Duplicate}
    ensures Delivered(After(cfg, n, r, m, run).w.calls, oid)
  {
    SentRun(cfg, Init(n, r, m), run);
  }

  /** A failed message has a dead letter, unless a consumer's dead-letter publish for it was refused. */
  lemma FailedMeansDeadLettered(cfg: Config, n: nat, r: nat, m: nat, run: seq<Action>, oid: ObjectId)
    requires oid in After(cfg, n, r, m, run).w.docs
    requires After(cfg, n, r, m, run).w.docs[oid].status.Failed?
    ensures DeadLettered(After(cfg, n, r, m, run).w.dlq, oid) || oid in After(cfg, n, r, m, run).h.unburied
  {
    FailedRun(cfg, Init(n, r, m), run);
  }

  /** A monitor marks a message failed only once its own dead letter for it is written: it never
      makes use of that exception. */
  lemma MonitorBuriesFirst(cfg: Config, n: nat, r: nat, m: nat, run: seq<Action>, q: nat)
    requires q < |After(cfg, n, r, m, run).monitors| && After(cfg, n, r, m, run).monitors[q].Condemn?
    ensures DeadLettered(After(cfg, n, r, m, run).w.dlq, After(cfg, n, r, m, run).monitors[q].oid)
  {
    FailedRun(cfg, Init(n, r, m), run);
  }

  /** With one consumer the retry limit is kept; with more, it can be passed by all but one of them. */
  lemma RetriesBounded(cfg: Config, n: nat, r: nat, m: nat, run: seq<Action>, oid: ObjectId)
    requires oid in After(cfg, n, r, m, run).w.docs
    ensures After(cfg, n, r, m, run).w.docs[oid].retryCount <= Limit(cfg.maxRetries, n)
  {
    CountZero(Init(n, r, m).consumers, Window(cfg.maxRetries, oid));
    RetryRun(cfg, Init(n, r, m), run, oid);
    SizesRun(cfg, Init(n, r, m), run);
  }

  /** Every failed webhook call is in the retry count, lost with its increment, or still being counted. */
  lemma FailuresCounted(cfg: Config, n: nat, r: nat, m: nat, run: seq<Action>, oid: ObjectId)
    ensures var s := After(cfg, n, r, m, run);
            Count(s.w.calls, FailedCall(oid))
            == RetriesOf(s.w.docs, oid) + s.h.lost[oid] + Count(s.consumers, Pending(oid))
  {
    CountZero(Init(n, r, m).consumers, Pending(oid));
    FailuresRun(cfg, Init(n, r, m), run, oid);
  }

  /** Any number of consumers: a call for a message whose inbox mark was written either passed
      its inbox check before the mark, or passed it a full inbox lifetime later. */
  lemma MarkKeepsCallsApart(cfg: Config, n: nat, r: nat, m: nat, run: seq<Action>, i: nat, j: nat)
    requires var s := After(cfg, n, r, m, run);
             i < |s.w.calls| && j < |s.w.calls| && s.w.calls[i].oid == s.w.calls[j].oid && i in s.h.marks
    ensures var s := After(cfg, n, r, m, run);
            |s.h.callChecks| == |s.w.calls| && Before(s.h.callChecks[j], s.h.marks[i])
  {
    OnceRun(cfg, Init(n, r, m), run);
  }

  /** One consumer, any faults and crashes: after a successful call for a message, another call
      for it comes only if the inbox mark failed or was cut off, or a full inbox lifetime later. */
  lemma DeliveredOncePerInboxLifetime(cfg: Config, r: nat, m: nat, run: seq<Action>, i: nat, j: nat)
    requires var s := After(cfg, 1, r, m, run);
             i < j < |s.w.calls| && s.w.calls[i].oid == s.w.calls[j].oid && s.w.calls[i].ok
    ensures var s := After(cfg, 1, r, m, run);
            && |s.h.callChecks| == |s.w.calls|
            && (i in s.h.unmarked
                || (i in s.h.marks && s.h.marks[i].at + 86_400_000 <= s.h.callChecks[j].at))
  {
    OnceRun(cfg, Init(1, r, m), run);
    OneRun(cfg, Init(1, r, m), run);
    SizesRun(cfg, Init(1, r, m), run);
    var s := After(cfg, 1, r, m, run);
    assert i in s.h.marks ==> Apart(s.w.calls, s.h.marks, s.h.callChecks[j], s.w.calls[j].oid);
  }

  /** Every copy put into the main queue, or kept by the broker after a failed ack, is in a
      queue, in one consumer's hands, or ended exactly once; and nothing else fills the DLQ. */
  lemma CopiesConserved(cfg: Config, n: nat, r: nat, m: nat, run: seq<Action>, b: Body)
    ensures var s := After(cfg, n, r, m, run);
            && s.h.enqueued[b] + s.h.redelivered[b]
               == Count(s.w.main, Same(b)) + Count(s.w.retry, Same(b)) + Count(s.consumers, InHandOf(b))
                  + s.h.ended[(Done, b)] + s.h.ended[(Skipped, b)] + s.h.ended[(Moved, b)] + s.h.ended[(Dropped, b)]
            && multiset(s.w.dlq)[b] == s.h.ended[(Moved, b)] + s.h.recovered[b]
  {
    CountZero(Init(n, r, m).consumers, InHandOf(b));
    CopiesRun(cfg, Init(n, r, m), run, b);
  }

  /** Each scheduler runner confirms a message at most once, so with one runner every publish
      of a message but one is a publish whose update to processing did not go through. */
  lemma PublishedOnceConfirmed(cfg: Config, n: nat, r: nat, m: nat, run: seq<Action>, oid: ObjectId)
    ensures var s := After(cfg, n, r, m, run);
            && s.h.confirmed[oid] <= r
            && s.h.confirmed[oid] <= s.h.published[oid]
            && (oid in s.w.docs && s.w.docs[oid].status.Unsent? ==> s.h.confirmed[oid] == 0)
  {
    CountZero(Init(n, r, m).senders, Wanting(oid));
    CountZero(Init(n, r, m).senders, Confirming(oid));
    OutboxRun(cfg, Init(n, r, m), run, oid);
    SizesRun(cfg, Init(n, r, m), run);
  }

  /** While the sender is the only publisher, every copy carries the text of a stored document
      and no delivery names a document that is not there. */
  lemma CopiesNameDocuments(cfg: Config, n: nat, r: nat, m: nat, run: seq<Action>)
    requires forall i :: 0 <= i < |run| ==> !run[i].Inject?
    ensures var s := After(cfg, n, r, m, run);
            && GenuineQueue(s.w.docs, s.w.main) && GenuineQueue(s.w.docs, s.w.retry)
            && GenuinePcs(s.w.docs, s.consumers)
            && s.h.panics == multiset{}
  {
    GenuineRun(cfg, Init(n, r, m), run);
    SizesRun(cfg, Init(n, r, m), run);
  }

  /** Whatever else is in the queues, a webhook call carries the text its document was created with. */
  lemma CallsQuoteDocuments(
      cfg: Config, s: State, before: seq<Action>, run: seq<Action>, n: nat, r: nat, m: nat, k: nat)
    requires s == After(cfg, n, r, m, before)
    requires k < |Exec(Steps(cfg), s, run).w.calls|
    requires Exec(Steps(cfg), s, run).w.calls[k].oid in s.w.docs
    ensures var x := Exec(Steps(cfg), s, run).w.calls[k];
            x.content == s.w.docs[x.oid].content && x.to == s.w.docs[x.oid].to
  {
    QuotesRun(cfg, Init(n, r, m), before);
    QuotesRun(cfg, s, run);
    OnwardRun(cfg, s, run);
  }
}
