/** How sharp the guarantees of the protocol are: what two consumers can do, and how far the
    retry count goes. */
module Limits {
  import opened Messages
  import opened Delivery
  import opened Runs
  import opened Protocol
  import A = Atomic
  import G = Guarantees
  import K = Pace
  import R = Refinement
  import T = Timing

  lemma Then(cfg: Config, n: nat, run: seq<Action>, a: Action) returns (longer: seq<Action>)
    ensures After(cfg, n, 1, 1, longer) == Apply(cfg, After(cfg, n, 1, 1, run), a)
  {
    longer := run + [a];
    Snoc(Steps(cfg), Init(n, 1, 1), run, a);
  }

  /** The next call of a consumer. */
  lemma Takes(cfg: Config, n: nat, before: seq<Action>, c: nat, reply: Reply) returns (run: seq<Action>)
    requires var s := After(cfg, n, 1, 1, before); c < |s.consumers| && !s.consumers[c].pc.Idle?
    ensures After(cfg, n, 1, 1, run) == Consumed(cfg, After(cfg, n, 1, 1, before), c, reply)
  {
    run := Then(cfg, n, before, Consume(c, reply));
  }

  // ---- every consumer with the same copy in hand

  /** A message that has failed `k` times; the first `c` of `n` consumers have read that count and
      are about to call the webhook, the next one stands at `pc`, the others wait. */
  ghost predicate Standing(s: State, n: nat, k: nat, c: nat, pc: Pc) {
    && K.Failing(s.w, k) && |s.consumers| == n
    && (forall d :: 0 <= d < c && d < n ==> s.consumers[d].pc == Pc.Send(K.COPY, 0, K.Tried(k)))
    && (c < n ==> s.consumers[c].pc == pc)
    && (forall d :: c < d < n ==> s.consumers[d].pc.Idle?)
  }

  ghost predicate Armed(s: State, n: nat, k: nat, c: nat) {
    exists ret :: Standing(s, n, k, c, Idle(ret))
  }

  lemma Ready(cfg: Config, n: nat, k: nat) returns (run: seq<Action>)
    requires n >= 1 && (k == 0 || k < cfg.maxRetries)
    ensures Armed(After(cfg, n, 1, 1, run), n, k, 0)
  {
    var events := K.KeepsFailing(cfg, k, 0);
    R.AtomicRefinesProtocol(cfg, n, events);
    run := R.ExpandAll(cfg, A.EMPTY, events);
    G.SizesRun(cfg, Init(n, 1, 1), run);
    var s := After(cfg, n, 1, 1, run);
    assert Standing(s, n, k, 0, Idle(s.consumers[0].pc.ret));
  }

  /** The next consumer makes a call that leaves the stores alone. */
  lemma Advances(cfg: Config, n: nat, before: seq<Action>, k: nat, c: nat, pc: Pc, next: Pc) returns (run: seq<Action>)
    requires c < n && !pc.Idle? && Standing(After(cfg, n, 1, 1, before), n, k, c, pc)
    requires var w := After(cfg, n, 1, 1, before).w; Step(w, pc, Ok, cfg.maxRetries) == (w, next)
    ensures Standing(After(cfg, n, 1, 1, run), n, k, c, next)
  {
    run := Takes(cfg, n, before, c, Ok);
  }

  /** It is handed the copy, which stays with the broker as the ack fails. */
  lemma IsHanded(cfg: Config, n: nat, before: seq<Action>, k: nat, c: nat) returns (run: seq<Action>)
    requires c < n && Armed(After(cfg, n, 1, 1, before), n, k, c)
    ensures Standing(After(cfg, n, 1, 1, run), n, k, c, CheckInbox(K.COPY.msg))
  {
    run := Then(cfg, n, before, Deliver(c, Refused));
  }

  /** It passes the inbox check and the gate. */
  lemma Arms(cfg: Config, n: nat, before: seq<Action>, k: nat, c: nat) returns (run: seq<Action>)
    requires c < n && k < cfg.maxRetries && Armed(After(cfg, n, 1, 1, before), n, k, c)
    ensures Armed(After(cfg, n, 1, 1, run), n, k, c + 1)
  {
    var doc := K.Tried(k);
    run := IsHanded(cfg, n, before, k, c);
    run := Advances(cfg, n, run, k, c, CheckInbox(K.COPY.msg), Load(K.COPY, 0));
    run := Advances(cfg, n, run, k, c, Load(K.COPY, 0), Gate(K.COPY, 0, doc));
    run := Advances(cfg, n, run, k, c, Gate(K.COPY, 0, doc), Pc.Send(K.COPY, 0, doc));
    var s := After(cfg, n, 1, 1, run);
    assert Standing(s, n, k, c + 1, Idle(if c + 1 < n then s.consumers[c + 1].pc.ret else Nil));
  }

  lemma {:induction false} AllArm(cfg: Config, n: nat, k: nat, c: nat) returns (run: seq<Action>)
    requires 1 <= n && c <= n && k < cfg.maxRetries
    ensures Armed(After(cfg, n, 1, 1, run), n, k, c)
  {
    if c == 0 {
      run := Ready(cfg, n, k);
    } else {
      run := AllArm(cfg, n, k, c - 1);
      run := Arms(cfg, n, run, k, c - 1);
    }
  }

  // ---- the retry limit

  /** `c` of them have called, failed, and counted that. */
  ghost predicate Fired(s: State, n: nat, k: nat, c: nat) {
    && s.w.docs.Keys == {0} && s.w.docs[0].retryCount == k + c && |s.consumers| == n
    && (forall d :: c <= d < n ==> s.consumers[d].pc == Pc.Send(K.COPY, 0, K.Tried(k)))
  }

  /** And the next one has called and failed. */
  ghost predicate Missed(s: State, n: nat, k: nat, c: nat) {
    && s.w.docs.Keys == {0} && s.w.docs[0].retryCount == k + c && |s.consumers| == n
    && c < n && s.consumers[c].pc == Increment(K.COPY, 0)
    && (forall d :: c < d < n ==> s.consumers[d].pc == Pc.Send(K.COPY, 0, K.Tried(k)))
  }

  lemma Misses(cfg: Config, n: nat, before: seq<Action>, k: nat, c: nat) returns (run: seq<Action>)
    requires c < n && Fired(After(cfg, n, 1, 1, before), n, k, c)
    ensures Missed(After(cfg, n, 1, 1, run), n, k, c)
  {
    run := Takes(cfg, n, before, c, Refused);
  }

  lemma Fires(cfg: Config, n: nat, before: seq<Action>, k: nat, c: nat) returns (run: seq<Action>)
    requires c < n && Fired(After(cfg, n, 1, 1, before), n, k, c)
    ensures Fired(After(cfg, n, 1, 1, run), n, k, c + 1)
  {
    run := Misses(cfg, n, before, k, c);
    run := Takes(cfg, n, run, c, Ok);
  }

  lemma {:induction false} AllFire(cfg: Config, n: nat, k: nat, c: nat) returns (run: seq<Action>)
    requires 1 <= n && c <= n && k < cfg.maxRetries
    ensures Fired(After(cfg, n, 1, 1, run), n, k, c)
  {
    if c == 0 {
      run := AllArm(cfg, n, k, n);
    } else {
      run := AllFire(cfg, n, k, c - 1);
      run := Fires(cfg, n, run, k, c - 1);
    }
  }

  /** For any limit and any number of consumers the bound of RetriesBounded is reached. */
  lemma LimitIsReached(cfg: Config, n: nat) returns (run: seq<Action>)
    requires cfg.maxRetries >= 1 && n >= 1
    ensures var s := After(cfg, n, 1, 1, run); 0 in s.w.docs && s.w.docs[0].retryCount == cfg.maxRetries - 1 + n
  {
    run := AllFire(cfg, n, cfg.maxRetries - 1, n);
  }

  ghost predicate WithinLimit(cfg: Config, s: State) {
    forall oid :: oid in s.w.docs ==> s.w.docs[oid].retryCount <= T.Ceiling(cfg.maxRetries)
  }

  /** No run with `n` consumers takes a retry count past the limit. */
  ghost predicate KeepsLimit(cfg: Config, n: nat) {
    forall r, m, run :: WithinLimit(cfg, After(cfg, n, r, m, run))
  }

  /** That is so if and only if there is one consumer at most, or nothing to retry. */
  lemma LimitKeptIff(cfg: Config, n: nat)
    ensures KeepsLimit(cfg, n) <==> n <= 1 || cfg.maxRetries <= 0
  {
    if n <= 1 || cfg.maxRetries <= 0 {
      forall r, m, run
        ensures WithinLimit(cfg, After(cfg, n, r, m, run))
      {
        forall oid | oid in After(cfg, n, r, m, run).w.docs
          ensures After(cfg, n, r, m, run).w.docs[oid].retryCount <= T.Ceiling(cfg.maxRetries)
        {
          G.RetriesBounded(cfg, n, r, m, run, oid);
        }
      }
    } else {
      var run := LimitIsReached(cfg, n);
      assert !WithinLimit(cfg, After(cfg, n, 1, 1, run));
    }
  }

  // ---- one delivery in an inbox lifetime

  /** The first `c` of two consumers have called and succeeded, at one instant. */
  ghost predicate Called(s: State, n: nat, c: nat, pcs: seq<Pc>) {
    && |pcs| == 2 && |s.consumers| == n && n >= 2 && c <= 2 && |s.w.calls| == c
    && (forall i :: 0 <= i < c ==> s.w.calls[i] == Call(0, "text", "to", 0, true))
    && s.w.now == 0 && s.h.unmarked == {}
    && s.consumers[0].pc == pcs[0] && s.consumers[1].pc == pcs[1]
    && (c > 0 ==> s.consumers[0].call == 0) && (c > 1 ==> s.consumers[1].call == 1)
  }

  lemma BothStand(cfg: Config, n: nat) returns (run: seq<Action>)
    requires cfg.maxRetries >= 1 && n >= 2
    ensures var send := Pc.Send(K.COPY, 0, K.Tried(0));
            Called(After(cfg, n, 1, 1, run), n, 0, [send, send])
  {
    run := AllArm(cfg, n, 0, n);
    G.BooksRun(cfg, Init(n, 1, 1), run);
  }

  lemma FirstCalls(cfg: Config, n: nat) returns (run: seq<Action>)
    requires cfg.maxRetries >= 1 && n >= 2
    ensures Called(After(cfg, n, 1, 1, run), n, 1, [MarkInbox(0), Pc.Send(K.COPY, 0, K.Tried(0))])
  {
    run := BothStand(cfg, n);
    var w := After(cfg, n, 1, 1, run).w;
    assert Step(w, Pc.Send(K.COPY, 0, K.Tried(0)), Ok, cfg.maxRetries)
        == (w.(calls := w.calls + [Call(0, "text", "to", 0, true)]), MarkInbox(0));
    run := Takes(cfg, n, run, 0, Ok);
  }

  lemma BothCall(cfg: Config, n: nat) returns (run: seq<Action>)
    requires cfg.maxRetries >= 1 && n >= 2
    ensures Called(After(cfg, n, 1, 1, run), n, 2, [MarkInbox(0), MarkInbox(0)])
  {
    run := FirstCalls(cfg, n);
    run := Takes(cfg, n, run, 1, Ok);
  }

  lemma FirstMarks(cfg: Config, n: nat) returns (run: seq<Action>)
    requires cfg.maxRetries >= 1 && n >= 2
    ensures var s := After(cfg, n, 1, 1, run); Called(s, n, 2, [SetSent(0), MarkInbox(0)]) && 0 in s.h.marks
  {
    run := BothCall(cfg, n);
    run := Takes(cfg, n, run, 0, Ok);
  }

  /** Two consumers or more can deliver a message twice at one instant, and write both inbox marks. */
  lemma TwoConsumersDeliverTwice(cfg: Config, n: nat) returns (run: seq<Action>)
    requires cfg.maxRetries >= 1 && n >= 2
    ensures var s := After(cfg, n, 1, 1, run);
            && |s.w.calls| == 2 && s.w.calls[0] == s.w.calls[1] && s.w.calls[0].ok && s.w.now == 0
            && 0 in s.h.marks && 1 in s.h.marks && 0 !in s.h.unmarked && 1 !in s.h.unmarked
  {
    run := FirstMarks(cfg, n);
    run := Takes(cfg, n, run, 1, Ok);
  }

  /** After a successful call for a message another one comes only if the inbox mark failed or was
      cut off, or a full inbox lifetime later. */
  ghost predicate KeptApart(s: State) {
    && |s.h.callChecks| == |s.w.calls|
    && forall i, j :: 0 <= i < j < |s.w.calls| && s.w.calls[i].oid == s.w.calls[j].oid && s.w.calls[i].ok ==>
         i in s.h.unmarked || (i in s.h.marks && s.h.marks[i].at + INBOX_TTL <= s.h.callChecks[j].at)
  }

  ghost predicate DeliversOnce(cfg: Config, n: nat) {
    forall r, m, run :: KeptApart(After(cfg, n, r, m, run))
  }

  /** With no attempt allowed, or nobody to make one, the webhook is never called. */
  ghost predicate Silent(cfg: Config, s: State) {
    |s.consumers| == 0 || cfg.maxRetries <= 0 ==>
      && s.w.calls == [] && s.h.callChecks == []
      && (forall c :: 0 <= c < |s.consumers| ==> !s.consumers[c].pc.Send?)
  }

  lemma SilentCall(w: World, h: History, k: Consumer, reply: Reply, maxRetries: int)
    requires !k.pc.Send? && maxRetries <= 0
    ensures var (w', pc') := Step(w, k.pc, reply, maxRetries);
            w'.calls == w.calls && !pc'.Send? && Note(h, w, k, reply).callChecks == h.callChecks
  {
  }

  lemma SilentConsume(cfg: Config, s: State, c: nat, reply: Reply)
    requires Silent(cfg, s) && c < |s.consumers|
    ensures Silent(cfg, Consumed(cfg, s, c, reply))
  {
    if cfg.maxRetries <= 0 {
      var s', h1, k := Consumed(cfg, s, c, reply), s.h.(step := s.h.step + 1), s.consumers[c];
      SilentCall(s.w, h1, k, reply, cfg.maxRetries);
      assert s'.consumers == s.consumers[c := Advance(h1, s.w, k, Step(s.w, k.pc, reply, cfg.maxRetries).1)];
      assert s'.w == Step(s.w, k.pc, reply, cfg.maxRetries).0 && s'.h == Note(h1, s.w, k, reply);
    }
  }

  lemma SilentStep(cfg: Config, s: State, a: Action)
    requires Silent(cfg, s)
    ensures Silent(cfg, Apply(cfg, s, a))
  {
    if Enabled(cfg, s, a) && a.Consume? {
      SilentConsume(cfg, s, a.c, a.reply);
    }
  }

  lemma SilentRun(cfg: Config, s: State, run: seq<Action>)
    requires Silent(cfg, s)
    ensures Silent(cfg, Exec(Steps(cfg), s, run))
  {
    forall s, a | Silent(cfg, s) ensures Silent(cfg, Steps(cfg)(s, a)) {
      SilentStep(cfg, s, a);
    }
    Keeps(Steps(cfg), (s: State) => Silent(cfg, s), s, run);
  }

  lemma OneConsumerKeepsApart(cfg: Config, r: nat, m: nat, run: seq<Action>)
    ensures KeptApart(After(cfg, 1, r, m, run))
  {
    var s := After(cfg, 1, r, m, run);
    G.OnceRun(cfg, Init(1, r, m), run);
    forall i, j | 0 <= i < j < |s.w.calls| && s.w.calls[i].oid == s.w.calls[j].oid && s.w.calls[i].ok
      ensures i in s.h.unmarked || (i in s.h.marks && s.h.marks[i].at + INBOX_TTL <= s.h.callChecks[j].at)
    {
      G.DeliveredOncePerInboxLifetime(cfg, r, m, run, i, j);
    }
  }

  /** One consumer is what it takes: every run keeps deliveries of a message an inbox lifetime apart
      if and only if there is one consumer at most, or no attempt is allowed. */
  lemma DeliversOnceIff(cfg: Config, n: nat)
    ensures DeliversOnce(cfg, n) <==> n <= 1 || cfg.maxRetries <= 0
  {
    if n <= 1 || cfg.maxRetries <= 0 {
      forall r, m, run
        ensures KeptApart(After(cfg, n, r, m, run))
      {
        SilentRun(cfg, Init(n, r, m), run);
        G.SizesRun(cfg, Init(n, r, m), run);
        if n == 1 {
          OneConsumerKeepsApart(cfg, r, m, run);
        }
      }
    } else {
      var run := TwoConsumersDeliverTwice(cfg, n);
      var s := After(cfg, n, 1, 1, run);
      G.BooksRun(cfg, Init(n, 1, 1), run);
      G.OnceRun(cfg, Init(n, 1, 1), run);
      assert s.w.calls[0].oid == s.w.calls[1].oid && s.h.callChecks[1].at == 0;
    }
  }
}
