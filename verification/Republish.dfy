/** When the outbox can publish a message once more. */
module Republish {
  import opened Messages
  import opened Runs
  import opened Protocol
  import D = Documents
  import K = Pace
  import O = Outbox
  import W = WorkBound

  /** A runner that has still to publish `oid`. */
  ghost predicate HasToPublish(x: Sender, oid: ObjectId) {
    match x
    case Publish(batch) => Listed(batch, oid)
    case Confirm(_, rest) => Listed(rest, oid)
  }

  /** The message does not exist yet or is unsent, or some runner has still to publish it. */
  ghost predicate Publishable(s: State, oid: ObjectId) {
    O.Waiting(s.w.docs, oid) || exists r :: 0 <= r < |s.senders| && HasToPublish(s.senders[r], oid)
  }

  ghost predicate CanPublish(cfg: Config, s: State, oid: ObjectId) {
    exists run :: Exec(Steps(cfg), s, run).h.published[oid] > s.h.published[oid]
  }

  // ---- a message that is not publishable stays so

  lemma FrozenSend(cfg: Config, s: State, r: nat, reply: Reply, oid: ObjectId)
    requires !Publishable(s, oid) && Enabled(cfg, s, Action.Send(r, reply))
    ensures var s' := Do(cfg, s, Action.Send(r, reply));
            !Publishable(s', oid) && s'.h.published[oid] == s.h.published[oid]
  {
    var x := s.senders[r];
    assert !HasToPublish(x, oid);
    if x.Publish? {
      assert x.batch[0].oid != oid;
      assert forall i :: 0 <= i < |x.batch[1..]| ==> x.batch[1..][i] == x.batch[i + 1];
    }
    D.OnwardStep(cfg, s, Action.Send(r, reply));
  }

  lemma FrozenStep(cfg: Config, s: State, a: Action, oid: ObjectId)
    requires !Publishable(s, oid)
    ensures !Publishable(Apply(cfg, s, a), oid) && Apply(cfg, s, a).h.published[oid] == s.h.published[oid]
  {
    if Enabled(cfg, s, a) {
      D.OnwardStep(cfg, s, a);
      match a
      case Send(r, reply) => FrozenSend(cfg, s, r, reply, oid);
      case Find(_, found) => assert !Listed(found, oid);
      case _ =>
    }
  }

  lemma {:induction false} FrozenRun(cfg: Config, s: State, run: seq<Action>, oid: ObjectId)
    requires !Publishable(s, oid)
    ensures Exec(Steps(cfg), s, run).h.published[oid] == s.h.published[oid]
    decreases |run|
  {
    if run != [] {
      FrozenStep(cfg, s, run[0], oid);
      FrozenRun(cfg, Apply(cfg, s, run[0]), run[1..], oid);
    }
  }

  // ---- a publishable one can be published

  lemma Back(cfg: Config, s: State, a: Action, oid: ObjectId)
    requires CanPublish(cfg, Apply(cfg, s, a), oid)
    requires Apply(cfg, s, a).h.published[oid] == s.h.published[oid]
    ensures CanPublish(cfg, s, oid)
  {
    var rest :| Exec(Steps(cfg), Apply(cfg, s, a), rest).h.published[oid] > s.h.published[oid];
    var run := [a] + rest;
    assert run[1..] == rest;
    assert Exec(Steps(cfg), s, run).h.published[oid] > s.h.published[oid];
  }

  /** A runner skips what comes before: their publishes are refused. */
  lemma {:induction false} ReachesIt(cfg: Config, s: State, r: nat, oid: ObjectId)
    requires r < |s.senders| && s.senders[r].Publish? && Listed(s.senders[r].batch, oid)
    ensures CanPublish(cfg, s, oid)
    decreases |s.senders[r].batch|
  {
    var batch := s.senders[r].batch;
    if batch[0].oid == oid {
      var run := [Action.Send(r, Ok)];
      assert run[1..] == [];
      assert Exec(Steps(cfg), s, run).h.published[oid] > s.h.published[oid];
    } else {
      var i :| 0 <= i < |batch| && batch[i].oid == oid;
      assert batch[1..][i - 1].oid == oid;
      var a := Action.Send(r, Refused);
      assert Apply(cfg, s, a).senders[r] == Publish(batch[1..]);
      ReachesIt(cfg, Apply(cfg, s, a), r, oid);
      Back(cfg, s, a, oid);
    }
  }

  lemma RunnerPublishes(cfg: Config, s: State, r: nat, oid: ObjectId)
    requires r < |s.senders| && HasToPublish(s.senders[r], oid)
    ensures CanPublish(cfg, s, oid)
  {
    if s.senders[r].Confirm? {
      var a := Action.Send(r, Ok);
      assert Apply(cfg, s, a).senders[r] == Publish(s.senders[r].rest);
      ReachesIt(cfg, Apply(cfg, s, a), r, oid);
      Back(cfg, s, a, oid);
    } else {
      ReachesIt(cfg, s, r, oid);
    }
  }

  /** A runner that starts anew can find any unsent message. */
  lemma UnsentIsPublished(cfg: Config, s: State, oid: ObjectId)
    requires s.senders != [] && oid in s.w.docs && s.w.docs[oid].status.Unsent?
    ensures CanPublish(cfg, s, oid)
  {
    var found := W.BatchWith(s.w.docs, oid, cfg.batchSize);
    var s1 := Apply(cfg, s, KillSender(0));
    var s2 := Apply(cfg, s1, Find(0, found));
    assert s1.w == s.w && s1.senders[0] == Publish([]);
    assert s2.senders[0] == Publish(found);
    ReachesIt(cfg, s2, 0, oid);
    Back(cfg, s1, Find(0, found), oid);
    Back(cfg, s, KillSender(0), oid);
  }

  /** From any state with a runner a message can be published, for the first time or once more, if
      and only if it does not exist yet or is unsent, or some runner has still to publish it. */
  lemma PublishableIff(cfg: Config, s: State, oid: ObjectId)
    requires s.senders != []
    ensures CanPublish(cfg, s, oid) <==> Publishable(s, oid)
  {
    if !Publishable(s, oid) {
      if CanPublish(cfg, s, oid) {
        var run :| Exec(Steps(cfg), s, run).h.published[oid] > s.h.published[oid];
        FrozenRun(cfg, s, run, oid);
      }
    } else if oid !in s.w.docs {
      var a := Create(oid, "text", "to");
      UnsentIsPublished(cfg, Apply(cfg, s, a), oid);
      Back(cfg, s, a, oid);
    } else if s.w.docs[oid].status.Unsent? {
      UnsentIsPublished(cfg, s, oid);
    } else {
      var r :| 0 <= r < |s.senders| && HasToPublish(s.senders[r], oid);
      RunnerPublishes(cfg, s, r, oid);
    }
  }

  /** One runner, `count` publishes of one message, none of them confirmed. */
  ghost predicate PublishedOften(s: State, count: nat) {
    && s.w.docs == map[0 := K.DOC] && s.senders == [Publish([])]
    && s.h.published[0] == count && s.h.confirmed[0] == 0
  }

  lemma Then(cfg: Config, run: seq<Action>, a: Action) returns (longer: seq<Action>)
    ensures After(cfg, 0, 1, 0, longer) == Apply(cfg, After(cfg, 0, 1, 0, run), a)
  {
    longer := run + [a];
    Snoc(Steps(cfg), Init(0, 1, 0), run, a);
  }

  /** The same, with the last one about to be confirmed. */
  lemma PublishedAgain(cfg: Config, before: seq<Action>, count: nat) returns (run: seq<Action>)
    requires PublishedOften(After(cfg, 0, 1, 0, before), count)
    ensures var s := After(cfg, 0, 1, 0, run);
            && s.w.docs == map[0 := K.DOC] && s.senders == [Confirm(0, [])]
            && s.h.published[0] == count + 1 && s.h.confirmed[0] == 0
  {
    var found := [Entry(0, K.DOC)];
    assert found[0].oid == 0 && found[1..] == [];
    assert IsUnsentBatch(map[0 := K.DOC], found, cfg.batchSize);
    run := Then(cfg, before, Find(0, found));
    assert After(cfg, 0, 1, 0, run).senders == [Publish(found)];
    run := Then(cfg, run, Action.Send(0, Ok));
  }

  lemma PublishedOnceMore(cfg: Config, before: seq<Action>, count: nat) returns (run: seq<Action>)
    requires PublishedOften(After(cfg, 0, 1, 0, before), count)
    ensures PublishedOften(After(cfg, 0, 1, 0, run), count + 1)
  {
    run := PublishedAgain(cfg, before, count);
    run := Then(cfg, run, Action.Send(0, Refused));
  }

  /** There is no bound on the publishes of a message: each refused update lets the next sweep publish
      it again. */
  lemma {:induction false} PublishedAnyNumberOfTimes(cfg: Config, count: nat) returns (run: seq<Action>)
    ensures PublishedOften(After(cfg, 0, 1, 0, run), count)
  {
    if count == 0 {
      run := Then(cfg, [], Create(0, "text", "to"));
    } else {
      run := PublishedAnyNumberOfTimes(cfg, count - 1);
      run := PublishedOnceMore(cfg, run, count - 1);
    }
  }

  /** So after a publish that no other runner repeats, the update to processing decides: the message can
      be published again if and only if it was still unsent and the update did not take effect. */
  lemma UnconfirmedIsPublishedAgain(cfg: Config, s: State, r: nat, reply: Reply, oid: ObjectId)
    requires r < |s.senders| && s.senders[r].Confirm? && s.senders[r].oid == oid && oid in s.w.docs
    requires forall q :: 0 <= q < |s.senders| ==> !HasToPublish(s.senders[q], oid)
    ensures CanPublish(cfg, Apply(cfg, s, Action.Send(r, reply)), oid)
       <==> s.w.docs[oid].status.Unsent? && reply == Refused
  {
    var s' := Apply(cfg, s, Action.Send(r, reply));
    PublishableIff(cfg, s', oid);
    assert s'.senders[r] == Publish(s.senders[r].rest) && !HasToPublish(s.senders[r], oid);
    assert forall q :: 0 <= q < |s.senders| && q != r ==> s'.senders[q] == s.senders[q];
  }
}
