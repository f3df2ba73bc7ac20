/** Sweeps that meet no fault drain the outbox and leave no message in between. */
module Recovery {
  import opened Messages
  import opened Delivery
  import opened Counting
  import opened Runs
  import opened Sweeps
  import P = Protocol
  import S = Safety
  import R = Refinement
  import G = Guarantees

  // ---- the outbox

  function UnsentIds(docs: Docs): set<ObjectId> {
    set oid | oid in docs && docs[oid].status.Unsent?
  }

  function Ids(batch: seq<Entry>): set<ObjectId> {
    if batch == [] then {} else {batch[0].oid} + Ids(batch[1..])
  }

  lemma {:induction false} IdsAre(batch: seq<Entry>)
    requires Distinct(batch)
    ensures |Ids(batch)| == |batch|
    ensures forall oid :: oid in Ids(batch) <==> Listed(batch, oid)
  {
    if batch != [] {
      ListedCons(batch);
      IdsAre(batch[1..]);
    }
  }

  /** Time passing, and then a tick of the scheduler that finds `found`. */
  datatype Round = Round(wait: nat, found: seq<Entry>)

  function AfterRound(w: World, round: Round): World {
    SendAll(w.(now := w.now + round.wait), round.found, RELIABLE)
  }

  function AfterRounds(w: World, rounds: seq<Round>): World
    decreases |rounds|
  {
    if rounds == [] then w else AfterRounds(AfterRound(w, rounds[0]), rounds[1..])
  }

  /** Each round finds one of the answers its query may get. */
  ghost predicate Finds(w: World, rounds: seq<Round>, limit: nat)
    decreases |rounds|
  {
    rounds != [] ==>
      IsUnsentBatch(w.docs, rounds[0].found, limit) && Finds(AfterRound(w, rounds[0]), rounds[1..], limit)
  }

  lemma {:induction false} OutgoingCounts(docs: Docs, batch: seq<Entry>, now: nat, oid: ObjectId)
    requires Distinct(batch) && Snapshots(docs, batch)
    ensures Count(Outgoing(batch, RELIABLE, now), Naming(oid)) == Bit(Listed(batch, oid))
    ensures Faithful(docs, Outgoing(batch, RELIABLE, now))
    decreases |batch|
  {
    if batch != [] {
      ListedCons(batch);
      assert Snapshots(docs, batch[1..]);
      OutgoingCounts(docs, batch[1..], now, oid);
      assert Outgoing(batch, RELIABLE, now)[1..] == Outgoing(batch[1..], RELIABLE, now);
      assert batch[0] == Entry(batch[0].oid, docs[batch[0].oid]);
    }
  }

  /** The body names a document and carries its text and retry count. */
  predicate Renders(docs: Docs, body: Body) {
    && body.Json? && body.msg.id.Hex? && body.msg.id.oid in docs
    && var doc := docs[body.msg.id.oid];
       body.msg.content == doc.content && body.msg.to == doc.to && body.msg.retry == doc.retryCount
  }

  ghost predicate Faithful(docs: Docs, copies: seq<Queued>) {
    forall i :: 0 <= i < |copies| ==> Renders(docs, copies[i].body)
  }

  lemma UnsentAfter(docs: Docs, docs': Docs, found: seq<Entry>, now: nat, oid: ObjectId)
    requires Snapshots(docs, found) && forall i :: 0 <= i < |found| ==> found[i].doc.status.Unsent?
    requires Swept(docs, docs', found, RELIABLE, Processing, now)
    ensures Listed(found, oid) ==> oid in UnsentIds(docs)
    ensures oid in UnsentIds(docs') <==> oid in UnsentIds(docs) && !Listed(found, oid)
    ensures oid in UnsentIds(docs') ==> docs'[oid] == docs[oid]
  {
  }

  lemma UnsentSwept(docs: Docs, docs': Docs, found: seq<Entry>, now: nat)
    requires Distinct(found) && Snapshots(docs, found)
    requires forall i :: 0 <= i < |found| ==> found[i].doc.status.Unsent?
    requires Swept(docs, docs', found, RELIABLE, Processing, now)
    ensures Ids(found) <= UnsentIds(docs) && UnsentIds(docs') == UnsentIds(docs) - Ids(found)
    ensures forall oid :: oid in UnsentIds(docs') ==> docs'[oid] == docs[oid]
  {
    IdsAre(found);
    forall oid
      ensures oid in Ids(found) ==> oid in UnsentIds(docs)
      ensures oid in UnsentIds(docs') <==> oid in UnsentIds(docs) && oid !in Ids(found)
      ensures oid in UnsentIds(docs') ==> docs'[oid] == docs[oid]
    {
      UnsentAfter(docs, docs', found, now, oid);
    }
  }

  /** One sweep takes out what it found and publishes just that. */
  lemma RoundDrains(w: World, round: Round, limit: nat)
    requires IsUnsentBatch(w.docs, round.found, limit)
    ensures var w' := AfterRound(w, round);
            && UnsentIds(w'.docs) == UnsentIds(w.docs) - Ids(round.found)
            && (forall oid :: oid in UnsentIds(w'.docs) ==> w'.docs[oid] == w.docs[oid])
            && w'.docs.Keys == w.docs.Keys
            && w'.main == w.main + Outgoing(round.found, RELIABLE, w'.now)
            && Ids(round.found) <= UnsentIds(w.docs)
  {
    SendAllSweeps(w.(now := w.now + round.wait), round.found, RELIABLE);
    UnsentSwept(w.docs, AfterRound(w, round).docs, round.found, w.now + round.wait);
  }

  /** One sweep leaves `limit` unsent messages fewer, or none. */
  lemma RoundCounts(w: World, round: Round, limit: nat)
    requires IsUnsentBatch(w.docs, round.found, limit)
    ensures |UnsentIds(AfterRound(w, round).docs)| == Drop(|UnsentIds(w.docs)|, limit)
  {
    RoundDrains(w, round, limit);
    IdsAre(round.found);
    if limit == 0 || |round.found| < limit {
      assert forall oid :: oid in UnsentIds(w.docs) ==> Listed(round.found, oid);
      assert UnsentIds(w.docs) == Ids(round.found);
    }
  }

  function Drop(n: nat, limit: nat): nat {
    if limit == 0 || n <= limit then 0 else n - limit
  }

  function DropAll(n: nat, limit: nat, k: nat): nat {
    if k == 0 then n else DropAll(Drop(n, limit), limit, k - 1)
  }

  lemma {:induction false} DropAllIs(n: nat, limit: nat, k: nat)
    requires limit > 0
    ensures DropAll(n, limit, k) == if n > limit * k then n - limit * k else 0
  {
    if k > 0 {
      DropAllIs(Drop(n, limit), limit, k - 1);
      assert limit * k == limit + limit * (k - 1);
    }
  }

  /** Since `w` the outbox has published each message that is no longer unsent once, as it was
      stored, and no other. */
  ghost predicate PublishedSince(w: World, w': World) {
    && UnsentIds(w'.docs) <= UnsentIds(w.docs) && w'.docs.Keys == w.docs.Keys && w.main <= w'.main
    && (forall oid :: oid in UnsentIds(w'.docs) ==> w'.docs[oid] == w.docs[oid])
    && Faithful(w.docs, w'.main[|w.main|..])
    && (forall oid :: Count(w'.main[|w.main|..], Naming(oid)) == Bit(oid in UnsentIds(w.docs) - UnsentIds(w'.docs)))
  }

  lemma RoundPublishes(w: World, round: Round, limit: nat)
    requires IsUnsentBatch(w.docs, round.found, limit)
    ensures PublishedSince(w, AfterRound(w, round))
  {
    RoundDrains(w, round, limit);
    var w' := AfterRound(w, round);
    var copies := Outgoing(round.found, RELIABLE, w'.now);
    assert w'.main[|w.main|..] == copies;
    forall oid
      ensures Count(copies, Naming(oid)) == Bit(oid in UnsentIds(w.docs) - UnsentIds(w'.docs))
    {
      IdsAre(round.found);
      OutgoingCounts(w.docs, round.found, w'.now, oid);
    }
    OutgoingCounts(w.docs, round.found, w'.now, 0);
  }

  /** Two stretches of publishing make one, provided the first left the messages of the second alone. */
  lemma PublishedJoins(w: World, w1: World, w': World)
    requires PublishedSince(w, w1) && PublishedSince(w1, w')
    ensures PublishedSince(w, w')
  {
    var a, b := w1.main[|w.main|..], w'.main[|w1.main|..];
    assert w'.main[|w.main|..] == a + b;
    forall oid
      ensures Count(a + b, Naming(oid)) == Bit(oid in UnsentIds(w.docs) - UnsentIds(w'.docs))
    {
      CountConcat(a, b, Naming(oid));
    }
    forall i | 0 <= i < |b|
      ensures Renders(w.docs, b[i].body)
    {
      var oid := b[i].body.msg.id.oid;
      CountZero(b, Naming(oid));
      assert Naming(oid)(b[i]);
      assert oid in UnsentIds(w1.docs);
    }
  }

  lemma {:induction false} RoundsDrain(w: World, rounds: seq<Round>, limit: nat)
    requires Finds(w, rounds, limit)
    ensures var w' := AfterRounds(w, rounds);
            |UnsentIds(w'.docs)| == DropAll(|UnsentIds(w.docs)|, limit, |rounds|) && PublishedSince(w, w')
    decreases |rounds|
  {
    if rounds == [] {
      assert w.main[|w.main|..] == [];
    } else {
      RoundCounts(w, rounds[0], limit);
      RoundPublishes(w, rounds[0], limit);
      RoundsDrain(AfterRound(w, rounds[0]), rounds[1..], limit);
      PublishedJoins(w, AfterRound(w, rounds[0]), AfterRounds(w, rounds));
    }
  }

  /** After k fault-free sweeps max(0, n - k * b) of n messages are unsent, whichever the
      queries picked, and each other one has been published once, as it was stored. */
  lemma OutboxDrains(w: World, rounds: seq<Round>, limit: nat)
    requires Finds(w, rounds, limit) && limit > 0
    ensures var n, w' := |UnsentIds(w.docs)|, AfterRounds(w, rounds);
            && |UnsentIds(w'.docs)| == (if n > limit * |rounds| then n - limit * |rounds| else 0)
            && PublishedSince(w, w')
  {
    RoundsDrain(w, rounds, limit);
    DropAllIs(|UnsentIds(w.docs)|, limit, |rounds|);
  }

  /** There are at least n / limit sweeps, rounded up, for n unsent messages. */
  ghost predicate Enough(w: World, rounds: seq<Round>, limit: nat) {
    limit > 0 && |UnsentIds(w.docs)| <= limit * |rounds|
  }

  lemma EnoughDrains(w: World, rounds: seq<Round>, limit: nat)
    requires Finds(w, rounds, limit) && Enough(w, rounds, limit)
    ensures UnsentIds(AfterRounds(w, rounds).docs) == {}
  {
    OutboxDrains(w, rounds, limit);
  }

  // ---- the monitor

  /** A stale sweep under any replies: a message found is untouched, or has a dead letter and is
      still processing, or has a dead letter and is failed; a message not found is untouched. */
  lemma StaleSweepOutcomes(w: World, found: seq<Entry>, replies: SweepReplies, oid: ObjectId)
    requires IsStaleBatch(w.docs, found, w.now) && oid in w.docs
    ensures var w' := RecoverAll(w, found, replies);
            var listed, x := Listed(found, oid), replies(oid);
            && oid in w'.docs && w.dlq <= w'.dlq
            && Count(w'.dlq[|w.dlq|..], (b: Body) => b.Names(oid)) == Bit(listed && x.publish.Took())
            && w'.docs[oid] == (if listed && x.publish.Ok? && x.update.Took()
                                then w.docs[oid].(status := Failed, updatedAt := w.now) else w.docs[oid])
            && (listed <==> w.docs[oid].status.Processing? && IsStale(w.docs[oid], w.now))
            && w'.main == w.main && w'.retry == w.retry && w'.inbox == w.inbox && w'.calls == w.calls
  {
    RecoverAllSweeps(w, found, replies);
    LettersCount(found, replies, oid);
    assert RecoverAll(w, found, replies).dlq[|w.dlq|..] == Letters(found, replies);
  }

  lemma {:induction false} LettersCount(batch: seq<Entry>, replies: SweepReplies, oid: ObjectId)
    requires Distinct(batch)
    ensures Count(Letters(batch, replies), (b: Body) => b.Names(oid))
         == Bit(Listed(batch, oid) && replies(oid).publish.Took())
    decreases |batch|
  {
    if batch != [] {
      ListedCons(batch);
      LettersCount(batch[1..], replies, oid);
      if replies(batch[0].oid).publish.Took() {
        assert Letters(batch, replies)[1..] == Letters(batch[1..], replies);
      } else {
        assert Letters(batch, replies) == Letters(batch[1..], replies);
      }
    }
  }

  /** A dead letter the monitor writes names a document and carries its content and retry count,
      but not its recipient. */
  predicate IsObituary(docs: Docs, body: Body) {
    && body.Json? && body.msg.id.Hex? && body.msg.id.oid in docs
    && var doc := docs[body.msg.id.oid];
       body.msg.content == doc.content && body.msg.to == "" && body.msg.retry == doc.retryCount
  }

  lemma {:induction false} LettersQuote(docs: Docs, batch: seq<Entry>, replies: SweepReplies)
    requires Snapshots(docs, batch)
    ensures forall i :: 0 <= i < |Letters(batch, replies)| ==> IsObituary(docs, Letters(batch, replies)[i])
    decreases |batch|
  {
    if batch != [] {
      assert Snapshots(docs, batch[1..]);
      LettersQuote(docs, batch[1..], replies);
      assert IsObituary(docs, RecoveryBody(batch[0]));
    }
  }

  /** That is what a stale sweep adds to the DLQ, whatever the replies. */
  lemma ObituariesOmitRecipients(w: World, found: seq<Entry>, replies: SweepReplies)
    requires IsStaleBatch(w.docs, found, w.now)
    ensures var w' := RecoverAll(w, found, replies);
            w.dlq <= w'.dlq && forall i :: |w.dlq| <= i < |w'.dlq| ==> IsObituary(w.docs, w'.dlq[i])
  {
    RecoverAllSweeps(w, found, replies);
    LettersQuote(w.docs, found, replies);
  }

  /** A fault-free sweep leaves nothing for another one at the same instant. */
  lemma StaleSweepSettles(w: World, found: seq<Entry>, again: seq<Entry>)
    requires IsStaleBatch(w.docs, found, w.now)
    requires IsStaleBatch(RecoverAll(w, found, RELIABLE).docs, again, w.now)
    ensures again == [] && RecoverAll(RecoverAll(w, found, RELIABLE), again, RELIABLE) == RecoverAll(w, found, RELIABLE)
  {
    RecoverAllSweeps(w, found, RELIABLE);
    if again != [] {
      StaleSweepOutcomes(w, found, RELIABLE, again[0].oid);
    }
  }

  // ---- recovery

  function RoundsRun(rounds: seq<Round>, q: nat): seq<P.Action> {
    if rounds == [] then []
    else [P.Tick(rounds[0].wait), P.Find(q, rounds[0].found)] + R.SendCalls(rounds[0].found, RELIABLE, q)
         + RoundsRun(rounds[1..], q)
  }

  /** Time passes and a runner finds unsent messages. */
  lemma FindRuns(cfg: Config, s: P.State, round: Round, q: nat)
    requires q < |s.senders| && s.senders[q] == P.Publish([]) && IsUnsentBatch(s.w.docs, round.found, cfg.batchSize)
    ensures var s' := Exec(P.Steps(cfg), s, [P.Tick(round.wait), P.Find(q, round.found)]);
            && R.OnlySender(s, s', q) && s'.w == s.w.(now := s.w.now + round.wait)
            && s'.senders[q] == P.Publish(round.found)
  {
    Two(P.Steps(cfg), s, P.Tick(round.wait), P.Find(q, round.found));
    assert P.Enabled(cfg, P.Apply(cfg, s, P.Tick(round.wait)), P.Find(q, round.found));
  }

  lemma RoundRuns(cfg: Config, s: P.State, round: Round, q: nat)
    requires q < |s.senders| && s.senders[q] == P.Publish([]) && IsUnsentBatch(s.w.docs, round.found, cfg.batchSize)
    ensures var run := [P.Tick(round.wait), P.Find(q, round.found)] + R.SendCalls(round.found, RELIABLE, q);
            var s' := Exec(P.Steps(cfg), s, run);
            R.OnlySender(s, s', q) && s'.w == AfterRound(s.w, round) && s'.senders[q] == P.Publish([])
  {
    var find := [P.Tick(round.wait), P.Find(q, round.found)];
    FindRuns(cfg, s, round, q);
    R.SendAllRun(cfg, Exec(P.Steps(cfg), s, find), round.found, RELIABLE, q);
    Concat(P.Steps(cfg), s, find, R.SendCalls(round.found, RELIABLE, q));
  }

  lemma {:induction false} RoundsRuns(cfg: Config, s: P.State, rounds: seq<Round>, q: nat)
    requires q < |s.senders| && s.senders[q] == P.Publish([]) && Finds(s.w, rounds, cfg.batchSize)
    ensures var s' := Exec(P.Steps(cfg), s, RoundsRun(rounds, q));
            R.OnlySender(s, s', q) && s'.w == AfterRounds(s.w, rounds) && s'.senders[q] == P.Publish([])
    decreases |rounds|
  {
    if rounds != [] {
      var a := [P.Tick(rounds[0].wait), P.Find(q, rounds[0].found)] + R.SendCalls(rounds[0].found, RELIABLE, q);
      RoundRuns(cfg, s, rounds[0], q);
      RoundsRuns(cfg, Exec(P.Steps(cfg), s, a), rounds[1..], q);
      Concat(P.Steps(cfg), s, a, RoundsRun(rounds[1..], q));
    }
  }

  function WatchRun(wait: nat, found: seq<Entry>, m: nat): seq<P.Action> {
    [P.Tick(wait), P.Scan(m, found)] + R.HealCalls(found, RELIABLE, m)
  }

  /** Time passes and a monitor finds the stale messages. */
  lemma ScanRuns(cfg: Config, s: P.State, wait: nat, found: seq<Entry>, m: nat)
    requires m < |s.monitors| && s.monitors[m] == P.Recover([])
    requires IsStaleBatch(s.w.docs, found, s.w.now + wait)
    ensures var s' := Exec(P.Steps(cfg), s, [P.Tick(wait), P.Scan(m, found)]);
            && s'.w == s.w.(now := s.w.now + wait) && s'.h.unburied == s.h.unburied
            && |s'.monitors| == |s.monitors| && s'.monitors[m] == P.Recover(found)
  {
    Two(P.Steps(cfg), s, P.Tick(wait), P.Scan(m, found));
    assert P.Enabled(cfg, P.Apply(cfg, s, P.Tick(wait)), P.Scan(m, found));
  }

  lemma WatchRuns(cfg: Config, s: P.State, wait: nat, found: seq<Entry>, m: nat)
    requires m < |s.monitors| && s.monitors[m] == P.Recover([])
    requires IsStaleBatch(s.w.docs, found, s.w.now + wait)
    ensures var s' := Exec(P.Steps(cfg), s, WatchRun(wait, found, m));
            && s'.w == RecoverAll(s.w.(now := s.w.now + wait), found, RELIABLE)
            && s'.h.unburied == s.h.unburied
  {
    var scan := [P.Tick(wait), P.Scan(m, found)];
    ScanRuns(cfg, s, wait, found, m);
    R.RecoverAllRun(cfg, Exec(P.Steps(cfg), s, scan), found, RELIABLE, m);
    Concat(P.Steps(cfg), s, scan, R.HealCalls(found, RELIABLE, m));
  }

  function RecoveryRun(rounds: seq<Round>, wait: nat, found: seq<Entry>, q: nat, m: nat): seq<P.Action> {
    RoundsRun(rounds, q) + WatchRun(wait, found, m)
  }

  lemma RecoveryRuns(cfg: Config, s: P.State, rounds: seq<Round>, wait: nat, found: seq<Entry>, q: nat, m: nat)
    requires q < |s.senders| && s.senders[q] == P.Publish([]) && Finds(s.w, rounds, cfg.batchSize)
    requires m < |s.monitors| && s.monitors[m] == P.Recover([])
    requires var w1 := AfterRounds(s.w, rounds); IsStaleBatch(w1.docs, found, w1.now + wait)
    ensures var s' := Exec(P.Steps(cfg), s, RecoveryRun(rounds, wait, found, q, m));
            var w1 := AfterRounds(s.w, rounds);
            && s'.w == RecoverAll(w1.(now := w1.now + wait), found, RELIABLE)
            && s'.h.unburied == s.h.unburied
  {
    var s1 := Exec(P.Steps(cfg), s, RoundsRun(rounds, q));
    Concat(P.Steps(cfg), s, RoundsRun(rounds, q), WatchRun(wait, found, m));
    assert s1.w == AfterRounds(s.w, rounds) && s1.monitors == s.monitors && s1.h.unburied == s.h.unburied by {
      RoundsRuns(cfg, s, rounds, q);
    }
    WatchRuns(cfg, s1, wait, found, m);
  }

  /** A message is accounted for: delivered, or failed with a dead letter or a refused one. */
  ghost predicate Resolved(w: World, unburied: set<ObjectId>, oid: ObjectId) {
    oid in w.docs &&
    (|| (w.docs[oid].status in {Sent, Duplicate} && Delivered(w.calls, oid))
     || (w.docs[oid].status.Failed? && (DeadLettered(w.dlq, oid) || oid in unburied)))
  }

  /** With nothing unsent and everything older than the stale limit, a fault-free sweep leaves
      nothing in between. */
  lemma SweepSettlesAll(w: World, wait: nat, found: seq<Entry>, oid: ObjectId)
    requires UnsentIds(w.docs) == {} && G.Dated(w) && wait > STALE_AFTER && oid in w.docs
    requires IsStaleBatch(w.docs, found, w.now + wait)
    ensures var w' := RecoverAll(w.(now := w.now + wait), found, RELIABLE);
            oid in w'.docs && w'.docs[oid].status in {Sent, Duplicate, Failed}
  {
    assert oid !in UnsentIds(w.docs);
    StaleSweepOutcomes(w.(now := w.now + wait), found, RELIABLE, oid);
  }

  lemma SettledIsResolved(s: P.State, oid: ObjectId)
    requires S.SentInv(s) && S.FailedInv(s)
    requires oid in s.w.docs && s.w.docs[oid].status in {Sent, Duplicate, Failed}
    ensures Resolved(s.w, s.h.unburied, oid)
  {
  }

  lemma RunKeeps(cfg: Config, s: P.State, run: seq<P.Action>)
    requires S.SentInv(s) && S.FailedInv(s) && G.Dated(s.w)
    ensures var s' := Exec(P.Steps(cfg), s, run); S.SentInv(s') && S.FailedInv(s') && G.Dated(s'.w)
  {
    G.SentRun(cfg, s, run);
    G.FailedRun(cfg, s, run);
    G.DatedRun(cfg, s, run);
  }

  /** From any state the invariants hold in, with an idle runner and an idle monitor. */
  lemma RecoversOnceDrained(
      cfg: Config, s: P.State, rounds: seq<Round>, wait: nat, found: seq<Entry>, q: nat, m: nat, oid: ObjectId)
    requires S.SentInv(s) && S.FailedInv(s) && G.Dated(s.w) && oid in s.w.docs
    requires q < |s.senders| && s.senders[q] == P.Publish([]) && Finds(s.w, rounds, cfg.batchSize)
    requires m < |s.monitors| && s.monitors[m] == P.Recover([])
    requires UnsentIds(AfterRounds(s.w, rounds).docs) == {} && wait > STALE_AFTER
    requires var w1 := AfterRounds(s.w, rounds); IsStaleBatch(w1.docs, found, w1.now + wait)
    ensures Resolved(Exec(P.Steps(cfg), s, RecoveryRun(rounds, wait, found, q, m)).w, s.h.unburied, oid)
  {
    var w1 := AfterRounds(s.w, rounds);
    var s' := Exec(P.Steps(cfg), s, RecoveryRun(rounds, wait, found, q, m));
    assert G.Dated(w1) && oid in w1.docs by {
      RunKeeps(cfg, s, RoundsRun(rounds, q));
      RoundsRuns(cfg, s, rounds, q);
      RoundsDrain(s.w, rounds, cfg.batchSize);
    }
    SweepSettlesAll(w1, wait, found, oid);
    RecoveryRuns(cfg, s, rounds, wait, found, q, m);
    RunKeeps(cfg, s, RecoveryRun(rounds, wait, found, q, m));
    SettledIsResolved(s', oid);
  }

  /** The runner and the monitor are restarted before the recovery. */
  function RestartRun(rounds: seq<Round>, wait: nat, found: seq<Entry>, q: nat, m: nat): seq<P.Action> {
    [P.KillSender(q), P.KillMonitor(m)] + RecoveryRun(rounds, wait, found, q, m)
  }

  lemma Restarts(cfg: Config, s: P.State, q: nat, m: nat)
    requires q < |s.senders| && m < |s.monitors|
    ensures var s' := Exec(P.Steps(cfg), s, [P.KillSender(q), P.KillMonitor(m)]);
            && s'.w == s.w && s'.h.unburied == s.h.unburied
            && |s'.senders| == |s.senders| && s'.senders[q] == P.Publish([])
            && |s'.monitors| == |s.monitors| && s'.monitors[m] == P.Recover([])
  {
    Two(P.Steps(cfg), s, P.KillSender(q), P.KillMonitor(m));
  }

  lemma RecoversAfterRestart(
      cfg: Config, s: P.State, rounds: seq<Round>, wait: nat, found: seq<Entry>, q: nat, m: nat, oid: ObjectId)
    requires S.SentInv(s) && S.FailedInv(s) && G.Dated(s.w) && oid in s.w.docs
    requires q < |s.senders| && m < |s.monitors| && Finds(s.w, rounds, cfg.batchSize)
    requires UnsentIds(AfterRounds(s.w, rounds).docs) == {} && wait > STALE_AFTER
    requires var w1 := AfterRounds(s.w, rounds); IsStaleBatch(w1.docs, found, w1.now + wait)
    ensures Resolved(Exec(P.Steps(cfg), s, RestartRun(rounds, wait, found, q, m)).w, s.h.unburied, oid)
  {
    var restart := [P.KillSender(q), P.KillMonitor(m)];
    var s1 := Exec(P.Steps(cfg), s, restart);
    Restarts(cfg, s, q, m);
    RunKeeps(cfg, s, restart);
    RecoversOnceDrained(cfg, s1, rounds, wait, found, q, m, oid);
    Concat(P.Steps(cfg), s, restart, RecoveryRun(rounds, wait, found, q, m));
  }

  /** Whatever has happened before, crashes included: from any reachable state, once a runner and a
      monitor are restarted, enough sweeps to empty the outbox, a wait past the stale limit and one
      stale sweep resolve every message.  The consumers and the other actors may stand anywhere. */
  lemma RecoversFromAnywhere(
      cfg: Config, n: nat, r: nat, k: nat, before: seq<P.Action>,
      rounds: seq<Round>, wait: nat, found: seq<Entry>, q: nat, m: nat, oid: ObjectId)
    requires var s := P.After(cfg, n, r, k, before);
             && q < r && m < k
             && Finds(s.w, rounds, cfg.batchSize) && Enough(s.w, rounds, cfg.batchSize)
             && wait > STALE_AFTER && oid in s.w.docs
             && (var w1 := AfterRounds(s.w, rounds); IsStaleBatch(w1.docs, found, w1.now + wait))
    ensures var s := P.After(cfg, n, r, k, before);
            Resolved(Exec(P.Steps(cfg), s, RestartRun(rounds, wait, found, q, m)).w, s.h.unburied, oid)
  {
    var s := P.After(cfg, n, r, k, before);
    G.SizesRun(cfg, P.Init(n, r, k), before);
    RunKeeps(cfg, P.Init(n, r, k), before);
    EnoughDrains(s.w, rounds, cfg.batchSize);
    RecoversAfterRestart(cfg, s, rounds, wait, found, q, m, oid);
  }
}
