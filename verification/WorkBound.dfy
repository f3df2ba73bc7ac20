/** Every protocol step uses up work that only a new message brings in. */
module WorkBound {
  import opened Messages
  import opened Delivery
  import opened Counting
  import opened Runs
  import opened Sweeps
  import opened Atomic
  import opened ExactlyOnce

  function Left(maxRetries: int, retries: nat): nat {
    if maxRetries > retries then maxRetries - retries else 0
  }

  /** The work a document still stands for, its copies aside. */
  function Weight(doc: Message, maxRetries: int): nat {
    3 * Left(maxRetries, doc.retryCount)
    + (if doc.status.Unsent? then 3 else 0) + (if doc.status.Processing? then 1 else 0)
  }

  ghost function Weights(ids: set<ObjectId>, docs: Docs, maxRetries: int): nat
    requires ids <= docs.Keys
  {
    if ids == {} then 0
    else
      var oid :| oid in ids;
      Weight(docs[oid], maxRetries) + Weights(ids - {oid}, docs, maxRetries)
  }

  lemma {:induction false} WeightsSplit(ids: set<ObjectId>, docs: Docs, maxRetries: int, oid: ObjectId)
    requires ids <= docs.Keys && oid in ids
    ensures Weights(ids, docs, maxRetries) == Weight(docs[oid], maxRetries) + Weights(ids - {oid}, docs, maxRetries)
    decreases ids
  {
    var first :| first in ids
      && Weights(ids, docs, maxRetries) == Weight(docs[first], maxRetries) + Weights(ids - {first}, docs, maxRetries);
    if first != oid {
      WeightsSplit(ids - {first}, docs, maxRetries, oid);
      WeightsSplit(ids - {oid}, docs, maxRetries, first);
      assert ids - {first} - {oid} == ids - {oid} - {first};
    }
  }

  lemma {:induction false} WeightsFrame(ids: set<ObjectId>, docs: Docs, docs': Docs, maxRetries: int)
    requires ids <= docs.Keys && ids <= docs'.Keys
    requires forall oid :: oid in ids ==> Weight(docs'[oid], maxRetries) == Weight(docs[oid], maxRetries)
    ensures Weights(ids, docs', maxRetries) == Weights(ids, docs, maxRetries)
    decreases ids
  {
    if ids != {} {
      var oid :| oid in ids;
      WeightsSplit(ids, docs, maxRetries, oid);
      WeightsSplit(ids, docs', maxRetries, oid);
      WeightsFrame(ids - {oid}, docs, docs', maxRetries);
    }
  }

  /** The potential: a copy waiting in the retry queue has one step more to make. */
  ghost function Potential(w: World, maxRetries: int): nat {
    |w.main| + 2 * |w.retry| + Weights(w.docs.Keys, w.docs, maxRetries)
  }

  lemma WeightsUpdate(docs: Docs, oid: ObjectId, doc: Message, maxRetries: int)
    requires oid in docs
    ensures Weights(docs[oid := doc].Keys, docs[oid := doc], maxRetries) + Weight(docs[oid], maxRetries)
         == Weights(docs.Keys, docs, maxRetries) + Weight(doc, maxRetries)
  {
    var docs' := docs[oid := doc];
    assert docs'.Keys == docs.Keys;
    WeightsSplit(docs.Keys, docs, maxRetries, oid);
    WeightsSplit(docs'.Keys, docs', maxRetries, oid);
    WeightsFrame(docs.Keys - {oid}, docs, docs', maxRetries);
  }

  lemma WeightsInsert(docs: Docs, oid: ObjectId, doc: Message, maxRetries: int)
    requires oid !in docs
    ensures Weights(docs[oid := doc].Keys, docs[oid := doc], maxRetries)
         == Weights(docs.Keys, docs, maxRetries) + Weight(doc, maxRetries)
  {
    var docs' := docs[oid := doc];
    WeightsSplit(docs'.Keys, docs', maxRetries, oid);
    assert docs'.Keys - {oid} == docs.Keys;
    WeightsFrame(docs.Keys, docs, docs', maxRetries);
  }

  // ---- every step pays

  /** A step of the protocol, as opposed to a new message, a query or the passing of time. */
  ghost predicate IsWork(cfg: Config, x: System, e: Event) {
    && Enabled(cfg, x, e)
    && (e.Expire? || e.Send? || e.Consume? || (e.Sweep? && e.found != []))
  }

  lemma ConsumePays(cfg: Config, x: System, accepted: bool)
    requires Inv(x) && x.w.main != []
    ensures Potential(Handled(x.w, accepted, cfg.maxRetries), cfg.maxRetries) < Potential(x.w, cfg.maxRetries)
  {
    HeadStatus(x);
    var id := HeadId(x.w);
    HandledIsOutcome(x.w, id, accepted, cfg.maxRetries);
    WeightsUpdate(x.w.docs, id, Handled(x.w, accepted, cfg.maxRetries).docs[id], cfg.maxRetries);
  }

  lemma SendPays(cfg: Config, x: System)
    requires Inv(x) && x.batch != []
    ensures Potential(SendItem(x.w, x.batch[0], RELIABLE(x.batch[0].oid)), cfg.maxRetries)
          < Potential(x.w, cfg.maxRetries)
  {
    var oid := x.batch[0].oid;
    WeightsUpdate(x.w.docs, oid, x.w.docs[oid].(status := Processing, updatedAt := x.w.now), cfg.maxRetries);
  }

  lemma {:induction false} SweepPays(w: World, found: seq<Entry>, maxRetries: int)
    requires Distinct(found) && Snapshots(w.docs, found)
    requires forall i :: 0 <= i < |found| ==> found[i].doc.status.Processing?
    ensures Potential(RecoverAll(w, found, RELIABLE), maxRetries) + |found| == Potential(w, maxRetries)
    decreases |found|
  {
    if found != [] {
      var oid := found[0].oid;
      var w1 := RecoverItem(w, found[0], RELIABLE(oid));
      WeightsUpdate(w.docs, oid, w.docs[oid].(status := Failed, updatedAt := w.now), maxRetries);
      assert forall i :: 0 <= i < |found[1..]| ==> found[1..][i] == found[i + 1] && found[i + 1].oid != oid;
      SweepPays(w1, found[1..], maxRetries);
    }
  }

  lemma WorkPays(cfg: Config, x: System, e: Event)
    requires Inv(x) && IsWork(cfg, x, e)
    ensures Potential(Apply(cfg, x, e).w, cfg.maxRetries) < Potential(x.w, cfg.maxRetries)
  {
    match e
    case Expire =>
    case Send => SendPays(cfg, x);
    case Consume(accepted) => ConsumePays(cfg, x, accepted);
    case Sweep(found) => SweepPays(x.w, found, cfg.maxRetries);
  }

  lemma RestIsFree(cfg: Config, x: System, e: Event)
    requires Inv(x) && !IsWork(cfg, x, e)
    ensures Potential(Apply(cfg, x, e).w, cfg.maxRetries)
         == Potential(x.w, cfg.maxRetries)
            + if e.Create? && Enabled(cfg, x, e) then Share(cfg.maxRetries) else 0
  {
    if e.Create? && Enabled(cfg, x, e) {
      WeightsInsert(x.w.docs, e.oid, NewMessage(e.content, e.to, x.w.now), cfg.maxRetries);
    }
  }

  // ---- the theorems

  /** How many protocol steps, and how many new messages, a run takes. */
  ghost function Work(cfg: Config, x: System, run: seq<Event>): nat
    decreases |run|
  {
    if run == [] then 0 else Bit(IsWork(cfg, x, run[0])) + Work(cfg, Apply(cfg, x, run[0]), run[1..])
  }

  /** The work one new message brings in. */
  function Share(maxRetries: int): nat {
    3 * Left(maxRetries, 0) + 3
  }

  lemma EventIsPaid(cfg: Config, x: System, e: Event)
    requires Inv(x)
    ensures var x' := Apply(cfg, x, e);
            && Bit(IsWork(cfg, x, e)) + Potential(x'.w, cfg.maxRetries)
               <= Potential(x.w, cfg.maxRetries) + Share(cfg.maxRetries) * Bit(e.Create? && Enabled(cfg, x, e))
            && |x'.w.docs| == |x.w.docs| + Bit(e.Create? && Enabled(cfg, x, e))
  {
    DocsGrow(cfg, x, e);
    if IsWork(cfg, x, e) {
      WorkPays(cfg, x, e);
    } else {
      RestIsFree(cfg, x, e);
    }
  }

  lemma {:induction false} WorkIsPaid(cfg: Config, x: System, run: seq<Event>)
    requires Inv(x)
    ensures var x' := Exec(Events(cfg), x, run);
            Work(cfg, x, run) + Potential(x'.w, cfg.maxRetries)
            <= Potential(x.w, cfg.maxRetries) + Share(cfg.maxRetries) * (|x'.w.docs| - |x.w.docs|)
    decreases |run|
  {
    if run != [] {
      var x1 := Apply(cfg, x, run[0]);
      InvEvent(cfg, x, run[0]);
      WorkIsPaid(cfg, x1, run[1..]);
      EventIsPaid(cfg, x, run[0]);
      Distribute(Share(cfg.maxRetries), |Exec(Events(cfg), x, run).w.docs| - |x1.w.docs|, |x1.w.docs| - |x.w.docs|);
    }
  }

  lemma Distribute(k: int, a: int, b: int)
    ensures k * (a + b) == k * a + k * b
  {
  }

  /** Only a new message makes the collection larger, by one. */
  lemma DocsGrow(cfg: Config, x: System, e: Event)
    requires Inv(x)
    ensures |Apply(cfg, x, e).w.docs| == |x.w.docs| + Bit(e.Create? && Enabled(cfg, x, e))
  {
    if Enabled(cfg, x, e) {
      var docs' := Apply(cfg, x, e).w.docs;
      match e
      case Create(oid, _, _) => assert docs'.Keys == x.w.docs.Keys + {oid};
      case Consume(accepted) =>
        HeadStatus(x);
        HandledIsOutcome(x.w, HeadId(x.w), accepted, cfg.maxRetries);
        assert docs'.Keys == x.w.docs.Keys;
      case Send => assert docs'.Keys == x.w.docs.Keys;
      case Sweep(found) =>
        RecoverAllSweeps(x.w, found, RELIABLE);
        assert |docs'| == |docs'.Keys| && |x.w.docs| == |x.w.docs.Keys|;
      case _ =>
    }
  }

  /** Any interleaving over n messages takes at most n * (3M + 3) protocol steps. */
  lemma WorkIsBounded(cfg: Config, run: seq<Event>)
    ensures Work(cfg, EMPTY, run) <= Share(cfg.maxRetries) * |After(cfg, run).w.docs|
  {
    WorkIsPaid(cfg, EMPTY, run);
  }

  /** When no protocol step is left, now or after the retry delay, every message is sent or failed. */
  lemma QuietMeansSettled(cfg: Config, run: seq<Event>, oid: ObjectId)
    requires var x := After(cfg, run);
             && oid in x.w.docs && x.w.main == [] && x.w.retry == []
             && forall o :: o in x.w.docs ==> !x.w.docs[o].status.Unsent?
    ensures After(cfg, run).w.docs[oid].status in {Sent, Failed}
  {
    ExactlyOneCopy(cfg, run, oid);
  }

  /** Some answer to the query for unsent messages, not empty when there is one. */
  lemma {:induction false} Enumerate(docs: Docs, ids: set<ObjectId>) returns (batch: seq<Entry>)
    requires ids <= docs.Keys
    ensures Distinct(batch) && Snapshots(docs, batch)
    ensures forall i :: 0 <= i < |batch| ==> batch[i].doc.status.Unsent? && batch[i].oid in ids
    ensures forall oid :: oid in ids && docs[oid].status.Unsent? ==> Listed(batch, oid)
    decreases ids
  {
    batch := [];
    if ids != {} {
      var oid :| oid in ids;
      var rest := Enumerate(docs, ids - {oid});
      batch := rest;
      if docs[oid].status.Unsent? {
        batch := [Entry(oid, docs[oid])] + rest;
        assert batch[1..] == rest;
        ListedCons(batch);
      }
    }
  }

  /** Some answer that lists a given unsent message. */
  lemma BatchWith(docs: Docs, oid: ObjectId, limit: nat) returns (batch: seq<Entry>)
    requires oid in docs && docs[oid].status.Unsent?
    ensures IsUnsentBatch(docs, batch, limit) && Listed(batch, oid)
  {
    var rest := Enumerate(docs, docs.Keys - {oid});
    batch := [Entry(oid, docs[oid])] + rest;
    assert batch[1..] == rest;
    ListedCons(batch);
    if limit != 0 && |batch| > limit {
      batch := batch[..limit];
    }
    assert batch[0].oid == oid;
  }

  /** Until then a step is always possible, if need be after a query or the retry delay. */
  lemma UnsettledMeansWork(cfg: Config, run: seq<Event>, oid: ObjectId)
    requires var x := After(cfg, run); oid in x.w.docs && x.w.docs[oid].status in {Unsent, Processing}
    ensures var x := After(cfg, run);
            || IsWork(cfg, x, Consume(true))
            || IsWork(cfg, Apply(cfg, x, Tick(RETRY_TTL)), Expire)
            || exists found :: IsWork(cfg, Apply(cfg, x, Find(found)), Event.Send)
  {
    var x := After(cfg, run);
    InvRun(cfg, EMPTY, run);
    assert Ledger(x.w, oid);
    if x.w.docs[oid].status.Unsent? {
      var found := BatchWith(x.w.docs, oid, cfg.batchSize);
      assert IsWork(cfg, Apply(cfg, x, Find(found)), Event.Send);
    }
  }
}
