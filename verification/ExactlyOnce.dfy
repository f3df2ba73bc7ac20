/** With atomic handlers every message has at most one copy and at most one delivery. */
module ExactlyOnce {
  import opened Messages
  import opened Delivery
  import opened Counting
  import opened Runs
  import opened Sweeps
  import opened Atomic

  function CallFor(oid: ObjectId): Call -> bool {
    (x: Call) => x.oid == oid
  }

  function SuccessFor(oid: ObjectId): Call -> bool {
    (x: Call) => x.oid == oid && x.ok
  }

  function Copies(w: World, oid: ObjectId): nat {
    Count(w.main, Naming(oid)) + Count(w.retry, Naming(oid))
  }

  /** What the stores say about one message. */
  ghost predicate Ledger(w: World, oid: ObjectId) {
    var copies, delivered := Copies(w, oid), Count(w.calls, SuccessFor(oid));
    if oid in w.docs then
      && (Hex(oid) in w.inbox ==> w.docs[oid].status.Sent?)
      && match w.docs[oid].status
         case Unsent =>
           copies == 0 && w.docs[oid].retryCount == 0 && Count(w.calls, CallFor(oid)) == 0 && delivered == 0
         case Processing => copies == 1 && delivered == 0
         case Sent => copies == 0 && delivered == 1
         case Failed => copies <= 1 && delivered == 0
         case Duplicate => false
    else
      Hex(oid) !in w.inbox && copies == 0 && Count(w.calls, CallFor(oid)) == 0 && delivered == 0
  }

  /** Every copy names a stored document and was enqueued in the past. */
  ghost predicate Stored(docs: Docs, q: seq<Queued>, now: nat) {
    forall i :: 0 <= i < |q| ==>
      q[i].body.Json? && q[i].body.msg.id.Hex? && q[i].body.msg.id.oid in docs && q[i].since <= now
  }

  ghost predicate BatchOk(x: System) {
    && Distinct(x.batch) && Snapshots(x.w.docs, x.batch)
    && forall i :: 0 <= i < |x.batch| ==> x.batch[i].doc.status.Unsent?
  }

  ghost predicate Inv(x: System) {
    && Stored(x.w.docs, x.w.main, x.w.now) && Stored(x.w.docs, x.w.retry, x.w.now) && BatchOk(x)
    && forall oid :: Ledger(x.w, oid)
  }

  function HeadId(w: World): ObjectId
    requires w.main != [] && w.main[0].body.Json? && w.main[0].body.msg.id.Hex?
  {
    w.main[0].body.msg.id.oid
  }

  // ---- every event keeps every ledger

  lemma HeadStatus(x: System)
    requires Inv(x) && x.w.main != []
    ensures var id := HeadId(x.w);
            && id in x.w.docs && x.w.main[0].body.Names(id)
            && x.w.docs[id].status in {Processing, Failed} && Hex(id) !in x.w.inbox
  {
    var id := HeadId(x.w);
    assert Ledger(x.w, id);
    assert Count(x.w.main, Naming(id)) >= 1;
  }

  /** What a ledger depends on. */
  lemma LedgerFrame(w: World, w': World, oid: ObjectId)
    requires Ledger(w, oid) && Copies(w', oid) == Copies(w, oid)
    requires oid in w'.docs <==> oid in w.docs
    requires oid in w.docs ==> w'.docs[oid] == w.docs[oid]
    requires Hex(oid) in w'.inbox <==> Hex(oid) in w.inbox
    requires Count(w'.calls, CallFor(oid)) == Count(w.calls, CallFor(oid))
    requires Count(w'.calls, SuccessFor(oid)) == Count(w.calls, SuccessFor(oid))
    ensures Ledger(w', oid)
  {
  }

  lemma LedgerElsewhere(w: World, id: ObjectId, accepted: bool, maxRetries: int, oid: ObjectId)
    requires w.main != [] && w.main[0].body.Names(id) && id in w.docs && oid != id && Ledger(w, oid)
    ensures Ledger(Outcome(w.(main := w.main[1..]), id, w.main[0].body, accepted, maxRetries), oid)
  {
    var call := Call(id, w.docs[id].content, w.docs[id].to, w.now, accepted);
    CountAppend(w.calls, call, SuccessFor(oid));
    CountAppend(w.calls, call, CallFor(oid));
    CountAppend(w.retry, Queued(w.main[0].body, w.now), Naming(oid));
    LedgerFrame(w, Outcome(w.(main := w.main[1..]), id, w.main[0].body, accepted, maxRetries), oid);
  }

  lemma LedgerHere(w: World, id: ObjectId, accepted: bool, maxRetries: int)
    requires w.main != [] && w.main[0].body.Names(id) && Ledger(w, id)
    requires id in w.docs && w.docs[id].status in {Processing, Failed} && Hex(id) !in w.inbox
    ensures Ledger(Outcome(w.(main := w.main[1..]), id, w.main[0].body, accepted, maxRetries), id)
  {
    var call := Call(id, w.docs[id].content, w.docs[id].to, w.now, accepted);
    CountAppend(w.calls, call, SuccessFor(id));
    CountAppend(w.retry, Queued(w.main[0].body, w.now), Naming(id));
  }

  lemma LedgerOutcome(w: World, id: ObjectId, accepted: bool, maxRetries: int, oid: ObjectId)
    requires w.main != [] && w.main[0].body.Names(id)
    requires id in w.docs && w.docs[id].status in {Processing, Failed} && Hex(id) !in w.inbox
    requires Ledger(w, oid)
    ensures Ledger(Outcome(w.(main := w.main[1..]), id, w.main[0].body, accepted, maxRetries), oid)
  {
    if oid == id {
      LedgerHere(w, id, accepted, maxRetries);
    } else {
      LedgerElsewhere(w, id, accepted, maxRetries, oid);
    }
  }

  lemma InvConsume(cfg: Config, x: System, accepted: bool)
    requires Inv(x) && x.w.main != []
    ensures Inv(x.(w := Handled(x.w, accepted, cfg.maxRetries)))
  {
    var id := HeadId(x.w);
    HeadStatus(x);
    HandledIsOutcome(x.w, id, accepted, cfg.maxRetries);
    var w' := Handled(x.w, accepted, cfg.maxRetries);
    forall oid
      ensures Ledger(w', oid)
    {
      LedgerOutcome(x.w, id, accepted, cfg.maxRetries, oid);
    }
    StoredOutcome(x, id, accepted, cfg.maxRetries);
  }

  lemma StoredOutcome(x: System, id: ObjectId, accepted: bool, maxRetries: int)
    requires Stored(x.w.docs, x.w.main, x.w.now) && Stored(x.w.docs, x.w.retry, x.w.now) && BatchOk(x)
    requires x.w.main != [] && id in x.w.docs && x.w.main[0].body.Names(id) && !x.w.docs[id].status.Unsent?
    ensures var w' := Outcome(x.w.(main := x.w.main[1..]), id, x.w.main[0].body, accepted, maxRetries);
            Stored(w'.docs, w'.main, w'.now) && Stored(w'.docs, w'.retry, w'.now) && BatchOk(x.(w := w'))
  {
  }

  lemma InvExpire(x: System)
    requires Inv(x) && x.w.retry != []
    ensures Inv(x.(w := Expired(x.w)))
  {
    var w' := Expired(x.w);
    forall oid
      ensures Ledger(w', oid)
    {
      assert Ledger(x.w, oid);
      CountAppend(x.w.main, Queued(x.w.retry[0].body, x.w.now), Naming(oid));
    }
  }

  lemma InvSend(x: System)
    requires Inv(x) && x.batch != []
    ensures Inv(System(SendItem(x.w, x.batch[0], RELIABLE(x.batch[0].oid)), x.batch[1..]))
  {
    var e := x.batch[0];
    var w' := SendItem(x.w, e, RELIABLE(e.oid));
    ListedCons(x.batch);
    forall oid
      ensures Ledger(w', oid)
    {
      assert Ledger(x.w, oid);
      CountAppend(x.w.main, Queued(OutboxBody(e), x.w.now), Naming(oid));
    }
    assert forall i :: 0 <= i < |x.batch[1..]| ==> x.batch[1..][i] == x.batch[i + 1] && x.batch[i + 1].oid != e.oid;
  }

  lemma InvSweep(x: System, found: seq<Entry>)
    requires Inv(x) && IsStaleBatch(x.w.docs, found, x.w.now)
    ensures Inv(x.(w := RecoverAll(x.w, found, RELIABLE)))
  {
    var w' := RecoverAll(x.w, found, RELIABLE);
    RecoverAllSweeps(x.w, found, RELIABLE);
    forall oid
      ensures Ledger(w', oid)
    {
      assert Ledger(x.w, oid);
    }
    assert forall i :: 0 <= i < |x.batch| ==> !Listed(found, x.batch[i].oid);
  }

  lemma InvCreate(x: System, oid: ObjectId, doc: Message)
    requires Inv(x) && oid !in x.w.docs && doc.status.Unsent? && doc.retryCount == 0
    ensures Inv(x.(w := x.w.(docs := x.w.docs[oid := doc])))
  {
    var w' := x.w.(docs := x.w.docs[oid := doc]);
    forall o
      ensures Ledger(w', o)
    {
      assert Ledger(x.w, o);
    }
  }

  lemma InvEvent(cfg: Config, x: System, e: Event)
    requires Inv(x)
    ensures Inv(Apply(cfg, x, e))
  {
    if Enabled(cfg, x, e) {
      match e
      case Create(oid, content, to) => InvCreate(x, oid, NewMessage(content, to, x.w.now));
      case Tick(ms) =>
        var w' := x.w.(now := x.w.now + ms);
        forall oid ensures Ledger(w', oid) { assert Ledger(x.w, oid); }
      case Expire => InvExpire(x);
      case Find(found) =>
      case Send => InvSend(x);
      case Consume(accepted) => InvConsume(cfg, x, accepted);
      case Sweep(found) => InvSweep(x, found);
    }
  }

  lemma InvRun(cfg: Config, x: System, run: seq<Event>)
    requires Inv(x)
    ensures Inv(Exec(Events(cfg), x, run))
  {
    forall x, e | Inv(x) ensures Inv(Events(cfg)(x, e)) {
      InvEvent(cfg, x, e);
    }
    Keeps(Events(cfg), (x: System) => Inv(x), x, run);
  }

  // ---- the theorems

  /** In every run each message has at most one copy and at most one delivery, and its status says which. */
  lemma ExactlyOneCopy(cfg: Config, run: seq<Event>, oid: ObjectId)
    requires oid in After(cfg, run).w.docs
    ensures var w := After(cfg, run).w;
            var copies, delivered := Copies(w, oid), Count(w.calls, SuccessFor(oid));
            && copies <= 1 && delivered <= 1
            && (w.docs[oid].status.Unsent? ==> copies == 0 && w.docs[oid].retryCount == 0)
            && (w.docs[oid].status.Processing? ==> copies == 1)
            && (w.docs[oid].status.Sent? ==> copies == 0)
            && (w.docs[oid].status.Sent? <==> delivered == 1)
            && !w.docs[oid].status.Duplicate?
  {
    InvRun(cfg, EMPTY, run);
    assert Ledger(After(cfg, run).w, oid);
  }

  /** A sent message is never touched again. */
  lemma {:induction false} SentForGood(cfg: Config, x: System, run: seq<Event>, oid: ObjectId)
    requires Inv(x) && oid in x.w.docs && x.w.docs[oid].status.Sent?
    ensures var w := Exec(Events(cfg), x, run).w;
            && oid in w.docs && w.docs[oid] == x.w.docs[oid]
            && Count(w.calls, CallFor(oid)) == Count(x.w.calls, CallFor(oid))
    decreases |run|
  {
    if run != [] {
      SentStays(cfg, x, run[0], oid);
      InvEvent(cfg, x, run[0]);
      SentForGood(cfg, Apply(cfg, x, run[0]), run[1..], oid);
    }
  }

  lemma SentStays(cfg: Config, x: System, e: Event, oid: ObjectId)
    requires Inv(x) && oid in x.w.docs && x.w.docs[oid].status.Sent?
    ensures var w := Apply(cfg, x, e).w;
            && oid in w.docs && w.docs[oid] == x.w.docs[oid]
            && Count(w.calls, CallFor(oid)) == Count(x.w.calls, CallFor(oid))
  {
    if Enabled(cfg, x, e) {
      if e.Consume? {
        HeadStatus(x);
        var id := HeadId(x.w);
        HandledIsOutcome(x.w, id, e.accepted, cfg.maxRetries);
        CountAppend(x.w.calls, Call(id, x.w.docs[id].content, x.w.docs[id].to, x.w.now, e.accepted), CallFor(oid));
      } else if e.Sweep? {
        RecoverAllSweeps(x.w, e.found, RELIABLE);
      }
    }
  }
}
