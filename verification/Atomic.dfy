/** The system with every handler atomic: one scheduler runner, one consumer, one monitor,
    the sender the only publisher, and no fault but a webhook error. */
module Atomic {
  import opened Messages
  import opened Delivery
  import opened Runs

  /** The stores, and what the scheduler runner found and has still to publish. */
  datatype System = System(w: World, batch: seq<Entry>)

  datatype Event =
    | Create(oid: ObjectId, content: string, to: string)
    | Tick(ms: nat)
    | Expire
    | Find(found: seq<Entry>)
    | Send
    | Consume(accepted: bool)
    | Sweep(found: seq<Entry>)

  const EMPTY: System := System(World(0, map[], [], [], [], map[], []), [])

  /** No call fails but, perhaps, the webhook. */
  function Smooth(accepted: bool): Script {
    Script(Ok, Ok, if accepted then Ok else Refused, Ok, Ok, Ok, Ok, Ok, Ok, Ok)
  }

  ghost predicate Enabled(cfg: Config, x: System, e: Event) {
    match e
    case Create(oid, _, _) => oid !in x.w.docs
    case Tick(_) => true
    case Expire => x.w.retry != [] && x.w.retry[0].since + RETRY_TTL <= x.w.now
    case Find(found) => x.batch == [] && IsUnsentBatch(x.w.docs, found, cfg.batchSize)
    case Send => x.batch != []
    case Consume(_) => x.w.main != []
    case Sweep(found) => IsStaleBatch(x.w.docs, found, x.w.now)
  }

  /** The head of the main queue acked and handled. */
  function Handled(w: World, accepted: bool, maxRetries: int): World
    requires w.main != []
  {
    Finish(w.(main := w.main[1..]), Opening(w.main[0].body), Smooth(accepted), maxRetries).0
  }

  function Expired(w: World): World
    requires w.retry != []
  {
    w.(retry := w.retry[1..], main := w.main + [Queued(w.retry[0].body, w.now)])
  }

  ghost function Do(cfg: Config, x: System, e: Event): System
    requires Enabled(cfg, x, e)
  {
    var w := x.w;
    match e
    case Create(oid, content, to) => x.(w := w.(docs := w.docs[oid := NewMessage(content, to, w.now)]))
    case Tick(ms) => x.(w := w.(now := w.now + ms))
    case Expire => x.(w := Expired(w))
    case Find(found) => x.(batch := found)
    case Send => System(SendItem(w, x.batch[0], RELIABLE(x.batch[0].oid)), x.batch[1..])
    case Consume(accepted) => x.(w := Handled(w, accepted, cfg.maxRetries))
    case Sweep(found) => x.(w := RecoverAll(w, found, RELIABLE))
  }

  ghost function Apply(cfg: Config, x: System, e: Event): System {
    if Enabled(cfg, x, e) then Do(cfg, x, e) else x
  }

  ghost function Events(cfg: Config): (System, Event) -> System {
    (x, e) => Apply(cfg, x, e)
  }

  ghost function After(cfg: Config, run: seq<Event>): System {
    Exec(Events(cfg), EMPTY, run)
  }

  // ---- what handling the head of the main queue comes to

  /** The five outcomes of handling a copy of a stored message, written out. */
  function Outcome(w: World, oid: ObjectId, body: Body, accepted: bool, maxRetries: int): World
    requires oid in w.docs
  {
    var doc := w.docs[oid];
    var call := Call(oid, doc.content, doc.to, w.now, accepted);
    if InInbox(w, Hex(oid)) then
      w.(docs := w.docs[oid := doc.(status := Duplicate, updatedAt := w.now)])
    else if doc.retryCount >= maxRetries || IsStale(doc, w.now) then
      w.(docs := w.docs[oid := doc.(status := Failed, updatedAt := w.now)], dlq := w.dlq + [body])
    else if accepted then
      w.(docs := w.docs[oid := doc.(status := Sent, updatedAt := w.now)],
         calls := w.calls + [call], inbox := w.inbox[Hex(oid) := w.now + INBOX_TTL])
    else
      var tried := doc.(retryCount := doc.retryCount + 1, updatedAt := w.now);
      if tried.retryCount >= maxRetries then
        w.(docs := w.docs[oid := tried.(status := Failed)], calls := w.calls + [call], dlq := w.dlq + [body])
      else
        w.(docs := w.docs[oid := tried.(status := Processing)], calls := w.calls + [call],
           retry := w.retry + [Queued(body, w.now)])
  }

  /** Ten port calls end to end come to one of the five outcomes. */
  lemma HandledIsOutcome(w: World, oid: ObjectId, accepted: bool, maxRetries: int)
    requires w.main != [] && w.main[0].body.Names(oid) && oid in w.docs
    ensures Handled(w, accepted, maxRetries)
         == Outcome(w.(main := w.main[1..]), oid, w.main[0].body, accepted, maxRetries)
  {
    var w0, body, script := w.(main := w.main[1..]), w.main[0].body, Smooth(accepted);
    var doc := w.docs[oid];
    Unroll(w0, CheckInbox(body.msg), script, maxRetries);
    if InInbox(w0, Hex(oid)) {
      Unroll(w0, SetDuplicate(oid), script, maxRetries);
    } else {
      Unroll(w0, Load(body, oid), script, maxRetries);
      Unroll(w0, Gate(body, oid, doc), script, maxRetries);
      if !ShouldProcess(doc, maxRetries, w.now).Proceed? {
        BuryRuns(w0, body, oid, script, maxRetries);
      } else {
        Unroll(w0, Pc.Send(body, oid, doc), script, maxRetries);
        var w1 := w0.(calls := w0.calls + [Call(oid, doc.content, doc.to, w0.now, accepted)]);
        if accepted {
          Unroll(w1, MarkInbox(oid), script, maxRetries);
          Unroll(w1.(inbox := w1.inbox[Hex(oid) := w1.now + INBOX_TTL]), SetSent(oid), script, maxRetries);
        } else {
          RetryRuns(w1, body, oid, script, maxRetries);
        }
      }
    }
  }

  lemma BuryRuns(w: World, body: Body, oid: ObjectId, script: Script, maxRetries: int)
    requires oid in w.docs && script.moveToDeadLetter.Ok? && script.finalStatus.Ok?
    ensures Finish(w, Bury(body, oid), script, maxRetries).0
         == w.(dlq := w.dlq + [body], docs := SetStatus(w.docs, oid, Failed, w.now))
  {
    Unroll(w, Bury(body, oid), script, maxRetries);
    Unroll(w.(dlq := w.dlq + [body]), SetFailed(oid), script, maxRetries);
  }

  lemma RetryRuns(w: World, body: Body, oid: ObjectId, script: Script, maxRetries: int)
    requires oid in w.docs && script == Smooth(false)
    ensures Finish(w, Increment(body, oid), script, maxRetries).0
         == var tried := w.docs[oid].(retryCount := w.docs[oid].retryCount + 1, updatedAt := w.now);
            if tried.retryCount >= maxRetries then
              w.(docs := w.docs[oid := tried.(status := Failed)], dlq := w.dlq + [body])
            else
              w.(docs := w.docs[oid := tried.(status := Processing)], retry := w.retry + [Queued(body, w.now)])
  {
    Unroll(w, Increment(body, oid), script, maxRetries);
    var w1 := w.(docs := CountRetry(w.docs, oid, w.now));
    Unroll(w1, SetProcessing(body, oid), script, maxRetries);
    var w2 := w1.(docs := SetStatus(w1.docs, oid, Processing, w.now));
    Unroll(w2, Reload(body, oid), script, maxRetries);
    if w2.docs[oid].retryCount >= maxRetries {
      BuryRuns(w2, body, oid, script, maxRetries);
    } else {
      Unroll(w2, Requeue(body, oid), script, maxRetries);
    }
  }
}
