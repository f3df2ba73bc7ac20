/** The values the services exchange: stored messages, queue copies, and the
    stores they live in.  Time is counted in whole milliseconds. */
module Messages {
  const RETRY_TTL: nat := 10_000         // x-message-ttl of the retry queue
  const STALE_AFTER: nat := 240_000      // four minutes, for the gate and for the monitor
  const INBOX_TTL: nat := 86_400_000     // 24 hours

  type ObjectId = nat

  /** The id text of a queue message: the canonical hex form of an ObjectID, or anything else. */
  datatype MessageId = Hex(oid: ObjectId) | NotHex(text: string)

  datatype Status = Unsent | Processing | Sent | Failed | Duplicate

  datatype Message = Message(
    to: string, content: string, status: Status, retryCount: nat, createdAt: nat, updatedAt: nat)

  type Docs = map<ObjectId, Message>

  datatype QueueMessage = QueueMessage(id: MessageId, content: string, to: string, retry: nat)

  /** A delivery body: text that decodes to a queue message, or text that does not. */
  datatype Body = Json(msg: QueueMessage) | Malformed(text: string) {
    predicate Names(oid: ObjectId) {
      Json? && msg.id == Hex(oid)
    }
  }

  /** A copy in the main or the retry queue, with the time it was enqueued. */
  datatype Queued = Queued(body: Body, since: nat)

  function Naming(oid: ObjectId): Queued -> bool {
    (x: Queued) => x.body.Names(oid)
  }

  /** A webhook request made for document `oid`, and whether a success came back. */
  datatype Call = Call(oid: ObjectId, content: string, to: string, at: nat, ok: bool)

  /** A document as a query returned it. */
  datatype Entry = Entry(oid: ObjectId, doc: Message)

  /** What a port call does: it takes effect and says so, it does not take effect,
      or it takes effect and its reply is lost, so that the caller sees an error. */
  datatype Reply = Ok | Refused | ReplyLost {
    predicate Took() {
      !Refused?
    }
  }

  datatype Config = Config(maxRetries: int, batchSize: nat)

  /** Every store the services share. */
  datatype World = World(
    now: nat,
    docs: Docs,
    main: seq<Queued>,
    retry: seq<Queued>,
    dlq: seq<Body>,
    inbox: map<MessageId, nat>,    // id -> instant at which the key expires
    calls: seq<Call>)

  // ---- the collection

  function SetStatus(docs: Docs, oid: ObjectId, status: Status, now: nat): Docs {
    if oid in docs then docs[oid := docs[oid].(status := status, updatedAt := now)] else docs
  }

  function CountRetry(docs: Docs, oid: ObjectId, now: nat): Docs {
    if oid in docs
    then docs[oid := docs[oid].(retryCount := docs[oid].retryCount + 1, updatedAt := now)]
    else docs
  }

  /** The document a new message starts as. */
  function NewMessage(content: string, to: string, now: nat): Message {
    Message(to, content, Unsent, 0, now, now)
  }

  ghost predicate Distinct(batch: seq<Entry>) {
    forall i, j :: 0 <= i < j < |batch| ==> batch[i].oid != batch[j].oid
  }

  ghost predicate Listed(batch: seq<Entry>, oid: ObjectId) {
    exists i :: 0 <= i < |batch| && batch[i].oid == oid
  }

  ghost predicate Snapshots(docs: Docs, batch: seq<Entry>) {
    forall i :: 0 <= i < |batch| ==> batch[i].oid in docs && docs[batch[i].oid] == batch[i].doc
  }

  /** `batch` is an answer to "unsent messages, at most `limit` of them, in any order";
      limit 0 means no limit. */
  ghost predicate IsUnsentBatch(docs: Docs, batch: seq<Entry>, limit: nat) {
    && Distinct(batch) && Snapshots(docs, batch)
    && (forall i :: 0 <= i < |batch| ==> batch[i].doc.status.Unsent?)
    && (limit != 0 ==> |batch| <= limit)
    && (limit == 0 || |batch| < limit ==>
          forall oid :: oid in docs && docs[oid].status.Unsent? ==> Listed(batch, oid))
  }

  predicate IsStale(doc: Message, now: nat) {
    doc.updatedAt + STALE_AFTER < now
  }

  /** `batch` is an answer to "every message in processing that is stale", in any order. */
  ghost predicate IsStaleBatch(docs: Docs, batch: seq<Entry>, now: nat) {
    && Distinct(batch) && Snapshots(docs, batch)
    && (forall i :: 0 <= i < |batch| ==> batch[i].doc.status.Processing? && IsStale(batch[i].doc, now))
    && (forall oid :: oid in docs && docs[oid].status.Processing? && IsStale(docs[oid], now) ==> Listed(batch, oid))
  }

  // ---- the gate

  datatype Verdict = Proceed | RetriesSpent | TooOld

  /** The retry limit is looked at before the age. */
  function ShouldProcess(doc: Message, maxRetries: int, now: nat): Verdict {
    if doc.retryCount >= maxRetries then RetriesSpent
    else if IsStale(doc, now) then TooOld
    else Proceed
  }

  // ---- the bodies the services publish

  function OutboxBody(e: Entry): Body {
    Json(QueueMessage(Hex(e.oid), e.doc.content, e.doc.to, e.doc.retryCount))
  }

  /** The monitor's body leaves the recipient out. */
  function RecoveryBody(e: Entry): Body {
    Json(QueueMessage(Hex(e.oid), e.doc.content, "", e.doc.retryCount))
  }

  predicate InInbox(w: World, id: MessageId) {
    id in w.inbox && w.now < w.inbox[id]
  }

  // ---- what has happened to a message

  ghost predicate Delivered(calls: seq<Call>, oid: ObjectId) {
    exists k :: 0 <= k < |calls| && calls[k].oid == oid && calls[k].ok
  }

  ghost predicate DeadLettered(dlq: seq<Body>, oid: ObjectId) {
    exists k :: 0 <= k < |dlq| && dlq[k].Names(oid)
  }
}
