/** One delivery, one outbox sweep and one stale sweep, as sequences of port calls. */
module Delivery {
  import opened Messages

  datatype Return = Nil | Error | Panic

  /** Where the consumer stands: each state but Idle and Gate is about to make one port call. */
  datatype Pc =
    | Idle(ret: Return)
    | CheckInbox(msg: QueueMessage)
    | BuryPoison(body: Body)
    | SetDuplicate(oid: ObjectId)
    | Load(body: Body, oid: ObjectId)
    | Gate(body: Body, oid: ObjectId, doc: Message)
    | Send(body: Body, oid: ObjectId, doc: Message)
    | MarkInbox(oid: ObjectId)
    | SetSent(oid: ObjectId)
    | Increment(body: Body, oid: ObjectId)
    | SetProcessing(body: Body, oid: ObjectId)
    | Reload(body: Body, oid: ObjectId)
    | Requeue(body: Body, oid: ObjectId)
    | Bury(body: Body, oid: ObjectId)
    | SetFailed(oid: ObjectId)

  function Opening(body: Body): Pc {
    match body
    case Json(msg) => CheckInbox(msg)
    case Malformed(_) => BuryPoison(body)
  }

  function WithStatus(w: World, oid: ObjectId, status: Status, reply: Reply): World {
    if reply.Took() then w.(docs := SetStatus(w.docs, oid, status, w.now)) else w
  }

  function WithDeadLetter(w: World, body: Body, reply: Reply): World {
    if reply.Took() then w.(dlq := w.dlq + [body]) else w
  }

  /** One port call of the consumer.  An error after the ack ends the delivery: the
      copy has been settled already, so the later Nack cannot put it back. */
  function Step(w: World, pc: Pc, reply: Reply, maxRetries: int): (World, Pc) {
    match pc
    case Idle(_) => (w, pc)
    case CheckInbox(msg) =>
      if !reply.Ok? then (w, Idle(Error))
      else if InInbox(w, msg.id) then (w, if msg.id.Hex? then SetDuplicate(msg.id.oid) else Idle(Error))
      else if msg.id.Hex? then (w, Load(Json(msg), msg.id.oid))
      else (w, BuryPoison(Json(msg)))
    case BuryPoison(body) => (WithDeadLetter(w, body, reply), Idle(Error))
    case SetDuplicate(oid) => (WithStatus(w, oid, Duplicate, reply), Idle(Nil))
    case Load(body, oid) =>
      if !reply.Ok? then (w, Idle(Error))
      else if oid !in w.docs then (w, Idle(Panic))
      else (w, Gate(body, oid, w.docs[oid]))
    case Gate(body, oid, doc) =>
      (w, if ShouldProcess(doc, maxRetries, w.now).Proceed? then Send(body, oid, doc) else Bury(body, oid))
    case Send(body, oid, doc) =>
      (w.(calls := w.calls + [Call(oid, doc.content, doc.to, w.now, reply.Ok?)]),
       if reply.Ok? then MarkInbox(oid) else Increment(body, oid))
    case MarkInbox(oid) =>
      (if reply.Took() then w.(inbox := w.inbox[Hex(oid) := w.now + INBOX_TTL]) else w,
       if reply.Ok? then SetSent(oid) else Idle(Error))
    case SetSent(oid) =>
      (WithStatus(w, oid, Sent, reply), Idle(if reply.Ok? then Nil else Error))
    case Increment(body, oid) =>
      (if reply.Took() then w.(docs := CountRetry(w.docs, oid, w.now)) else w,
       if reply.Ok? then SetProcessing(body, oid) else Idle(Error))
    case SetProcessing(body, oid) =>
      (WithStatus(w, oid, Processing, reply), if reply.Ok? then Reload(body, oid) else Idle(Error))
    case Reload(body, oid) =>
      if !reply.Ok? then (w, Idle(Error))
      else if oid !in w.docs then (w, Idle(Panic))
      else (w, if w.docs[oid].retryCount >= maxRetries then Bury(body, oid) else Requeue(body, oid))
    case Requeue(body, _) =>
      (if reply.Took() then w.(retry := w.retry + [Queued(body, w.now)]) else w, Idle(Error))
    case Bury(body, oid) => (WithDeadLetter(w, body, reply), SetFailed(oid))
    case SetFailed(oid) => (WithStatus(w, oid, Failed, reply), Idle(Error))
  }

  /** The reply each port call gets along one delivery; no path makes a call twice. */
  datatype Script = Script(
    isProcessed: Reply, getByID: Reply, sendMessage: Reply, markAsProcessed: Reply,
    incrementRetryCount: Reply, setProcessing: Reply, reload: Reply,
    moveToRetryQueue: Reply, moveToDeadLetter: Reply, finalStatus: Reply)
  {
    function At(pc: Pc): Reply {
      match pc
      case Idle(_) => Ok
      case CheckInbox(_) => isProcessed
      case BuryPoison(_) => moveToDeadLetter
      case SetDuplicate(_) => finalStatus
      case Load(_, _) => getByID
      case Gate(_, _, _) => Ok
      case Send(_, _, _) => sendMessage
      case MarkInbox(_) => markAsProcessed
      case SetSent(_) => finalStatus
      case Increment(_, _) => incrementRetryCount
      case SetProcessing(_, _) => setProcessing
      case Reload(_, _) => reload
      case Requeue(_, _) => moveToRetryQueue
      case Bury(_, _) => moveToDeadLetter
      case SetFailed(_) => finalStatus
    }
  }

  /** How many calls are still ahead at most. */
  function Ahead(pc: Pc): nat {
    match pc
    case Idle(_) => 0
    case CheckInbox(_) => 10
    case Load(_, _) => 9
    case Gate(_, _, _) => 8
    case Send(_, _, _) => 7
    case Increment(_, _) => 6
    case SetProcessing(_, _) => 5
    case Reload(_, _) => 4
    case Bury(_, _) => 3
    case MarkInbox(_) => 2
    case SetFailed(_) => 1
    case SetSent(_) => 1
    case Requeue(_, _) => 1
    case SetDuplicate(_) => 1
    case BuryPoison(_) => 1
  }

  /** The rest of a delivery that nothing interrupts. */
  function Finish(w: World, pc: Pc, script: Script, maxRetries: int): (World, Return)
    decreases Ahead(pc)
  {
    if pc.Idle? then (w, pc.ret)
    else
      var (w', pc') := Step(w, pc, script.At(pc), maxRetries);
      Finish(w', pc', script, maxRetries)
  }

  /** The next call of a delivery. */
  lemma Unroll(w: World, pc: Pc, script: Script, maxRetries: int)
    requires !pc.Idle?
    ensures var (w', pc') := Step(w, pc, script.At(pc), maxRetries);
            Finish(w, pc, script, maxRetries) == Finish(w', pc', script, maxRetries)
  {
  }

  /** One turn of the consumer's loop: the reply to the ack, and those to the calls after it. */
  datatype Turn = Turn(ack: Reply, script: Script)

  /** The head of the main queue is acked and handled; an ack that does not take effect leaves
      the copy with the broker. */
  function Serve(w: World, turn: Turn, maxRetries: int): (World, Return)
    requires w.main != []
  {
    Finish(if turn.ack.Took() then w.(main := w.main[1..]) else w, Opening(w.main[0].body), turn.script, maxRetries)
  }

  /** Turn after turn, until the queue is empty or a missing document brings the process down. */
  function ServeAll(w: World, turns: seq<Turn>, maxRetries: int): World
    decreases |turns|
  {
    if turns == [] || w.main == [] then w
    else
      var (w', ret) := Serve(w, turns[0], maxRetries);
      if ret.Panic? then w' else ServeAll(w', turns[1..], maxRetries)
  }

  lemma {:induction false} FinishKeepsMain(w: World, pc: Pc, script: Script, maxRetries: int)
    ensures Finish(w, pc, script, maxRetries).0.main == w.main
    decreases Ahead(pc)
  {
    if !pc.Idle? {
      var (w', pc') := Step(w, pc, script.At(pc), maxRetries);
      FinishKeepsMain(w', pc', script, maxRetries);
    }
  }

  /** The loop takes copies off the front of the main queue, in order, and no handler puts one back there. */
  lemma {:induction false} ServesInOrder(w: World, turns: seq<Turn>, maxRetries: int)
    ensures var main := ServeAll(w, turns, maxRetries).main;
            && |main| <= |w.main| && main == w.main[|w.main| - |main|..]
            && |w.main| - |main| <= |turns|
    decreases |turns|
  {
    if turns != [] && w.main != [] {
      FinishKeepsMain(if turns[0].ack.Took() then w.(main := w.main[1..]) else w,
                      Opening(w.main[0].body), turns[0].script, maxRetries);
      ServesInOrder(Serve(w, turns[0], maxRetries).0, turns[1..], maxRetries);
    }
  }

  /** The replies to the two calls made for one item of a sweep. */
  datatype ItemReplies = ItemReplies(publish: Reply, update: Reply)

  type SweepReplies = ObjectId -> ItemReplies

  // ---- the outbox sweep

  function Published(w: World, e: Entry, reply: Reply): World {
    if reply.Took() then w.(main := w.main + [Queued(OutboxBody(e), w.now)]) else w
  }

  function SendItem(w: World, e: Entry, r: ItemReplies): World {
    var w1 := Published(w, e, r.publish);
    if r.publish.Ok? then WithStatus(w1, e.oid, Processing, r.update) else w1
  }

  function SendAll(w: World, batch: seq<Entry>, replies: SweepReplies): World
    decreases |batch|
  {
    if batch == [] then w else SendAll(SendItem(w, batch[0], replies(batch[0].oid)), batch[1..], replies)
  }

  // ---- the stale sweep

  function RecoverItem(w: World, e: Entry, r: ItemReplies): World {
    var w1 := WithDeadLetter(w, RecoveryBody(e), r.publish);
    if r.publish.Ok? then WithStatus(w1, e.oid, Failed, r.update) else w1
  }

  function RecoverAll(w: World, batch: seq<Entry>, replies: SweepReplies): World
    decreases |batch|
  {
    if batch == [] then w else RecoverAll(RecoverItem(w, batch[0], replies(batch[0].oid)), batch[1..], replies)
  }

  const RELIABLE: SweepReplies := (_: ObjectId) => ItemReplies(Ok, Ok)
}
