/** The services, written against the adapters and proved against the step functions. */
module Services {
  import opened Messages
  import opened Delivery
  import opened Adapters
  import opened Conduct

  /** The four stores a service talks to. */
  class Ports {
    const repository: MessageRepository
    const queue: MessageQueue
    const idempotencyService: IdempotencyService
    const webhookClient: WebhookClient

    constructor (repository: MessageRepository, queue: MessageQueue,
                 idempotencyService: IdempotencyService, webhookClient: WebhookClient)
      ensures this.repository == repository && this.queue == queue
      ensures this.idempotencyService == idempotencyService && this.webhookClient == webhookClient
    {
      this.repository, this.queue := repository, queue;
      this.idempotencyService, this.webhookClient := idempotencyService, webhookClient;
    }

    ghost function Stores(): set<object> {
      {repository, queue, idempotencyService, webhookClient}
    }

    ghost function View(now: nat): World
      reads Stores()
    {
      World(now, repository.docs, queue.main, queue.retry, queue.dlq,
            idempotencyService.inbox, webhookClient.calls)
    }
  }

  class ProcessorService {
    const maxRetries: int
    const ports: Ports

    constructor (maxRetries: int, ports: Ports)
      ensures this.maxRetries == maxRetries && this.ports == ports
    {
      this.maxRetries, this.ports := maxRetries, ports;
    }

    /** The consumer's loop, for as many turns as there are messages: one at a time, and an
        error is only logged. */
    method Start(now: nat, turns: seq<Turn>)
      modifies ports.Stores()
      ensures ports.View(now) == ServeAll(old(ports.View(now)), turns, maxRetries)
      ensures NamesStored(old(ports.repository.docs), old(ports.queue.main)) ==>
                ports.queue.main == old(ports.queue.main)[Min(Acked(turns), |old(ports.queue.main)|)..]
    {
      if NamesStored(ports.repository.docs, ports.queue.main) {
        ServesEveryTurn(ports.View(now), turns, maxRetries);
      }
      var i := 0;
      while i < |turns| && ports.queue.main != []
        invariant i <= |turns|
        invariant ServeAll(ports.View(now), turns[i..], maxRetries) == ServeAll(old(ports.View(now)), turns, maxRetries)
      {
        assert turns[i..][0] == turns[i] && turns[i..][1..] == turns[i + 1..];
        var ret := ProcessMessage(now, turns[i]);
        if ret.Panic? {
          return;
        }
        i := i + 1;
      }
    }

    method ProcessMessage(now: nat, turn: Turn) returns (ret: Return)
      requires ports.queue.main != []
      modifies ports.Stores()
      ensures (ports.View(now), ret) == Serve(old(ports.View(now)), turn, maxRetries)
    {
      var body := ports.queue.main[0].body;
      if turn.ack.Took() {
        ports.queue.main := ports.queue.main[1..];
      }
      ret := HandleMessageProcessing(body, now, turn.script);
    }

    method HandleMessageProcessing(body: Body, now: nat, script: Script) returns (ret: Return)
      modifies ports.Stores()
      ensures (ports.View(now), ret) == Finish(old(ports.View(now)), Opening(body), script, maxRetries)
    {
      if body.Malformed? {
        ret := HandleMalformedMessage(body, now, script);
        return;
      }
      ghost var w := ports.View(now);
      var queueMsg := body.msg;
      var ok, processed := ports.idempotencyService.IsProcessed(queueMsg.id, now, script.isProcessed);
      if !ok {
        return Error;
      }
      if processed {
        ret := HandleDuplicateMessage(queueMsg, now, script);
        return;
      }
      if queueMsg.id.NotHex? {
        ret := HandleInvalidID(body, now, script);
        return;
      }
      var oid := queueMsg.id.oid;
      assert Finish(w, Opening(body), script, maxRetries) == Finish(w, Load(body, oid), script, maxRetries);
      var got, found := ports.repository.GetByID(oid, script.getByID);
      if !got {
        assert Finish(w, Idle(Error), script, maxRetries) == (w, Error);
        return Error;
      }
      if found == [] {
        assert Finish(w, Idle(Panic), script, maxRetries) == (w, Panic);
        return Panic;
      }
      var msg := found[0];
      assert Finish(w, Load(body, oid), script, maxRetries) == Finish(w, Gate(body, oid, msg), script, maxRetries);
      var verdict := ShouldProcess(msg, maxRetries, now);
      if verdict.TooOld? {
        ret := HandleStaleMessage(body, oid, now, script);
        return;
      }
      if verdict.RetriesSpent? {
        ret := HandleMaxRetriesReached(body, oid, now, script);
        return;
      }
      assert Finish(w, Gate(body, oid, msg), script, maxRetries) == Finish(w, Send(body, oid, msg), script, maxRetries);
      var sent := ports.webhookClient.SendMessage(oid, msg.content, msg.to, now, script.sendMessage);
      if !sent {
        ret := HandleWebhookError(body, oid, now, script);
        return;
      }
      ret := HandleSuccessfulProcessing(oid, now, script);
    }

    method HandleMalformedMessage(body: Body, now: nat, script: Script) returns (ret: Return)
      modifies ports.queue
      ensures (ports.View(now), ret) == Finish(old(ports.View(now)), BuryPoison(body), script, maxRetries)
    {
      var _ := ports.queue.MoveToDeadLetter(body, script.moveToDeadLetter);
      ret := Error;
    }

    method HandleInvalidID(body: Body, now: nat, script: Script) returns (ret: Return)
      modifies ports.queue
      ensures (ports.View(now), ret) == Finish(old(ports.View(now)), BuryPoison(body), script, maxRetries)
    {
      var _ := ports.queue.MoveToDeadLetter(body, script.moveToDeadLetter);
      ret := Error;
    }

    /** A failed status update is only logged. */
    method HandleDuplicateMessage(queueMsg: QueueMessage, now: nat, script: Script) returns (ret: Return)
      modifies ports.repository
      ensures (ports.View(now), ret) ==
              Finish(old(ports.View(now)),
                   if queueMsg.id.Hex? then SetDuplicate(queueMsg.id.oid) else Idle(Error), script, maxRetries)
    {
      if queueMsg.id.NotHex? {
        return Error;
      }
      var _ := ports.repository.UpdateStatus(queueMsg.id.oid, Duplicate, now, script.finalStatus);
      ret := Nil;
    }

    /** The tail the three giving-up paths share; neither error is more than logged. */
    method GiveUp(body: Body, oid: ObjectId, now: nat, script: Script)
      modifies ports.queue, ports.repository
      ensures (ports.View(now), Error) == Finish(old(ports.View(now)), Bury(body, oid), script, maxRetries)
    {
      ghost var w := ports.View(now);
      var _ := ports.queue.MoveToDeadLetter(body, script.moveToDeadLetter);
      assert Finish(w, Bury(body, oid), script, maxRetries)
          == Finish(ports.View(now), SetFailed(oid), script, maxRetries);
      var _ := ports.repository.UpdateStatus(oid, Failed, now, script.finalStatus);
      assert Finish(ports.View(now), Idle(Error), script, maxRetries) == (ports.View(now), Error);
    }

    method HandleMaxRetriesReached(body: Body, oid: ObjectId, now: nat, script: Script) returns (ret: Return)
      modifies ports.queue, ports.repository
      ensures (ports.View(now), ret) == Finish(old(ports.View(now)), Bury(body, oid), script, maxRetries)
    {
      GiveUp(body, oid, now, script);
      ret := Error;
    }

    method HandleStaleMessage(body: Body, oid: ObjectId, now: nat, script: Script) returns (ret: Return)
      modifies ports.queue, ports.repository
      ensures (ports.View(now), ret) == Finish(old(ports.View(now)), Bury(body, oid), script, maxRetries)
    {
      GiveUp(body, oid, now, script);
      ret := Error;
    }

    method HandleWebhookError(body: Body, oid: ObjectId, now: nat, script: Script) returns (ret: Return)
      modifies ports.queue, ports.repository
      ensures (ports.View(now), ret) == Finish(old(ports.View(now)), Increment(body, oid), script, maxRetries)
    {
      ghost var w := ports.View(now);
      var counted := ports.repository.IncrementRetryCount(oid, now, script.incrementRetryCount);
      ghost var w1 := ports.View(now);
      if !counted {
        assert Finish(w1, Idle(Error), script, maxRetries) == (w1, Error);
        return Error;
      }
      assert Finish(w, Increment(body, oid), script, maxRetries)
          == Finish(w1, SetProcessing(body, oid), script, maxRetries);
      var updated := ports.repository.UpdateStatus(oid, Processing, now, script.setProcessing);
      ghost var w2 := ports.View(now);
      if !updated {
        assert Finish(w2, Idle(Error), script, maxRetries) == (w2, Error);
        return Error;
      }
      assert Finish(w1, SetProcessing(body, oid), script, maxRetries)
          == Finish(w2, Reload(body, oid), script, maxRetries);
      ret := RetryOrGiveUp(body, oid, now, script);
    }

    /** The rest of it: the document is read again for its new count. */
    method RetryOrGiveUp(body: Body, oid: ObjectId, now: nat, script: Script) returns (ret: Return)
      modifies ports.queue, ports.repository
      ensures (ports.View(now), ret) == Finish(old(ports.View(now)), Reload(body, oid), script, maxRetries)
    {
      ghost var w := ports.View(now);
      var got, found := ports.repository.GetByID(oid, script.reload);
      if !got {
        assert Finish(w, Idle(Error), script, maxRetries) == (w, Error);
        return Error;
      }
      if found == [] {
        assert Finish(w, Idle(Panic), script, maxRetries) == (w, Panic);
        return Panic;
      }
      if found[0].retryCount >= maxRetries {
        assert Finish(w, Reload(body, oid), script, maxRetries) == Finish(w, Bury(body, oid), script, maxRetries);
        GiveUp(body, oid, now, script);
        return Error;
      }
      assert Finish(w, Reload(body, oid), script, maxRetries) == Finish(w, Requeue(body, oid), script, maxRetries);
      var _ := ports.queue.MoveToRetryQueue(body, now, script.moveToRetryQueue);
      ret := Error;
      assert Finish(ports.View(now), Idle(ret), script, maxRetries) == (ports.View(now), ret);
    }

    method HandleSuccessfulProcessing(oid: ObjectId, now: nat, script: Script) returns (ret: Return)
      modifies ports.idempotencyService, ports.repository
      ensures (ports.View(now), ret) == Finish(old(ports.View(now)), MarkInbox(oid), script, maxRetries)
      ensures !script.markAsProcessed.Ok? ==> ret == Error && ports.repository.docs == old(ports.repository.docs)
      ensures ret == Nil <==> script.markAsProcessed.Ok? && script.finalStatus.Ok?
    {
      ghost var w := ports.View(now);
      var marked := ports.idempotencyService.MarkAsProcessed(Hex(oid), now, script.markAsProcessed);
      ghost var w1 := ports.View(now);
      if !marked {
        return Error;
      }
      assert Finish(w, MarkInbox(oid), script, maxRetries) == Finish(w1, SetSent(oid), script, maxRetries);
      var updated := ports.repository.UpdateStatus(oid, Sent, now, script.finalStatus);
      ret := if updated then Nil else Error;
    }

    /** One tick of the monitor.  The loop goes on after an item that fails. */
    method CheckStaleMessages(now: nat, find: Reply, replies: SweepReplies) returns (ok: bool, batch: seq<Entry>)
      modifies ports.Stores()
      ensures ok == find.Ok?
      ensures if ok then IsStaleBatch(old(ports.repository.docs), batch, now) else batch == []
      ensures ports.View(now) == RecoverAll(old(ports.View(now)), batch, replies)
    {
      ok, batch := ports.repository.FindStaleProcessingMessages(now, find);
      if !ok {
        return;
      }
      for i := 0 to |batch|
        invariant RecoverAll(ports.View(now), batch[i..], replies) == RecoverAll(old(ports.View(now)), batch, replies)
      {
        assert batch[i..][0] == batch[i] && batch[i..][1..] == batch[i + 1..];
        var _ := HandleStaleMessageRecovery(batch[i], now, replies(batch[i].oid));
      }
    }

    method HandleStaleMessageRecovery(e: Entry, now: nat, replies: ItemReplies) returns (ok: bool)
      modifies ports.Stores()
      ensures ports.View(now) == RecoverItem(old(ports.View(now)), e, replies)
      ensures ok == (replies.publish.Ok? && replies.update.Ok?)
    {
      var moved := ports.queue.MoveToDeadLetter(RecoveryBody(e), replies.publish);
      if !moved {
        return false;
      }
      ok := ports.repository.UpdateStatus(e.oid, Failed, now, replies.update);
    }
  }

  class SenderService {
    const batchSize: nat
    const ports: Ports

    constructor (batchSize: nat, ports: Ports)
      ensures this.batchSize == batchSize && this.ports == ports
    {
      this.batchSize, this.ports := batchSize, ports;
    }

    /** The store chooses the id. */
    method CreateMessage(oid: ObjectId, content: string, to: string, now: nat, reply: Reply) returns (ok: bool)
      modifies ports.Stores()
      ensures var w := old(ports.View(now));
              && ok == (reply.Ok? && oid !in w.docs)
              && ports.View(now) == if reply.Took() && oid !in w.docs
                                    then w.(docs := w.docs[oid := NewMessage(content, to, now)]) else w
      ensures ok ==>
                && oid in ports.repository.docs
                && var doc := ports.repository.docs[oid];
                   && doc.content == content && doc.to == to && doc.status.Unsent? && doc.retryCount == 0
                   && doc.createdAt == now && doc.updatedAt == now
    {
      ok := ports.repository.CreateMessage(oid, NewMessage(content, to, now), reply);
    }

    /** One tick of the scheduler.  The loop goes on after an item that fails. */
    method ProcessUnsentMessages(now: nat, find: Reply, replies: SweepReplies) returns (ok: bool, batch: seq<Entry>)
      modifies ports.Stores()
      ensures ok == find.Ok?
      ensures if ok then IsUnsentBatch(old(ports.repository.docs), batch, batchSize) else batch == []
      ensures ports.View(now) == SendAll(old(ports.View(now)), batch, replies)
    {
      ok, batch := ports.repository.FindUnsentMessages(batchSize, find);
      if !ok {
        return;
      }
      for i := 0 to |batch|
        invariant SendAll(ports.View(now), batch[i..], replies) == SendAll(old(ports.View(now)), batch, replies)
      {
        assert batch[i..][0] == batch[i] && batch[i..][1..] == batch[i + 1..];
        var _ := HandleMessage(batch[i], now, replies(batch[i].oid));
      }
    }

    method HandleMessage(e: Entry, now: nat, replies: ItemReplies) returns (ok: bool)
      modifies ports.Stores()
      ensures ports.View(now) == SendItem(old(ports.View(now)), e, replies)
      ensures ok == (replies.publish.Ok? && replies.update.Ok?)
    {
      var queueMsg := QueueMessage(Hex(e.oid), e.doc.content, e.doc.to, e.doc.retryCount);
      var published := ports.queue.PublishMessage(queueMsg, now, replies.publish);
      if !published {
        return false;
      }
      ok := ports.repository.UpdateStatus(e.oid, Processing, now, replies.update);
    }
  }
}
