/** The adapters, as objects whose contents change in place.  Every port call takes
    the reply it is to get; an error leaves the caller only the fact that it failed. */
module Adapters {
  import opened Messages

  class MessageRepository {
    var docs: Docs

    /** An unordered query: any enumeration of the matching documents may come back. */
    method FindUnsentMessages(limit: nat, reply: Reply) returns (ok: bool, batch: seq<Entry>)
      ensures ok == reply.Ok?
      ensures if ok then IsUnsentBatch(docs, batch, limit) else batch == []
    {
      ok, batch := reply.Ok?, [];
      if !ok {
        return;
      }
      var rest := docs.Keys;
      while rest != {} && (limit == 0 || |batch| < limit)
        invariant rest <= docs.Keys
        invariant Distinct(batch) && Snapshots(docs, batch)
        invariant forall i :: 0 <= i < |batch| ==> batch[i].doc.status.Unsent? && batch[i].oid !in rest
        invariant limit != 0 ==> |batch| <= limit
        invariant forall oid :: oid in docs.Keys - rest && docs[oid].status.Unsent? ==> Listed(batch, oid)
        decreases rest
      {
        var oid :| oid in rest;
        rest := rest - {oid};
        if docs[oid].status.Unsent? {
          batch := Append(batch, Entry(oid, docs[oid]));
        }
      }
    }

    method FindStaleProcessingMessages(now: nat, reply: Reply) returns (ok: bool, batch: seq<Entry>)
      ensures ok == reply.Ok?
      ensures if ok then IsStaleBatch(docs, batch, now) else batch == []
    {
      ok, batch := reply.Ok?, [];
      if !ok {
        return;
      }
      var rest := docs.Keys;
      while rest != {}
        invariant rest <= docs.Keys
        invariant Distinct(batch) && Snapshots(docs, batch)
        invariant forall i :: 0 <= i < |batch| ==>
                                && batch[i].oid !in rest
                                && batch[i].doc.status.Processing? && IsStale(batch[i].doc, now)
        invariant forall oid :: oid in docs.Keys - rest && docs[oid].status.Processing? && IsStale(docs[oid], now)
                                ==> Listed(batch, oid)
        decreases rest
      {
        var oid :| oid in rest;
        rest := rest - {oid};
        if docs[oid].status.Processing? && IsStale(docs[oid], now) {
          batch := Append(batch, Entry(oid, docs[oid]));
        }
      }
    }

    /** An id that is taken is an error, and the document that has it stays as it is. */
    method CreateMessage(oid: ObjectId, msg: Message, reply: Reply) returns (ok: bool)
      modifies this
      ensures ok == (reply.Ok? && oid !in old(docs))
      ensures docs == if reply.Took() && oid !in old(docs) then old(docs)[oid := msg] else old(docs)
    {
      ok := reply.Ok? && oid !in docs;
      if reply.Took() && oid !in docs {
        docs := docs[oid := msg];
      }
    }

    method GetByID(oid: ObjectId, reply: Reply) returns (ok: bool, found: seq<Message>)
      ensures ok == reply.Ok?
      ensures found == if ok && oid in docs then [docs[oid]] else []
    {
      ok := reply.Ok?;
      found := if ok && oid in docs then [docs[oid]] else [];
    }

    /** Matching no document is not an error. */
    method UpdateStatus(oid: ObjectId, status: Status, now: nat, reply: Reply) returns (ok: bool)
      modifies this
      ensures ok == reply.Ok?
      ensures docs == if reply.Took() then SetStatus(old(docs), oid, status, now) else old(docs)
      ensures reply.Took() && oid in docs ==> docs[oid].status == status && docs[oid].updatedAt == now
    {
      if reply.Took() && oid in docs {
        docs := docs[oid := docs[oid].(status := status, updatedAt := now)];
      }
      ok := reply.Ok?;
    }

    method IncrementRetryCount(oid: ObjectId, now: nat, reply: Reply) returns (ok: bool)
      modifies this
      ensures ok == reply.Ok?
      ensures docs == if reply.Took() then CountRetry(old(docs), oid, now) else old(docs)
      ensures reply.Took() && oid in old(docs) ==>
                && oid in docs && docs[oid].retryCount == old(docs)[oid].retryCount + 1
                && docs[oid].updatedAt == now && docs[oid].status == old(docs)[oid].status
    {
      if reply.Took() && oid in docs {
        docs := docs[oid := docs[oid].(retryCount := docs[oid].retryCount + 1, updatedAt := now)];
      }
      ok := reply.Ok?;
    }
  }

  function Append(batch: seq<Entry>, e: Entry): (r: seq<Entry>)
    ensures forall oid :: Listed(r, oid) <==> Listed(batch, oid) || oid == e.oid
    ensures r == batch + [e]
  {
    var r := batch + [e];
    assert forall i :: 0 <= i < |batch| ==> r[i] == batch[i];
    assert r[|batch|] == e;
    r
  }

  class MessageQueue {
    var main: seq<Queued>
    var retry: seq<Queued>
    var dlq: seq<Body>

    method PublishMessage(msg: QueueMessage, now: nat, reply: Reply) returns (ok: bool)
      modifies this`main
      ensures ok == reply.Ok?
      ensures main == if reply.Took() then old(main) + [Queued(Json(msg), now)] else old(main)
    {
      if reply.Took() {
        main := main + [Queued(Json(msg), now)];
      }
      ok := reply.Ok?;
    }

    method MoveToDeadLetter(body: Body, reply: Reply) returns (ok: bool)
      modifies this`dlq
      ensures ok == reply.Ok?
      ensures dlq == if reply.Took() then old(dlq) + [body] else old(dlq)
    {
      if reply.Took() {
        dlq := dlq + [body];
      }
      ok := reply.Ok?;
    }

    method MoveToRetryQueue(body: Body, now: nat, reply: Reply) returns (ok: bool)
      modifies this`retry
      ensures ok == reply.Ok?
      ensures retry == if reply.Took() then old(retry) + [Queued(body, now)] else old(retry)
    {
      if reply.Took() {
        retry := retry + [Queued(body, now)];
      }
      ok := reply.Ok?;
    }
  }

  class IdempotencyService {
    var inbox: map<MessageId, nat>

    method IsProcessed(id: MessageId, now: nat, reply: Reply) returns (ok: bool, processed: bool)
      ensures ok == reply.Ok?
      ensures processed <==> ok && id in inbox && now < inbox[id]
    {
      ok := reply.Ok?;
      processed := ok && id in inbox && now < inbox[id];
    }

    method MarkAsProcessed(id: MessageId, now: nat, reply: Reply) returns (ok: bool)
      modifies this
      ensures ok == reply.Ok?
      ensures inbox == if reply.Took() then old(inbox)[id := now + INBOX_TTL] else old(inbox)
    {
      if reply.Took() {
        inbox := inbox[id := now + INBOX_TTL];
      }
      ok := reply.Ok?;
    }
  }

  class WebhookClient {
    var calls: seq<Call>

    method SendMessage(oid: ObjectId, content: string, to: string, now: nat, reply: Reply) returns (ok: bool)
      modifies this
      ensures ok == reply.Ok?
      ensures calls == old(calls) + [Call(oid, content, to, now, ok)]
    {
      ok := reply.Ok?;
      calls := calls + [Call(oid, content, to, now, ok)];
    }
  }
}
