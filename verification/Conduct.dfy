/** What a delivery returns under any replies, and how the consumer's loop goes on after it. */
module Conduct {
  import opened Messages
  import opened Delivery
  import opened Counting
  import D = Documents

  /** The first read of the document succeeds. */
  predicate Reads(w: World, body: Body, x: Script) {
    && body.Json? && body.msg.id.Hex? && x.isProcessed.Ok? && !InInbox(w, body.msg.id) && x.getByID.Ok?
  }

  /** The id is in the inbox, and it is known to be. */
  predicate Skips(w: World, body: Body, x: Script) {
    body.Json? && body.msg.id.Hex? && x.isProcessed.Ok? && InInbox(w, body.msg.id)
  }

  /** The gate lets the message through, the webhook accepts it, and both records of that are made. */
  predicate Succeeds(doc: Message, x: Script, maxRetries: int, now: nat) {
    && ShouldProcess(doc, maxRetries, now).Proceed?
    && x.sendMessage.Ok? && x.markAsProcessed.Ok? && x.finalStatus.Ok?
  }

  /** A delivery with an error path behind it never returns nil, nor panics while its document is stored. */
  lemma ErrorPathFails(w: World, body: Body, oid: ObjectId, x: Script, maxRetries: int)
    requires oid in w.docs
    ensures Finish(w, Increment(body, oid), x, maxRetries).1 == Error
  {
    Unroll(w, Increment(body, oid), x, maxRetries);
    if x.incrementRetryCount.Ok? {
      var w1 := w.(docs := CountRetry(w.docs, oid, w.now));
      Unroll(w1, SetProcessing(body, oid), x, maxRetries);
      if x.setProcessing.Ok? {
        var w2 := w1.(docs := SetStatus(w1.docs, oid, Processing, w.now));
        Unroll(w2, Reload(body, oid), x, maxRetries);
        if x.reload.Ok? {
          if w2.docs[oid].retryCount >= maxRetries {
            BuryFails(w2, body, oid, x, maxRetries);
          } else {
            Unroll(w2, Requeue(body, oid), x, maxRetries);
          }
        }
      }
    }
  }

  lemma BuryFails(w: World, body: Body, oid: ObjectId, x: Script, maxRetries: int)
    ensures Finish(w, Bury(body, oid), x, maxRetries).1 == Error
  {
    Unroll(w, Bury(body, oid), x, maxRetries);
    Unroll(WithDeadLetter(w, body, x.moveToDeadLetter), SetFailed(oid), x, maxRetries);
  }

  lemma SuccessReturns(w: World, oid: ObjectId, x: Script, maxRetries: int)
    ensures Finish(w, MarkInbox(oid), x, maxRetries).1
         == if x.markAsProcessed.Ok? && x.finalStatus.Ok? then Nil else Error
  {
    Unroll(w, MarkInbox(oid), x, maxRetries);
    if x.markAsProcessed.Ok? {
      Unroll(w.(inbox := w.inbox[Hex(oid) := w.now + INBOX_TTL]), SetSent(oid), x, maxRetries);
    }
  }

  lemma GateReturns(w: World, body: Body, oid: ObjectId, x: Script, maxRetries: int)
    requires oid in w.docs
    ensures Finish(w, Gate(body, oid, w.docs[oid]), x, maxRetries).1
         == if Succeeds(w.docs[oid], x, maxRetries, w.now) then Nil else Error
  {
    var doc := w.docs[oid];
    Unroll(w, Gate(body, oid, doc), x, maxRetries);
    if ShouldProcess(doc, maxRetries, w.now).Proceed? {
      var w1 := w.(calls := w.calls + [Call(oid, doc.content, doc.to, w.now, x.sendMessage.Ok?)]);
      Unroll(w, Send(body, oid, doc), x, maxRetries);
      if x.sendMessage.Ok? {
        SuccessReturns(w1, oid, x, maxRetries);
      } else {
        ErrorPathFails(w1, body, oid, x, maxRetries);
      }
    } else {
      BuryFails(w, body, oid, x, maxRetries);
    }
  }

  /** For all replies: a delivery brings the process down if and only if a read succeeds and finds no
      document; it returns nil if and only if it skips a duplicate, or delivers the message and records
      both the mark and the status; in all other cases it returns an error. */
  lemma ReturnIs(w: World, body: Body, x: Script, maxRetries: int)
    ensures var ret := Finish(w, Opening(body), x, maxRetries).1;
            && (ret.Panic? <==> Reads(w, body, x) && body.msg.id.oid !in w.docs)
            && (ret.Nil? <==>
                  || Skips(w, body, x)
                  || (Reads(w, body, x) && body.msg.id.oid in w.docs
                      && Succeeds(w.docs[body.msg.id.oid], x, maxRetries, w.now)))
  {
    Unroll(w, Opening(body), x, maxRetries);
    if Skips(w, body, x) {
      Unroll(w, SetDuplicate(body.msg.id.oid), x, maxRetries);
    } else if Reads(w, body, x) {
      var oid := body.msg.id.oid;
      Unroll(w, Load(body, oid), x, maxRetries);
      if oid in w.docs {
        GateReturns(w, body, oid, x, maxRetries);
      }
    } else if body.Json? && body.msg.id.Hex? && x.isProcessed.Ok? {
      Unroll(w, Load(body, body.msg.id.oid), x, maxRetries);
    }
  }

  /** A body that cannot be decoded, or whose id is no hex and not in the inbox, goes to the dead-letter
      queue, if that publish takes effect, and nothing else happens. */
  lemma PoisonIsBuried(w: World, body: Body, x: Script, maxRetries: int)
    requires body.Malformed? || (body.msg.id.NotHex? && x.isProcessed.Ok? && !InInbox(w, body.msg.id))
    ensures var (w', ret) := Finish(w, Opening(body), x, maxRetries);
            && w' == w.(dlq := if x.moveToDeadLetter.Took() then w.dlq + [body] else w.dlq)
            && ret == Error
  {
    Unroll(w, Opening(body), x, maxRetries);
    if body.Json? {
      Unroll(w, BuryPoison(body), x, maxRetries);
    }
  }

  /** What a skipped copy leaves: the duplicate status, if that update takes effect, and nothing else. */
  lemma SkipWrites(w: World, body: Body, x: Script, maxRetries: int)
    requires Skips(w, body, x) && body.msg.id.oid in w.docs
    ensures var oid := body.msg.id.oid;
            var doc := w.docs[oid].(status := Duplicate, updatedAt := w.now);
            Finish(w, Opening(body), x, maxRetries)
            == (if x.finalStatus.Took() then w.(docs := w.docs[oid := doc]) else w, Nil)
  {
    Unroll(w, Opening(body), x, maxRetries);
    Unroll(w, SetDuplicate(body.msg.id.oid), x, maxRetries);
  }

  /** What a copy the gate refuses leaves: its dead letter and the failed status, each if its call takes effect,
      neither waiting for the other. */
  lemma RefusalWrites(w: World, body: Body, x: Script, maxRetries: int)
    requires Reads(w, body, x) && body.msg.id.oid in w.docs
    requires !ShouldProcess(w.docs[body.msg.id.oid], maxRetries, w.now).Proceed?
    ensures var oid := body.msg.id.oid;
            var doc := w.docs[oid].(status := Failed, updatedAt := w.now);
            Finish(w, Opening(body), x, maxRetries)
            == (w.(dlq := if x.moveToDeadLetter.Took() then w.dlq + [body] else w.dlq,
                   docs := if x.finalStatus.Took() then w.docs[oid := doc] else w.docs), Error)
  {
    var oid := body.msg.id.oid;
    Unroll(w, Opening(body), x, maxRetries);
    Unroll(w, Load(body, oid), x, maxRetries);
    Unroll(w, Gate(body, oid, w.docs[oid]), x, maxRetries);
    Unroll(w, Bury(body, oid), x, maxRetries);
    Unroll(WithDeadLetter(w, body, x.moveToDeadLetter), SetFailed(oid), x, maxRetries);
  }

  /** What a delivered copy leaves: the call, the mark if that takes effect, and the sent status only if the
      mark reported success. */
  lemma DeliveryWrites(w: World, body: Body, x: Script, maxRetries: int)
    requires Reads(w, body, x) && body.msg.id.oid in w.docs && x.sendMessage.Ok?
    requires ShouldProcess(w.docs[body.msg.id.oid], maxRetries, w.now).Proceed?
    ensures var oid := body.msg.id.oid;
            var doc := w.docs[oid];
            Finish(w, Opening(body), x, maxRetries).0
            == w.(calls := w.calls + [Call(oid, doc.content, doc.to, w.now, true)],
                  inbox := if x.markAsProcessed.Took() then w.inbox[Hex(oid) := w.now + 86_400_000] else w.inbox,
                  docs := if x.markAsProcessed.Ok? && x.finalStatus.Took()
                          then w.docs[oid := doc.(status := Sent, updatedAt := w.now)] else w.docs)
  {
    var oid := body.msg.id.oid;
    var doc := w.docs[oid];
    Unroll(w, Opening(body), x, maxRetries);
    Unroll(w, Load(body, oid), x, maxRetries);
    Unroll(w, Gate(body, oid, doc), x, maxRetries);
    Unroll(w, Send(body, oid, doc), x, maxRetries);
    var w1 := w.(calls := w.calls + [Call(oid, doc.content, doc.to, w.now, true)]);
    Unroll(w1, MarkInbox(oid), x, maxRetries);
    if x.markAsProcessed.Ok? {
      Unroll(w1.(inbox := w1.inbox[Hex(oid) := w1.now + INBOX_TTL]), SetSent(oid), x, maxRetries);
    }
  }

  // ---- the loop

  lemma {:induction false} KeepsDocuments(w: World, pc: Pc, x: Script, maxRetries: int)
    ensures w.docs.Keys <= Finish(w, pc, x, maxRetries).0.docs.Keys
    decreases Ahead(pc)
  {
    if !pc.Idle? {
      var (w', pc') := Step(w, pc, x.At(pc), maxRetries);
      D.OnwardConsumer(w, pc, x.At(pc), maxRetries);
      KeepsDocuments(w', pc', x, maxRetries);
    }
  }

  /** Every id in the queue is that of a stored document. */
  ghost predicate NamesStored(docs: Docs, q: seq<Queued>) {
    forall i :: 0 <= i < |q| && q[i].body.Json? && q[i].body.msg.id.Hex? ==> q[i].body.msg.id.oid in docs
  }

  function Acked(turns: seq<Turn>): nat {
    Count(turns, (t: Turn) => t.ack.Took())
  }

  function Min(a: nat, b: nat): nat {
    if a < b then a else b
  }

  lemma ServedHead(w: World, turn: Turn, maxRetries: int)
    requires w.main != [] && NamesStored(w.docs, w.main)
    ensures var (w', ret) := Serve(w, turn, maxRetries);
            && !ret.Panic? && NamesStored(w'.docs, w'.main)
            && w'.main == if turn.ack.Took() then w.main[1..] else w.main
  {
    var w0, pc := if turn.ack.Took() then w.(main := w.main[1..]) else w, Opening(w.main[0].body);
    assert forall i :: 0 <= i < |w.main[1..]| ==> w.main[1..][i] == w.main[i + 1];
    ReturnIs(w0, w.main[0].body, turn.script, maxRetries);
    FinishKeepsMain(w0, pc, turn.script, maxRetries);
    KeepsDocuments(w0, pc, turn.script, maxRetries);
  }

  /** No error stops the loop: as long as every id in the queue is stored, each turn whose ack takes
      effect serves the next copy, whatever the replies to the other calls. */
  lemma {:induction false} ServesEveryTurn(w: World, turns: seq<Turn>, maxRetries: int)
    requires NamesStored(w.docs, w.main)
    ensures ServeAll(w, turns, maxRetries).main == w.main[Min(Acked(turns), |w.main|)..]
    decreases |turns|
  {
    if turns != [] && w.main != [] {
      ServedHead(w, turns[0], maxRetries);
      ServesEveryTurn(Serve(w, turns[0], maxRetries).0, turns[1..], maxRetries);
    }
  }

  /** A document that is not there does: the loop ends with that turn. */
  lemma MissingDocumentStops(w: World, turns: seq<Turn>, maxRetries: int)
    requires turns != [] && w.main != [] && Reads(w, w.main[0].body, turns[0].script)
    requires w.main[0].body.msg.id.oid !in w.docs
    ensures ServeAll(w, turns, maxRetries) == w.(main := if turns[0].ack.Took() then w.main[1..] else w.main)
  {
    var w0 := if turns[0].ack.Took() then w.(main := w.main[1..]) else w;
    Unroll(w0, Opening(w.main[0].body), turns[0].script, maxRetries);
    Unroll(w0, Load(w.main[0].body, w.main[0].body.msg.id.oid), turns[0].script, maxRetries);
  }
}
