/** What a whole sweep does, item by item, under any replies. */
module Sweeps {
  import opened Messages
  import opened Delivery

  /** The dead letters a stale sweep writes, in the order of the batch. */
  function Letters(batch: seq<Entry>, replies: SweepReplies): seq<Body> {
    if batch == [] then []
    else (if replies(batch[0].oid).publish.Took() then [RecoveryBody(batch[0])] else []) + Letters(batch[1..], replies)
  }

  /** The copies an outbox sweep publishes, in the order of the batch. */
  function Outgoing(batch: seq<Entry>, replies: SweepReplies, now: nat): seq<Queued> {
    if batch == [] then []
    else (if replies(batch[0].oid).publish.Took() then [Queued(OutboxBody(batch[0]), now)] else [])
         + Outgoing(batch[1..], replies, now)
  }

  /** The status update of an item is made only after a publish that reported success. */
  predicate Updated(r: ItemReplies) {
    r.publish.Ok? && r.update.Took()
  }

  /** The documents after a sweep: those listed and updated have the status, the others are untouched. */
  ghost predicate Swept(docs: Docs, docs': Docs, batch: seq<Entry>, replies: SweepReplies, status: Status, now: nat) {
    && docs'.Keys == docs.Keys
    && forall oid :: oid in docs ==>
         docs'[oid] == if Listed(batch, oid) && Updated(replies(oid))
                       then docs[oid].(status := status, updatedAt := now) else docs[oid]
  }

  lemma ListedCons(batch: seq<Entry>)
    requires batch != [] && Distinct(batch)
    ensures Distinct(batch[1..]) && !Listed(batch[1..], batch[0].oid)
    ensures forall oid :: Listed(batch, oid) <==> oid == batch[0].oid || Listed(batch[1..], oid)
  {
    forall oid
      ensures Listed(batch, oid) <==> oid == batch[0].oid || Listed(batch[1..], oid)
    {
      if Listed(batch, oid) && oid != batch[0].oid {
        var i :| 0 <= i < |batch| && batch[i].oid == oid;
        assert batch[1..][i - 1].oid == oid;
      }
      if Listed(batch[1..], oid) {
        var i :| 0 <= i < |batch[1..]| && batch[1..][i].oid == oid;
        assert batch[i + 1].oid == oid;
      }
    }
  }

  /** One item, and then the rest. */
  lemma SweptCons(
      docs: Docs, docs1: Docs, docs': Docs, batch: seq<Entry>, replies: SweepReplies, status: Status, now: nat)
    requires batch != [] && Distinct(batch)
    requires var oid := batch[0].oid;
             docs1 == if Updated(replies(oid)) then SetStatus(docs, oid, status, now) else docs
    requires Swept(docs1, docs', batch[1..], replies, status, now)
    ensures Swept(docs, docs', batch, replies, status, now)
  {
    ListedCons(batch);
  }

  lemma RecoverItemIs(w: World, e: Entry, r: ItemReplies)
    ensures RecoverItem(w, e, r)
         == w.(docs := if Updated(r) then SetStatus(w.docs, e.oid, Failed, w.now) else w.docs,
               dlq := w.dlq + if r.publish.Took() then [RecoveryBody(e)] else [])
  {
  }

  /** A stale sweep under any replies: a message found stays as it was, or is dead-lettered and
      still processing, or is dead-lettered and failed; no other message changes. */
  lemma {:induction false} RecoverAllSweeps(w: World, batch: seq<Entry>, replies: SweepReplies)
    requires Distinct(batch)
    ensures var w' := RecoverAll(w, batch, replies);
            && Swept(w.docs, w'.docs, batch, replies, Failed, w.now)
            && w' == w.(docs := w'.docs, dlq := w.dlq + Letters(batch, replies))
    decreases |batch|
  {
    if batch != [] {
      assert Distinct(batch[1..]);
      var w1 := RecoverItem(w, batch[0], replies(batch[0].oid));
      RecoverItemIs(w, batch[0], replies(batch[0].oid));
      RecoverAllSweeps(w1, batch[1..], replies);
      SweptCons(w.docs, w1.docs, RecoverAll(w1, batch[1..], replies).docs, batch, replies, Failed, w.now);
      assert w1.dlq + Letters(batch[1..], replies) == w.dlq + Letters(batch, replies);
    }
  }

  lemma SendItemIs(w: World, e: Entry, r: ItemReplies)
    ensures SendItem(w, e, r)
         == w.(docs := if Updated(r) then SetStatus(w.docs, e.oid, Processing, w.now) else w.docs,
               main := w.main + if r.publish.Took() then [Queued(OutboxBody(e), w.now)] else [])
  {
  }

  /** An outbox sweep under any replies. */
  lemma {:induction false} SendAllSweeps(w: World, batch: seq<Entry>, replies: SweepReplies)
    requires Distinct(batch)
    ensures var w' := SendAll(w, batch, replies);
            && Swept(w.docs, w'.docs, batch, replies, Processing, w.now)
            && w' == w.(docs := w'.docs, main := w.main + Outgoing(batch, replies, w.now))
    decreases |batch|
  {
    if batch != [] {
      assert Distinct(batch[1..]);
      var w1 := SendItem(w, batch[0], replies(batch[0].oid));
      SendItemIs(w, batch[0], replies(batch[0].oid));
      SendAllSweeps(w1, batch[1..], replies);
      SweptCons(w.docs, w1.docs, SendAll(w1, batch[1..], replies).docs, batch, replies, Processing, w.now);
      assert w1.main + Outgoing(batch[1..], replies, w.now) == w.main + Outgoing(batch, replies, w.now);
    }
  }
}
