/** An uninterrupted delivery or sweep is a run of the protocol, and so is every run of the
    system with atomic handlers: the guarantees of the protocol hold of them. */
module Refinement {
  import opened Messages
  import opened Delivery
  import opened Runs
  import P = Protocol
  import A = Atomic
  import E = ExactlyOnce
  import G = Guarantees

  // ---- one delivery

  /** What a consumer sees, and its next call, when nothing interrupts it. */
  function Next(script: Script, maxRetries: int): ((World, Pc)) -> (World, Pc) {
    (x: (World, Pc)) => Step(x.0, x.1, script.At(x.1), maxRetries)
  }

  function NextCall(script: Script, c: nat): ((World, Pc)) -> P.Action {
    (x: (World, Pc)) => P.Consume(c, script.At(x.1))
  }

  function Seen(c: nat): P.State -> (World, Pc) {
    (s: P.State) => (s.w, if c < |s.consumers| then s.consumers[c].pc else Idle(Nil))
  }

  lemma {:induction false} IterFinishes(n: nat, w: World, pc: Pc, script: Script, maxRetries: int)
    requires Ahead(pc) <= n
    ensures var (w', ret) := Finish(w, pc, script, maxRetries);
            Iter(n, Next(script, maxRetries), (w, pc)) == (w', Idle(ret))
  {
    if n > 0 {
      var (w', pc') := Step(w, pc, script.At(pc), maxRetries);
      IterFinishes(n - 1, w', pc', script, maxRetries);
    }
  }

  /** Only consumer `c` and the stores have moved. */
  ghost predicate OnlyConsumer(s: P.State, s': P.State, c: nat) {
    && |s'.consumers| == |s.consumers| && s'.senders == s.senders && s'.monitors == s.monitors
    && (forall d :: 0 <= d < |s.consumers| && d != c ==> s'.consumers[d] == s.consumers[d])
    && s'.h.foreign == s.h.foreign
  }

  ghost function Undisturbed(s: P.State, c: nat, script: Script): P.State -> bool {
    s' => OnlyConsumer(s, s', c) && (script.moveToDeadLetter.Took() ==> s'.h.unburied == s.h.unburied)
  }

  lemma OneCall(cfg: Config, s: P.State, s1: P.State, script: Script, c: nat)
    requires c < |s.consumers| && Undisturbed(s, c, script)(s1)
    ensures var a := NextCall(script, c)(Seen(c)(s1));
            && Undisturbed(s, c, script)(P.Apply(cfg, s1, a))
            && Seen(c)(P.Apply(cfg, s1, a)) == Next(script, cfg.maxRetries)(Seen(c)(s1))
  {
  }

  /** The calls that finish a delivery, as actions of consumer `c`. */
  function DeliveryCalls(w: World, pc: Pc, script: Script, maxRetries: int, c: nat): seq<P.Action> {
    Trace(Ahead(pc), Next(script, maxRetries), NextCall(script, c), (w, pc))
  }

  /** The rest of a delivery that nothing interrupts is a run of the protocol. */
  lemma DeliveryIsRun(cfg: Config, s: P.State, script: Script, c: nat)
    requires c < |s.consumers|
    ensures var pc := s.consumers[c].pc;
            var s' := Exec(P.Steps(cfg), s, DeliveryCalls(s.w, pc, script, cfg.maxRetries, c));
            var (w', ret) := Finish(s.w, pc, script, cfg.maxRetries);
            && OnlyConsumer(s, s', c)
            && (script.moveToDeadLetter.Took() ==> s'.h.unburied == s.h.unburied)
            && s'.w == w' && s'.consumers[c].pc == Idle(ret)
  {
    var inv, view, act := Undisturbed(s, c, script), Seen(c), NextCall(script, c);
    var f, n := Next(script, cfg.maxRetries), Ahead(s.consumers[c].pc);
    forall s1 | inv(s1)
      ensures inv(P.Steps(cfg)(s1, act(view(s1)))) && view(P.Steps(cfg)(s1, act(view(s1)))) == f(view(s1))
    {
      OneCall(cfg, s, s1, script, c);
    }
    Simulates(P.Steps(cfg), inv, view, act, f, n, s);
    IterFinishes(n, s.w, s.consumers[c].pc, script, cfg.maxRetries);
  }

  /** A turn of the consumer's loop, ack and all, is a run of the protocol. */
  lemma TurnIsRun(cfg: Config, s: P.State, turn: Turn, c: nat)
    requires c < |s.consumers| && s.consumers[c].pc.Idle? && s.w.main != []
    ensures var (w', ret) := Serve(s.w, turn, cfg.maxRetries);
            var s' := Exec(P.Steps(cfg), s, TurnCalls(s.w, turn, cfg.maxRetries, c));
            && OnlyConsumer(s, s', c)
            && (turn.script.moveToDeadLetter.Took() ==> s'.h.unburied == s.h.unburied)
            && s'.w == w' && s'.consumers[c].pc == Idle(ret)
  {
    var s1 := P.Apply(cfg, s, P.Deliver(c, turn.ack));
    assert OnlyConsumer(s, s1, c) && s1.h.unburied == s.h.unburied;
    DeliveryIsRun(cfg, s1, turn.script, c);
    var rest := DeliveryCalls(s1.w, s1.consumers[c].pc, turn.script, cfg.maxRetries, c);
    assert ([P.Deliver(c, turn.ack)] + rest)[1..] == rest;
  }

  function TurnCalls(w: World, turn: Turn, maxRetries: int, c: nat): seq<P.Action>
    requires w.main != []
  {
    [P.Deliver(c, turn.ack)]
    + DeliveryCalls(if turn.ack.Took() then w.(main := w.main[1..]) else w,
                    Opening(w.main[0].body), turn.script, maxRetries, c)
  }

  // ---- one sweep

  function SendCalls(batch: seq<Entry>, replies: SweepReplies, r: nat): seq<P.Action> {
    if batch == [] then []
    else
      var x := replies(batch[0].oid);
      [P.Action.Send(r, x.publish)] + (if x.publish.Ok? then [P.Action.Send(r, x.update)] else [])
      + SendCalls(batch[1..], replies, r)
  }

  function HealCalls(batch: seq<Entry>, replies: SweepReplies, m: nat): seq<P.Action> {
    if batch == [] then []
    else
      var x := replies(batch[0].oid);
      [P.Heal(m, x.publish)] + (if x.publish.Ok? then [P.Heal(m, x.update)] else [])
      + HealCalls(batch[1..], replies, m)
  }

  ghost predicate OnlySender(s: P.State, s': P.State, r: nat) {
    && |s'.senders| == |s.senders| && s'.consumers == s.consumers && s'.monitors == s.monitors
    && (forall q :: 0 <= q < |s.senders| && q != r ==> s'.senders[q] == s.senders[q])
    && s'.h.foreign == s.h.foreign && s'.h.unburied == s.h.unburied
  }

  ghost predicate OnlyMonitor(s: P.State, s': P.State, m: nat) {
    && |s'.monitors| == |s.monitors| && s'.consumers == s.consumers && s'.senders == s.senders
    && (forall q :: 0 <= q < |s.monitors| && q != m ==> s'.monitors[q] == s.monitors[q])
    && s'.h.foreign == s.h.foreign && s'.h.unburied == s.h.unburied
  }

  lemma OneSend(cfg: Config, s: P.State, r: nat, reply: Reply)
    requires r < |s.senders| && s.senders[r] != P.Publish([])
    ensures var s' := P.Apply(cfg, s, P.Action.Send(r, reply));
            OnlySender(s, s', r) && (s'.w, s'.senders[r]) == P.SenderStep(s.w, s.senders[r], reply)
  {
  }

  lemma OneHeal(cfg: Config, s: P.State, m: nat, reply: Reply)
    requires m < |s.monitors| && s.monitors[m] != P.Recover([])
    ensures var s' := P.Apply(cfg, s, P.Heal(m, reply));
            OnlyMonitor(s, s', m) && (s'.w, s'.monitors[m]) == P.MonitorStep(s.w, s.monitors[m], reply)
  {
  }

  lemma SendItemRun(cfg: Config, s: P.State, batch: seq<Entry>, x: ItemReplies, r: nat)
    requires r < |s.senders| && batch != [] && s.senders[r] == P.Publish(batch)
    ensures var run := [P.Action.Send(r, x.publish)] + if x.publish.Ok? then [P.Action.Send(r, x.update)] else [];
            var s' := Exec(P.Steps(cfg), s, run);
            OnlySender(s, s', r) && s'.w == SendItem(s.w, batch[0], x) && s'.senders[r] == P.Publish(batch[1..])
  {
    var a := [P.Action.Send(r, x.publish)];
    var s1 := P.Apply(cfg, s, a[0]);
    OneSend(cfg, s, r, x.publish);
    assert Exec(P.Steps(cfg), s, a) == s1 by {
      assert a[1..] == [];
    }
    if x.publish.Ok? {
      var b := [P.Action.Send(r, x.update)];
      OneSend(cfg, s1, r, x.update);
      assert b[1..] == [];
      Concat(P.Steps(cfg), s, a, b);
    } else {
      assert a + [] == a;
    }
  }

  lemma HealItemRun(cfg: Config, s: P.State, batch: seq<Entry>, x: ItemReplies, m: nat)
    requires m < |s.monitors| && batch != [] && s.monitors[m] == P.Recover(batch)
    ensures var run := [P.Heal(m, x.publish)] + if x.publish.Ok? then [P.Heal(m, x.update)] else [];
            var s' := Exec(P.Steps(cfg), s, run);
            OnlyMonitor(s, s', m) && s'.w == RecoverItem(s.w, batch[0], x) && s'.monitors[m] == P.Recover(batch[1..])
  {
    var a := [P.Heal(m, x.publish)];
    var s1 := P.Apply(cfg, s, a[0]);
    OneHeal(cfg, s, m, x.publish);
    assert Exec(P.Steps(cfg), s, a) == s1 by {
      assert a[1..] == [];
    }
    if x.publish.Ok? {
      var b := [P.Heal(m, x.update)];
      OneHeal(cfg, s1, m, x.update);
      assert b[1..] == [];
      Concat(P.Steps(cfg), s, a, b);
    } else {
      assert a + [] == a;
    }
  }

  lemma {:induction false} SendAllRun(cfg: Config, s: P.State, batch: seq<Entry>, replies: SweepReplies, r: nat)
    requires r < |s.senders| && s.senders[r] == P.Publish(batch)
    ensures var s' := Exec(P.Steps(cfg), s, SendCalls(batch, replies, r));
            OnlySender(s, s', r) && s'.w == SendAll(s.w, batch, replies) && s'.senders[r] == P.Publish([])
    decreases |batch|
  {
    if batch != [] {
      var x := replies(batch[0].oid);
      var a := [P.Action.Send(r, x.publish)] + if x.publish.Ok? then [P.Action.Send(r, x.update)] else [];
      SendItemRun(cfg, s, batch, x, r);
      SendAllRun(cfg, Exec(P.Steps(cfg), s, a), batch[1..], replies, r);
      Concat(P.Steps(cfg), s, a, SendCalls(batch[1..], replies, r));
    }
  }

  lemma {:induction false} RecoverAllRun(cfg: Config, s: P.State, batch: seq<Entry>, replies: SweepReplies, m: nat)
    requires m < |s.monitors| && s.monitors[m] == P.Recover(batch)
    ensures var s' := Exec(P.Steps(cfg), s, HealCalls(batch, replies, m));
            OnlyMonitor(s, s', m) && s'.w == RecoverAll(s.w, batch, replies) && s'.monitors[m] == P.Recover([])
    decreases |batch|
  {
    if batch != [] {
      var x := replies(batch[0].oid);
      var a := [P.Heal(m, x.publish)] + if x.publish.Ok? then [P.Heal(m, x.update)] else [];
      HealItemRun(cfg, s, batch, x, m);
      RecoverAllRun(cfg, Exec(P.Steps(cfg), s, a), batch[1..], replies, m);
      Concat(P.Steps(cfg), s, a, HealCalls(batch[1..], replies, m));
    }
  }

  // ---- the system with atomic handlers

  ghost predicate Matches(x: A.System, s: P.State) {
    && s.w == x.w && !s.h.foreign && s.h.unburied == {}
    && |s.consumers| >= 1 && (forall c :: 0 <= c < |s.consumers| ==> s.consumers[c].pc.Idle?)
    && s.senders == [P.Publish(x.batch)] && s.monitors == [P.Recover([])]
  }

  /** The port calls one event stands for. */
  ghost function Expand(cfg: Config, x: A.System, e: A.Event): seq<P.Action> {
    if !A.Enabled(cfg, x, e) then []
    else
      match e
      case Create(oid, content, to) => [P.Create(oid, content, to)]
      case Tick(ms) => [P.Tick(ms)]
      case Expire => [P.Expire]
      case Find(found) => [P.Find(0, found)]
      case Send => [P.Action.Send(0, Ok), P.Action.Send(0, Ok)]
      case Consume(accepted) => TurnCalls(x.w, Turn(Ok, A.Smooth(accepted)), cfg.maxRetries, 0)
      case Sweep(found) => [P.Scan(0, found)] + HealCalls(found, RELIABLE, 0)
  }

  lemma ExpandConsume(cfg: Config, x: A.System, s: P.State, accepted: bool)
    requires Matches(x, s) && x.w.main != []
    ensures Matches(A.Do(cfg, x, A.Consume(accepted)), Exec(P.Steps(cfg), s, Expand(cfg, x, A.Consume(accepted))))
  {
    TurnIsRun(cfg, s, Turn(Ok, A.Smooth(accepted)), 0);
  }

  lemma ExpandSweep(cfg: Config, x: A.System, s: P.State, found: seq<Entry>)
    requires Matches(x, s) && A.Enabled(cfg, x, A.Sweep(found))
    ensures Matches(A.Do(cfg, x, A.Sweep(found)), Exec(P.Steps(cfg), s, Expand(cfg, x, A.Sweep(found))))
  {
    var s1 := P.Apply(cfg, s, P.Scan(0, found));
    RecoverAllRun(cfg, s1, found, RELIABLE, 0);
    assert ([P.Scan(0, found)] + HealCalls(found, RELIABLE, 0))[1..] == HealCalls(found, RELIABLE, 0);
  }

  lemma ExpandSend(cfg: Config, x: A.System, s: P.State)
    requires Matches(x, s) && x.batch != []
    ensures Matches(A.Do(cfg, x, A.Event.Send), Exec(P.Steps(cfg), s, Expand(cfg, x, A.Event.Send)))
  {
    SendItemRun(cfg, s, x.batch, ItemReplies(Ok, Ok), 0);
    assert [P.Action.Send(0, Ok)] + [P.Action.Send(0, Ok)] == [P.Action.Send(0, Ok), P.Action.Send(0, Ok)];
  }

  lemma ExpandOne(cfg: Config, x: A.System, s: P.State, e: A.Event)
    requires Matches(x, s) && A.Enabled(cfg, x, e) && (e.Create? || e.Tick? || e.Expire? || e.Find?)
    ensures Matches(A.Do(cfg, x, e), Exec(P.Steps(cfg), s, Expand(cfg, x, e)))
  {
    assert Expand(cfg, x, e)[1..] == [];
  }

  lemma ExpandMatches(cfg: Config, x: A.System, s: P.State, e: A.Event)
    requires Matches(x, s)
    ensures Matches(A.Apply(cfg, x, e), Exec(P.Steps(cfg), s, Expand(cfg, x, e)))
  {
    if A.Enabled(cfg, x, e) {
      match e
      case Consume(accepted) => ExpandConsume(cfg, x, s, accepted);
      case Sweep(found) => ExpandSweep(cfg, x, s, found);
      case Send => ExpandSend(cfg, x, s);
      case _ => ExpandOne(cfg, x, s, e);
    }
  }

  ghost function ExpandAll(cfg: Config, x: A.System, run: seq<A.Event>): seq<P.Action>
    decreases |run|
  {
    if run == [] then [] else Expand(cfg, x, run[0]) + ExpandAll(cfg, A.Apply(cfg, x, run[0]), run[1..])
  }

  lemma {:induction false} ExpandAllMatches(cfg: Config, x: A.System, s: P.State, run: seq<A.Event>)
    requires Matches(x, s)
    ensures Matches(Exec(A.Events(cfg), x, run), Exec(P.Steps(cfg), s, ExpandAll(cfg, x, run)))
    decreases |run|
  {
    if run != [] {
      ExpandMatches(cfg, x, s, run[0]);
      var s1 := Exec(P.Steps(cfg), s, Expand(cfg, x, run[0]));
      ExpandAllMatches(cfg, A.Apply(cfg, x, run[0]), s1, run[1..]);
      Concat(P.Steps(cfg), s, Expand(cfg, x, run[0]), ExpandAll(cfg, A.Apply(cfg, x, run[0]), run[1..]));
    }
  }

  /** Every run with atomic handlers is a run of the protocol with one runner, one monitor, and
      any number of consumers of which one takes every copy. */
  lemma AtomicRefinesProtocol(cfg: Config, n: nat, run: seq<A.Event>)
    requires n >= 1
    ensures Matches(A.After(cfg, run), P.After(cfg, n, 1, 1, ExpandAll(cfg, A.EMPTY, run)))
  {
    ExpandAllMatches(cfg, A.EMPTY, P.Init(n, 1, 1), run);
  }

  /** So, with atomic handlers, a message with no copy left to handle has been delivered or is in the DLQ. */
  lemma NoMessageIsLost(cfg: Config, run: seq<A.Event>, oid: ObjectId)
    requires var w := A.After(cfg, run).w;
             oid in w.docs && !w.docs[oid].status.Unsent? && E.Copies(w, oid) == 0
    ensures var w := A.After(cfg, run).w;
            Delivered(w.calls, oid) || DeadLettered(w.dlq, oid)
  {
    AtomicRefinesProtocol(cfg, 1, run);
    E.ExactlyOneCopy(cfg, run, oid);
    var calls := ExpandAll(cfg, A.EMPTY, run);
    if A.After(cfg, run).w.docs[oid].status.Sent? {
      G.SentMeansDelivered(cfg, 1, 1, 1, calls, oid);
    } else {
      G.FailedMeansDeadLettered(cfg, 1, 1, 1, calls, oid);
    }
  }
}
