/** The whole system with every port call a step of its own.  Any number of consumers,
    scheduler runners and monitors interleave; a call may be refused or lose its reply,
    an actor may crash anywhere, and other publishers may put anything into the main queue. */
module Protocol {
  import opened Messages
  import opened Delivery
  import opened Runs

  /** A step of the run and the time at which it was taken. */
  datatype Check = Check(step: nat, at: nat)

  /** A consumer: where it stands and, as history, its latest inbox check and webhook call. */
  datatype Consumer = Consumer(pc: Pc, check: Check, call: nat)

  /** A scheduler runner: the messages it still has to publish, or one published and to be confirmed. */
  datatype Sender = Publish(batch: seq<Entry>) | Confirm(oid: ObjectId, rest: seq<Entry>)

  /** A monitor: the messages it still has to recover, or one dead-lettered and to be marked failed. */
  datatype Monitor = Recover(batch: seq<Entry>) | Condemn(oid: ObjectId, rest: seq<Entry>)

  /** How a consumer's copy ends, if it does. */
  datatype Fate = InHand | Done | Skipped | Moved | Dropped

  /** What has happened so far; no step looks at it. */
  datatype History = History(
    step: nat,
    foreign: bool,                       // whether another publisher was active
    enqueued: multiset<Body>,            // copies put into the main queue by a publisher
    redelivered: multiset<Body>,         // copies the broker kept because their ack failed
    ended: multiset<(Fate, Body)>,       // copies a consumer is done with
    recovered: multiset<Body>,           // dead letters written by a monitor
    unburied: set<ObjectId>,             // ids for which a consumer's dead-letter publish failed
    published: multiset<ObjectId>,       // outbox publishes
    confirmed: multiset<ObjectId>,       // and those followed by an update to processing
    lost: multiset<ObjectId>,            // failed webhook calls whose increment did not happen
    panics: multiset<ObjectId>,          // deliveries that named no document
    callChecks: seq<Check>,              // for each webhook call, the inbox check before it
    marks: map<nat, Check>,              // webhook call -> when its inbox mark was written
    unmarked: set<nat>)                  // successful calls whose mark failed or was cut off by a crash

  datatype State = State(
    w: World, h: History, consumers: seq<Consumer>, senders: seq<Sender>, monitors: seq<Monitor>)

  datatype Action =
    | Create(oid: ObjectId, content: string, to: string)
    | Tick(ms: nat)
    | Inject(body: Body)
    | Expire
    | Deliver(c: nat, ack: Reply)
    | Consume(c: nat, reply: Reply)
    | KillConsumer(c: nat)
    | Find(r: nat, found: seq<Entry>)
    | Send(r: nat, reply: Reply)
    | KillSender(r: nat)
    | Scan(m: nat, found: seq<Entry>)
    | Heal(m: nat, reply: Reply)
    | KillMonitor(m: nat)

  const NO_HISTORY: History := History(0, false, multiset{}, multiset{}, multiset{}, multiset{}, {}, multiset{},
                                      multiset{}, multiset{}, multiset{}, [], map[], {})

  function Init(consumers: nat, senders: nat, monitors: nat): State {
    State(World(0, map[], [], [], [], map[], []), NO_HISTORY,
          seq(consumers, _ => Consumer(Idle(Nil), Check(0, 0), 0)),
          seq(senders, _ => Publish([])), seq(monitors, _ => Recover([])))
  }

  ghost predicate Enabled(cfg: Config, s: State, a: Action) {
    match a
    case Create(oid, _, _) => oid !in s.w.docs
    case Tick(_) => true
    case Inject(_) => true
    case Expire => s.w.retry != [] && s.w.retry[0].since + RETRY_TTL <= s.w.now
    case Deliver(c, _) => c < |s.consumers| && s.consumers[c].pc.Idle? && s.w.main != []
    case Consume(c, _) => c < |s.consumers| && !s.consumers[c].pc.Idle?
    case KillConsumer(c) => c < |s.consumers| && !s.consumers[c].pc.Idle?
    case Find(r, found) =>
      r < |s.senders| && s.senders[r] == Publish([]) && IsUnsentBatch(s.w.docs, found, cfg.batchSize)
    case Send(r, _) => r < |s.senders| && s.senders[r] != Publish([])
    case KillSender(r) => r < |s.senders|
    case Scan(m, found) =>
      m < |s.monitors| && s.monitors[m] == Recover([]) && IsStaleBatch(s.w.docs, found, s.w.now)
    case Heal(m, _) => m < |s.monitors| && s.monitors[m] != Recover([])
    case KillMonitor(m) => m < |s.monitors|
  }

  // ---- the actors

  /** Whether a consumer is responsible for a copy. */
  predicate Holds(pc: Pc) {
    !(pc.Idle? || pc.SetDuplicate? || pc.MarkInbox? || pc.SetSent? || pc.SetFailed?)
  }

  function BodyOf(pc: Pc): Body
    requires Holds(pc)
  {
    if pc.CheckInbox? then Json(pc.msg) else pc.body
  }

  /** The body in hand decodes to the id being handled. */
  predicate CarriesOwnId(pc: Pc) {
    Holds(pc) && !pc.CheckInbox? && !pc.BuryPoison? ==> pc.body.Names(pc.oid)
  }

  /** What the next call does to the copy in hand. */
  function FateOf(w: World, pc: Pc, reply: Reply): Fate
    requires Holds(pc)
  {
    match pc
    case CheckInbox(msg) => if !reply.Ok? then Dropped else if InInbox(w, msg.id) then Skipped else InHand
    case BuryPoison(_) => if reply.Took() then Moved else Dropped
    case Load(_, oid) => if reply.Ok? && oid in w.docs then InHand else Dropped
    case Gate(_, _, _) => InHand
    case Send(_, _, _) => if reply.Ok? then Done else InHand
    case Increment(_, _) => if reply.Ok? then InHand else Dropped
    case SetProcessing(_, _) => if reply.Ok? then InHand else Dropped
    case Reload(_, oid) => if reply.Ok? && oid in w.docs then InHand else Dropped
    case Requeue(_, _) => if reply.Took() then InHand else Dropped
    case Bury(_, _) => if reply.Took() then Moved else Dropped
  }

  function NoteEnd(ended: multiset<(Fate, Body)>, pc: Pc, fate: Fate): multiset<(Fate, Body)>
    requires Holds(pc)
  {
    if fate.InHand? then ended else ended + multiset{(fate, BodyOf(pc))}
  }

  function NoteLost(lost: multiset<ObjectId>, pc: Pc, reply: Reply): multiset<ObjectId> {
    if pc.Increment? && !reply.Took() then lost + multiset{pc.oid} else lost
  }

  function NotePanic(panics: multiset<ObjectId>, w: World, pc: Pc, reply: Reply): multiset<ObjectId> {
    if (pc.Load? || pc.Reload?) && reply.Ok? && pc.oid !in w.docs then panics + multiset{pc.oid} else panics
  }

  /** What one consumer step adds to the history. */
  function Note(h: History, w: World, k: Consumer, reply: Reply): History {
    h.(ended := if Holds(k.pc) then NoteEnd(h.ended, k.pc, FateOf(w, k.pc, reply)) else h.ended,
       unburied := if k.pc.Bury? && !reply.Took() then h.unburied + {k.pc.oid} else h.unburied,
       lost := NoteLost(h.lost, k.pc, reply),
       panics := NotePanic(h.panics, w, k.pc, reply),
       callChecks := if k.pc.Send? then h.callChecks + [k.check] else h.callChecks,
       marks := if k.pc.MarkInbox? && reply.Took() then h.marks[k.call := Check(h.step, w.now)] else h.marks,
       unmarked := if k.pc.MarkInbox? && !reply.Took() then h.unmarked + {k.call} else h.unmarked)
  }

  /** A crash loses the copy in hand, and an increment or a mark that was about to be written. */
  function NoteCrash(h: History, k: Consumer): History {
    h.(ended := if Holds(k.pc) then NoteEnd(h.ended, k.pc, Dropped) else h.ended,
       lost := NoteLost(h.lost, k.pc, Refused),
       unmarked := if k.pc.MarkInbox? then h.unmarked + {k.call} else h.unmarked)
  }

  function Advance(h: History, w: World, k: Consumer, pc: Pc): Consumer {
    Consumer(pc,
             if k.pc.CheckInbox? then Check(h.step, w.now) else k.check,
             if k.pc.Send? then |w.calls| else k.call)
  }

  function SenderStep(w: World, x: Sender, reply: Reply): (World, Sender) {
    match x
    case Publish(batch) =>
      if batch == [] then (w, x)
      else (Published(w, batch[0], reply),
            if reply.Ok? then Confirm(batch[0].oid, batch[1..]) else Publish(batch[1..]))
    case Confirm(oid, rest) => (WithStatus(w, oid, Processing, reply), Publish(rest))
  }

  function NoteSender(h: History, x: Sender, reply: Reply): History {
    match x
    case Publish(batch) =>
      if batch != [] && reply.Took()
      then h.(enqueued := h.enqueued + multiset{OutboxBody(batch[0])},
              published := h.published + multiset{batch[0].oid})
      else h
    case Confirm(oid, _) =>
      if reply.Took() then h.(confirmed := h.confirmed + multiset{oid}) else h
  }

  function MonitorStep(w: World, x: Monitor, reply: Reply): (World, Monitor) {
    match x
    case Recover(batch) =>
      if batch == [] then (w, x)
      else (WithDeadLetter(w, RecoveryBody(batch[0]), reply),
            if reply.Ok? then Condemn(batch[0].oid, batch[1..]) else Recover(batch[1..]))
    case Condemn(oid, rest) => (WithStatus(w, oid, Failed, reply), Recover(rest))
  }

  function NoteMonitor(h: History, x: Monitor, reply: Reply): History {
    if x.Recover? && x.batch != [] && reply.Took()
    then h.(recovered := h.recovered + multiset{RecoveryBody(x.batch[0])})
    else h
  }

  // ---- one step

  function Consumed(cfg: Config, s: State, c: nat, reply: Reply): State
    requires c < |s.consumers|
  {
    var h, k := s.h.(step := s.h.step + 1), s.consumers[c];
    var (w', pc) := Step(s.w, k.pc, reply, cfg.maxRetries);
    s.(w := w', h := Note(h, s.w, k, reply), consumers := s.consumers[c := Advance(h, s.w, k, pc)])
  }

  ghost function Do(cfg: Config, s: State, a: Action): State
    requires Enabled(cfg, s, a)
  {
    var w, h := s.w, s.h.(step := s.h.step + 1);
    match a
    case Create(oid, content, to) =>
      s.(w := w.(docs := w.docs[oid := NewMessage(content, to, w.now)]), h := h)
    case Tick(ms) => s.(w := w.(now := w.now + ms), h := h)
    case Inject(body) =>
      s.(w := w.(main := w.main + [Queued(body, w.now)]),
         h := h.(foreign := true, enqueued := h.enqueued + multiset{body}))
    case Expire =>
      s.(w := w.(retry := w.retry[1..], main := w.main + [Queued(w.retry[0].body, w.now)]), h := h)
    case Deliver(c, ack) =>
      var body, k := w.main[0].body, s.consumers[c];
      s.(w := if ack.Took() then w.(main := w.main[1..]) else w,
         h := if ack.Took() then h else h.(redelivered := h.redelivered + multiset{body}),
         consumers := s.consumers[c := k.(pc := Opening(body))])
    case Consume(c, reply) => Consumed(cfg, s, c, reply)
    case KillConsumer(c) =>
      var k := s.consumers[c];
      s.(h := NoteCrash(h, k), consumers := s.consumers[c := k.(pc := Idle(Panic))])
    case Find(r, found) => s.(h := h, senders := s.senders[r := Publish(found)])
    case Send(r, reply) =>
      var (w', x) := SenderStep(w, s.senders[r], reply);
      s.(w := w', h := NoteSender(h, s.senders[r], reply), senders := s.senders[r := x])
    case KillSender(r) => s.(h := h, senders := s.senders[r := Publish([])])
    case Scan(m, found) => s.(h := h, monitors := s.monitors[m := Recover(found)])
    case Heal(m, reply) =>
      var (w', x) := MonitorStep(w, s.monitors[m], reply);
      s.(w := w', h := NoteMonitor(h, s.monitors[m], reply), monitors := s.monitors[m := x])
    case KillMonitor(m) => s.(h := h, monitors := s.monitors[m := Recover([])])
  }

  ghost function Apply(cfg: Config, s: State, a: Action): State {
    if Enabled(cfg, s, a) then Do(cfg, s, a) else s
  }

  ghost function Steps(cfg: Config): (State, Action) -> State {
    (s, a) => Apply(cfg, s, a)
  }

  /** The state after a run from the start, with that many actors of each kind. */
  ghost function After(cfg: Config, consumers: nat, senders: nat, monitors: nat, run: seq<Action>): State {
    Exec(Steps(cfg), Init(consumers, senders, monitors), run)
  }
}
