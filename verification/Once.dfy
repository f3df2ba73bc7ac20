/** What the inbox buys: when two webhook calls for one message can both be made. */
module Once {
  import opened Messages
  import opened Delivery
  import opened Protocol

  /** A check precedes every inbox mark of `oid`, or comes a full inbox lifetime after it. */
  ghost predicate Apart(calls: seq<Call>, marks: map<nat, Check>, check: Check, oid: ObjectId) {
    forall i :: i in marks && i < |calls| && calls[i].oid == oid ==> Before(check, marks[i])
  }

  predicate Before(check: Check, mark: Check) {
    check.step < mark.step || mark.at + INBOX_TTL <= check.at
  }

  ghost predicate MarksOk(w: World, h: History) {
    forall i :: i in h.marks ==>
      && i < |w.calls| && h.marks[i].step <= h.step && h.marks[i].at <= w.now
      && Hex(w.calls[i].oid) in w.inbox && h.marks[i].at + INBOX_TTL <= w.inbox[Hex(w.calls[i].oid)]
  }

  ghost predicate ChecksOk(w: World, h: History) {
    && |h.callChecks| == |w.calls|
    && (forall j :: 0 <= j < |w.calls| ==>
          h.callChecks[j].step <= h.step && Apart(w.calls, h.marks, h.callChecks[j], w.calls[j].oid))
  }

  ghost predicate ConsumerOk(w: World, h: History, k: Consumer) {
    && k.check.step <= h.step
    && (k.pc.Load? || k.pc.Gate? || k.pc.Send? ==> Apart(w.calls, h.marks, k.check, k.pc.oid))
    && (k.pc.MarkInbox? ==> k.call < |w.calls| && w.calls[k.call].oid == k.pc.oid)
  }

  ghost predicate OnceInv(s: State) {
    AllOk(s.w, s.h, s.consumers)
  }

  ghost predicate AllOk(w: World, h: History, consumers: seq<Consumer>) {
    MarksOk(w, h) && ChecksOk(w, h) && ConsumersOk(w, h, consumers)
  }

  ghost predicate ConsumersOk(w: World, h: History, consumers: seq<Consumer>) {
    forall c :: 0 <= c < |consumers| ==> ConsumerOk(w, h, consumers[c])
  }

  /** Nothing here is upset by the passing of time. */
  lemma OnceLater(w: World, h: History, w': World, h': History)
    requires MarksOk(w, h) && ChecksOk(w, h)
    requires w'.calls == w.calls && w'.inbox == w.inbox && w'.now >= w.now
    requires h'.marks == h.marks && h'.callChecks == h.callChecks && h'.step >= h.step
    ensures MarksOk(w', h') && ChecksOk(w', h')
    ensures forall k :: ConsumerOk(w, h, k) ==> ConsumerOk(w', h', k)
  {
  }

  /** The step at which the inbox is asked. */
  lemma OnceCheck(w: World, h: History, k: Consumer, reply: Reply, maxRetries: int)
    requires MarksOk(w, h) && ConsumerOk(w, h, k) && k.pc.CheckInbox?
    ensures var h1 := h.(step := h.step + 1);
            var (w', pc') := Step(w, k.pc, reply, maxRetries);
            ConsumerOk(w', Note(h1, w, k, reply), Advance(h1, w, k, pc'))
  {
  }

  lemma OnceCall(w: World, h: History, k: Consumer, reply: Reply, maxRetries: int)
    requires MarksOk(w, h) && ChecksOk(w, h) && ConsumerOk(w, h, k) && k.pc.Send?
    ensures var h1 := h.(step := h.step + 1);
            var (w', pc') := Step(w, k.pc, reply, maxRetries);
            var h' := Note(h1, w, k, reply);
            MarksOk(w', h') && ChecksOk(w', h') && ConsumerOk(w', h', Advance(h1, w, k, pc'))
  {
    var w' := Step(w, k.pc, reply, maxRetries).0;
    assert forall i :: 0 <= i < |w.calls| ==> w'.calls[i] == w.calls[i];
    assert forall i :: i in h.marks ==> w'.calls[i] == w.calls[i];
  }

  lemma OnceMark(w: World, h: History, k: Consumer, reply: Reply, maxRetries: int)
    requires MarksOk(w, h) && ChecksOk(w, h) && ConsumerOk(w, h, k) && k.pc.MarkInbox?
    ensures var h1 := h.(step := h.step + 1);
            var (w', pc') := Step(w, k.pc, reply, maxRetries);
            var h' := Note(h1, w, k, reply);
            MarksOk(w', h') && ChecksOk(w', h') && ConsumerOk(w', h', Advance(h1, w, k, pc'))
  {
  }

  /** The steps in between keep the check they were given. */
  lemma OnceBetween(w: World, h: History, k: Consumer, reply: Reply, maxRetries: int)
    requires ConsumerOk(w, h, k) && !k.pc.CheckInbox? && !k.pc.Send? && !k.pc.MarkInbox?
    ensures var h1 := h.(step := h.step + 1);
            var (w', pc') := Step(w, k.pc, reply, maxRetries);
            && ConsumerOk(w', h1, Advance(h1, w, k, pc'))
            && w'.calls == w.calls && w'.inbox == w.inbox && w'.now == w.now
  {
  }

  lemma OnceLocal(w: World, h: History, k: Consumer, reply: Reply, maxRetries: int)
    requires MarksOk(w, h) && ChecksOk(w, h) && ConsumerOk(w, h, k)
    ensures var h1 := h.(step := h.step + 1);
            var (w', pc') := Step(w, k.pc, reply, maxRetries);
            var h' := Note(h1, w, k, reply);
            MarksOk(w', h') && ChecksOk(w', h') && ConsumerOk(w', h', Advance(h1, w, k, pc'))
  {
    var w', h' := Step(w, k.pc, reply, maxRetries).0, Note(h.(step := h.step + 1), w, k, reply);
    if k.pc.Send? {
      OnceCall(w, h, k, reply, maxRetries);
    } else if k.pc.MarkInbox? {
      OnceMark(w, h, k, reply, maxRetries);
    } else if k.pc.CheckInbox? {
      OnceCheck(w, h, k, reply, maxRetries);
      OnceLater(w, h, w', h');
    } else {
      OnceBetween(w, h, k, reply, maxRetries);
      OnceLater(w, h, w', h');
    }
  }

  /** A step that is neither a webhook call nor a mark. */
  lemma OnceElsewhere(w: World, pc: Pc, reply: Reply, maxRetries: int)
    requires !pc.Send? && !pc.MarkInbox?
    ensures var (w', pc') := Step(w, pc, reply, maxRetries);
            && w'.calls == w.calls && !pc'.MarkInbox?
            && (pc'.Load? || pc'.Gate? || pc'.Send? ==> pc.CheckInbox? || pc.Load? || pc.Gate?)
  {
  }

  /** What a consumer's step does to the things others rely on. */
  lemma OnceEffect(w: World, h: History, k: Consumer, reply: Reply, maxRetries: int)
    ensures var w' := Step(w, k.pc, reply, maxRetries).0;
            var h' := Note(h.(step := h.step + 1), w, k, reply);
            && w.calls <= w'.calls && h'.step == h.step + 1
            && (h'.marks == h.marks
                || (w'.calls == w.calls && h'.marks == h.marks[k.call := Check(h.step + 1, w.now)]))
  {
    if !k.pc.Send? && !k.pc.MarkInbox? {
      OnceElsewhere(w, k.pc, reply, maxRetries);
    }
  }

  /** Neither a longer log nor a mark written after it upsets a check. */
  lemma ApartStays(calls: seq<Call>, marks: map<nat, Check>, calls': seq<Call>, marks': map<nat, Check>,
                   i: nat, mark: Check, check: Check, oid: ObjectId)
    requires Apart(calls, marks, check, oid) && check.step < mark.step
    requires calls <= calls' && forall i :: i in marks ==> i < |calls|
    requires marks' == marks || (calls' == calls && marks' == marks[i := mark])
    ensures Apart(calls', marks', check, oid)
  {
    assert forall i :: i in marks ==> calls'[i] == calls[i];
  }

  lemma OnceKept(w: World, h: History, w': World, h': History, i: nat, mark: Check, other: Consumer)
    requires MarksOk(w, h) && ConsumerOk(w, h, other)
    requires w.calls <= w'.calls && h.step < h'.step && mark.step == h'.step
    requires h'.marks == h.marks || (w'.calls == w.calls && h'.marks == h.marks[i := mark])
    ensures ConsumerOk(w', h', other)
  {
    if other.pc.Load? || other.pc.Gate? || other.pc.Send? {
      ApartStays(w.calls, h.marks, w'.calls, h'.marks, i, mark, other.check, other.pc.oid);
    }
  }

  lemma OnceOthers(w: World, h: History, consumers: seq<Consumer>, k: Consumer, reply: Reply, maxRetries: int)
    requires MarksOk(w, h) && ConsumersOk(w, h, consumers) && ConsumerOk(w, h, k)
    ensures var w' := Step(w, k.pc, reply, maxRetries).0;
            ConsumersOk(w', Note(h.(step := h.step + 1), w, k, reply), consumers)
  {
    OnceEffect(w, h, k, reply, maxRetries);
    var w', h' := Step(w, k.pc, reply, maxRetries).0, Note(h.(step := h.step + 1), w, k, reply);
    forall d | 0 <= d < |consumers|
      ensures ConsumerOk(w', h', consumers[d])
    {
      OnceKept(w, h, w', h', k.call, Check(h.step + 1, w.now), consumers[d]);
    }
  }

  lemma OnceUpdate(w: World, h: History, consumers: seq<Consumer>, c: nat, k: Consumer)
    requires ConsumersOk(w, h, consumers) && ConsumerOk(w, h, k) && c < |consumers|
    ensures ConsumersOk(w, h, consumers[c := k])
  {
  }

  lemma OnceConsumers(w: World, h: History, consumers: seq<Consumer>, c: nat, reply: Reply, maxRetries: int)
    requires AllOk(w, h, consumers) && c < |consumers|
    ensures var h1 := h.(step := h.step + 1);
            var (w', pc') := Step(w, consumers[c].pc, reply, maxRetries);
            var h' := Note(h1, w, consumers[c], reply);
            AllOk(w', h', consumers[c := Advance(h1, w, consumers[c], pc')])
  {
    var h1, k := h.(step := h.step + 1), consumers[c];
    var x := Step(w, k.pc, reply, maxRetries);
    OnceLocal(w, h, k, reply, maxRetries);
    OnceOthers(w, h, consumers, k, reply, maxRetries);
    OnceUpdate(x.0, Note(h1, w, k, reply), consumers, c, Advance(h1, w, k, x.1));
  }

  lemma OnceConsume(cfg: Config, s: State, c: nat, reply: Reply)
    requires OnceInv(s) && c < |s.consumers|
    ensures OnceInv(Consumed(cfg, s, c, reply))
  {
    OnceConsumers(s.w, s.h, s.consumers, c, reply, cfg.maxRetries);
    var s', h1, k := Consumed(cfg, s, c, reply), s.h.(step := s.h.step + 1), s.consumers[c];
    assert s'.consumers == s.consumers[c := Advance(h1, s.w, k, Step(s.w, k.pc, reply, cfg.maxRetries).1)];
    assert s'.w == Step(s.w, k.pc, reply, cfg.maxRetries).0 && s'.h == Note(h1, s.w, k, reply);
  }

  /** A step that is not a consumer's own: time passes, and consumers start or stop. */
  ghost predicate Quiet(s: State, s': State) {
    && s'.w.calls == s.w.calls && s'.w.inbox == s.w.inbox && s'.w.now >= s.w.now
    && s'.h.marks == s.h.marks && s'.h.callChecks == s.h.callChecks && s'.h.step >= s.h.step
    && |s'.consumers| == |s.consumers|
    && (forall c :: 0 <= c < |s.consumers| ==>
          s'.consumers[c] == s.consumers[c] || Restarted(s.consumers[c], s'.consumers[c], s'.h.unmarked))
    && s'.h.unmarked >= s.h.unmarked
  }

  predicate Restarted(k: Consumer, k': Consumer, unmarked: set<nat>) {
    && k'.check == k.check && k'.call == k.call
    && (k.pc.MarkInbox? ==> k.call in unmarked)
    && (k'.pc.Idle? || k'.pc.CheckInbox? || k'.pc.BuryPoison?)
  }

  lemma QuietRestart(cfg: Config, s: State, a: Action)
    requires Enabled(cfg, s, a) && (a.Deliver? || a.KillConsumer?)
    ensures Quiet(s, Do(cfg, s, a))
  {
  }

  lemma QuietSend(cfg: Config, s: State, a: Action)
    requires Enabled(cfg, s, a) && a.Send?
    ensures Quiet(s, Do(cfg, s, a))
  {
    assert Do(cfg, s, a).consumers == s.consumers;
  }

  lemma QuietHeal(cfg: Config, s: State, a: Action)
    requires Enabled(cfg, s, a) && a.Heal?
    ensures Quiet(s, Do(cfg, s, a))
  {
    assert Do(cfg, s, a).consumers == s.consumers;
  }

  lemma QuietElsewhere(cfg: Config, s: State, a: Action)
    requires Enabled(cfg, s, a) && !a.Deliver? && !a.KillConsumer? && !a.Send? && !a.Heal? && !a.Consume?
    ensures Quiet(s, Do(cfg, s, a))
  {
    assert Do(cfg, s, a).consumers == s.consumers;
  }

  lemma QuietStep(cfg: Config, s: State, a: Action)
    requires Enabled(cfg, s, a) && !a.Consume?
    ensures Quiet(s, Do(cfg, s, a))
  {
    if a.Deliver? || a.KillConsumer? {
      QuietRestart(cfg, s, a);
    } else if a.Send? {
      QuietSend(cfg, s, a);
    } else if a.Heal? {
      QuietHeal(cfg, s, a);
    } else {
      QuietElsewhere(cfg, s, a);
    }
  }

  lemma OnceQuiet(s: State, s': State)
    requires OnceInv(s) && Quiet(s, s')
    ensures OnceInv(s')
  {
    OnceLater(s.w, s.h, s'.w, s'.h);
    forall d | 0 <= d < |s'.consumers|
      ensures ConsumerOk(s'.w, s'.h, s'.consumers[d])
    {
      assert ConsumerOk(s'.w, s'.h, s.consumers[d]);
    }
  }

  lemma OnceStep(cfg: Config, s: State, a: Action)
    requires OnceInv(s)
    ensures OnceInv(Apply(cfg, s, a))
  {
    if Enabled(cfg, s, a) {
      if a.Consume? {
        OnceConsume(cfg, s, a.c, a.reply);
      } else {
        QuietStep(cfg, s, a);
        OnceQuiet(s, Do(cfg, s, a));
      }
    }
  }

  // ---- the history is of the past

  ghost predicate BooksInv(s: State) {
    && PastCalls(s.w, s.h)
    && (forall c :: 0 <= c < |s.consumers| ==> s.consumers[c].check.at <= s.w.now)
  }

  ghost predicate PastCalls(w: World, h: History) {
    && (forall j :: 0 <= j < |h.callChecks| ==> h.callChecks[j].at <= w.now)
    && (forall i :: i in h.unmarked ==> i < |w.calls|)
  }

  lemma NowStays(w: World, pc: Pc, reply: Reply, maxRetries: int)
    ensures Step(w, pc, reply, maxRetries).0.now == w.now
  {
  }

  lemma BooksNote(w: World, h: History, k: Consumer, reply: Reply)
    requires PastCalls(w, h) && k.check.at <= w.now && (k.pc.MarkInbox? ==> k.call < |w.calls|)
    ensures PastCalls(w, Note(h, w, k, reply))
  {
  }

  lemma BooksLocal(w: World, h: History, k: Consumer, reply: Reply, maxRetries: int)
    requires PastCalls(w, h) && k.check.at <= w.now && ConsumerOk(w, h, k)
    ensures var h1 := h.(step := h.step + 1);
            var (w', pc') := Step(w, k.pc, reply, maxRetries);
            PastCalls(w', Note(h1, w, k, reply)) && Advance(h1, w, k, pc').check.at <= w.now && w'.now == w.now
  {
    OnceEffect(w, h, k, reply, maxRetries);
    NowStays(w, k.pc, reply, maxRetries);
    BooksNote(w, h.(step := h.step + 1), k, reply);
  }

  lemma BooksConsume(cfg: Config, s: State, c: nat, reply: Reply)
    requires BooksInv(s) && OnceInv(s) && c < |s.consumers|
    ensures BooksInv(Consumed(cfg, s, c, reply))
  {
    var s', h1, k := Consumed(cfg, s, c, reply), s.h.(step := s.h.step + 1), s.consumers[c];
    BooksLocal(s.w, s.h, k, reply, cfg.maxRetries);
    assert s'.consumers == s.consumers[c := Advance(h1, s.w, k, Step(s.w, k.pc, reply, cfg.maxRetries).1)];
    assert s'.w == Step(s.w, k.pc, reply, cfg.maxRetries).0 && s'.h == Note(h1, s.w, k, reply);
  }

  lemma BooksKill(cfg: Config, s: State, c: nat)
    requires BooksInv(s) && OnceInv(s) && Enabled(cfg, s, KillConsumer(c))
    ensures BooksInv(Do(cfg, s, KillConsumer(c)))
  {
    assert ConsumerOk(s.w, s.h, s.consumers[c]);
  }

  lemma BooksElsewhere(cfg: Config, s: State, a: Action)
    requires BooksInv(s) && Enabled(cfg, s, a) && !a.Consume? && !a.KillConsumer?
    ensures BooksInv(Do(cfg, s, a))
  {
    assert PastCalls(s.w, s.h);
    QuietStep(cfg, s, a);
  }

  lemma BooksStep(cfg: Config, s: State, a: Action)
    requires BooksInv(s) && OnceInv(s)
    ensures BooksInv(Apply(cfg, s, a))
  {
    if Enabled(cfg, s, a) {
      match a
      case Consume(c, reply) => BooksConsume(cfg, s, c, reply);
      case KillConsumer(c) => BooksKill(cfg, s, c);
      case _ => BooksElsewhere(cfg, s, a);
    }
  }

  // ---- one consumer

  /** With one consumer a call, its mark, and the next check follow each other. */
  ghost predicate OneInv(s: State) {
    |s.consumers| == 1 ==> One(s.w.calls, s.h, s.consumers[0])
  }

  ghost predicate One(calls: seq<Call>, h: History, k: Consumer) {
    && OneMarks(h.callChecks, h.marks, h.step) && |h.callChecks| == |calls|
    && OneConsumer(calls, h.marks, h.unmarked, k)
  }

  ghost predicate OneMarks(callChecks: seq<Check>, marks: map<nat, Check>, step: nat) {
    && (forall i, j :: i in marks && i < j < |callChecks| ==> marks[i].step < callChecks[j].step)
    && (forall i :: i in marks ==> marks[i].step <= step)
  }

  ghost predicate OneConsumer(calls: seq<Call>, marks: map<nat, Check>, unmarked: set<nat>, k: Consumer) {
    && (k.pc.MarkInbox? ==> k.call + 1 == |calls|)
    && (k.pc.Load? || k.pc.Gate? || k.pc.Send? ==> forall i :: i in marks ==> marks[i].step < k.check.step)
    && (forall j :: 0 <= j < |calls| && calls[j].ok ==>
          j in marks || j in unmarked || (k.pc.MarkInbox? && k.call == j))
  }

  lemma OneCall(w: World, h: History, k: Consumer, reply: Reply, maxRetries: int)
    requires One(w.calls, h, k) && (k.pc.Send? || k.pc.MarkInbox?)
    ensures var h1 := h.(step := h.step + 1);
            var (w', pc') := Step(w, k.pc, reply, maxRetries);
            One(w'.calls, Note(h1, w, k, reply), Advance(h1, w, k, pc'))
  {
  }

  lemma OneLocal(w: World, h: History, k: Consumer, reply: Reply, maxRetries: int)
    requires One(w.calls, h, k)
    ensures var h1 := h.(step := h.step + 1);
            var (w', pc') := Step(w, k.pc, reply, maxRetries);
            One(w'.calls, Note(h1, w, k, reply), Advance(h1, w, k, pc'))
  {
    if k.pc.Send? || k.pc.MarkInbox? {
      OneCall(w, h, k, reply, maxRetries);
    } else {
      OnceElsewhere(w, k.pc, reply, maxRetries);
    }
  }

  lemma OneConsume(cfg: Config, s: State, c: nat, reply: Reply)
    requires OneInv(s) && Enabled(cfg, s, Consume(c, reply))
    ensures OneInv(Consumed(cfg, s, c, reply))
  {
    if |s.consumers| == 1 {
      OneLocal(s.w, s.h, s.consumers[0], reply, cfg.maxRetries);
    }
  }

  lemma OneQuiet(s: State, s': State)
    requires OneInv(s) && Quiet(s, s')
    ensures OneInv(s')
  {
  }

  lemma OneStep(cfg: Config, s: State, a: Action)
    requires OneInv(s)
    ensures OneInv(Apply(cfg, s, a))
  {
    if Enabled(cfg, s, a) {
      if a.Consume? {
        OneConsume(cfg, s, a.c, a.reply);
      } else {
        QuietStep(cfg, s, a);
        OneQuiet(s, Do(cfg, s, a));
      }
    }
  }
}
