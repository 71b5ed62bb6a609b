// Timer protocol: the life of a delegate from start() to its deletion, across every step.
module TimerLifetime {
  import opened Options
  import opened TimerCore
  import opened TimerProtocol
  import opened TimerConservation
  import opened TimerWakeup
  import HT = HeapTree

  // Everything there is to know about one delegate: whether its push or remove message is
  // queued, how often the heap holds it, whether the worker holds it as the popped timer or as
  // the one to delete next, and how its timer stands to it.
  datatype Facts = Facts(pushQueued: bool, removeQueued: bool, inHeap: nat, held: bool, deleting: bool,
                         pushes: nat, deletes: nat, active: bool, stopping: bool, nulled: bool)

  predicate Active(s: State, d: Delegate) {
    && d.client in s.timers
    && (s.timers[d.client].running == Some(d) || s.timers[d.client].phase == Starting(d))
  }

  predicate StoppingNow(s: State, d: Delegate) {
    && d.client in s.timers
    && s.timers[d.client].phase.Stopping? && s.timers[d.client].phase.d == d
  }

  predicate Held(w: Worker, d: Delegate) {
    match w
    case Expiring(_, _, t) => t == d
    case Asking(_, _, t) => t == d
    case AskWait(_, _, t) => t == d
    case _ => false
  }

  predicate Deleting(w: Worker, d: Delegate) { w.Calling? && w.deleting == Some(d) }

  function FactsOf(s: State, d: Delegate): Facts {
    Facts(MPush(d) in s.queue, MRemove(d) in s.queue, HT.Elements(s.At(d.wake).heap)[d],
          Held(s.worker, d), Deleting(s.worker, d),
          s.pushed[d], s.deleted[d], Active(s, d), StoppingNow(s, d), d in s.nulled)
  }

  // A delegate is in one place at a time: on its way to the heap, in it once, or popped; it is
  // pushed exactly once; it goes through active, stopping, remove queued, about to be deleted and
  // deleted once, in exactly one of these stages at a time; nothing refers to a deleted one.
  predicate Sound(f: Facts) {
    && f.pushes + Bit(f.pushQueued) == 1
    && (f.pushQueued ==> f.inHeap == 0 && !f.held && !f.deleting && f.deletes == 0)
    && f.inHeap <= 1
    && (f.inHeap == 1 ==> !f.held && !f.deleting && f.deletes == 0)
    && (f.held ==> !f.deleting && f.deletes == 0)
    && (f.active ==> f.pushQueued || f.inHeap == 1 || f.held)
    && (f.active ==> !f.stopping)
    && Bit(f.active) + Bit(f.stopping) + Bit(f.removeQueued) + Bit(f.deleting) + f.deletes == 1
    && (f.nulled <==> !f.active)
  }

  // Of two queued messages about one delegate the first is its push and the second its remove.
  predicate InOrder(m: Msg, m': Msg) {
    !m.MExpire? && !m'.MExpire? && m.d == m'.d ==> m.MPush? && m'.MRemove?
  }

  ghost predicate QueueOk(q: seq<Msg>) {
    forall i, j :: 0 <= i < j < |q| ==> InOrder(q[i], q[j])
  }

  // Every delegate mentioned anywhere was created, and belongs where it is mentioned.
  ghost predicate RefsOk(s: State) {
    && (forall m :: m in s.queue && !m.MExpire? ==> m.d in s.created)
    && (forall k, d :: d in HT.Elements(s.At(k).heap) ==> d in s.created && d.wake == k)
    && (forall d :: Held(s.worker, d) || Deleting(s.worker, d) ==> d in s.created)
    && s.nulled <= s.created && (forall d :: d in s.pushed || d in s.deleted ==> d in s.created)
    && (forall d :: d in s.created ==> d.client in s.timers && d.id < s.nextId)
  }

  // A timer's own delegate was created for it; a dead timer is idle, and the worker uses none.
  ghost predicate TimersOk(s: State) {
    && (forall c :: c in s.timers ==>
          var t := s.timers[c];
          && (t.running.Some? ==> t.phase.Unlocked? && t.running.value in s.created && t.running.value.client == c)
          && (!t.phase.Unlocked? ==> t.phase.d in s.created && t.phase.d.client == c)
          && (!t.alive ==> t.phase.Unlocked? && t.running.None?))
    && (Using(s.worker).Some? ==>
          Using(s.worker).value in s.timers && s.timers[Using(s.worker).value].alive)
    && (s.worker.AskWait? ==> s.timers[s.worker.timer.client].phase.Stopping?)
  }

  ghost predicate FactsOk(s: State) {
    forall d :: d in s.created ==> Sound(FactsOf(s, d))
  }

  ghost predicate Living(s: State) {
    QueueOk(s.queue) && RefsOk(s) && TimersOk(s) && FactsOk(s)
  }

  // A change that leaves queue, heaps, worker and the sets of delegates alone, apart from clearing
  // the client pointer of one delegate.
  ghost predicate OnlyTimers(s: State, s': State) {
    && s'.queue == s.queue && s'.sw == s.sw && s'.hw == s.hw && s'.worker == s.worker
    && s'.created == s.created && s'.pushed == s.pushed && s'.deleted == s.deleted && s'.nextId == s.nextId
    && s.timers.Keys <= s'.timers.Keys
  }

  lemma OnlyTimersRefs(s: State, s': State)
    requires RefsOk(s) && OnlyTimers(s, s') && s'.nulled <= s.created
    ensures RefsOk(s')
  {
    hide HT.Elements, Held, Deleting;
    assert forall k :: s'.At(k) == s.At(k);
  }

  lemma OnlyTimersFacts(s: State, s': State, d: Delegate)
    requires OnlyTimers(s, s')
    ensures FactsOf(s', d)
         == FactsOf(s, d).(active := Active(s', d), stopping := StoppingNow(s', d), nulled := d in s'.nulled)
  {
    hide HT.Elements, Held, Deleting, Active, StoppingNow;
  }

  // --- clients ---

  lemma StartBeginRefs(s: State, c: nat, ms: nat, wake: bool)
    requires RefsOk(s) && ClientEnabled(s, StartBegin(c, ms, wake)) && s.timers[c].running.None?
    ensures RefsOk(ClientNext(s, StartBegin(c, ms, wake)))
  {
    hide FutureTime, HT.Elements, Held, Deleting;
    var d0 := NewDelegate(s, c, ms, wake);
    var s' := ClientNext(s, StartBegin(c, ms, wake));
    assert forall m :: m in s'.queue <==> m in s.queue || m == MPush(d0);
    assert forall k :: s'.At(k) == s.At(k);
  }

  lemma AppendInOrder(q: seq<Msg>, m: Msg)
    requires QueueOk(q) && forall m' :: m' in q ==> InOrder(m', m)
    ensures QueueOk(q + [m])
  {
  }

  lemma StartBeginFacts(s: State, c: nat, ms: nat, wake: bool)
    requires RefsOk(s) && TimersOk(s) && FactsOk(s)
    requires ClientEnabled(s, StartBegin(c, ms, wake)) && s.timers[c].running.None?
    ensures FactsOk(ClientNext(s, StartBegin(c, ms, wake)))
  {
    hide FutureTime, HT.Elements, Sound, Held, Deleting;
    var s' := ClientNext(s, StartBegin(c, ms, wake));
    var d0 := NewDelegate(s, c, ms, wake);
    assert d0 !in s.created;
    assert MPush(d0) in s'.queue;
    assert forall m :: m in s'.queue <==> m in s.queue || m == MPush(d0);
    forall d | d in s'.created ensures Sound(FactsOf(s', d)) {
      if d == d0 {
        assert d0 !in HT.Elements(s.At(wake).heap) && MRemove(d0) !in s.queue;
        NewIsSound();
        assert FactsOf(s', d0) == Facts(true, false, 0, false, false, 0, 0, true, false, false);
      } else {
        assert FactsOf(s', d) == FactsOf(s, d);
      }
    }
  }

  lemma NewIsSound()
    ensures Sound(Facts(true, false, 0, false, false, 0, 0, true, false, false))
  {
  }

  lemma StartBeginLives(s: State, c: nat, ms: nat, wake: bool)
    requires Living(s) && ClientEnabled(s, StartBegin(c, ms, wake)) && s.timers[c].running.None?
    ensures Living(ClientNext(s, StartBegin(c, ms, wake)))
  {
    hide FutureTime, HT.Elements, QueueOk, FactsOk;
    var d0 := NewDelegate(s, c, ms, wake);
    StartBeginRefs(s, c, ms, wake);
    StartBeginFacts(s, c, ms, wake);
    assert d0 !in s.created;
    AppendInOrder(s.queue, MPush(d0));
  }

  lemma StartEndLives(s: State, c: nat)
    requires Living(s) && ClientEnabled(s, StartEnd(c))
    ensures Living(ClientNext(s, StartEnd(c)))
  {
    hide HT.Elements, Held, Deleting, RefsOk, FactsOf;
    var s' := ClientNext(s, StartEnd(c));
    NulledCreated(s);
    OnlyTimersRefs(s, s');
    forall d | d in s'.created ensures Sound(FactsOf(s', d)) {
      OnlyTimersFacts(s, s', d);
      OnlyTimersFacts(s, s, d);
      assert FactsOf(s', d) == FactsOf(s, d);
    }
  }

  lemma BeginStopLives(s: State, c: nat, byWorker: bool)
    requires Living(s) && c in s.timers && s.timers[c].running.Some? && s.timers[c].alive
    ensures Living(BeginStop(s, c, byWorker))
  {
    hide HT.Elements, Held, Deleting, RefsOk, FactsOf;
    var s' := BeginStop(s, c, byWorker);
    var d0 := s.timers[c].running.value;
    NulledCreated(s);
    OnlyTimersRefs(s, s');
    forall d | d in s'.created ensures Sound(FactsOf(s', d)) {
      OnlyTimersFacts(s, s', d);
      OnlyTimersFacts(s, s, d);
    }
  }

  lemma NulledCreated(s: State)
    requires RefsOk(s)
    ensures s.nulled <= s.created
  {
  }

  lemma EndStopRefs(s: State, c: nat)
    requires RefsOk(s) && TimersOk(s) && c in s.timers && s.timers[c].phase.Stopping?
    ensures RefsOk(EndStop(s, c))
  {
    hide HT.Elements, Held, Deleting;
    var d0 := s.timers[c].phase.d;
    assert forall m :: m in EndStop(s, c).queue <==> m in s.queue || m == MRemove(d0);
    assert forall k :: EndStop(s, c).At(k) == s.At(k);
  }

  lemma EndStopActive(s: State, c: nat, d: Delegate)
    requires TimersOk(s) && c in s.timers && s.timers[c].phase.Stopping?
    ensures var s' := EndStop(s, c);
            && Active(s', d) == Active(s, d)
            && StoppingNow(s', d) == (StoppingNow(s, d) && d != s.timers[c].phase.d)
            && (d == s.timers[c].phase.d ==> StoppingNow(s, d) && d in s.created)
  {
  }

  lemma EndStopFacts(s: State, c: nat)
    requires Living(s) && c in s.timers && s.timers[c].phase.Stopping?
    ensures QueueOk(EndStop(s, c).queue) && RefsOk(EndStop(s, c)) && FactsOk(EndStop(s, c))
  {
    hide HT.Elements, Held, Deleting, QueueOk, Active, StoppingNow, Sound, RefsOk, TimersOk;
    EndStopRefs(s, c);
    var s' := EndStop(s, c);
    var d0 := s.timers[c].phase.d;
    EndStopActive(s, c, d0);
    assert forall m :: m in s'.queue <==> m in s.queue || m == MRemove(d0);
    assert forall k :: s'.At(k) == s.At(k);
    AppendInOrder(s.queue, MRemove(d0)) by { NoneAfterRemove(s, d0); }
    forall d | d in s'.created ensures Sound(FactsOf(s', d)) {
      EndStopActive(s, c, d);
      if d == d0 {
        RemoveSent(FactsOf(s, d0));
        assert FactsOf(s', d0) == FactsOf(s, d0).(stopping := false, removeQueued := true);
      } else {
        assert FactsOf(s', d) == FactsOf(s, d);
      }
    }
  }

  lemma RemoveSent(f: Facts)
    requires Sound(f) && f.stopping
    ensures Sound(f.(stopping := false, removeQueued := true)) && !f.removeQueued
  {
  }

  lemma NoneAfterRemove(s: State, d: Delegate)
    requires FactsOk(s) && d in s.created && StoppingNow(s, d)
    ensures forall m :: m in s.queue ==> InOrder(m, MRemove(d))
  {
    hide HT.Elements, Active, StoppingNow, Sound;
    RemoveSent(FactsOf(s, d));
  }

  lemma StopEndLives(s: State, c: nat)
    requires Living(s) && ClientEnabled(s, StopEnd(c)) && Conservation(s)
    ensures Living(ClientNext(s, StopEnd(c)))
  {
    hide HT.Elements, Held, Deleting, RefsOk, FactsOf, QueueOk;
    var s1 := EndStop(s, c);
    var s' := ClientNext(s, StopEnd(c));
    EndStopFacts(s, c);
    NulledCreated(s1);
    OnlyTimersRefs(s1, s');
    forall d | d in s'.created ensures Sound(FactsOf(s', d)) {
      OnlyTimersFacts(s1, s', d);
      OnlyTimersFacts(s1, s1, d);
    }
  }

  lemma OtherClientLives(s: State, step: ClientStep)
    requires Living(s) && ClientEnabled(s, step) && (step.NewTimer? || step.Destroy?)
    ensures Living(ClientNext(s, step))
  {
    hide HT.Elements, Held, Deleting, RefsOk, FactsOf, QueueOk, Sound;
    var s' := ClientNext(s, step);
    NulledCreated(s);
    OnlyTimersRefs(s, s');
    CreatedClients(s);
    forall d | d in s'.created ensures Sound(FactsOf(s', d)) {
      OnlyTimersFacts(s, s', d);
      OnlyTimersFacts(s, s, d);
    }
  }

  lemma CreatedClients(s: State)
    requires RefsOk(s)
    ensures forall d :: d in s.created ==> d.client in s.timers
  {
  }

  lemma ClientLives(s: State, step: ClientStep)
    requires Living(s) && HeapsOk(s) && Conservation(s) && ClientEnabled(s, step)
    ensures Living(ClientNext(s, step))
  {
    hide Living, HeapsOk, Conservation;
    match step
    case StartBegin(c, ms, wake) => if s.timers[c].running.None? { StartBeginLives(s, c, ms, wake); }
    case StartEnd(c) => StartEndLives(s, c);
    case StopBegin(c) => if s.timers[c].running.Some? { BeginStopLives(s, c, false); }
    case StopEnd(c) => StopEndLives(s, c);
    case _ => OtherClientLives(s, step);
  }

  // --- poll thread and clock ---

  // Only messages of the expiry kind come or go, and heaps and delegates stay as they are.
  ghost predicate OnlyExpiries(s: State, s': State) {
    && (forall m: Msg :: !m.MExpire? ==> (m in s'.queue <==> m in s.queue))
    && (forall k :: s'.At(k).heap == s.At(k).heap)
    && s'.timers == s.timers && s'.nextId == s.nextId
    && s'.created == s.created && s'.nulled == s.nulled && s'.pushed == s.pushed && s'.deleted == s.deleted
  }

  lemma OnlyExpiriesRefs(s: State, s': State)
    requires RefsOk(s) && OnlyExpiries(s, s')
    requires forall d :: Held(s'.worker, d) || Deleting(s'.worker, d) ==> Held(s.worker, d) || Deleting(s.worker, d)
    ensures RefsOk(s')
  {
    hide HT.Elements, Held, Deleting;
  }

  lemma OnlyExpiriesFacts(s: State, s': State, d: Delegate)
    requires OnlyExpiries(s, s')
    ensures FactsOf(s', d) == FactsOf(s, d).(held := Held(s'.worker, d), deleting := Deleting(s'.worker, d))
  {
    hide HT.Elements, Held, Deleting, Active, StoppingNow;
    ActiveFrame(s, s', d);
    assert MPush(d) in s'.queue <==> MPush(d) in s.queue;
    assert MRemove(d) in s'.queue <==> MRemove(d) in s.queue;
    assert s'.At(d.wake).heap == s.At(d.wake).heap;
  }

  lemma PollLives(s: State, step: PollStep)
    requires Living(s) && PollEnabled(s, step)
    ensures Living(PollNext(s, step))
  {
    hide HT.Elements, Held, Deleting, QueueOk, FactsOf, Sound, RefsOk;
    var s' := PollNext(s, step);
    if step.SendExpire? {
      AppendInOrder(s.queue, MExpire(s.poll.events[0]));
    }
    assert OnlyExpiries(s, s');
    hide OnlyExpiries;
    OnlyExpiriesRefs(s, s');
    forall d | d in s'.created ensures Sound(FactsOf(s', d)) {
      OnlyExpiriesFacts(s, s', d);
      OnlyExpiriesFacts(s, s, d) by { OnlyExpiriesRefl(s); }
    }
  }

  lemma OnlyExpiriesRefl(s: State)
    ensures OnlyExpiries(s, s)
  {
  }

  lemma ActiveFrame(s: State, s': State, d: Delegate)
    requires s'.timers == s.timers
    ensures Active(s', d) == Active(s, d) && StoppingNow(s', d) == StoppingNow(s, d)
  {
  }

  lemma TickLives(s: State, t: Time)
    requires Living(s)
    ensures Living(s.(now := t))
  {
    hide HT.Elements, Held, Deleting, FactsOf, RefsOk;
    var s' := s.(now := t);
    NulledCreated(s);
    OnlyTimersRefs(s, s');
    forall d | d in s'.created ensures Sound(FactsOf(s', d)) {
      OnlyTimersFacts(s, s', d);
      OnlyTimersFacts(s, s, d);
    }
  }

  // --- the worker ---

  // The rest of the queue is in order, and has no other message of the same kind about the
  // delegate of the first one, nor a push after its remove.
  lemma FirstMessage(q: seq<Msg>)
    requires q != [] && QueueOk(q)
    ensures QueueOk(q[1..])
    ensures forall m :: m in q <==> m == q[0] || m in q[1..]
    ensures q[0].MPush? ==> q[0] !in q[1..]
    ensures q[0].MRemove? ==> q[0] !in q[1..] && MPush(q[0].d) !in q[1..]
  {
    assert q == [q[0]] + q[1..];
    forall j | 0 < j < |q| ensures InOrder(q[0], q[j]) {
    }
    forall i, j | 0 <= i < j < |q[1..]| ensures InOrder(q[1..][i], q[1..][j]) {
      assert InOrder(q[i + 1], q[j + 1]);
    }
  }

  // Taking a push or remove message about d0 touches nothing but d0's place in the heap.
  ghost predicate TookMessage(s: State, s': State, d0: Delegate) {
    && s.worker.Idle? && s'.worker.Calling? && (s'.worker.deleting == None || s'.worker.deleting == Some(d0))
    && s'.timers == s.timers && s'.nextId == s.nextId
    && s'.created == s.created && s'.nulled == s.nulled && s'.deleted == s.deleted
    && (s'.pushed == s.pushed || s'.pushed == s.pushed + multiset{d0})
    && s'.At(!d0.wake) == s.At(!d0.wake)
    && (forall d :: d != d0 ==>
          && (MPush(d) in s'.queue <==> MPush(d) in s.queue) && (MRemove(d) in s'.queue <==> MRemove(d) in s.queue)
          && HT.Elements(s'.At(d0.wake).heap)[d] == HT.Elements(s.At(d0.wake).heap)[d])
  }

  lemma TookMessageFacts(s: State, s': State, d0: Delegate)
    requires FactsOk(s) && TookMessage(s, s', d0) && Sound(FactsOf(s', d0))
    ensures FactsOk(s')
  {
    hide HT.Elements, Active, StoppingNow, Sound;
    forall d | d in s'.created ensures Sound(FactsOf(s', d)) {
      ActiveFrame(s, s', d);
      if d != d0 {
        assert FactsOf(s', d) == FactsOf(s, d);
      }
    }
  }

  lemma TookMessageRefs(s: State, s': State, d0: Delegate)
    requires RefsOk(s) && TookMessage(s, s', d0) && d0 in s.created
    requires forall m :: m in s'.queue ==> m in s.queue
    ensures RefsOk(s')
  {
    hide HT.Elements;
    forall k, d | d in HT.Elements(s'.At(k).heap) ensures d in s'.created && d.wake == k {
      if d != d0 || k != d0.wake {
        assert d in HT.Elements(s.At(k).heap);
      }
    }
  }

  lemma TookMessageTimers(s: State, s': State, d0: Delegate)
    requires TimersOk(s) && TookMessage(s, s', d0)
    ensures TimersOk(s')
  {
    hide HT.Elements;
  }

  lemma TookMessageLives(s: State, s': State, d0: Delegate)
    requires Living(s) && TookMessage(s, s', d0) && d0 in s.created && QueueOk(s'.queue)
    requires forall m :: m in s'.queue ==> m in s.queue
    requires Sound(FactsOf(s', d0))
    ensures Living(s')
  {
    hide FactsOk, RefsOk, TimersOk, QueueOk, TookMessage, FactsOf, Sound;
    TookMessageFacts(s, s', d0);
    TookMessageRefs(s, s', d0);
    TookMessageTimers(s, s', d0);
  }

  lemma ReceivePushLives(s: State, d0: Delegate)
    requires Living(s) && HeapsOk(s) && s.worker.Idle? && s.queue != [] && s.queue[0] == MPush(d0)
    ensures Living(WorkerNext(s, Receive))
  {
    hide HT.Elements, QueueOk, PushMsg, Active, StoppingNow, Checked, RefsOk, TimersOk, Sound, FactsOf;
    var s' := WorkerNext(s, Receive);
    FirstMessage(s.queue);
    PushMsgCalls(s.At(d0.wake).heap, d0);
    CreatedIfQueued(s, s.queue[0]);
    assert TookMessage(s, s', d0);
    hide TookMessage;
    PushedFacts(s, s', d0);
    TookMessageLives(s, s', d0);
  }

  lemma PushedFacts(s: State, s': State, d0: Delegate)
    requires Sound(FactsOf(s, d0)) && MPush(d0) in s.queue && MPush(d0) !in s'.queue
    requires MRemove(d0) in s'.queue <==> MRemove(d0) in s.queue
    requires s'.timers == s.timers && s'.nulled == s.nulled && s'.deleted == s.deleted
    requires s'.pushed == s.pushed + multiset{d0}
    requires s.worker.Idle? && s'.worker.Calling? && s'.worker.deleting == None
    requires HT.Elements(s'.At(d0.wake).heap) == HT.Elements(s.At(d0.wake).heap) + multiset{d0}
    ensures Sound(FactsOf(s', d0))
  {
    hide HT.Elements, Active, StoppingNow, Sound;
    ActiveFrame(s, s', d0);
    PushTaken(FactsOf(s, d0));
    assert FactsOf(s', d0) == FactsOf(s, d0).(pushQueued := false, inHeap := 1, pushes := 1);
  }

  lemma PushTaken(f: Facts)
    requires Sound(f) && f.pushQueued
    ensures f.inHeap == 0 && f.pushes == 0 && !f.held && !f.deleting
    ensures Sound(f.(pushQueued := false, inHeap := 1, pushes := 1))
  {
  }

  lemma RemoveTaken(f: Facts)
    requires Sound(f) && f.removeQueued && !f.pushQueued && !f.held
    ensures f.inHeap <= 1 && !f.deleting
    ensures Sound(f.(removeQueued := false, inHeap := 0, deleting := true))
  {
  }

  lemma RemovedFacts(s: State, s': State, d0: Delegate)
    requires Sound(FactsOf(s, d0)) && MRemove(d0) in s.queue && MRemove(d0) !in s'.queue
    requires MPush(d0) !in s.queue && MPush(d0) !in s'.queue
    requires s'.timers == s.timers && s'.nulled == s.nulled && s'.pushed == s.pushed && s'.deleted == s.deleted
    requires s.worker.Idle? && s'.worker.Calling? && s'.worker.deleting == Some(d0)
    requires HT.Elements(s'.At(d0.wake).heap) == HT.Elements(s.At(d0.wake).heap) - multiset{d0}
    ensures Sound(FactsOf(s', d0))
  {
    hide HT.Elements, Active, StoppingNow, Sound;
    ActiveFrame(s, s', d0);
    RemoveTaken(FactsOf(s, d0));
    assert FactsOf(s', d0) == FactsOf(s, d0).(removeQueued := false, inHeap := 0, deleting := true);
  }

  lemma ReceiveRemoveLives(s: State, d0: Delegate)
    requires Living(s) && HeapsOk(s) && s.worker.Idle? && s.queue != [] && s.queue[0] == MRemove(d0)
    ensures Living(WorkerNext(s, Receive))
  {
    hide HT.Elements, QueueOk, RemoveMsg, Active, StoppingNow, Checked, RefsOk, TimersOk, Sound, FactsOf;
    var s' := WorkerNext(s, Receive);
    FirstMessage(s.queue);
    RemoveMsgCalls(s.At(d0.wake).heap, d0);
    CreatedIfQueued(s, s.queue[0]);
    assert TookMessage(s, s', d0);
    hide TookMessage;
    RemovedFacts(s, s', d0);
    TookMessageLives(s, s', d0);
  }

  lemma CreatedIfQueued(s: State, m: Msg)
    requires RefsOk(s) && m in s.queue && !m.MExpire?
    ensures m.d in s.created
  {
  }

  // The worker, free of any delegate, pops the top.
  lemma PopTopRefs(s: State, k: bool, now: Time)
    requires RefsOk(s) && HeapsOk(s) && s.At(k).heap.Node?
    ensures RefsOk(PopTop(s, k, now))
  {
    hide HT.Elements, HT.Pop, Checked, HeapsOk, PopTop;
    var s' := PopTop(s, k, now);
    PopTopElements(s, k, now);
    PopTopHeld(s, k);
    forall k', d | d in HT.Elements(s'.At(k').heap) ensures d in s'.created && d.wake == k' {
      assert d in HT.Elements(s.At(k').heap);
    }
    forall d | Held(s'.worker, d) || Deleting(s'.worker, d) ensures d in s'.created {
      assert d == s.At(k).heap.data;
    }
  }

  lemma PopTopHeld(s: State, k: bool)
    requires RefsOk(s) && s.At(k).heap.Node?
    ensures s.At(k).heap.data in s.created
  {
    hide HT.Elements, Held, Deleting;
    TopIn(s.At(k).heap);
    assert s.At(k).heap.data in HT.Elements(s.At(k).heap);
  }

  lemma PopTopElements(s: State, k: bool, now: Time)
    requires HeapsOk(s) && s.At(k).heap.Node?
    ensures var s' := PopTop(s, k, now);
            && (forall k', d :: d in HT.Elements(s'.At(k').heap) ==> d in HT.Elements(s.At(k').heap))
            && s'.worker == Expiring(k, now, s.At(k).heap.data)
            && s'.queue == s.queue && s'.timers == s.timers && s'.nextId == s.nextId && s'.created == s.created
            && s'.nulled == s.nulled && s'.pushed == s.pushed && s'.deleted == s.deleted
  {
    hide HT.Elements, HT.Pop, Checked;
    PopFacts(s.At(k).heap);
    var s' := PopTop(s, k, now);
    hide HeapsOk;
    assert s'.At(!k) == s.At(!k) && s'.At(k).heap == HT.Pop(s.At(k).heap, OutRanks);
    forall k', d | d in HT.Elements(s'.At(k').heap) ensures d in HT.Elements(s.At(k').heap) {
      if k' == k { assert HT.Elements(s.At(k).heap)[d] >= HT.Elements(s'.At(k).heap)[d]; }
    }
  }

  lemma PopTopLives(s: State, k: bool, now: Time)
    requires Living(s) && HeapsOk(s) && s.At(k).heap.Node?
    requires forall d :: !Held(s.worker, d) && !Deleting(s.worker, d)
    ensures Living(PopTop(s, k, now))
  {
    hide HT.Elements, HT.Pop, QueueOk, Checked, FactsOk, RefsOk;
    PopTopRefs(s, k, now);
    PopTopFacts(s, k, now);
  }

  lemma PopTopFacts(s: State, k: bool, now: Time)
    requires FactsOk(s) && RefsOk(s) && HeapsOk(s) && s.At(k).heap.Node?
    requires forall d :: !Held(s.worker, d) && !Deleting(s.worker, d)
    ensures FactsOk(PopTop(s, k, now))
  {
    hide HT.Elements, HT.Pop, Active, StoppingNow, Checked;
    var s' := PopTop(s, k, now);
    var h := s.At(k).heap;
    var d0 := h.data;
    PopFacts(h);
    TopIn(h);
    assert s'.At(!k) == s.At(!k) && d0.wake == k;
    hide RefsOk, HeapsOk;
    forall d | d in s'.created ensures Sound(FactsOf(s', d)) {
      ActiveFrame(s, s', d);
      assert HT.Elements(h)[d] == HT.Elements(s'.At(k).heap)[d] + if d == d0 then 1 else 0;
      if d == d0 {
        assert FactsOf(s', d0) == FactsOf(s, d0).(inHeap := 0, held := true);
      } else {
        assert FactsOf(s', d) == FactsOf(s, d);
      }
    }
  }

  // A change of what the worker is about to do, the delegates it holds staying the same or being
  // let go when they need the worker no more.
  lemma WorkerMovesOn(s: State, s': State)
    requires Living(s)
    requires s'.queue == s.queue || (s.queue != [] && s.queue[0].MExpire? && s'.queue == s.queue[1..])
    requires s'.sw.heap == s.sw.heap && s'.hw.heap == s.hw.heap && s'.timers == s.timers && s'.nextId == s.nextId
    requires s'.created == s.created && s'.nulled == s.nulled && s'.pushed == s.pushed && s'.deleted == s.deleted
    requires forall d :: Deleting(s'.worker, d) == Deleting(s.worker, d)
    requires forall d :: Held(s'.worker, d) ==> Held(s.worker, d)
    requires forall d :: d in s.created && Held(s.worker, d) && !Held(s'.worker, d) ==> !Active(s, d)
    requires Using(s'.worker).Some? ==>
               Using(s'.worker).value in s.timers && s.timers[Using(s'.worker).value].alive
    requires s'.worker.AskWait? ==> s.timers[s'.worker.timer.client].phase.Stopping?
    ensures Living(s')
  {
    hide HT.Elements, Active, StoppingNow, QueueOk, Held, Deleting, RefsOk, FactsOf;
    if s.queue != [] { FirstMessage(s.queue); }
    assert OnlyExpiries(s, s');
    hide OnlyExpiries;
    OnlyExpiriesRefs(s, s');
    OnlyExpiriesRefl(s);
    forall d | d in s'.created ensures Sound(FactsOf(s', d)) {
      OnlyExpiriesFacts(s, s', d);
      OnlyExpiriesFacts(s, s, d);
      ActiveField(s, d);
      LetGo(FactsOf(s, d), Held(s'.worker, d));
    }
  }

  lemma ActiveField(s: State, d: Delegate)
    ensures FactsOf(s, d).active == Active(s, d)
  {
  }

  lemma LetGo(f: Facts, held: bool)
    requires Sound(f) && (held ==> f.held) && (f.held && !held ==> !f.active)
    ensures Sound(f.(held := held))
  {
  }

  // The worker deletes the delegate of the remove message it has dealt with.
  lemma DeletingKnown(s: State)
    requires Living(s) && s.worker.Calling? && s.worker.deleting.Some?
    ensures var d0 := s.worker.deleting.value;
            d0 in s.created && d0 !in s.deleted && d0.client in s.timers
  {
    hide HT.Elements, QueueOk, Sound, Active, StoppingNow;
    var d0 := s.worker.deleting.value;
    assert Deleting(s.worker, d0);
    DeletingFacts(FactsOf(s, d0));
  }

  lemma DeleteRefs(s: State)
    requires RefsOk(s) && s.worker.Calling? && s.worker.deleting.Some?
    requires s.worker.deleting.value in s.created && s.worker.deleting.value.client in s.timers
    ensures RefsOk(Delete(s.(worker := Idle), s.worker.deleting.value))
  {
    hide HT.Elements;
    assert forall k :: Delete(s.(worker := Idle), s.worker.deleting.value).At(k) == s.At(k);
  }

  lemma DeleteFacts(s: State)
    requires FactsOk(s) && s.worker.Calling? && s.worker.deleting.Some?
    requires s.worker.deleting.value in s.created && s.worker.deleting.value.client in s.timers
    ensures FactsOk(Delete(s.(worker := Idle), s.worker.deleting.value))
  {
    hide HT.Elements, Sound;
    var d0 := s.worker.deleting.value;
    var s' := Delete(s.(worker := Idle), d0);
    assert forall k :: s'.At(k) == s.At(k);
    forall d | d in s'.created ensures Sound(FactsOf(s', d)) {
      if d == d0 {
        DeletingFacts(FactsOf(s, d0));
        assert FactsOf(s', d0) == FactsOf(s, d0).(deleting := false, deletes := 1);
      } else {
        assert FactsOf(s', d) == FactsOf(s, d);
      }
    }
  }

  lemma DeleteLives(s: State)
    requires Living(s) && s.worker.Calling? && s.worker.calls == [] && s.worker.deleting.Some?
    ensures WorkerEnabled(s, Finish) && Living(WorkerNext(s, Finish))
  {
    hide HT.Elements, QueueOk, RefsOk, FactsOk;
    DeletingKnown(s);
    DeleteRefs(s);
    DeleteFacts(s);
  }

  lemma DeletingFacts(f: Facts)
    requires Sound(f) && f.deleting
    ensures f.deletes == 0 && Sound(f.(deleting := false, deletes := 1))
  {
  }

  // The popped timer is alive, and so is its client unless the client pointer was cleared.
  lemma ReadClientLives(s: State)
    requires Living(s) && s.worker.Expiring?
    ensures Living(WorkerNext(s, ReadClient))
  {
    hide HT.Elements, QueueOk;
    var t := s.worker.timer;
    assert Held(s.worker, t);
    assert FactsOf(s, t).nulled <==> !Active(s, t);
    hide Sound, RefsOk, FactsOf;
    WorkerMovesOn(s, WorkerNext(s, ReadClient));
  }

  lemma AskStopLives(s: State)
    requires Living(s) && WorkerEnabled(s, AskStop)
    ensures Living(WorkerNext(s, AskStop))
  {
    hide HT.Elements, QueueOk, Sound, RefsOk, FactsOf, FactsOk;
    var t := s.worker.timer;
    if s.timers[t.client].running.None? {
      WorkerMovesOn(s, WorkerNext(s, AskStop));
    } else {
      var s1 := BeginStop(s, t.client, true);
      BeginStopLives(s, t.client, true);
      WorkerMovesOn(s1, WorkerNext(s, AskStop));
    }
  }

  lemma AskDoneLives(s: State)
    requires Living(s) && WorkerEnabled(s, AskDone)
    ensures Living(WorkerNext(s, AskDone))
  {
    hide HT.Elements, QueueOk, Sound, RefsOk, FactsOf, FactsOk;
    var c := s.worker.timer.client;
    var s1 := s.(worker := CallingBack(s.worker.k, s.worker.now, c));
    WorkerMovesOn(s, s1);
    var s2 := EndStop(s1, c);
    EndStopFacts(s1, c);
    var s3 := WorkerNext(s, AskDone);
    assert s3.(timers := s2.timers) == s2;
    NulledCreated(s2);
    OnlyTimersRefs(s2, s3);
    CountersFacts(s2, s3);
  }

  // Counting changes no facts.
  lemma CountersFacts(s: State, s': State)
    requires FactsOk(s) && s'.(timers := s.timers) == s && s'.timers.Keys == s.timers.Keys
    requires forall c :: c in s.timers ==>
               s'.timers[c].running == s.timers[c].running && s'.timers[c].phase == s.timers[c].phase
    ensures FactsOk(s')
  {
    hide HT.Elements, Sound;
    assert forall k :: s'.At(k) == s.At(k);
    forall d | d in s'.created ensures Sound(FactsOf(s', d)) {
      assert FactsOf(s', d) == FactsOf(s, d);
    }
  }

  lemma CallBackLives(s: State)
    requires Living(s) && WorkerEnabled(s, CallBack)
    ensures Living(WorkerNext(s, CallBack))
  {
    hide HT.Elements, QueueOk, Sound, RefsOk, FactsOf, FactsOk;
    var s1 := s.(worker := NextPop(s.worker.k, s.worker.now));
    WorkerMovesOn(s, s1);
    var s2 := WorkerNext(s, CallBack);
    NulledCreated(s1);
    OnlyTimersRefs(s1, s2);
    CountersFacts(s1, s2);
  }

  lemma ReceiveExpireLives(s: State, k: bool)
    requires Living(s) && HeapsOk(s) && s.worker.Idle? && s.queue != [] && s.queue[0] == MExpire(k)
    ensures Living(WorkerNext(s, Receive))
  {
    hide HT.Elements, QueueOk, Sound, RefsOk, FactsOf, FactsOk, Checked;
    if s.At(k).heap.Empty? {
      WorkerMovesOn(s, WorkerNext(s, Receive));
    } else {
      var s1 := s.(queue := s.queue[1..]);
      WorkerMovesOn(s, s1);
      PopTopLives(s1, k, s.now);
    }
  }

  lemma OtherWorkerLives(s: State, step: WorkerStep)
    requires Living(s) && HeapsOk(s) && WorkerEnabled(s, step)
    requires step.KernelCall? || step.PopNext? || (step.Finish? && s.worker.deleting.None?)
    ensures Living(WorkerNext(s, step))
  {
    hide HT.Elements, QueueOk, Sound, RefsOk, FactsOf, FactsOk, Checked;
    if step.PopNext? && s.At(s.worker.k).heap.Node? && Due(s.At(s.worker.k).heap.data, s.worker.now) {
      PopTopLives(s, s.worker.k, s.worker.now);
    } else {
      WorkerMovesOn(s, WorkerNext(s, step));
    }
  }

  lemma WorkerLives(s: State, step: WorkerStep)
    requires Living(s) && HeapsOk(s) && WorkerEnabled(s, step)
    ensures Living(WorkerNext(s, step))
  {
    hide Living, HeapsOk;
    match step
    case Receive =>
      match s.queue[0] {
        case MPush(d) => ReceivePushLives(s, d);
        case MRemove(d) => ReceiveRemoveLives(s, d);
        case MExpire(k) => ReceiveExpireLives(s, k);
      }
    case Finish =>
      if s.worker.deleting.Some? { DeleteLives(s); } else { OtherWorkerLives(s, step); }
    case ReadClient => ReadClientLives(s);
    case AskStop => AskStopLives(s);
    case AskDone => AskDoneLives(s);
    case CallBack => CallBackLives(s);
    case _ => OtherWorkerLives(s, step);
  }
}
