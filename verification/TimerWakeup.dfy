// Timer protocol: waiting timers are waited for, across every step.
module TimerWakeup {
  import opened Options
  import opened TimerCore
  import opened TimerProtocol
  import HT = HeapTree

  ghost predicate HeapsOk(s: State) { Checked(s.sw.heap) && Checked(s.hw.heap) }

  // ===== no lost wake-up =====

  // An expiry of container k is on its way to the worker.
  ghost predicate Covered(s: State, k: bool) {
    (s.poll.Handling? && k in s.poll.events) || MExpire(k) in s.queue
  }

  predicate InLoop(w: Worker, k: bool) {
    match w
    case Expiring(k', _, _) => k' == k
    case Asking(k', _, _) => k' == k
    case AskWait(k', _, _) => k' == k
    case CallingBack(k', _, _) => k' == k
    case NextPop(k', _) => k' == k
    case _ => false
  }

  // The fd waits for exactly the top timer's due time.
  predicate Armed(c: Container) {
    c.heap.Node? && c.polled && c.armed == Some(c.heap.data.time)
  }

  ghost predicate WakeOk(s: State, k: bool) {
    var c := s.At(k);
    if s.worker.Calling? && s.worker.k == k && s.worker.calls != [] then
      && c.heap.Node?
      && (s.worker.calls == ArmTop(c.heap)
          || (s.worker.calls == [SetTime(c.heap.data.time)] && (c.polled || Covered(s, k))))
    else
      !InLoop(s.worker, k) && c.heap.Node? ==> Armed(c) || Covered(s, k)
  }

  ghost predicate Awake(s: State) {
    && HeapsOk(s)
    && WakeOk(s, false) && WakeOk(s, true)
    && TimesSet(s)
  }

  // No due time is the zero that would disarm.
  ghost predicate TimesSet(s: State) {
    && Normal(s.now) && s.now != ZERO
    && (forall d :: d in HT.Elements(s.sw.heap) || d in HT.Elements(s.hw.heap) ==> d.time != ZERO)
    && (forall m :: m in s.queue && m.MPush? ==> m.d.time != ZERO)
  }

  // Steps of clients and of the clock leave containers, worker and poll thread alone, and only
  // add to the queue.
  lemma OnlyQueued(s: State, s': State, k: bool)
    requires WakeOk(s, k)
    requires s'.sw == s.sw && s'.hw == s.hw && s'.worker == s.worker && s'.poll == s.poll
    requires s.queue <= s'.queue
    ensures WakeOk(s', k)
  {
    assert forall m :: m in s.queue ==> m in s'.queue;
  }

  lemma ClientAwake(s: State, step: ClientStep)
    requires Awake(s) && ClientEnabled(s, step)
    ensures Awake(ClientNext(s, step))
  {
    hide FutureTime, WakeOk, Checked;
    var s' := ClientNext(s, step);
    OnlyQueued(s, s', false);
    OnlyQueued(s, s', true);
    if step.StartBegin? {
      FutureTimeNotZero(s.now, step.ms);
    }
  }

  lemma FutureTimeNotZero(now: Time, ms: nat)
    requires Normal(now) && now != ZERO
    ensures FutureTime(now, ms) != ZERO
  {
    FutureTimeExact(now, ms);
  }

  lemma TickAwake(s: State, t: Time)
    requires Awake(s) && Normal(t) && Earlier(s.now, t)
    ensures Awake(s.(now := t))
  {
    hide WakeOk, Checked;
    OnlyQueued(s, s.(now := t), false);
    OnlyQueued(s, s.(now := t), true);
  }

  lemma PollWakeOk(s: State, step: PollStep, k: bool)
    requires WakeOk(s, k) && PollEnabled(s, step)
    ensures WakeOk(PollNext(s, step), k)
  {
    var s' := PollNext(s, step);
    assert forall m :: m in s.queue ==> m in s'.queue;
    if step.SendExpire? {
      var e, rest := s.poll.events[0], s.poll.events[1..];
      assert s.poll.events == [e] + rest;
      assert MExpire(e) in s'.queue;
    }
  }

  lemma PollAwake(s: State, step: PollStep)
    requires Awake(s) && PollEnabled(s, step)
    ensures Awake(PollNext(s, step))
  {
    hide WakeOk, Checked, HT.Elements;
    PollWakeOk(s, step, false);
    PollWakeOk(s, step, true);
  }

  // --- the worker's steps ---

  // Taking a message leaves a container alone unless it is about that container.
  lemma ReceiveElsewhere(s: State, s': State, k: bool)
    requires WakeOk(s, k) && s.worker.Idle? && s.queue != []
    requires s.queue[0] != MExpire(k)
    requires s'.At(k) == s.At(k) && s'.queue == s.queue[1..] && s'.poll == s.poll
    requires s'.worker.Idle? || (s'.worker.Calling?
        && (s'.worker.k != k || s'.worker.calls == [])) || InLoop(s'.worker, !k)
    ensures WakeOk(s', k)
  {
    assert s.queue == [s.queue[0]] + s.queue[1..];
  }

  // A push or remove that changed the heap and asks for the calls that go with the change.
  lemma ReceiveHere(s: State, s': State, k: bool)
    requires WakeOk(s, k) && s.worker.Idle? && s.queue != [] && !s.queue[0].MExpire?
    requires s'.queue == s.queue[1..] && s'.poll == s.poll
    requires s'.At(k) == s.At(k).(heap := s'.At(k).heap)
    requires s'.worker.Calling? && s'.worker.k == k
    requires (s'.worker.calls != [] && s'.worker.calls == ArmTop(s'.At(k).heap))
          || (s'.worker.calls == [] && s'.At(k).heap.Empty?)
          || (s'.worker.calls == [] && Top(s'.At(k).heap) == Top(s.At(k).heap))
    ensures WakeOk(s', k)
  {
    assert s.queue == [s.queue[0]] + s.queue[1..];
  }

  lemma ReceivePushAwake(s: State, d: Delegate)
    requires Awake(s) && s.worker.Idle? && s.queue != [] && s.queue[0] == MPush(d)
    ensures Awake(WorkerNext(s, Receive))
  {
    hide WakeOk, Checked, PushMsg, HT.Elements;
    var s' := WorkerNext(s, Receive);
    PushMsgCalls(s.At(d.wake).heap, d);
    ReceiveHere(s, s', d.wake);
    ReceiveElsewhere(s, s', !d.wake);
    assert s.queue[0] in s.queue;
    assert forall e :: e in HT.Elements(s'.At(d.wake).heap) ==> e == d || e in HT.Elements(s.At(d.wake).heap);
  }

  lemma ReceiveRemoveAwake(s: State, d: Delegate)
    requires Awake(s) && s.worker.Idle? && s.queue != [] && s.queue[0] == MRemove(d)
    ensures Awake(WorkerNext(s, Receive))
  {
    hide WakeOk, Checked, RemoveMsg, HT.Elements;
    var s' := WorkerNext(s, Receive);
    RemoveMsgCalls(s.At(d.wake).heap, d);
    ReceiveHere(s, s', d.wake);
    ReceiveElsewhere(s, s', !d.wake);
    assert forall e :: e in HT.Elements(s'.At(d.wake).heap) ==> e in HT.Elements(s.At(d.wake).heap);
  }

  lemma PopTopAwake(s: State, k: bool, now: Time)
    requires HeapsOk(s) && TimesSet(s) && s.At(k).heap.Node? && WakeOk(PopTop(s, k, now), !k)
    ensures Awake(PopTop(s, k, now))
  {
    hide Checked, HT.Elements, HT.Pop;
    var s' := PopTop(s, k, now);
    PopFacts(s.At(k).heap);
    assert forall e :: e in HT.Elements(s'.At(k).heap) ==> e in HT.Elements(s.At(k).heap);
    assert WakeOk(s', k);
  }

  lemma ReceiveExpireAwake(s: State, k: bool)
    requires Awake(s) && s.worker.Idle? && s.queue != [] && s.queue[0] == MExpire(k)
    ensures Awake(WorkerNext(s, Receive))
  {
    var s' := WorkerNext(s, Receive);
    ReceiveElsewhere(s, s', !k);
    if s.At(k).heap.Node? {
      hide WakeOk, Checked;
      PopTopAwake(s.(queue := s.queue[1..]), k, s.now);
    }
  }

  lemma KernelCallAwake(s: State)
    requires Awake(s) && WorkerEnabled(s, KernelCall)
    ensures Awake(WorkerNext(s, KernelCall))
  {
    hide Checked;
    var s' := WorkerNext(s, KernelCall);
    var k := s.worker.k;
    assert s.At(k).heap.data in HT.Elements(s.At(k).heap);
    assert WakeOk(s', k);
    assert WakeOk(s', !k);
  }

  lemma PopNextAwake(s: State)
    requires Awake(s) && WorkerEnabled(s, PopNext)
    ensures Awake(WorkerNext(s, PopNext))
  {
    hide Checked, HT.Elements, HT.Pop;
    var k, now := s.worker.k, s.worker.now;
    var h := s.At(k).heap;
    if h.Node? && Due(h.data, now) {
      var s' := PopTop(s, k, now);
      assert s'.At(!k) == s.At(!k);
      assert WakeOk(s', !k);
      hide WakeOk;
      PopTopAwake(s, k, now);
    } else {
      var s' := s.(worker := Calling(k, UpdateCalls(Top(h), None), None));
      assert WakeOk(s', k);
      assert WakeOk(s', !k);
    }
  }

  // The remaining steps neither start nor end work on a container.
  lemma SameWork(s: State, s': State, k: bool)
    requires WakeOk(s, k)
    requires s'.sw == s.sw && s'.hw == s.hw && s'.poll == s.poll && s.queue <= s'.queue
    requires InLoop(s'.worker, k) == InLoop(s.worker, k)
    requires s.worker.Calling? ==> s.worker.calls == []
    requires s'.worker.Calling? ==> s'.worker.calls == []
    ensures WakeOk(s', k)
  {
    assert forall m :: m in s.queue ==> m in s'.queue;
  }

  lemma OtherWorkerAwake(s: State, step: WorkerStep)
    requires Awake(s) && WorkerEnabled(s, step)
    requires !step.Receive? && !step.KernelCall? && !step.PopNext?
    ensures Awake(WorkerNext(s, step))
  {
    hide Checked, WakeOk, HT.Elements;
    var s' := WorkerNext(s, step);
    assert s'.queue == s.queue || exists d :: s'.queue == s.queue + [MRemove(d)];
    SameWork(s, s', false);
    SameWork(s, s', true);
  }

  lemma WorkerAwake(s: State, step: WorkerStep)
    requires Awake(s) && WorkerEnabled(s, step)
    ensures Awake(WorkerNext(s, step))
  {
    hide Awake, WorkerNext;
    match step
    case Receive =>
      match s.queue[0] {
        case MPush(d) => ReceivePushAwake(s, d);
        case MRemove(d) => ReceiveRemoveAwake(s, d);
        case MExpire(k) => ReceiveExpireAwake(s, k);
      }
    case KernelCall => KernelCallAwake(s);
    case PopNext => PopNextAwake(s);
    case _ => OtherWorkerAwake(s, step);
  }
}
