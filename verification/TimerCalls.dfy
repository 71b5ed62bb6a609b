// Timer protocol: what start(), stop(), an expiry's stop and callback, and the poll thread's expire()
// do in every run, said of the queue, the timers and the fds alone.
module TimerCalls {
  import opened Options
  import opened TimerCore
  import opened TimerProtocol
  import opened TimerConservation
  import opened TimerWakeup
  import opened TimerLifetime
  import opened TimerLocks
  import opened TimerSafety
  import TE = TimerEarly
  import HT = HeapTree

  // The one message that a longer queue has gained, at its end.
  ghost predicate Gains(q: seq<Msg>, q': seq<Msg>, m: Msg) {
    q' == q + [m]
  }

  // ----- start() -----

  // Inside start(): on a timer that is not running it makes a new delegate, which is to fire the
  // delay asked for after now, to the nanosecond, and sends its push; on a running one it does
  // nothing.
  lemma StartSends(ss: seq<State>, steps: seq<Step>, i: nat, c: nat, ms: nat, wake: bool) returns (d: Delegate)
    requires IsRun(ss, steps) && i < |steps| && steps[i] == C(StartBegin(c, ms, wake))
    ensures c in ss[i].timers
    ensures ss[i].timers[c].running.Some? ==> ss[i + 1] == ss[i]
    ensures ss[i].timers[c].running.None? ==>
              && Gains(ss[i].queue, ss[i + 1].queue, MPush(d))
              && d.client == c && d.wake == wake && Normal(d.time)
              && Nanos(d.time) == Nanos(ss[i].now) + ms * 1_000_000
              && d !in ss[i].created && d in ss[i + 1].created
              && c in ss[i + 1].timers && ss[i + 1].timers[c].phase == Starting(d)
  {
    hide Conservation, Awake, LocksOk, QueueOk, TimersOk, FactsOk, Normal, Nanos, FutureTime, HT.Elements;
    RunInv(ss, steps, i);
    TE.RunNormal(ss, steps, i);
    var step := steps[i];
    assert Enabled(ss[i], step) && ss[i + 1] == Next(ss[i], step);
    FutureTimeExact(ss[i].now, ms);
    d := Delegate(ss[i].nextId, c, FutureTime(ss[i].now, ms), wake);
  }

  // A timer whose lock a thread holds in start() or stop() stays as it is until that thread goes on.
  lemma {:induction false} LockedStays(ss: seq<State>, steps: seq<Step>, i: nat, j: nat, c: nat)
    requires IsRun(ss, steps) && i <= j < |ss| && c in ss[i].timers
    requires ss[i].timers[c].phase.Starting? || (ss[i].timers[c].phase.Stopping? && !ss[i].timers[c].phase.byWorker)
    requires forall n {:trigger steps[n]} :: i <= n < j ==> steps[n] != C(StartEnd(c)) && steps[n] != C(StopEnd(c))
    ensures c in ss[j].timers && ss[j].timers[c].phase == ss[i].timers[c].phase
    ensures ss[j].timers[c].running == ss[i].timers[c].running
    ensures ss[j].timers[c].starts == ss[i].timers[c].starts
        && ss[j].timers[c].clientStops == ss[i].timers[c].clientStops
    decreases j
  {
    hide Next, Enabled, Inv;
    if i < j {
      LockedStays(ss, steps, i, j - 1, c);
      var step := steps[j - 1];
      RunInv(ss, steps, j - 1);
      LockedStep(ss[j - 1], step, c);
    }
  }

  // What a step leaves alone of a timer.
  ghost predicate SameCall(s: State, s': State, c: nat)
    requires c in s.timers
  {
    && c in s'.timers && s'.timers[c].phase == s.timers[c].phase && s'.timers[c].running == s.timers[c].running
    && s'.timers[c].starts == s.timers[c].starts && s'.timers[c].clientStops == s.timers[c].clientStops
  }

  lemma LockedStep(s: State, step: Step, c: nat)
    requires Inv(s) && Enabled(s, step) && c in s.timers && step != C(StartEnd(c)) && step != C(StopEnd(c))
    requires s.timers[c].phase.Starting? || (s.timers[c].phase.Stopping? && !s.timers[c].phase.byWorker)
    ensures SameCall(s, Next(s, step), c)
  {
    hide Awake, LocksOk, Living;
    match step
    case C(cl) => LockedClient(s, cl, c);
    case W(w) => LockedWorker(s, w, c);
    case P(p) => LockedPoll(s, p, c);
    case Tick(_) =>
  }

  lemma LockedClient(s: State, step: ClientStep, c: nat)
    requires ClientEnabled(s, step) && c in s.timers && step != StartEnd(c) && step != StopEnd(c)
    requires !s.timers[c].phase.Unlocked?
    ensures SameCall(s, ClientNext(s, step), c)
  {
    hide FutureTime;
  }

  lemma LockedWorker(s: State, step: WorkerStep, c: nat)
    requires Conservation(s) && WorkerEnabled(s, step) && c in s.timers
    requires s.timers[c].phase.Starting? || (s.timers[c].phase.Stopping? && !s.timers[c].phase.byWorker)
    ensures SameCall(s, WorkerNext(s, step), c)
  {
    hide Kernel;
    match step
    case Receive => HandleSameTimers(s.(queue := s.queue[1..]), s.queue[0]);
    case PopNext =>
      hide UpdateCalls;
      if s.At(s.worker.k).heap.Node? { PopTopSameTimers(s, s.worker.k, s.worker.now); }
    case _ => hide Handle, PopTop, UpdateCalls;
  }

  lemma LockedPoll(s: State, step: PollStep, c: nat)
    requires PollEnabled(s, step) && c in s.timers
    ensures SameCall(s, PollNext(s, step), c)
  {
    hide Kernel;
  }

  // And when that start() returns, however many steps of others later, the timer is running with
  // the delegate it sent, and start() has succeeded once more.
  lemma StartRuns(ss: seq<State>, steps: seq<Step>, i: nat, j: nat, c: nat, ms: nat, wake: bool) returns (d: Delegate)
    requires IsRun(ss, steps) && i < j < |steps| && steps[i] == C(StartBegin(c, ms, wake)) && steps[j] == C(StartEnd(c))
    requires forall n {:trigger steps[n]} :: i < n < j ==> steps[n] != C(StartEnd(c))
    requires c in ss[i].timers && ss[i].timers[c].running.None?
    ensures Gains(ss[i].queue, ss[i + 1].queue, MPush(d))
    ensures d.client == c && d.wake == wake && Nanos(d.time) == Nanos(ss[i].now) + ms * 1_000_000
    ensures c in ss[j + 1].timers && ss[j + 1].timers[c].running == Some(d) && ss[j + 1].timers[c].phase.Unlocked?
    ensures ss[j + 1].timers[c].starts == ss[i].timers[c].starts + 1
  {
    d := StartSends(ss, steps, i, c, ms, wake);
    NotStopping(ss, steps, i + 1, j, c, d);
    LockedStays(ss, steps, i + 1, j, c);
    SameStarts(ss, steps, i, c, ms, wake);
    var step := steps[j];
    assert ss[j + 1] == Next(ss[j], step);
    hide Nanos, Gains, Normal;
  }

  lemma SameStarts(ss: seq<State>, steps: seq<Step>, i: nat, c: nat, ms: nat, wake: bool)
    requires IsRun(ss, steps) && i < |steps| && steps[i] == C(StartBegin(c, ms, wake)) && c in ss[i].timers
    ensures c in ss[i + 1].timers && ss[i + 1].timers[c].starts == ss[i].timers[c].starts
  {
    var step := steps[i];
    assert ss[i + 1] == Next(ss[i], step);
    hide FutureTime;
  }

  // A start() under way keeps stop() from ending.
  lemma {:induction false} NotStopping(ss: seq<State>, steps: seq<Step>, i: nat, j: nat, c: nat, d: Delegate)
    requires IsRun(ss, steps) && i <= j < |ss| && c in ss[i].timers && ss[i].timers[c].phase == Starting(d)
    requires forall n {:trigger steps[n]} :: i <= n < j ==> steps[n] != C(StartEnd(c))
    ensures c in ss[j].timers && ss[j].timers[c].phase == Starting(d)
    ensures forall n {:trigger steps[n]} :: i <= n < j ==> steps[n] != C(StopEnd(c))
    decreases j
  {
    hide Next, Enabled, Inv;
    if i < j {
      NotStopping(ss, steps, i, j - 1, c, d);
      var step := steps[j - 1];
      RunInv(ss, steps, j - 1);
      NoStopEnd(ss[j - 1], step, c);
      LockedStep(ss[j - 1], step, c);
    }
  }

  lemma NoStopEnd(s: State, step: Step, c: nat)
    requires Enabled(s, step) && c in s.timers && s.timers[c].phase.Starting?
    ensures step != C(StopEnd(c))
  {
  }

  // ----- stop() -----

  // stop() on a running timer clears mTimer and the delegate's client pointer at once; when it
  // returns it has sent exactly the remove of that delegate and won one stop more. On a timer that
  // is not running it does nothing.
  lemma StopStops(ss: seq<State>, steps: seq<Step>, i: nat, c: nat)
    requires IsRun(ss, steps) && i < |steps| && steps[i] == C(StopBegin(c))
    ensures c in ss[i].timers && c in ss[i + 1].timers
    ensures match ss[i].timers[c].running
            case None => ss[i + 1] == ss[i]
            case Some(d) =>
              && ss[i + 1].timers[c].running.None? && ss[i + 1].timers[c].phase == Stopping(d, false)
              && ss[i + 1].nulled == ss[i].nulled + {d} && ss[i + 1].queue == ss[i].queue
              && ss[i + 1].timers[c].clientStops == ss[i].timers[c].clientStops
  {
    var step := steps[i];
    assert Enabled(ss[i], step) && ss[i + 1] == Next(ss[i], step);
  }

  lemma StopReturns(ss: seq<State>, steps: seq<Step>, i: nat, j: nat, c: nat, d: Delegate)
    requires IsRun(ss, steps) && i < j < |steps| && steps[i] == C(StopBegin(c)) && steps[j] == C(StopEnd(c))
    requires forall n {:trigger steps[n]} :: i < n < j ==> steps[n] != C(StopEnd(c))
    requires c in ss[i].timers && ss[i].timers[c].running == Some(d)
    ensures c in ss[j].timers && c in ss[j + 1].timers
    ensures Gains(ss[j].queue, ss[j + 1].queue, MRemove(d)) && d in ss[j + 1].nulled
    ensures ss[j + 1].timers[c].running.None? && ss[j + 1].timers[c].phase.Unlocked?
    ensures ss[j + 1].timers[c].clientStops == ss[i].timers[c].clientStops + 1
  {
    StopStops(ss, steps, i, c);
    NotStarting(ss, steps, i + 1, j, c, d);
    LockedStays(ss, steps, i + 1, j, c);
    NulledStays(ss, steps, i + 1, j, d);
    var step := steps[j];
    assert ss[j + 1] == Next(ss[j], step);
  }

  lemma {:induction false} NotStarting(ss: seq<State>, steps: seq<Step>, i: nat, j: nat, c: nat, d: Delegate)
    requires IsRun(ss, steps) && i <= j < |ss| && c in ss[i].timers && ss[i].timers[c].phase == Stopping(d, false)
    requires forall n {:trigger steps[n]} :: i <= n < j ==> steps[n] != C(StopEnd(c))
    ensures c in ss[j].timers && ss[j].timers[c].phase == Stopping(d, false)
    ensures forall n {:trigger steps[n]} :: i <= n < j ==> steps[n] != C(StartEnd(c))
    decreases j
  {
    hide Next, Enabled, Inv;
    if i < j {
      NotStarting(ss, steps, i, j - 1, c, d);
      var step := steps[j - 1];
      RunInv(ss, steps, j - 1);
      NoStartEnd(ss[j - 1], step, c);
      LockedStep(ss[j - 1], step, c);
    }
  }

  lemma NoStartEnd(s: State, step: Step, c: nat)
    requires Enabled(s, step) && c in s.timers && s.timers[c].phase.Stopping?
    ensures step != C(StartEnd(c))
  {
  }

  lemma {:induction false} NulledStays(ss: seq<State>, steps: seq<Step>, i: nat, j: nat, d: Delegate)
    requires IsRun(ss, steps) && i <= j < |ss| && d in ss[i].nulled
    ensures d in ss[j].nulled
    decreases j
  {
    hide Next, Enabled;
    if i < j {
      NulledStays(ss, steps, i, j - 1, d);
      var step := steps[j - 1];
      NulledNext(ss[j - 1], step, d);
    }
  }

  lemma NulledNext(s: State, step: Step, d: Delegate)
    requires Enabled(s, step) && d in s.nulled
    ensures d in Next(s, step).nulled
  {
    hide PushMsg, RemoveMsg, UpdateCalls, HT.Pop, Kernel, FutureTime;
  }

  ghost predicate Still(s: State, s': State, c: nat)
    requires c in s.timers
  {
    && c in s'.timers && s'.timers[c].running.None? && s'.timers[c].phase.Unlocked?
    && s'.timers[c].starts == s.timers[c].starts && s'.timers[c].clientStops == s.timers[c].clientStops
    && s'.timers[c].expiryStops == s.timers[c].expiryStops
  }

  // A stopped timer stays stopped until it is started again: no expiry wins a stop of it, so it is
  // called back at most for one that had won before.
  lemma {:induction false} StoppedStaysStopped(ss: seq<State>, steps: seq<Step>, i: nat, k: nat, c: nat)
    requires IsRun(ss, steps) && i <= k < |ss| && c in ss[i].timers
    requires ss[i].timers[c].running.None? && ss[i].timers[c].phase.Unlocked?
    requires forall n {:trigger steps[n]} :: i <= n < k ==>
               !(steps[n].C? && steps[n].c.StartBegin? && steps[n].c.c == c)
    ensures Still(ss[i], ss[k], c)
    ensures ss[k].timers[c].callbacks <= ss[i].timers[c].callbacks + 1
    decreases k
  {
    hide Next, Enabled, Inv;
    if i < k {
      StoppedStaysStopped(ss, steps, i, k - 1, c);
      var step := steps[k - 1];
      StillStep(ss[k - 1], step, c);
    }
    StartsConserved(ss, steps, i, c);
    StartsConserved(ss, steps, k, c);
  }

  lemma StillStep(s: State, step: Step, c: nat)
    requires Enabled(s, step) && c in s.timers && s.timers[c].running.None? && s.timers[c].phase.Unlocked?
    requires !(step.C? && step.c.StartBegin? && step.c.c == c)
    ensures Still(s, Next(s, step), c)
  {
    hide Kernel;
    match step
    case C(cl) => StillClient(s, cl, c);
    case W(w) => StillWorker(s, w, c);
    case P(p) =>
    case Tick(_) =>
  }

  lemma StillClient(s: State, step: ClientStep, c: nat)
    requires ClientEnabled(s, step) && c in s.timers && s.timers[c].running.None? && s.timers[c].phase.Unlocked?
    requires !(step.StartBegin? && step.c == c)
    ensures Still(s, ClientNext(s, step), c)
  {
    hide FutureTime;
  }

  lemma StillWorker(s: State, step: WorkerStep, c: nat)
    requires WorkerEnabled(s, step) && c in s.timers && s.timers[c].running.None? && s.timers[c].phase.Unlocked?
    ensures Still(s, WorkerNext(s, step), c)
  {
    hide Kernel;
    match step
    case Receive => HandleSameTimers(s.(queue := s.queue[1..]), s.queue[0]);
    case PopNext =>
      hide UpdateCalls;
      if s.At(s.worker.k).heap.Node? { PopTopSameTimers(s, s.worker.k, s.worker.now); }
    case _ => hide Handle, PopTop, UpdateCalls;
  }

  // ----- a LocTimer comes and goes -----

  lemma TimerComesAndGoes(ss: seq<State>, steps: seq<Step>, i: nat, c: nat)
    requires IsRun(ss, steps) && i < |steps|
    ensures steps[i] == C(NewTimer(c)) ==>
              && c !in ss[i].timers && c in ss[i + 1].timers && ss[i + 1].timers[c].alive
              && ss[i + 1].timers[c].running.None? && ss[i + 1].timers[c].phase.Unlocked?
              && ss[i + 1].timers[c].lockRefs == 1
    ensures steps[i] == C(Destroy(c)) ==>
              && c in ss[i].timers && c in ss[i + 1].timers && !ss[i + 1].timers[c].alive
              && ss[i + 1].timers[c].lockRefs == ss[i].timers[c].lockRefs - 1
  {
    var step := steps[i];
    assert Enabled(ss[i], step) && ss[i + 1] == Next(ss[i], step);
    hide IsRun;
  }

  // ----- an expiry, for the timer it has popped -----

  // The expiry leaves a timer alone whose client pointer is cleared when it reads it, or that is
  // not running when it gets the lock; otherwise it stops the timer, sends the remove of the
  // delegate that was running, and makes the callback.
  lemma ExpiryCallsBack(ss: seq<State>, steps: seq<Step>, i: nat)
    requires IsRun(ss, steps) && i < |steps|
    ensures steps[i] == W(ReadClient) ==>
              && ss[i].worker.Expiring?
              && var Expiring(k, now, d) := ss[i].worker;
                 ss[i + 1] == ss[i].(worker := if d in ss[i].nulled then NextPop(k, now) else Asking(k, now, d))
    ensures steps[i] == W(AskStop) ==>
              && ss[i].worker.Asking? && ss[i].worker.timer.client in ss[i].timers
              && ss[i].worker.timer.client in ss[i + 1].timers
              && var Asking(k, now, d) := ss[i].worker;
                 match ss[i].timers[d.client].running
                 case None => ss[i + 1] == ss[i].(worker := NextPop(k, now))
                 case Some(e) =>
                   && ss[i + 1].worker == AskWait(k, now, d) && ss[i + 1].nulled == ss[i].nulled + {e}
                   && ss[i + 1].timers[d.client].running.None? && ss[i + 1].timers[d.client].phase == Stopping(e, true)
    ensures steps[i] == W(AskDone) ==>
              && ss[i].worker.AskWait? && ss[i].worker.timer.client in ss[i].timers
              && ss[i].timers[ss[i].worker.timer.client].phase.Stopping?
              && Gains(ss[i].queue, ss[i + 1].queue, MRemove(ss[i].timers[ss[i].worker.timer.client].phase.d))
              && ss[i + 1].worker == CallingBack(ss[i].worker.k, ss[i].worker.now, ss[i].worker.timer.client)
    ensures steps[i] == W(CallBack) ==>
              && ss[i].worker.CallingBack? && ss[i].worker.client in ss[i].timers
              && ss[i].worker.client in ss[i + 1].timers
              && ss[i + 1].timers[ss[i].worker.client].callbacks == ss[i].timers[ss[i].worker.client].callbacks + 1
              && ss[i + 1].worker == NextPop(ss[i].worker.k, ss[i].worker.now)
  {
    var step := steps[i];
    assert Enabled(ss[i], step) && ss[i + 1] == Next(ss[i], step);
    hide Handle, PopTop, UpdateCalls, Kernel, IsRun;
  }

  // ----- the poll thread -----

  // expire() of the container of an event disarms its fd, takes it out of the epoll set and sends
  // the expiry message, in this order, and touches no other container.
  lemma PollExpires(ss: seq<State>, steps: seq<Step>, i: nat)
    requires IsRun(ss, steps) && i < |steps| && steps[i].P? && !steps[i].p.Report?
    ensures ss[i].poll.Handling? && ss[i].poll.events != []
    ensures var k := ss[i].poll.events[0];
            && ss[i + 1].At(!k) == ss[i].At(!k) && ss[i + 1].At(k).heap == ss[i].At(k).heap
            && match ss[i].poll.stage
               case ToDisarm =>
                 && ss[i + 1].At(k).armed == None && ss[i + 1].At(k).polled == ss[i].At(k).polled
                 && ss[i + 1].poll == Handling(ss[i].poll.events, ToUnpoll) && ss[i + 1].queue == ss[i].queue
               case ToUnpoll =>
                 && !ss[i + 1].At(k).polled && ss[i + 1].At(k).armed == ss[i].At(k).armed
                 && ss[i + 1].poll == Handling(ss[i].poll.events, ToSend) && ss[i + 1].queue == ss[i].queue
               case ToSend =>
                 && ss[i + 1].At(k) == ss[i].At(k) && Gains(ss[i].queue, ss[i + 1].queue, MExpire(k))
                 && (if |ss[i].poll.events| == 1 then ss[i + 1].poll == Waiting
                     else ss[i + 1].poll == Handling(ss[i].poll.events[1..], ToDisarm))
  {
    var step := steps[i];
    assert Enabled(ss[i], step) && ss[i + 1] == Next(ss[i], step);
    hide IsRun;
  }

  // epoll_wait reports due fds of its set and nothing else, and the poll thread then goes through
  // exactly those.
  lemma PollReports(ss: seq<State>, steps: seq<Step>, i: nat, events: seq<bool>)
    requires IsRun(ss, steps) && i < |steps| && steps[i] == P(Report(events))
    ensures ss[i].poll.Waiting? && ss[i + 1] == ss[i].(poll := Handling(events, ToDisarm)) && events != []
    ensures forall n :: 0 <= n < |events| ==>
              var c := ss[i].At(events[n]); c.polled && c.armed.Some? && Earlier(c.armed.value, ss[i].now)
  {
    var step := steps[i];
    assert Enabled(ss[i], step) && ss[i + 1] == Next(ss[i], step);
    hide IsRun, Earlier;
    forall n | 0 <= n < |events|
      ensures var c := ss[i].At(events[n]); c.polled && c.armed.Some? && Earlier(c.armed.value, ss[i].now)
    {
      assert Ready(ss[i].At(events[n]), ss[i].now);
    }
  }

  // ----- the worker -----

  // A push message puts its delegate into the heap of its kind, a remove message takes just that one
  // out and is followed by its deletion; the other heap stays.
  lemma MessagesAct(ss: seq<State>, steps: seq<Step>, i: nat)
    requires IsRun(ss, steps) && i < |steps| && steps[i] == W(Receive)
    ensures ss[i].queue != [] && ss[i + 1].queue == ss[i].queue[1..]
    ensures match ss[i].queue[0]
            case MPush(d) =>
              && HT.Elements(ss[i + 1].At(d.wake).heap) == HT.Elements(ss[i].At(d.wake).heap) + multiset{d}
              && ss[i + 1].At(!d.wake) == ss[i].At(!d.wake)
              && ss[i + 1].worker.Calling? && ss[i + 1].worker.deleting.None?
            case MRemove(d) =>
              && HT.Elements(ss[i + 1].At(d.wake).heap) == HT.Elements(ss[i].At(d.wake).heap) - multiset{d}
              && ss[i + 1].At(!d.wake) == ss[i].At(!d.wake)
              && ss[i + 1].worker.Calling? && ss[i + 1].worker.deleting == Some(d)
            case MExpire(k) =>
              && ss[i + 1].At(!k) == ss[i].At(!k)
              && (ss[i].At(k).heap.Node? ==> ss[i + 1].worker == Expiring(k, ss[i].now, ss[i].At(k).heap.data))
              && (ss[i].At(k).heap.Empty? ==>
                    ss[i + 1].At(k) == ss[i].At(k) && ss[i + 1].worker == Calling(k, [], None))
  {
    hide HT.Elements, HT.CheckNodes, HT.Pop, PushMsg, RemoveMsg;
    var step := steps[i];
    assert Enabled(ss[i], step) && ss[i + 1] == Next(ss[i], step);
    TE.HeapAt(ss, steps, i, false);
    TE.HeapAt(ss, steps, i, true);
    match ss[i].queue[0]
    case MPush(d) => PushMsgCalls(ss[i].At(d.wake).heap, d);
    case MRemove(d) => RemoveMsgCalls(ss[i].At(d.wake).heap, d);
    case MExpire(_) =>
  }

  // Each system call of the worker does to its container's fd what it is for, and the worker goes on
  // with the next; when none is left it deletes what it has removed and is idle.
  lemma SystemCallsAct(ss: seq<State>, steps: seq<Step>, i: nat)
    requires IsRun(ss, steps) && i < |steps|
    ensures steps[i] == W(KernelCall) ==>
              && ss[i].worker.Calling? && ss[i].worker.calls != []
              && var k, call := ss[i].worker.k, ss[i].worker.calls[0];
                 && ss[i + 1].At(!k) == ss[i].At(!k) && ss[i + 1].At(k).heap == ss[i].At(k).heap
                 && ss[i + 1].worker == Calling(k, ss[i].worker.calls[1..], ss[i].worker.deleting)
                 && ss[i + 1].At(k).polled ==
                    (if call.AddPoll? then true else if call.RemovePoll? then false else ss[i].At(k).polled)
                 && ss[i + 1].At(k).armed ==
                    (if !call.SetTime? then ss[i].At(k).armed else if call.time == ZERO then None else Some(call.time))
    ensures steps[i] == W(Finish) ==>
              && ss[i].worker.Calling? && ss[i].worker.calls == [] && ss[i + 1].worker.Idle?
              && ss[i + 1].deleted ==
                 (if ss[i].worker.deleting.Some? then ss[i].deleted + multiset{ss[i].worker.deleting.value}
                   else ss[i].deleted)
  {
    var step := steps[i];
    assert Enabled(ss[i], step) && ss[i + 1] == Next(ss[i], step);
    hide IsRun;
  }

  // ----- nobody is kept from calling -----

  // start() and stop() are open to every living timer whose lock is free, and return when it is
  // theirs; the poll thread is woken by any due fd in its set, and goes through with its events.
  lemma CallsAreOpen(s: State, c: nat, ms: nat, wake: bool, k: bool)
    requires c in s.timers
    ensures s.timers[c].alive && s.timers[c].phase.Unlocked? ==>
              Enabled(s, C(StartBegin(c, ms, wake))) && Enabled(s, C(StopBegin(c)))
    ensures s.timers[c].phase.Starting? ==> Enabled(s, C(StartEnd(c)))
    ensures s.timers[c].phase.Stopping? && !s.timers[c].phase.byWorker ==> Enabled(s, C(StopEnd(c)))
    ensures s.poll.Waiting? && s.At(k).polled && s.At(k).armed.Some? && Earlier(s.At(k).armed.value, s.now) ==>
              Enabled(s, P(Report([k])))
    ensures s.poll.Handling? && s.poll.events != [] ==>
              Enabled(s, P(Disarm)) || Enabled(s, P(Unpoll)) || Enabled(s, P(SendExpire))
  {
  }
}
