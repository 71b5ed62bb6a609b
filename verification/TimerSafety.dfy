// Timer protocol: the invariant of every run, and what it means.
module TimerSafety {
  import opened Options
  import opened TimerCore
  import opened TimerProtocol
  import opened TimerConservation
  import opened TimerWakeup
  import opened TimerLifetime
  import opened TimerLocks
  import HT = HeapTree

  ghost predicate Inv(s: State) {
    Conservation(s) && Awake(s) && Living(s) && LocksOk(s)
  }

  lemma InitInv(now: Time)
    requires Normal(now) && now != ZERO
    ensures Inv(Init(now))
  {
    var s := Init(now);
    assert forall k :: s.At(k).heap == HT.Empty;
    assert s.sw == NoContainer && s.hw == NoContainer;
  }

  lemma StepInv(s: State, step: Step)
    requires Inv(s) && Enabled(s, step)
    ensures Inv(Next(s, step))
  {
    hide ClientEnabled, WorkerEnabled, PollEnabled, ClientNext, WorkerNext, PollNext;
    hide Conservation, WakeOk, HeapsOk, TimesSet, QueueOk, RefsOk, TimersOk, FactsOk, LocksOk;
    match step
    case C(c) =>
      ClientConserves(s, c);
      ClientAwake(s, c);
      ClientLives(s, c);
      ClientLocks(s, c);
    case W(w) =>
      WorkerConserves(s, w);
      WorkerAwake(s, w);
      WorkerLives(s, w);
      WorkerLocks(s, w);
    case P(p) =>
      PollConserves(s, p);
      PollAwake(s, p);
      PollLives(s, p);
      PollLocks(s, p);
    case Tick(t) =>
      TickConserves(s, t);
      TickAwake(s, t);
      TickLives(s, t);
  }

  lemma PollLocks(s: State, step: PollStep)
    requires LocksOk(s) && PollEnabled(s, step)
    ensures LocksOk(PollNext(s, step))
  {
    hide LocksOk, Kernel;
    SameLocks(s, PollNext(s, step));
  }

  lemma TickConserves(s: State, t: Time)
    requires Conservation(s) && LocksOk(s)
    ensures Conservation(s.(now := t)) && LocksOk(s.(now := t))
  {
    hide LocksOk;
    SameLocks(s, s.(now := t));
  }

  lemma {:induction false} RunInv(ss: seq<State>, steps: seq<Step>, i: nat)
    requires IsRun(ss, steps) && i < |ss|
    ensures Inv(ss[i])
  {
    hide Inv, Next, Enabled, Init;
    if i == 0 {
      var now :| Normal(now) && now != ZERO && ss[0] == Init(now);
      InitInv(now);
    } else {
      RunInv(ss, steps, i - 1);
      var step := steps[i - 1];
      StepInv(ss[i - 1], step);
    }
  }

  // ===== what it means =====

  // No lost wake-up. Whenever the worker is between messages, or busy with the other container,
  // or has no kernel call left to make for this one: timers that are waiting are waited for,
  // because the fd is in the epoll set and armed for exactly the top timer, which is due no
  // later than any other to the second, or an expiry is already on its way.
  lemma NoLostWakeup(ss: seq<State>, steps: seq<Step>, i: nat, k: bool)
    requires IsRun(ss, steps) && i < |ss|
    ensures var s := ss[i];
            !InLoop(s.worker, k) && !(s.worker.Calling? && s.worker.k == k && s.worker.calls != []) ==>
            s.At(k).heap.Node? ==>
              Covered(s, k) ||
              (Armed(s.At(k)) && forall d :: d in HT.Elements(s.At(k).heap) ==> s.At(k).armed.value.sec <= d.time.sec)
  {
    hide Checked, HT.Elements, IsRun, Conservation, Living, LocksOk, TimesSet;
    RunInv(ss, steps, i);
    var s := ss[i];
    assert WakeOk(s, k);
    if s.At(k).heap.Node? { TopSoonest(s.At(k).heap); }
  }

  // Conservation. While no thread is inside start() or stop() of timer c: its successful starts
  // are its stops that returned true to a client, plus those won by an expiry, plus one if it
  // is running; and every stop won by an expiry has had its callback, save one that the worker
  // is just about to make.
  lemma StartsConserved(ss: seq<State>, steps: seq<Step>, i: nat, c: nat)
    requires IsRun(ss, steps) && i < |ss| && c in ss[i].timers && ss[i].timers[c].phase.Unlocked?
    ensures var t := ss[i].timers[c];
            && t.starts == t.clientStops + t.expiryStops + Bit(t.running.Some?)
            && t.expiryStops == t.callbacks + Bit(ss[i].worker.CallingBack? && ss[i].worker.client == c)
  {
    hide IsRun, Awake, Living, LocksOk;
    RunInv(ss, steps, i);
  }

  // The life of every delegate: pushed exactly once, counting the push still queued; deleted at
  // most once, and only after its remove message; and in exactly one stage at a time, so that
  // an active one is never lost and a stopped one never leaks.
  lemma DelegateLife(ss: seq<State>, steps: seq<Step>, i: nat, d: Delegate)
    requires IsRun(ss, steps) && i < |ss| && d in ss[i].created
    ensures var s := ss[i];
            && s.pushed[d] + Bit(MPush(d) in s.queue) == 1
            && Bit(Active(s, d)) + Bit(StoppingNow(s, d)) + Bit(MRemove(d) in s.queue)
               + Bit(Deleting(s.worker, d)) + s.deleted[d] == 1
            && (Active(s, d) ==>
                  MPush(d) in s.queue || d in HT.Elements(s.At(d.wake).heap) || Held(s.worker, d))
  {
    hide IsRun, Awake, Conservation, LocksOk, Active, StoppingNow, Held, Deleting, HT.Elements, RefsOk, TimersOk,
      QueueOk;
    RunInv(ss, steps, i);
    assert Sound(FactsOf(ss[i], d));
  }

  // Nothing refers to a deleted delegate: neither heap, nor queue, nor the worker. In the queue a
  // delegate's remove comes after its push. A heap holds no delegate twice.
  lemma NothingDangles(ss: seq<State>, steps: seq<Step>, i: nat, d: Delegate, k: bool)
    requires IsRun(ss, steps) && i < |ss|
    ensures var s := ss[i];
            && (d in s.deleted ==> d !in HT.Elements(s.At(k).heap) && MPush(d) !in s.queue && MRemove(d) !in s.queue
                                   && !Held(s.worker, d) && !Deleting(s.worker, d))
            && HT.Elements(s.At(k).heap)[d] <= 1
            && (forall m, n :: 0 <= m < n < |s.queue| ==> !(s.queue[m] == MRemove(d) && s.queue[n] == MPush(d)))
  {
    hide IsRun, Awake, Conservation, LocksOk, Active, StoppingNow, Held, Deleting, HT.Elements, TimersOk;
    RunInv(ss, steps, i);
    var s := ss[i];
    assert d in s.created ==> Sound(FactsOf(s, d));
    forall m, n | 0 <= m < n < |s.queue| ensures !(s.queue[m] == MRemove(d) && s.queue[n] == MPush(d)) {
      assert InOrder(s.queue[m], s.queue[n]);
    }
  }

  // The shared lock outlives exactly the client and its delegates.
  lemma LockLifetime(ss: seq<State>, steps: seq<Step>, i: nat, c: nat)
    requires IsRun(ss, steps) && i < |ss| && c in ss[i].timers
    ensures var s := ss[i];
            && s.timers[c].lockRefs == |LiveOf(s, c)| + Bit(s.timers[c].alive)
            && (s.timers[c].lockRefs == 0 <==> !s.timers[c].alive && LiveOf(s, c) == {})
  {
    hide IsRun, Awake, Conservation, Living;
    RunInv(ss, steps, i);
    assert LockCounts(ss[i], c);
  }

  // The worker never uses a timer that is gone, and is never stuck, save on an empty queue or on
  // the lock of a timer that a client thread holds.
  lemma WorkerProgress(ss: seq<State>, steps: seq<Step>, i: nat)
    requires IsRun(ss, steps) && i < |ss|
    ensures var s := ss[i];
            && (Using(s.worker).Some? ==>
                  Using(s.worker).value in s.timers && s.timers[Using(s.worker).value].alive)
            && ((exists w :: WorkerEnabled(s, w))
                || (s.worker.Idle? && s.queue == [])
                || (s.worker.Asking? && !s.timers[s.worker.timer.client].phase.Unlocked?
                    && !(s.timers[s.worker.timer.client].phase.Stopping?
                      && s.timers[s.worker.timer.client].phase.byWorker)))
  {
    hide IsRun, Awake, LocksOk, QueueOk, RefsOk, FactsOk;
    RunInv(ss, steps, i);
    var s := ss[i];
    match s.worker
    case Idle => assert s.queue != [] ==> WorkerEnabled(s, Receive);
    case Calling(_, calls, _) =>
      if calls == [] {
        if s.worker.deleting.Some? { DeletingKnown(s); }
        assert WorkerEnabled(s, Finish);
      } else {
        assert WorkerEnabled(s, KernelCall);
      }
    case Expiring(_, _, _) => assert WorkerEnabled(s, ReadClient);
    case Asking(_, _, d) => assert s.timers[d.client].phase.Unlocked? ==> WorkerEnabled(s, AskStop);
    case AskWait(_, _, _) => assert WorkerEnabled(s, AskDone);
    case CallingBack(_, _, _) => assert WorkerEnabled(s, CallBack);
    case NextPop(_, _) => assert WorkerEnabled(s, PopNext);
  }

  // An expiry that has read the client pointer and gets the lock stops the timer's current
  // delegate, whichever that is: it is the expired one exactly if nobody has stopped that one
  // since.
  lemma ExpiryStopsItsOwn(ss: seq<State>, steps: seq<Step>, i: nat)
    requires IsRun(ss, steps) && i < |ss| && WorkerEnabled(ss[i], AskStop)
    ensures var s := ss[i];
            s.timers[s.worker.timer.client].running == Some(s.worker.timer) <==> s.worker.timer !in s.nulled
  {
    hide IsRun, Awake, Conservation, LocksOk, QueueOk, HT.Elements;
    RunInv(ss, steps, i);
    var s := ss[i];
    var d := s.worker.timer;
    assert Held(s.worker, d);
    assert Sound(FactsOf(s, d));
  }
}
