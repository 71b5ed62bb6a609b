// Timer protocol: a run in which the expiry of a stopped timer takes the restarted one with it.
module TimerRestart {
  import opened Options
  import opened TimerCore
  import opened TimerProtocol
  import HT = HeapTree

  ghost predicate Reachable(s: State) {
    exists ss, steps :: IsRun(ss, steps) && ss[|steps|] == s
  }

  lemma InitReachable(now: Time)
    requires Normal(now) && now != ZERO
    ensures Reachable(Init(now))
  {
    assert IsRun([Init(now)], []);
  }

  lemma NextReachable(s: State, step: Step)
    requires Reachable(s) && Enabled(s, step)
    ensures Reachable(Next(s, step))
  {
    hide Next, Enabled, Init;
    var s' := Next(s, step);
    var ss, steps :| IsRun(ss, steps) && ss[|steps|] == s;
    var ss', steps' := ss + [s'], steps + [step];
    forall i {:trigger steps'[i]} | 0 <= i < |steps'|
      ensures Enabled(ss'[i], steps'[i]) && ss'[i + 1] == Next(ss'[i], steps'[i])
    {
      if i < |steps| { assert steps'[i] == steps[i]; }
    }
    assert IsRun(ss', steps');
  }

  const NOW := Time(1, 0)
  const FIRST := Delegate(0, 0, Time(1, 0), false)
  const SECOND := Delegate(1, 0, Time(2, 0), false)
  const ONE := HT.Node(1, FIRST, HT.Empty, HT.Empty)

  // Timer 0 running with its first delegate; only queue, container, worker and poll thread vary.
  function Running(queue: seq<Msg>, sw: Container, worker: Worker, poll: Poll, pushed: multiset<Delegate>): State {
    State(NOW, map[0 := Timer(true, Some(FIRST), Unlocked, 2, 1, 0, 0, 0)], 1, {FIRST}, {}, pushed, multiset{},
          queue, sw, NoContainer, worker, poll)
  }

  lemma Started()
    ensures Reachable(Running([MPush(FIRST)], NoContainer, Idle, Waiting, multiset{}))
  {
    hide Reachable;
    InitReachable(NOW);
    var s0 := Init(NOW);
    NextReachable(s0, C(NewTimer(0)));
    var s1 := s0.(timers := map[0 := Timer(true, None, Unlocked, 1, 0, 0, 0, 0)]);
    assert Next(s0, C(NewTimer(0))) == s1;
    assert FutureTime(NOW, 0) == NOW;
    NextReachable(s1, C(StartBegin(0, 0, false)));
    var s2 := State(NOW, map[0 := Timer(true, None, Starting(FIRST), 2, 0, 0, 0, 0)], 1, {FIRST}, {}, multiset{},
        multiset{},
                    [MPush(FIRST)], NoContainer, NoContainer, Idle, Waiting);
    assert Next(s1, C(StartBegin(0, 0, false))) == s2;
    NextReachable(s2, C(StartEnd(0)));
    assert Next(s2, C(StartEnd(0))) == Running([MPush(FIRST)], NoContainer, Idle, Waiting, multiset{});
  }

  lemma Armed()
    ensures Reachable(Running([], Container(ONE, true, Some(NOW)), Idle, Waiting, multiset{FIRST}))
  {
    hide Reachable;
    Started();
    var P := multiset{FIRST};
    var s0 := Running([MPush(FIRST)], NoContainer, Idle, Waiting, multiset{});
    NextReachable(s0, W(Receive));
    var s1 := Running([], Container(ONE, false, None), Calling(false, [AddPoll, SetTime(NOW)], None), Waiting, P);
    assert Next(s0, W(Receive)) == s1;
    NextReachable(s1, W(KernelCall));
    var s2 := Running([], Container(ONE, true, None), Calling(false, [SetTime(NOW)], None), Waiting, P);
    assert Next(s1, W(KernelCall)) == s2;
    NextReachable(s2, W(KernelCall));
    var s3 := Running([], Container(ONE, true, Some(NOW)), Calling(false, [], None), Waiting, P);
    assert Next(s2, W(KernelCall)) == s3;
    NextReachable(s3, W(Finish));
  }

  lemma Popped()
    ensures Reachable(Running([], NoContainer, Asking(false, NOW, FIRST), Waiting, multiset{FIRST}))
  {
    hide Reachable;
    Armed();
    var P := multiset{FIRST};
    var s0 := Running([], Container(ONE, true, Some(NOW)), Idle, Waiting, P);
    NextReachable(s0, TimerProtocol.Step.P(Report([false])));
    var s1 := Running([], Container(ONE, true, Some(NOW)), Idle, Handling([false], ToDisarm), P);
    assert Next(s0, TimerProtocol.Step.P(Report([false]))) == s1;
    NextReachable(s1, TimerProtocol.Step.P(Disarm));
    var s2 := Running([], Container(ONE, true, None), Idle, Handling([false], ToUnpoll), P);
    assert Next(s1, TimerProtocol.Step.P(Disarm)) == s2;
    NextReachable(s2, TimerProtocol.Step.P(Unpoll));
    var s3 := Running([], Container(ONE, false, None), Idle, Handling([false], ToSend), P);
    assert Next(s2, TimerProtocol.Step.P(Unpoll)) == s3;
    NextReachable(s3, TimerProtocol.Step.P(SendExpire));
    var s4 := Running([MExpire(false)], Container(ONE, false, None), Idle, Waiting, P);
    assert Next(s3, TimerProtocol.Step.P(SendExpire)) == s4;
    NextReachable(s4, W(Receive));
    var s5 := Running([], NoContainer, Expiring(false, NOW, FIRST), Waiting, P);
    assert Next(s4, W(Receive)) == s5;
    NextReachable(s5, W(ReadClient));
  }

  // Timer 0 stopped and started again while the worker, having read the client pointer of the
  // first delegate, is on its way into stop().
  function Restarted(): State {
    State(NOW, map[0 := Timer(true, Some(SECOND), Unlocked, 3, 2, 1, 0, 0)], 2, {FIRST, SECOND}, {FIRST},
          multiset{FIRST}, multiset{}, [MRemove(FIRST), MPush(SECOND)], NoContainer, NoContainer,
          Asking(false, NOW, FIRST), Waiting)
  }

  function Stopped(): State {
    State(NOW, map[0 := Timer(true, None, Unlocked, 2, 1, 1, 0, 0)], 1, {FIRST}, {FIRST}, multiset{FIRST}, multiset{},
          [MRemove(FIRST)], NoContainer, NoContainer, Asking(false, NOW, FIRST), Waiting)
  }

  lemma StoppedReachable()
    ensures Reachable(Stopped())
  {
    hide Reachable;
    Popped();
    var s0 := Running([], NoContainer, Asking(false, NOW, FIRST), Waiting, multiset{FIRST});
    NextReachable(s0, C(StopBegin(0)));
    var s1 := State(NOW, map[0 := Timer(true, None, Stopping(FIRST, false), 2, 1, 0, 0, 0)], 1, {FIRST}, {FIRST},
                    multiset{FIRST}, multiset{}, [], NoContainer, NoContainer, Asking(false, NOW, FIRST), Waiting);
    assert Next(s0, C(StopBegin(0))) == s1;
    NextReachable(s1, C(StopEnd(0)));
    assert Next(s1, C(StopEnd(0))) == Stopped();
  }

  lemma RestartedReachable()
    ensures Reachable(Restarted())
  {
    hide Reachable;
    StoppedReachable();
    assert FutureTime(NOW, 1000) == Time(2, 0);
    NextReachable(Stopped(), C(StartBegin(0, 1000, false)));
    var s3 := State(NOW, map[0 := Timer(true, None, Starting(SECOND), 3, 1, 1, 0, 0)], 2, {FIRST, SECOND}, {FIRST},
                    multiset{FIRST}, multiset{}, [MRemove(FIRST), MPush(SECOND)], NoContainer, NoContainer,
                    Asking(false, NOW, FIRST), Waiting);
    assert Next(Stopped(), C(StartBegin(0, 1000, false))) == s3;
    NextReachable(s3, C(StartEnd(0)));
    assert Next(s3, C(StartEnd(0))) == Restarted();
  }

  // The restarted timer is not due for a second, but the expiry's stop() stops its delegate, and
  // the worker goes on to the callback at once.
  lemma RestartedTimerFiresEarly() returns (s: State)
    ensures Reachable(s)
    ensures s.worker.CallingBack? && s.worker.client == 0
    ensures 0 in s.timers && MRemove(SECOND) in s.queue
    ensures s.timers[0].expiryStops == 1 && s.timers[0].clientStops == 1
    ensures Nanos(SECOND.time) == Nanos(s.now) + BILLION
  {
    hide Reachable;
    RestartedReachable();
    var s4 := Restarted();
    NextReachable(s4, W(AskStop));
    var s5 := State(NOW, map[0 := Timer(true, None, Stopping(SECOND, true), 3, 2, 1, 0, 0)], 2, {FIRST, SECOND},
        {FIRST, SECOND},
                    multiset{FIRST}, multiset{}, [MRemove(FIRST), MPush(SECOND)], NoContainer, NoContainer,
                    AskWait(false, NOW, FIRST), Waiting);
    assert Next(s4, W(AskStop)) == s5;
    NextReachable(s5, W(AskDone));
    s := Next(s5, W(AskDone));
    assert s.queue == [MRemove(FIRST), MPush(SECOND)] + [MRemove(SECOND)];
  }
}
