// Timer protocol: two runs in which an expiry calls back a timer seconds before it is due.
module TimerEarlyRuns {
  import opened Options
  import opened TimerCore
  import opened TimerProtocol
  import opened TimerRestart
  import HT = HeapTree

  // Due four seconds after NOW.
  const LATE := Time(5, 0)

  lemma FourSecondsLater()
    ensures FutureTime(NOW, 4000) == LATE
  {
  }

  lemma Go(s: State, step: Step, s': State)
    requires Reachable(s) && Enabled(s, step) && Next(s, step) == s'
    ensures Reachable(s')
  {
    hide Next, Enabled, Reachable;
    NextReachable(s, step);
  }

  // These steps in a row.
  ghost predicate Then(s: State, steps: seq<Step>, s': State)
    decreases |steps|
  {
    if steps == [] then s == s' else Enabled(s, steps[0]) && Then(Next(s, steps[0]), steps[1..], s')
  }

  lemma ThenFirst(s: State, step: Step, steps: seq<Step>, s': State)
    requires Enabled(s, step) && Then(Next(s, step), steps, s')
    ensures Then(s, [step] + steps, s')
  {
    hide Enabled, Next;
    assert ([step] + steps)[1..] == steps;
  }

  // A popped timer that is running and nobody is about to stop can be called back at once.
  lemma CalledBack(s: State, d: Delegate) returns (s': State)
    requires s.worker == Expiring(false, s.now, d) && d !in s.nulled
    requires d.client in s.timers && s.timers[d.client].running == Some(d) && s.timers[d.client].phase.Unlocked?
    ensures Then(s, [W(ReadClient), W(AskStop), W(AskDone)], s')
    ensures s'.now == s.now && s'.worker == CallingBack(false, s.now, d.client) && MRemove(d) in s'.queue
  {
    hide Then;
    var s1 := s.(worker := Asking(false, s.now, d));
    var s2 := BeginStop(s1, d.client, true).(worker := AskWait(false, s.now, d));
    s' := Next(s2, W(AskDone));
    assert s'.queue == s.queue + [MRemove(d)];
    assert [W(ReadClient)] + [W(AskStop), W(AskDone)] == [W(ReadClient), W(AskStop), W(AskDone)];
    assert [W(AskStop)] + [W(AskDone)] == [W(AskStop), W(AskDone)];
    assert [W(AskDone)] + [] == [W(AskDone)];
    ThenNone(s');
    ThenFirst(s2, W(AskDone), [], s');
    ThenFirst(s1, W(AskStop), [W(AskDone)], s');
    ThenFirst(s, W(ReadClient), [W(AskStop), W(AskDone)], s');
  }

  lemma ThenNone(s: State)
    ensures Then(s, [], s)
  {
  }

  const DISARM := TimerProtocol.Step.P(Disarm)
  const UNPOLL := TimerProtocol.Step.P(Unpoll)
  const SEND := TimerProtocol.Step.P(SendExpire)
  const REPORT := TimerProtocol.Step.P(Report([false]))

  // What the worker handles from the report on.
  ghost predicate HandlesOnly(ss: seq<State>, steps: seq<Step>, r: nat, allowed: Msg -> bool)
    requires |ss| == |steps| + 1
  {
    forall j {:trigger steps[j]} :: r < j < |steps| && steps[j] == W(Receive) ==>
      ss[j].queue != [] && allowed(ss[j].queue[0])
  }

  // A run from a start to s that makes its report in state reported, and in which the worker has
  // handled no other messages since.
  ghost predicate Since(reported: State, s: State, allowed: Msg -> bool) {
    exists ss, steps, r: nat ::
      && IsRun(ss, steps) && r < |steps| && ss[r] == reported && steps[r] == REPORT && ss[|steps|] == s
      && HandlesOnly(ss, steps, r, allowed)
  }

  lemma Extended(ss: seq<State>, steps: seq<Step>, step: Step, s': State)
    requires IsRun(ss, steps) && Enabled(ss[|steps|], step) && Next(ss[|steps|], step) == s'
    ensures IsRun(ss + [s'], steps + [step])
  {
    hide Next, Enabled, Init;
    var ss', steps' := ss + [s'], steps + [step];
    forall i {:trigger steps'[i]} | 0 <= i < |steps'|
      ensures Enabled(ss'[i], steps'[i]) && ss'[i + 1] == Next(ss'[i], steps'[i])
    {
      if i < |steps| { assert steps'[i] == steps[i]; }
    }
  }

  lemma ReportAt(s: State, s': State, allowed: Msg -> bool)
    requires Reachable(s) && Enabled(s, REPORT) && Next(s, REPORT) == s'
    ensures Since(s, s', allowed)
  {
    hide Next, Enabled, Init;
    var ss, steps :| IsRun(ss, steps) && ss[|steps|] == s;
    RunLength(ss, steps);
    Extended(ss, steps, REPORT, s');
    var ss', steps' := ss + [s'], steps + [REPORT];
    assert HandlesOnly(ss', steps', |steps|, allowed);
    assert ss'[|steps|] == s && steps'[|steps|] == REPORT && ss'[|steps'|] == s';
  }

  lemma RunLength(ss: seq<State>, steps: seq<Step>)
    requires IsRun(ss, steps)
    ensures |ss| == |steps| + 1
  {
  }

  lemma GoOn(reported: State, s: State, step: Step, s': State, allowed: Msg -> bool)
    requires Since(reported, s, allowed) && Enabled(s, step) && Next(s, step) == s'
    requires step == W(Receive) ==> s.queue != [] && allowed(s.queue[0])
    ensures Since(reported, s', allowed)
  {
    hide Next, Enabled, Init;
    var ss, steps, r: nat :|
      && IsRun(ss, steps) && r < |steps| && ss[r] == reported && steps[r] == REPORT && ss[|steps|] == s
      && HandlesOnly(ss, steps, r, allowed);
    RunLength(ss, steps);
    Extended(ss, steps, step, s');
    var ss', steps' := ss + [s'], steps + [step];
    forall j {:trigger steps'[j]} | r < j < |steps'| && steps'[j] == W(Receive)
      ensures ss'[j].queue != [] && allowed(ss'[j].queue[0])
    {
      if j < |steps| { assert steps'[j] == steps[j]; }
    }
    assert HandlesOnly(ss', steps', r, allowed);
    assert ss'[r] == reported && steps'[r] == REPORT && ss'[|steps'|] == s';
  }

  // ----- the timer that armed the fd is removed after the report -----

  const OTHER := Delegate(1, 1, LATE, false)
  const BOTH := HT.Node(2, FIRST, HT.Node(1, OTHER, HT.Empty, HT.Empty), HT.Empty)
  const LEFT := HT.Node(1, OTHER, HT.Empty, HT.Empty)

  // Timer 1 is running with OTHER; timer 0 varies.
  function Two(t0: Timer, nulled: set<Delegate>, queue: seq<Msg>, sw: Container, worker: Worker, poll: Poll,
               pushed: multiset<Delegate>): State {
    State(NOW, map[0 := t0, 1 := Timer(true, Some(OTHER), Unlocked, 2, 1, 0, 0, 0)], 2, {FIRST, OTHER}, nulled,
          pushed, multiset{}, queue, sw, NoContainer, worker, poll)
  }

  const T0 := Timer(true, Some(FIRST), Unlocked, 2, 1, 0, 0, 0)

  const IDLE1 := Timer(true, None, Unlocked, 1, 0, 0, 0, 0)

  function Both(t1: Timer, nextId: nat, created: set<Delegate>, queue: seq<Msg>): State {
    State(NOW, map[0 := T0, 1 := t1], nextId, created, {}, multiset{}, multiset{}, queue, NoContainer, NoContainer,
        Idle, Waiting)
  }

  lemma OtherIdle()
    ensures Reachable(Both(IDLE1, 1, {FIRST}, [MPush(FIRST)]))
  {
    hide Reachable;
    Started();
    var s0 := Running([MPush(FIRST)], NoContainer, Idle, Waiting, multiset{});
    Go(s0, C(NewTimer(1)), Both(IDLE1, 1, {FIRST}, [MPush(FIRST)]));
  }

  lemma OtherStarting()
    ensures Reachable(Both(IDLE1.(phase := Starting(OTHER), lockRefs := 2), 2, {FIRST, OTHER},
        [MPush(FIRST), MPush(OTHER)]))
  {
    hide Reachable, FutureTime;
    OtherIdle();
    FourSecondsLater();
    var s := Both(IDLE1, 1, {FIRST}, [MPush(FIRST)]);
    var t := IDLE1.(phase := Starting(OTHER), lockRefs := 2);
    assert NewDelegate(s, 1, 4000, false) == OTHER;
    assert s.timers[1 := t] == map[0 := T0, 1 := t];
    assert {FIRST} + {OTHER} == {FIRST, OTHER} && [MPush(FIRST)] + [MPush(OTHER)] == [MPush(FIRST), MPush(OTHER)];
    Go(s, C(StartBegin(1, 4000, false)), Both(t, 2, {FIRST, OTHER}, [MPush(FIRST), MPush(OTHER)]));
  }

  lemma BothStarted()
    ensures Reachable(Two(T0, {}, [MPush(FIRST), MPush(OTHER)], NoContainer, Idle, Waiting, multiset{}))
  {
    hide Reachable;
    OtherStarting();
    Go(Both(IDLE1.(phase := Starting(OTHER), lockRefs := 2), 2, {FIRST, OTHER}, [MPush(FIRST), MPush(OTHER)]),
        C(StartEnd(1)),
       Two(T0, {}, [MPush(FIRST), MPush(OTHER)], NoContainer, Idle, Waiting, multiset{}));
  }

  lemma BothPushed()
    ensures Reachable(Two(T0, {}, [], Container(BOTH, true, Some(NOW)), Idle, Waiting, multiset{FIRST, OTHER}))
  {
    hide Reachable;
    BothStarted();
    var q := [MPush(OTHER)];
    var p := multiset{FIRST};
    var s0 := Two(T0, {}, [MPush(FIRST), MPush(OTHER)], NoContainer, Idle, Waiting, multiset{});
    var s1 := Two(T0, {}, q, Container(ONE, false, None), Calling(false, [AddPoll, SetTime(NOW)], None), Waiting, p);
    Go(s0, W(Receive), s1);
    var s2 := Two(T0, {}, q, Container(ONE, true, None), Calling(false, [SetTime(NOW)], None), Waiting, p);
    Go(s1, W(KernelCall), s2);
    var s3 := Two(T0, {}, q, Container(ONE, true, Some(NOW)), Calling(false, [], None), Waiting, p);
    Go(s2, W(KernelCall), s3);
    var s4 := Two(T0, {}, q, Container(ONE, true, Some(NOW)), Idle, Waiting, p);
    Go(s3, W(Finish), s4);
    assert HT.Push(ONE, OTHER, OutRanks) == BOTH;
    var s5 := Two(T0, {}, [], Container(BOTH, true, Some(NOW)), Calling(false, [], None), Waiting,
        multiset{FIRST, OTHER});
    Go(s4, W(Receive), s5);
    Go(s5, W(Finish), Two(T0, {}, [], Container(BOTH, true, Some(NOW)), Idle, Waiting, multiset{FIRST, OTHER}));
  }

  function AtReport(): State {
    Two(T0, {}, [], Container(BOTH, true, Some(NOW)), Idle, Waiting, multiset{FIRST, OTHER})
  }

  predicate FirstsRemove(m: Msg) { m == MRemove(FIRST) }

  lemma BothUnpolled()
    ensures Since(AtReport(), Two(T0, {}, [], Container(BOTH, false, None), Idle, Handling([false], ToSend),
                                  multiset{FIRST, OTHER}), FirstsRemove)
  {
    hide Since, Reachable;
    BothPushed();
    var p := multiset{FIRST, OTHER};
    var s0 := AtReport();
    var s1 := Two(T0, {}, [], Container(BOTH, true, Some(NOW)), Idle, Handling([false], ToDisarm), p);
    ReportAt(s0, s1, FirstsRemove);
    var s2 := Two(T0, {}, [], Container(BOTH, true, None), Idle, Handling([false], ToUnpoll), p);
    GoOn(s0, s1, DISARM, s2, FirstsRemove);
    GoOn(s0, s2, UNPOLL, Two(T0, {}, [], Container(BOTH, false, None), Idle, Handling([false], ToSend), p),
        FirstsRemove);
  }

  // The poll thread is about to send the expiry when the client stops timer 0.
  lemma StoppedBeforeSend()
    ensures Since(AtReport(), Two(T0.(running := None, clientStops := 1), {FIRST}, [MRemove(FIRST), MExpire(false)],
                                  Container(BOTH, false, None), Idle, Waiting, multiset{FIRST, OTHER}), FirstsRemove)
  {
    hide Since, Reachable;
    BothUnpolled();
    var p := multiset{FIRST, OTHER};
    var c := Container(BOTH, false, None);
    var t := T0.(running := None, clientStops := 1);
    var s3 := Two(T0, {}, [], c, Idle, Handling([false], ToSend), p);
    var s4 := Two(T0.(running := None, phase := Stopping(FIRST, false)), {FIRST}, [], c, Idle,
        Handling([false], ToSend), p);
    GoOn(AtReport(), s3, C(StopBegin(0)), s4, FirstsRemove);
    var s5 := Two(t, {FIRST}, [MRemove(FIRST)], c, Idle, Handling([false], ToSend), p);
    GoOn(AtReport(), s4, C(StopEnd(0)), s5, FirstsRemove);
    GoOn(AtReport(), s5, SEND, Two(t, {FIRST}, [MRemove(FIRST), MExpire(false)], c, Idle, Waiting, p), FirstsRemove);
  }

  // The worker takes FIRST out and re-arms for OTHER.
  lemma OtherLeft() returns (s: State)
    ensures Since(AtReport(), s, FirstsRemove)
    ensures s == Two(T0.(running := None, clientStops := 1, lockRefs := 1), {FIRST}, [MExpire(false)],
                     Container(LEFT, true, Some(LATE)), Idle, Waiting, multiset{FIRST, OTHER})
              .(deleted := multiset{FIRST})
  {
    hide Since, Reachable;
    StoppedBeforeSend();
    var p := multiset{FIRST, OTHER};
    var t := T0.(running := None, clientStops := 1);
    var q := [MExpire(false)];
    var s0 := Two(t, {FIRST}, [MRemove(FIRST), MExpire(false)], Container(BOTH, false, None), Idle, Waiting, p);
    assert HT.Remove(BOTH, FIRST, OutRanks) == HT.Removed(LEFT);
    var s1 := Two(t, {FIRST}, q, Container(LEFT, false, None), Calling(false, [AddPoll, SetTime(LATE)], Some(FIRST)),
        Waiting, p);
    GoOn(AtReport(), s0, W(Receive), s1, FirstsRemove);
    var s2 := Two(t, {FIRST}, q, Container(LEFT, true, None), Calling(false, [SetTime(LATE)], Some(FIRST)), Waiting, p);
    GoOn(AtReport(), s1, W(KernelCall), s2, FirstsRemove);
    var s3 := Two(t, {FIRST}, q, Container(LEFT, true, Some(LATE)), Calling(false, [], Some(FIRST)), Waiting, p);
    GoOn(AtReport(), s2, W(KernelCall), s3, FirstsRemove);
    s := Two(t.(lockRefs := 1), {FIRST}, q, Container(LEFT, true, Some(LATE)), Idle, Waiting, p)
         .(deleted := multiset{FIRST});
    GoOn(AtReport(), s3, W(Finish), s, FirstsRemove);
  }

  const CALL_BACK := [W(Receive), W(ReadClient), W(AskStop), W(AskDone)]

  // The fd is reported for FIRST, due and running; after that FIRST is stopped, and its remove is
  // all that the worker handles before the expiry. That expiry, four steps of the worker, calls
  // back OTHER, which nobody has stopped, four seconds early.
  lemma RemovedAfterReportFiresEarly() returns (reported: State, s: State, called: State)
    ensures reported.sw.armed == Some(FIRST.time) && Top(reported.sw.heap) == Some(FIRST)
    ensures 0 in reported.timers && reported.timers[0].running == Some(FIRST) && FIRST !in reported.nulled
    ensures Since(reported, s, FirstsRemove) && FIRST in s.nulled
    ensures s.worker.Idle? && s.queue == [MExpire(false)] && Top(s.sw.heap) == Some(OTHER)
    ensures Then(s, CALL_BACK, called) && called.worker == CallingBack(false, s.now, 1)
        && MRemove(OTHER) in called.queue
    ensures Nanos(OTHER.time) == Nanos(s.now) + 4 * BILLION
  {
    hide Since, Then;
    reported := AtReport();
    s := OtherLeft();
    var s5 := s.(queue := [], sw := Container(HT.Empty, true, Some(LATE)), worker := Expiring(false, NOW, OTHER));
    assert Next(s, W(Receive)) == s5;
    called := CalledBack(s5, OTHER);
    ThenFirst(s, W(Receive), [W(ReadClient), W(AskStop), W(AskDone)], called);
    assert [W(Receive)] + [W(ReadClient), W(AskStop), W(AskDone)] == CALL_BACK;
  }

  // ----- it is removed before the report, from a container that it leaves empty and armed -----

  const NEXT := Delegate(1, 0, LATE, false)
  const ALONE := HT.Node(1, NEXT, HT.Empty, HT.Empty)

  // Timer 0, stopped once, and FIRST deleted.
  function One(t: Timer, created: set<Delegate>, queue: seq<Msg>, sw: Container, worker: Worker, poll: Poll,
               pushed: multiset<Delegate>): State {
    State(NOW, map[0 := t], |created|, created, {FIRST}, pushed, multiset{FIRST}, queue, sw, NoContainer, worker, poll)
  }

  const STOPPED := Timer(true, None, Unlocked, 1, 1, 1, 0, 0)

  lemma EmptiedButArmed()
    ensures Reachable(One(STOPPED, {FIRST}, [], Container(HT.Empty, true, Some(NOW)), Idle, Waiting, multiset{FIRST}))
  {
    hide Reachable;
    Armed();
    var c := Container(ONE, true, Some(NOW));
    var s0 := Running([], c, Idle, Waiting, multiset{FIRST});
    var t := T0.(running := None, phase := Stopping(FIRST, false));
    var s1 := s0.(timers := map[0 := t], nulled := {FIRST});
    Go(s0, C(StopBegin(0)), s1);
    var s2 := s1.(timers := map[0 := STOPPED.(lockRefs := 2)], queue := [MRemove(FIRST)]);
    Go(s1, C(StopEnd(0)), s2);
    assert HT.Remove(ONE, FIRST, OutRanks) == HT.Removed(HT.Empty);
    var s3 := s2.(queue := [], sw := Container(HT.Empty, true, Some(NOW)), worker := Calling(false, [], Some(FIRST)));
    Go(s2, W(Receive), s3);
    assert |{FIRST}| == 1;
    Go(s3, W(Finish), One(STOPPED, {FIRST}, [], Container(HT.Empty, true, Some(NOW)), Idle, Waiting, multiset{FIRST}));
  }

  function EmptyAtReport(): State {
    One(STOPPED, {FIRST}, [], Container(HT.Empty, true, Some(NOW)), Idle, Waiting, multiset{FIRST})
  }

  predicate IsPush(m: Msg) { m.MPush? }

  lemma EmptiedUnpolled()
    ensures Since(EmptyAtReport(), One(STOPPED, {FIRST}, [], Container(HT.Empty, false, None), Idle,
                                       Handling([false], ToSend), multiset{FIRST}), IsPush)
  {
    hide Since, Reachable;
    EmptiedButArmed();
    var p := multiset{FIRST};
    var armed := Container(HT.Empty, true, Some(NOW));
    var s0 := EmptyAtReport();
    var s1 := One(STOPPED, {FIRST}, [], armed, Idle, Handling([false], ToDisarm), p);
    ReportAt(s0, s1, IsPush);
    var s2 := One(STOPPED, {FIRST}, [], Container(HT.Empty, true, None), Idle, Handling([false], ToUnpoll), p);
    GoOn(s0, s1, DISARM, s2, IsPush);
    GoOn(s0, s2, UNPOLL, One(STOPPED, {FIRST}, [], Container(HT.Empty, false, None), Idle, Handling([false], ToSend),
                             p), IsPush);
  }

  const AGAIN := Timer(true, Some(NEXT), Unlocked, 2, 2, 1, 0, 0)

  // The idle fd has fired; by the time the expiry is sent the timer has been started again.
  lemma RestartedBeforeSend()
    ensures Since(EmptyAtReport(), One(AGAIN, {FIRST, NEXT}, [MPush(NEXT), MExpire(false)],
                                       Container(HT.Empty, false, None), Idle, Waiting, multiset{FIRST}), IsPush)
  {
    hide Since, FutureTime;
    EmptiedUnpolled();
    FourSecondsLater();
    var r, p, c := EmptyAtReport(), multiset{FIRST}, Container(HT.Empty, false, None);
    var s3 := One(STOPPED, {FIRST}, [], c, Idle, Handling([false], ToSend), p);
    assert |{FIRST}| == 1 && |{FIRST, NEXT}| == 2;
    assert {FIRST} + {NEXT} == {FIRST, NEXT} && NewDelegate(s3, 0, 4000, false) == NEXT;
    var s4 := One(STOPPED.(phase := Starting(NEXT), lockRefs := 2), {FIRST, NEXT}, [MPush(NEXT)], c, Idle,
                  Handling([false], ToSend), p);
    GoOn(r, s3, C(StartBegin(0, 4000, false)), s4, IsPush);
    var s5 := One(AGAIN, {FIRST, NEXT}, [MPush(NEXT)], c, Idle, Handling([false], ToSend), p);
    GoOn(r, s4, C(StartEnd(0)), s5, IsPush);
    GoOn(r, s5, SEND, One(AGAIN, {FIRST, NEXT}, [MPush(NEXT), MExpire(false)], c, Idle, Waiting, p), IsPush);
  }

  lemma NextPushed() returns (s: State)
    ensures Since(EmptyAtReport(), s, IsPush)
    ensures s == One(AGAIN, {FIRST, NEXT}, [MExpire(false)], Container(ALONE, true, Some(LATE)), Idle, Waiting,
                     multiset{FIRST, NEXT})
  {
    hide Since;
    RestartedBeforeSend();
    var r, both := EmptyAtReport(), {FIRST, NEXT};
    var q, p := [MExpire(false)], multiset{FIRST, NEXT};
    var s0 := One(AGAIN, both, [MPush(NEXT), MExpire(false)], Container(HT.Empty, false, None), Idle, Waiting,
        multiset{FIRST});
    var s1 := One(AGAIN, both, q, Container(ALONE, false, None), Calling(false, [AddPoll, SetTime(LATE)], None),
        Waiting, p);
    GoOn(r, s0, W(Receive), s1, IsPush);
    var s2 := One(AGAIN, both, q, Container(ALONE, true, None), Calling(false, [SetTime(LATE)], None), Waiting, p);
    GoOn(r, s1, W(KernelCall), s2, IsPush);
    var s3 := One(AGAIN, both, q, Container(ALONE, true, Some(LATE)), Calling(false, [], None), Waiting, p);
    GoOn(r, s2, W(KernelCall), s3, IsPush);
    s := One(AGAIN, both, q, Container(ALONE, true, Some(LATE)), Idle, Waiting, p);
    GoOn(r, s3, W(Finish), s, IsPush);
  }

  // The fd is reported although the container is empty; since then the worker has handled nothing
  // but a push, no remove and no other expiry. Still the expiry calls back the timer just pushed,
  // four seconds early: what armed the fd had been removed before.
  lemma RemovedBeforeReportFiresEarly() returns (reported: State, s: State, called: State)
    ensures reported.sw.armed == Some(FIRST.time) && reported.sw.heap == HT.Empty
    ensures Since(reported, s, IsPush)
    ensures s.worker.Idle? && s.queue == [MExpire(false)] && Top(s.sw.heap) == Some(NEXT)
    ensures Then(s, CALL_BACK, called) && called.worker == CallingBack(false, s.now, 0) && MRemove(NEXT) in called.queue
    ensures Nanos(NEXT.time) == Nanos(s.now) + 4 * BILLION
  {
    hide Since, Then;
    reported := EmptyAtReport();
    s := NextPushed();
    var s5 := s.(queue := [], sw := Container(HT.Empty, true, Some(LATE)), worker := Expiring(false, NOW, NEXT));
    assert Next(s, W(Receive)) == s5;
    called := CalledBack(s5, NEXT);
    ThenFirst(s, W(Receive), [W(ReadClient), W(AskStop), W(AskDone)], called);
    assert [W(Receive)] + [W(ReadClient), W(AskStop), W(AskDone)] == CALL_BACK;
  }
}
