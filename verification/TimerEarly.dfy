// Timer protocol: when the first pop of an expiry, which is unconditional, is due. Every expiry is
// traced back to the report of its fd and to the delegate that the fd was armed for.
module TimerEarly {
  import opened Options
  import opened TimerCore
  import opened TimerProtocol
  import opened TimerWakeup
  import opened TimerLifetime
  import opened TimerSafety
  import MsgTasks
  import HT = HeapTree

  // The system call that armed an fd: for which delegate, and at which step.
  datatype Arming = Arming(d: Delegate, at: nat)

  // Why an expiry is on its way: the arming, and the step at which epoll_wait reported it.
  datatype Cause = Cause(d: Delegate, armedAt: nat, reportedAt: nat)

  // For each fd its arming; for each event the poll thread is handling, and for each queued
  // message that is an expiry, its cause.
  datatype Trace = Trace(sw: Option<Arming>, hw: Option<Arming>, inHand: seq<Option<Cause>>,
      queued: seq<Option<Cause>>) {
    function At(k: bool): Option<Arming> { if k then hw else sw }

    function With(k: bool, a: Option<Arming>): Trace { if k then this.(hw := a) else this.(sw := a) }
  }

  function Reported(tr: Trace, events: seq<bool>, i: nat): (r: seq<Option<Cause>>)
    ensures |r| == |events|
  {
    seq(|events|, p requires 0 <= p < |events| =>
      if tr.At(events[p]).Some? then Some(Cause(tr.At(events[p]).value.d, tr.At(events[p]).value.at, i)) else None)
  }

  // What the i-th step adds to the trace.
  function Extend(tr: Trace, s: State, step: Step, i: nat): Trace
    requires Enabled(s, step)
  {
    match step
    case C(StartBegin(c, _, _)) => if s.timers[c].running.None? then tr.(queued := tr.queued + [None]) else tr
    case C(StopEnd(_)) => tr.(queued := tr.queued + [None])
    case W(AskDone) => tr.(queued := tr.queued + [None])
    case W(Receive) => if tr.queued == [] then tr else tr.(queued := tr.queued[1..])
    case W(KernelCall) =>
      var Calling(k, calls, _) := s.worker;
      if !calls[0].SetTime? then tr
      else if calls[0].time == ZERO || s.At(k).heap.Empty? then tr.With(k, None)
      else tr.With(k, Some(Arming(s.At(k).heap.data, i)))
    case P(Report(events)) => tr.(inHand := Reported(tr, events, i))
    case P(Disarm) => tr.With(s.poll.events[0], None)
    case P(SendExpire) =>
      if tr.inHand == [] then tr
      else tr.(queued := tr.queued + [tr.inHand[0]], inHand := tr.inHand[1..])
    case _ => tr
  }

  ghost function TraceOf(ss: seq<State>, steps: seq<Step>, i: nat): Trace
    requires IsRun(ss, steps) && i < |ss|
  {
    if i == 0 then Trace(None, None, [], [])
    else Extend(TraceOf(ss, steps, i - 1), ss[i - 1], steps[i - 1], i - 1)
  }

  // Step a is the call that arms k's fd for the delegate on top.
  ghost predicate Arms(ss: seq<State>, steps: seq<Step>, k: bool, a: Arming)
    requires |ss| == |steps| + 1
  {
    && a.at < |steps| && steps[a.at] == W(KernelCall)
    && var s := ss[a.at];
    && s.worker.Calling? && s.worker.k == k && s.worker.calls != [] && s.worker.calls[0] == SetTime(a.d.time)
    && Top(s.At(k).heap) == Some(a.d)
  }

  // And step c.reportedAt, later, reports k's fd with that arming due.
  ghost predicate Causes(ss: seq<State>, steps: seq<Step>, k: bool, c: Cause)
    requires |ss| == |steps| + 1
  {
    && Arms(ss, steps, k, Arming(c.d, c.armedAt)) && c.armedAt < c.reportedAt < |steps|
    && steps[c.reportedAt].P? && steps[c.reportedAt].p.Report? && k in steps[c.reportedAt].p.events
    && ss[c.reportedAt].At(k).armed == Some(c.d.time) && Earlier(c.d.time, ss[c.reportedAt].now)
  }

  ghost predicate ArmedOk(ss: seq<State>, steps: seq<Step>, i: nat, s: State, tr: Trace, k: bool)
    requires |ss| == |steps| + 1
  {
    s.At(k).armed.Some? ==>
      && tr.At(k).Some? && tr.At(k).value.at < i && s.At(k).armed == Some(tr.At(k).value.d.time)
      && Arms(ss, steps, k, tr.At(k).value)
  }

  ghost predicate CauseOk(ss: seq<State>, steps: seq<Step>, i: nat, k: bool, c: Option<Cause>)
    requires |ss| == |steps| + 1
  {
    c.Some? && c.value.reportedAt < i && Causes(ss, steps, k, c.value)
  }

  ghost predicate InHandOk(ss: seq<State>, steps: seq<Step>, i: nat, poll: Poll, inHand: seq<Option<Cause>>)
    requires |ss| == |steps| + 1
  {
    poll.Handling? ==>
      |inHand| == |poll.events| && forall p :: 0 <= p < |inHand| ==> CauseOk(ss, steps, i, poll.events[p], inHand[p])
  }

  ghost predicate QueuedOk(ss: seq<State>, steps: seq<Step>, i: nat, queue: seq<Msg>, queued: seq<Option<Cause>>)
    requires |ss| == |steps| + 1
  {
    |queued| == |queue| &&
    forall p :: 0 <= p < |queue| && queue[p].MExpire? ==> CauseOk(ss, steps, i, queue[p].wake, queued[p])
  }

  ghost predicate TraceOk(ss: seq<State>, steps: seq<Step>, i: nat, s: State, tr: Trace)
    requires |ss| == |steps| + 1
  {
    && (forall k :: ArmedOk(ss, steps, i, s, tr, k))
    && InHandOk(ss, steps, i, s.poll, tr.inHand)
    && QueuedOk(ss, steps, i, s.queue, tr.queued)
  }

  // ----- every step extends the trace soundly -----

  lemma CallArming(ss: seq<State>, steps: seq<Step>, i: nat, tr: Trace, k: bool)
    requires |ss| == |steps| + 1 && i < |steps| && steps[i] == W(KernelCall) && Enabled(ss[i], steps[i])
    requires ArmedOk(ss, steps, i, ss[i], tr, k) && WakeOk(ss[i], k)
    ensures ArmedOk(ss, steps, i + 1, Next(ss[i], steps[i]), Extend(tr, ss[i], steps[i], i), k)
  {
    hide HT.Elements, HT.CheckNodes;
  }

  lemma SameArmed(s: State, step: Step, tr: Trace, i: nat, k: bool)
    requires Enabled(s, step) && step != W(KernelCall) && step != P(Disarm)
    ensures Next(s, step).At(k).armed == s.At(k).armed && Extend(tr, s, step, i).At(k) == tr.At(k)
  {
    hide PushMsg, RemoveMsg, UpdateCalls, HT.Pop;
  }

  lemma ArmedStep(ss: seq<State>, steps: seq<Step>, i: nat, tr: Trace, k: bool)
    requires |ss| == |steps| + 1 && i < |steps| && Enabled(ss[i], steps[i])
    requires ArmedOk(ss, steps, i, ss[i], tr, k) && WakeOk(ss[i], k)
    ensures ArmedOk(ss, steps, i + 1, Next(ss[i], steps[i]), Extend(tr, ss[i], steps[i], i), k)
  {
    hide WakeOk, Next, Extend, Arms, Enabled;
    if steps[i] == W(KernelCall) {
      CallArming(ss, steps, i, tr, k);
    } else if steps[i] == P(Disarm) {
      DisarmArming(ss, steps, i, tr, k);
    } else {
      SameArmed(ss[i], steps[i], tr, i, k);
    }
  }

  lemma DisarmArming(ss: seq<State>, steps: seq<Step>, i: nat, tr: Trace, k: bool)
    requires |ss| == |steps| + 1 && i < |steps| && Enabled(ss[i], steps[i]) && steps[i] == P(Disarm)
    requires ArmedOk(ss, steps, i, ss[i], tr, k)
    ensures ArmedOk(ss, steps, i + 1, Next(ss[i], steps[i]), Extend(tr, ss[i], steps[i], i), k)
  {
    hide Arms;
  }

  lemma SamePoll(s: State, step: Step, tr: Trace, i: nat)
    requires Enabled(s, step) && !step.P?
    ensures Next(s, step).poll == s.poll && Extend(tr, s, step, i).inHand == tr.inHand
  {
    hide PushMsg, RemoveMsg, UpdateCalls, HT.Pop;
  }

  lemma InHandStep(ss: seq<State>, steps: seq<Step>, i: nat, tr: Trace)
    requires |ss| == |steps| + 1 && i < |steps| && Enabled(ss[i], steps[i])
    requires InHandOk(ss, steps, i, ss[i].poll, tr.inHand) && forall k :: ArmedOk(ss, steps, i, ss[i], tr, k)
    ensures InHandOk(ss, steps, i + 1, Next(ss[i], steps[i]).poll, Extend(tr, ss[i], steps[i], i).inHand)
  {
    hide Arms, Kernel;
    if steps[i].P? {
      match steps[i].p
      case Report(events) => ReportedOk(ss, steps, i, tr);
      case _ =>
    } else {
      hide Next, Extend;
      SamePoll(ss[i], steps[i], tr, i);
    }
  }

  lemma ReportedOk(ss: seq<State>, steps: seq<Step>, i: nat, tr: Trace)
    requires |ss| == |steps| + 1 && i < |steps| && Enabled(ss[i], steps[i]) && steps[i].P? && steps[i].p.Report?
    requires forall k :: ArmedOk(ss, steps, i, ss[i], tr, k)
    ensures InHandOk(ss, steps, i + 1, Next(ss[i], steps[i]).poll, Extend(tr, ss[i], steps[i], i).inHand)
  {
    hide Arms;
    var events := steps[i].p.events;
    forall p | 0 <= p < |events| ensures CauseOk(ss, steps, i + 1, events[p], Reported(tr, events, i)[p]) {
      assert Ready(ss[i].At(events[p]), ss[i].now);
      assert ArmedOk(ss, steps, i, ss[i], tr, events[p]);
    }
  }

  // The trace of the queue grows and shrinks with the queue.
  lemma QueuedNext(s: State, step: Step, tr: Trace, i: nat)
    requires Enabled(s, step) && |tr.queued| == |s.queue| && (s.poll.Handling? ==> |tr.inHand| == |s.poll.events|)
    ensures Extend(tr, s, step, i).queued ==
            if MsgTasks.Sends(s, step).Some? then
              tr.queued + [if step == P(SendExpire) && tr.inHand != [] then tr.inHand[0] else None]
            else if step == W(Receive) then tr.queued[1..]
            else tr.queued
    ensures MsgTasks.Sends(s, step).Some? && MsgTasks.Sends(s, step).value.MExpire? ==>
              step == P(SendExpire) && tr.inHand != [] && MsgTasks.Sends(s, step).value.wake == s.poll.events[0]
  {
  }

  lemma QueuedStep(ss: seq<State>, steps: seq<Step>, i: nat, tr: Trace)
    requires |ss| == |steps| + 1 && i < |steps| && Enabled(ss[i], steps[i])
    requires QueuedOk(ss, steps, i, ss[i].queue, tr.queued) && InHandOk(ss, steps, i, ss[i].poll, tr.inHand)
    ensures QueuedOk(ss, steps, i + 1, Next(ss[i], steps[i]).queue, Extend(tr, ss[i], steps[i], i).queued)
  {
    MsgTasks.QueueStep(ss[i], steps[i]);
    QueuedNext(ss[i], steps[i], tr, i);
    SendExpireHandling(ss[i], steps[i]);
    hide Next, Extend, Enabled, Causes, MsgTasks.Sends;
  }

  lemma SendExpireHandling(s: State, step: Step)
    requires Enabled(s, step)
    ensures step == P(SendExpire) ==> s.poll.Handling? && s.poll.events != []
    ensures step == W(Receive) ==> s.queue != []
  {
  }

  lemma {:induction false} RunTraced(ss: seq<State>, steps: seq<Step>, i: nat)
    requires IsRun(ss, steps) && i < |ss|
    ensures TraceOk(ss, steps, i, ss[i], TraceOf(ss, steps, i))
  {
    hide Next, Extend, Enabled, ArmedOk, InHandOk, QueuedOk, Inv;
    if i == 0 {
      StartTraced(ss, steps);
    } else {
      RunTraced(ss, steps, i - 1);
      var step := steps[i - 1];
      var tr := TraceOf(ss, steps, i - 1);
      forall k ensures ArmedOk(ss, steps, i, ss[i], TraceOf(ss, steps, i), k) {
        WakeAt(ss, steps, i - 1, k);
        ArmedStep(ss, steps, i - 1, tr, k);
      }
      InHandStep(ss, steps, i - 1, tr);
      QueuedStep(ss, steps, i - 1, tr);
    }
  }

  lemma StartTraced(ss: seq<State>, steps: seq<Step>)
    requires IsRun(ss, steps)
    ensures TraceOk(ss, steps, 0, ss[0], TraceOf(ss, steps, 0))
  {
  }

  lemma WakeAt(ss: seq<State>, steps: seq<Step>, i: nat, k: bool)
    requires IsRun(ss, steps) && i < |ss|
    ensures WakeOk(ss[i], k)
  {
    RunInv(ss, steps, i);
  }

  // ----- how a delegate leaves its heap -----

  // The worker handles its remove message, or pops it.
  predicate TakesOut(s: State, step: Step, k: bool, d: Delegate) {
    || (step == W(Receive) && s.queue != [] &&
        (s.queue[0] == MRemove(d) || (s.queue[0] == MExpire(k) && Top(s.At(k).heap) == Some(d))))
    || (step == W(PopNext) && s.worker.NextPop? && s.worker.k == k && Top(s.At(k).heap) == Some(d))
  }

  lemma SameHeap(s: State, step: Step, k: bool)
    requires Enabled(s, step) && step != W(Receive) && step != W(PopNext)
    ensures Next(s, step).At(k).heap == s.At(k).heap
  {
    hide PushMsg, RemoveMsg, UpdateCalls, HT.Pop, Handle, FutureTime;
  }

  lemma HandleLeaves(s: State, m: Msg, k: bool, d: Delegate)
    requires HeapsOk(s)
    requires d in HT.Elements(s.At(k).heap) && d !in HT.Elements(Handle(s, m).At(k).heap)
    ensures m == MRemove(d) || (m == MExpire(k) && Top(s.At(k).heap) == Some(d))
  {
    hide HT.CheckNodes, HT.Elements, HT.Pop, PushMsg, RemoveMsg;
    match m
    case MPush(e) => PushMsgCalls(s.At(e.wake).heap, e);
    case MRemove(e) => RemoveMsgCalls(s.At(e.wake).heap, e);
    case MExpire(k') => if s.At(k').heap.Node? { PopFacts(s.At(k').heap); }
  }

  lemma PopNextLeaves(s: State, k: bool, d: Delegate)
    requires HeapsOk(s) && WorkerEnabled(s, PopNext)
    requires d in HT.Elements(s.At(k).heap) && d !in HT.Elements(WorkerNext(s, PopNext).At(k).heap)
    ensures s.worker.k == k && Top(s.At(k).heap) == Some(d)
  {
    hide HT.CheckNodes, HT.Elements, HT.Pop, UpdateCalls;
    if s.At(s.worker.k).heap.Node? { PopFacts(s.At(s.worker.k).heap); }
  }

  lemma Leaves(s: State, step: Step, k: bool, d: Delegate)
    requires HeapsOk(s) && Enabled(s, step)
    requires d in HT.Elements(s.At(k).heap) && d !in HT.Elements(Next(s, step).At(k).heap)
    ensures TakesOut(s, step, k, d)
  {
    hide HT.Elements, Handle, Checked;
    if step == W(Receive) {
      HandleLeaves(s.(queue := s.queue[1..]), s.queue[0], k, d);
    } else if step == W(PopNext) {
      PopNextLeaves(s, k, d);
    } else {
      SameHeap(s, step, k);
    }
  }

  // In a heap at one point and not at a later one: taken out in between.
  lemma {:induction false} TakenOutBetween(ss: seq<State>, steps: seq<Step>, a: nat, i: nat, k: bool, d: Delegate)
    requires IsRun(ss, steps) && a <= i < |ss| && d in HT.Elements(ss[a].At(k).heap)
    ensures d in HT.Elements(ss[i].At(k).heap) || exists j :: a <= j < i && TakesOut(ss[j], steps[j], k, d)
    decreases i
  {
    hide Next, Enabled, Inv, HT.Elements, TakesOut;
    if a < i {
      TakenOutBetween(ss, steps, a, i - 1, k, d);
      var step := steps[i - 1];
      if d in HT.Elements(ss[i - 1].At(k).heap) && d !in HT.Elements(ss[i].At(k).heap) {
        HeapAt(ss, steps, i - 1, false);
        HeapAt(ss, steps, i - 1, true);
        Leaves(ss[i - 1], step, k, d);
      }
    }
  }

  lemma {:induction false} NowGrows(ss: seq<State>, steps: seq<Step>, a: nat, i: nat)
    requires IsRun(ss, steps) && a <= i < |ss|
    ensures Earlier(ss[a].now, ss[i].now)
    decreases i
  {
    if a < i {
      NowGrows(ss, steps, a, i - 1);
      var step := steps[i - 1];
      NowNext(ss[i - 1], step);
      hide Next, Enabled;
    }
  }

  lemma NowNext(s: State, step: Step)
    requires Enabled(s, step)
    ensures Earlier(s.now, Next(s, step).now)
  {
    hide PushMsg, RemoveMsg, UpdateCalls, HT.Pop, Kernel;
  }

  // ----- the first pop of an expiry -----

  // When the worker comes to handle an expiry of a container that is not empty: the expiry was
  // reported because the fd was armed for a delegate then due, and the timer it pops first is due,
  // to the second, exactly if some timer left in the heap is; which is so unless that delegate has
  // been removed or popped since the fd was armed for it.
  lemma FirstPopIsDue(ss: seq<State>, steps: seq<Step>, i: nat, k: bool) returns (c: Cause)
    requires IsRun(ss, steps) && i < |steps| && steps[i] == W(Receive)
    requires ss[i].queue != [] && ss[i].queue[0] == MExpire(k) && ss[i].At(k).heap.Node?
    ensures TraceOf(ss, steps, i).queued != [] && TraceOf(ss, steps, i).queued[0] == Some(c)
    ensures c.reportedAt < i && Causes(ss, steps, k, c)
    ensures var h, now := ss[i].At(k).heap, ss[i].now;
            && (Due(h.data, now) <==> exists d :: d in HT.Elements(h) && Due(d, now))
            && (c.d in HT.Elements(h) ==> Due(h.data, now))
            && (c.d in HT.Elements(h) || exists j :: c.armedAt <= j < i && TakesOut(ss[j], steps[j], k, c.d))
  {
    hide HT.Elements, TakesOut, Next, Enabled, Arms;
    RunTraced(ss, steps, i);
    var tr := TraceOf(ss, steps, i);
    c := tr.queued[0].value;
    HeapAt(ss, steps, i, k);
    TopSoonest(ss[i].At(k).heap);
    TopIn(ss[i].At(k).heap);
    ArmedIn(ss, steps, k, Arming(c.d, c.armedAt));
    TakenOutBetween(ss, steps, c.armedAt, i, k, c.d);
    NowGrows(ss, steps, c.reportedAt, i);
  }

  lemma HeapAt(ss: seq<State>, steps: seq<Step>, i: nat, k: bool)
    requires IsRun(ss, steps) && i < |ss|
    ensures Checked(ss[i].At(k).heap)
  {
    RunInv(ss, steps, i);
  }

  lemma ArmedIn(ss: seq<State>, steps: seq<Step>, k: bool, a: Arming)
    requires |ss| == |steps| + 1 && Arms(ss, steps, k, a)
    ensures a.d in HT.Elements(ss[a.at].At(k).heap)
  {
    TopIn(ss[a.at].At(k).heap);
  }

  // ----- the whole of an expiry -----

  // The delegate that a step pops off a heap, if any.
  function PoppedBy(s: State, step: Step): seq<Delegate> {
    if step == W(Receive) && s.queue != [] && s.queue[0].MExpire? && s.At(s.queue[0].wake).heap.Node? then
      [s.At(s.queue[0].wake).heap.data]
    else if step == W(PopNext) && s.worker.NextPop? && s.At(s.worker.k).heap.Node?
            && Due(s.At(s.worker.k).heap.data, s.worker.now) then
      [s.At(s.worker.k).heap.data]
    else []
  }

  ghost function Pops(ss: seq<State>, steps: seq<Step>, i: nat, j: nat): seq<Delegate>
    requires |ss| == |steps| + 1 && i <= j < |ss|
    decreases j
  {
    if i == j then [] else Pops(ss, steps, i, j - 1) + PoppedBy(ss[j - 1], steps[j - 1])
  }

  // The time of the expiry under way, and what its batch still has to take from the heap.
  predicate AtTime(w: Worker, now: Time) {
    match w
    case Expiring(_, t, _) => t == now
    case Asking(_, t, _) => t == now
    case AskWait(_, t, _) => t == now
    case CallingBack(_, t, _) => t == now
    case NextPop(_, t) => t == now
    case _ => false
  }

  // What a step in the middle of an expiry does to the heap: it pops as PopDue does, or leaves it
  // alone.
  lemma LoopStep(s: State, step: Step, k: bool, now: Time)
    requires Enabled(s, step) && InLoop(s.worker, k) && AtTime(s.worker, now)
    ensures var (ds, rest) := PopDue(s.At(k).heap, now);
            var s' := Next(s, step);
            && ds == PoppedBy(s, step) + PopDue(s'.At(k).heap, now).0 && rest == PopDue(s'.At(k).heap, now).1
            && (InLoop(s'.worker, k) ==> AtTime(s'.worker, now))
            && (!InLoop(s'.worker, k) ==> PopDue(s'.At(k).heap, now) == ([], s'.At(k).heap))
  {
    hide PopDue, HT.Pop, Handle, UpdateCalls;
    PopDueStep(s.At(k).heap, now);
    if step == W(PopNext) {
    } else {
      SameLoop(s, step, k, now);
    }
  }

  lemma SameLoop(s: State, step: Step, k: bool, now: Time)
    requires Enabled(s, step) && InLoop(s.worker, k) && AtTime(s.worker, now) && step != W(PopNext)
    ensures var s' := Next(s, step);
            s'.At(k).heap == s.At(k).heap && InLoop(s'.worker, k) && AtTime(s'.worker, now) && PoppedBy(s, step) == []
  {
    NotReceiving(s, step, k);
    SameHeap(s, step, k);
    hide PushMsg, RemoveMsg, UpdateCalls, HT.Pop, Handle, FutureTime;
  }

  lemma NotReceiving(s: State, step: Step, k: bool)
    requires Enabled(s, step) && InLoop(s.worker, k)
    ensures step != W(Receive) && step != W(KernelCall) && step != W(Finish)
  {
  }

  // The pops made so far and the due timers still there are the batch.
  lemma {:induction false} LoopPops(ss: seq<State>, steps: seq<Step>, i: nat, m: nat, k: bool)
    requires IsRun(ss, steps) && i < m < |ss|
    requires steps[i] == W(Receive) && ss[i].queue != [] && ss[i].queue[0] == MExpire(k) && ss[i].At(k).heap.Node?
    requires forall n :: i < n < m ==> InLoop(ss[n].worker, k)
    ensures var (ds, rest) := Batch(ss[i].At(k).heap, ss[i].now);
            && ds == Pops(ss, steps, i, m) + PopDue(ss[m].At(k).heap, ss[i].now).0
            && rest == PopDue(ss[m].At(k).heap, ss[i].now).1
            && (InLoop(ss[m].worker, k) ==> AtTime(ss[m].worker, ss[i].now))
            && (!InLoop(ss[m].worker, k) ==> PopDue(ss[m].At(k).heap, ss[i].now) == ([], ss[m].At(k).heap))
    decreases m
  {
    hide PopDue, HT.Pop, Next, Enabled, PoppedBy, InLoop, AtTime, Batch;
    if m == i + 1 {
      FirstPops(ss[i], k);
      assert Pops(ss, steps, i, i) == [];
    } else {
      LoopPops(ss, steps, i, m - 1, k);
      var step := steps[m - 1];
      LoopStep(ss[m - 1], step, k, ss[i].now);
    }
  }

  lemma FirstPops(s: State, k: bool)
    requires Enabled(s, W(Receive)) && s.queue[0] == MExpire(k) && s.At(k).heap.Node?
    ensures var s' := Next(s, W(Receive));
            var (ds, rest) := Batch(s.At(k).heap, s.now);
            && ds == PoppedBy(s, W(Receive)) + PopDue(s'.At(k).heap, s.now).0 && rest == PopDue(s'.At(k).heap, s.now).1
            && InLoop(s'.worker, k) && AtTime(s'.worker, s.now)
  {
    hide PopDue, HT.Pop, UpdateCalls;
  }

  // Whatever the other threads do meanwhile: from the message to the end of its loop the worker
  // pops exactly the batch of the heap it found, at the time it read, and leaves the rest.
  lemma ExpiryPopsTheBatch(ss: seq<State>, steps: seq<Step>, i: nat, j: nat, k: bool)
    requires IsRun(ss, steps) && i < j < |ss|
    requires steps[i] == W(Receive) && ss[i].queue != [] && ss[i].queue[0] == MExpire(k) && ss[i].At(k).heap.Node?
    requires (forall n :: i < n < j ==> InLoop(ss[n].worker, k)) && !InLoop(ss[j].worker, k)
    ensures Batch(ss[i].At(k).heap, ss[i].now) == (Pops(ss, steps, i, j), ss[j].At(k).heap)
  {
    hide PopDue, InLoop, Batch, Pops;
    LoopPops(ss, steps, i, j, k);
    assert Pops(ss, steps, i, j) + [] == Pops(ss, steps, i, j);
  }

  // ----- to the nanosecond -----

  lemma {:induction false} RunNormal(ss: seq<State>, steps: seq<Step>, i: nat)
    requires IsRun(ss, steps) && i < |ss|
    ensures Normal(ss[i].now) && forall d :: d in ss[i].created ==> Normal(d.time)
  {
    hide Next, Enabled, Normal;
    if i > 0 {
      RunNormal(ss, steps, i - 1);
      var step := steps[i - 1];
      NormalNext(ss[i - 1], step);
    }
  }

  lemma NormalNext(s: State, step: Step)
    requires Enabled(s, step) && Normal(s.now) && forall d :: d in s.created ==> Normal(d.time)
    ensures var s' := Next(s, step); Normal(s'.now) && forall d :: d in s'.created ==> Normal(d.time)
  {
    hide PushMsg, RemoveMsg, UpdateCalls, HT.Pop, Kernel, FutureTime, Nanos;
    match step
    case C(StartBegin(_, ms, _)) => FutureTimeExact(s.now, ms);
    case _ =>
  }

  // None of the timers that an expiry pops is early, to the nanosecond, exactly if the top it found
  // is due to the second and no timer of the heap falls later within the current second.
  lemma ExpiryNeverEarlyIff(ss: seq<State>, steps: seq<Step>, i: nat, j: nat, k: bool)
    requires IsRun(ss, steps) && i < j < |ss|
    requires steps[i] == W(Receive) && ss[i].queue != [] && ss[i].queue[0] == MExpire(k) && ss[i].At(k).heap.Node?
    requires (forall n :: i < n < j ==> InLoop(ss[n].worker, k)) && !InLoop(ss[j].worker, k)
    ensures var h, now := ss[i].At(k).heap, ss[i].now;
            (forall d :: d in Pops(ss, steps, i, j) ==> Nanos(d.time) <= Nanos(now))
            <==> (Due(h.data, now)
                  && forall d :: d in HT.Elements(h) && d.time.sec == now.sec ==> d.time.nsec <= now.nsec)
  {
    hide HT.Elements, HT.CheckNodes, Batch, Nanos, Normal, Pops, InLoop;
    ExpiryPopsTheBatch(ss, steps, i, j, k);
    HeapAt(ss, steps, i, k);
    RunNormal(ss, steps, i);
    HeapCreated(ss, steps, i, k);
    NeverEarlyIff(ss[i].At(k).heap, ss[i].now);
  }

  lemma HeapCreated(ss: seq<State>, steps: seq<Step>, i: nat, k: bool)
    requires IsRun(ss, steps) && i < |ss|
    ensures forall d :: d in HT.Elements(ss[i].At(k).heap) ==> d in ss[i].created
  {
    hide HT.Elements, IsRun;
    RunInv(ss, steps, i);
    assert RefsOk(ss[i]);
  }
}
