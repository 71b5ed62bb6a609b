// Threads that wait for deferred work (camera/QCamera2/HAL/QCamera2HWI.cpp): a finished job is
// announced with mDeffCond.signal, which wakes one thread only, whatever slot that one waits for.
module DeferredWaiters {
  import opened Options
  import opened DeferredWork

  // Asleep although the slot it waits for is free.
  predicate Stranded(s: State, t: nat) {
    t in s.asleep && t in s.waits && !(s.waits[t].id < |s.ongoing| && s.ongoing[s.waits[t].id])
  }

  ghost predicate NoneStranded(s: State) {
    forall t :: t in s.asleep ==> !Stranded(s, t)
  }

  predicate SleepsOn(s: State, t: nat, id: nat) {
    t in s.asleep && t in s.waits && s.waits[t].id == id
  }

  // A finish strands a thread exactly if a thread other than the one it wakes is asleep on its slot.
  lemma FinishStrandsIff(s: State, woken: Option<nat>)
    requires Inv(s) && NoneStranded(s) && Enabled(s, WorkerFinish(woken))
    ensures NoneStranded(Next(s, WorkerFinish(woken))) <==>
            forall t: nat :: SleepsOn(s, t, s.worker.job.id) ==> woken == Some(t)
  {
    hide Outstanding, JobCmds, SlotsDistinct, Accounted;
    var s' := Next(s, WorkerFinish(woken));
    forall t | t in s.asleep && woken != Some(t)
      ensures Stranded(s', t) <==> SleepsOn(s, t, s.worker.job.id)
    {
      assert !Stranded(s, t);
    }
  }

  // So it can strand one exactly if two threads are asleep, one of them on its slot.
  lemma FinishMayStrandIff(s: State)
    requires Inv(s) && NoneStranded(s) && s.worker.Finishing? && s.lock.Free? && s.worker.job.id < |s.ongoing|
    ensures (exists woken :: Enabled(s, WorkerFinish(woken)) && !NoneStranded(Next(s, WorkerFinish(woken))))
        <==> exists t: nat, u: nat :: SleepsOn(s, t, s.worker.job.id) && u in s.asleep && t != u
  {
    hide Inv, NoneStranded, Next;
    if t: nat, u: nat :| SleepsOn(s, t, s.worker.job.id) && u in s.asleep && t != u {
      FinishStrandsIff(s, Some(u));
      assert Enabled(s, WorkerFinish(Some(u)));
    }
    if woken :| Enabled(s, WorkerFinish(woken)) && !NoneStranded(Next(s, WorkerFinish(woken))) {
      FinishStrandsIff(s, woken);
      var t: nat :| SleepsOn(s, t, s.worker.job.id) && woken != Some(t);
      assert woken.Some? && woken.value in s.asleep;
    }
  }

  // No other step strands anyone.
  lemma OnlyFinishStrands(s: State, step: Step)
    requires Inv(s) && NoneStranded(s) && Enabled(s, step) && !step.WorkerFinish?
    ensures NoneStranded(Next(s, step))
  {
    hide Outstanding, JobCmds, SlotsDistinct, Accounted, TicketsIn, FirstFree;
    var s' := Next(s, step);
    forall t | t in s'.asleep ensures !Stranded(s', t) {
      assert t in s.asleep ==> !Stranded(s, t);
    }
  }

  // With never more than one thread inside waitDefferedWork nobody is ever stranded.
  lemma {:induction false} OneWaiterIsSafe(ss: seq<State>, steps: seq<Step>, i: nat)
    requires IsRun(ss, steps) && i < |ss|
    requires forall k :: 0 <= k < |ss| ==> |ss[k].waits| <= 1
    ensures NoneStranded(ss[i])
  {
    hide Next, Enabled, Inv, NoneStranded;
    if i == 0 {
      StartNoneStranded();
    } else {
      OneWaiterIsSafe(ss, steps, i - 1);
      RunInv(ss, steps, i - 1);
      var s, step := ss[i - 1], steps[i - 1];
      InvParts(s);
      if step.WorkerFinish? {
        LoneSleeper(s, step.woken);
        FinishStrandsIff(s, step.woken);
      } else {
        OnlyFinishStrands(s, step);
      }
    }
  }

  lemma InvParts(s: State)
    ensures Inv(s) <==> SlotsDistinct(s) && SlotsMarked(s) && Commanded(s) && WaitsOk(s)
  {
  }

  lemma StartNoneStranded()
    ensures NoneStranded(Init())
  {
  }

  lemma LoneSleeper(s: State, woken: Option<nat>)
    requires Enabled(s, WorkerFinish(woken)) && WaitsOk(s) && |s.waits| <= 1
    ensures forall t :: t in s.asleep ==> woken == Some(t)
  {
    hide Accounted;
    if s.asleep != {} {
      var u := woken.value;
      forall t | t in s.asleep ensures t == u {
        if t != u {
          assert {t, u} <= s.waits.Keys && |{t, u}| == 2;
          SubsetSize({t, u}, s.waits.Keys);
        }
      }
    }
  }

  lemma SubsetSize(a: set<nat>, b: set<nat>)
    requires a <= b
    ensures |a| <= |b|
  {
    if a != {} {
      var x :| x in a;
      SubsetSize(a - {x}, b - {x});
    }
  }

  // A thread asleep stays so until some job finishes, its own slot's being free notwithstanding.
  lemma {:induction false} SleepsUntilAFinish(ss: seq<State>, steps: seq<Step>, i: nat, k: nat, t: nat)
    requires IsRun(ss, steps) && i <= k < |ss| && t in ss[i].asleep
    requires forall j {:trigger steps[j]} :: i <= j < k ==> !steps[j].WorkerFinish?
    ensures t in ss[k].asleep
    decreases k
  {
    hide Next, Enabled;
    if i < k {
      SleepsUntilAFinish(ss, steps, i, k - 1, t);
      var step := steps[k - 1];
      SleepsOver(ss[k - 1], step, t);
    }
  }

  lemma SleepsOver(s: State, step: Step, t: nat)
    requires Enabled(s, step) && t in s.asleep && !step.WorkerFinish?
    ensures t in Next(s, step).asleep
  {
    hide FirstFree, TicketsIn;
  }

  // ----- two threads that wait for one job -----

  function Free(): seq<bool> { seq(MAX_ONGOING_JOBS, _ => false) }

  const JOB := Job(0, 0, StartPostproc)

  // JOB has slot 0; the threads watch it.
  function Watched(queue: seq<Job>, cmds: seq<Cmd>, worker: Worker, threads: set<nat>): State {
    State(Free()[0 := true], queue, cmds, Lock.Free, worker, {}, map t | t in threads :: Wait(0, {0}), threads, 1, {})
  }

  lemma JobQueued()
    ensures Reachable(Watched([JOB], [DoNextJob], Worker.Idle, {}))
  {
    hide Reachable;
    InitReachable();
    assert FirstFree(Free()) == 0;
    var s1 := State(Free(), [JOB], [], ToMark(JOB), Worker.Idle, {}, map[], {}, 1, {});
    NextReachable(Init(), QueueBegin(StartPostproc), s1);
    var s2 := s1.(ongoing := Free()[0 := true], lock := ToSend(JOB));
    NextReachable(s1, QueueMark, s2);
    var s3 := s2.(cmds := [DoNextJob], lock := Lock.Free);
    NextReachable(s2, QueueSend, s3);
    assert s3 == Watched([JOB], [DoNextJob], Worker.Idle, {});
  }

  lemma JobWatched()
    ensures Reachable(Watched([JOB], [DoNextJob], Worker.Idle, {1, 2}))
  {
    hide Reachable;
    JobQueued();
    var s0 := Watched([JOB], [DoNextJob], Worker.Idle, {});
    var s1 := Watched([JOB], [DoNextJob], Worker.Idle, {1});
    OnlyTicket(s0);
    assert s0.waits[1 := Wait(0, {0})] == s1.waits;
    NextReachable(s0, WaitBegin(1, 0), s1);
    var s2 := Watched([JOB], [DoNextJob], Worker.Idle, {1, 2});
    OnlyTicket(s1);
    assert s1.waits[2 := Wait(0, {0})] == s2.waits && s1.asleep + {2} == s2.asleep;
    NextReachable(s1, WaitBegin(2, 0), s2);
  }

  lemma OnlyTicket(s: State)
    requires s.queue == [JOB] && s.worker.Idle? && s.dropped == {}
    ensures TicketsIn(s, 0) == {0}
  {
    assert JOB in Outstanding(s);
    assert Outstanding(s) == {JOB};
  }

  // Both wait for the one job, which finishes and wakes the first; that one returns. The worker is
  // idle, nothing is queued or sent, and the second thread is asleep on a free slot.
  lemma StrandedExample() returns (s: State)
    ensures Reachable(s) && s.worker.Idle? && s.queue == [] && s.cmds == [] && s.lock.Free? && s.dropped == {}
    ensures s.waits.Keys == {2} && Stranded(s, 2)
  {
    hide Reachable;
    JobWatched();
    var both := {1, 2};
    var s0 := Watched([JOB], [DoNextJob], Worker.Idle, both);
    var s1 := Watched([JOB], [], Dequeuing, both);
    NextReachable(s0, WorkerGet, s1);
    var s2 := Watched([], [], Executing(JOB), both);
    NextReachable(s1, WorkerDequeue, s2);
    var s3 := Watched([], [], Finishing(JOB), both);
    NextReachable(s2, WorkerRun, s3);
    var s4 := s3.(ongoing := Free(), worker := Worker.Idle, finished := {0}, asleep := {2});
    assert both - {1} == {2} && Free()[0 := true][0 := false] == Free();
    NextReachable(s3, WorkerFinish(Some(1)), s4);
    s := s4.(waits := s4.waits - {1});
    NextReachable(s4, WaitReturn(1), s);
  }
}
