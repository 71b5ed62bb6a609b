// Which receivers of a msg_q are asleep (gps/utils/msg_q.c): msg_q_snd signals list_cond once,
// msg_q_unblock broadcasts it, and a receiver goes back to sleep when it finds the list empty.
module MsgQueueWakeup {
  import opened Options
  import opened MsgQueues

  // The queue, and those of its waiting threads that have been woken and have not run yet.
  datatype State<M> = State(queue: Queue<M>, woken: set<nat>)

  function Asleep<M>(s: State<M>): set<nat> { s.queue.waiting - s.woken }

  // A step of the queue; chosen is the thread that a send's signal wakes.
  datatype Step<M> = Step(step: MsgQueues.Step<M>, chosen: Option<nat>)

  // A signal wakes some thread that is asleep, any one, or nobody if none is. Waking without a
  // signal is possible at any time, as for every condition variable.
  predicate Enabled<M>(s: State<M>, step: Step<M>) {
    && MsgQueues.Enabled(s.queue, step.step)
    && (step.chosen.Some? ==> step.step.DoSnd? && !s.queue.unblocked && step.chosen.value in Asleep(s))
    && (step.step.DoSnd? && !s.queue.unblocked && Asleep(s) != {} ==> step.chosen.Some?)
  }

  function Next<M>(s: State<M>, step: Step<M>): State<M>
    requires Enabled(s, step)
  {
    State(MsgQueues.Next(s.queue, step.step),
          match step.step
          case DoSnd(_) => if step.chosen.Some? then s.woken + {step.chosen.value} else s.woken
          case DoWake(t) => s.woken - {t}
          case DoUnblock => if s.queue.unblocked then s.woken else s.queue.waiting
          case _ => s.woken)
  }

  ghost predicate IsRun<M(!new)>(ss: seq<State<M>>, steps: seq<Step<M>>) {
    && |ss| == |steps| + 1 && ss[0] == State(Empty(), {})
    && forall i {:trigger steps[i]} :: 0 <= i < |steps| ==>
         Enabled(ss[i], steps[i]) && ss[i + 1] == Next(ss[i], steps[i])
  }

  // While anyone sleeps the queue is not unblocked, and at least as many have been woken as there
  // are messages.
  ghost predicate Attended<M>(s: State<M>) {
    && s.woken <= s.queue.waiting
    && (Asleep(s) != {} ==> !s.queue.unblocked && |s.queue.pending| <= |s.woken|)
  }

  lemma StepAttended<M>(s: State<M>, step: Step<M>)
    requires Attended(s) && Enabled(s, step)
    ensures Attended(Next(s, step))
  {
    var s' := Next(s, step);
    match step.step
    case DoSnd(_) =>
      if Asleep(s') != {} {
        var t :| t in Asleep(s');
        assert t in Asleep(s);
        assert |s'.woken| == |s.woken| + 1;
      }
    case DoRcv(t) =>
      if Asleep(s') != {} && s.queue.pending != [] {
        assert Asleep(s') <= Asleep(s);
      }
    case DoWake(t) =>
      if t in s.woken { assert |s.woken - {t}| == |s.woken| - 1; } else { assert s.woken - {t} == s.woken; }
      if Asleep(s') != {} && s.queue.pending != [] {
        var u :| u in Asleep(s');
        assert u in Asleep(s);
      }
    case DoUnblock =>
    case DoFlush =>
  }

  lemma {:induction false} RunAttended<M(!new)>(ss: seq<State<M>>, steps: seq<Step<M>>, i: nat)
    requires IsRun(ss, steps) && i < |ss|
    ensures Attended(ss[i])
  {
    hide Next, Enabled, Attended;
    if i == 0 {
      StartAttended<M>();
    } else {
      RunAttended(ss, steps, i - 1);
      var step := steps[i - 1];
      StepAttended(ss[i - 1], step);
    }
  }

  lemma StartAttended<M>()
    ensures Attended(State<M>.State(Empty<M>(), {}))
  {
  }

  // No receiver is forgotten: in every interleaving, one is asleep only while the queue is not
  // unblocked, and only if every pending message has a receiver of its own that has been woken and
  // is on its way to the list.
  lemma NobodyForgotten<M(!new)>(ss: seq<State<M>>, steps: seq<Step<M>>, i: nat)
    requires IsRun(ss, steps) && i < |ss| && Asleep(ss[i]) != {}
    ensures !ss[i].queue.unblocked
    ensures |ss[i].queue.pending| <= |ss[i].woken| && ss[i].woken <= ss[i].queue.waiting
  {
    hide IsRun;
    RunAttended(ss, steps, i);
  }

  // The queue of such a run is a run of the queue: order and conservation hold in it.
  lemma {:induction false} QueueRun<M(!new)>(ss: seq<State<M>>, steps: seq<Step<M>>, i: nat)
    requires IsRun(ss, steps) && i < |ss|
    ensures ss[i].queue.sent == Messages(ss[i].queue.taken) + ss[i].queue.pending
  {
    var qs := seq(|ss|, n requires 0 <= n < |ss| => ss[n].queue);
    var qsteps := seq(|steps|, n requires 0 <= n < |steps| => steps[n].step);
    forall n {:trigger qsteps[n]} | 0 <= n < |qsteps|
      ensures MsgQueues.Enabled(qs[n], qsteps[n]) && qs[n + 1] == MsgQueues.Next(qs[n], qsteps[n])
    {
      assert qsteps[n] == steps[n].step;
    }
    hide MsgQueues.Next, MsgQueues.Enabled;
    RunIsFifo(qs, qsteps, i);
  }
}
