// MsgTask (gps/utils/MsgTask.cpp): one thread that takes messages from a msg_q and handles them
// one at a time; and the timer service's queue as such a one.
module MsgTasks {
  import opened Options
  import opened LinkedLists
  import opened MsgQueues
  import T = TimerProtocol

  lemma MessagesAppend<M>(taken: seq<Taken<M>>, msg: M)
    ensures Messages(taken + [Received(msg)]) == Messages(taken) + [msg]
  {
  }

  class MsgTask<M> {
    const mQ: MsgQ<M>
    // The messages whose proc() has been called, in order.
    var handled: seq<M>

    ghost predicate Valid()
      reads this, mQ, mQ.msgList, mQ.msgList.Elements
    {
      mQ.Valid() && this !in mQ.Repr() && handled == Messages(mQ.Value.taken)
      && mQ.Value.sent == handled + mQ.Value.pending
    }

    ghost function Repr(): set<object>
      reads this, mQ, mQ.msgList
    {
      {this} + mQ.Repr()
    }

    constructor ()
      ensures Valid() && fresh(Repr()) && handled == [] && mQ.Value == Empty()
    {
      mQ := new MsgQ();
      handled := [];
    }

    // A message sent after destroy() is dropped.
    method SendMsg(msg: M)
      requires Valid()
      modifies mQ.Repr()
      ensures Valid() && fresh(Repr() - old(Repr()))
      ensures mQ.Value == Snd(old(mQ.Value), msg).0 && handled == old(handled)
    {
      var rv := mQ.Send(msg, true);
    }

    // One call of run(), by a thread that enters msg_q_rcv or is awakened in it; it goes on
    // (true) after handling the oldest message and ends (false) when there is none to come.
    method Run(awakened: bool, ghost thread: nat) returns (again: Option<bool>)
      requires Valid()
      modifies Repr()
      ensures Valid() && fresh(Repr() - old(Repr()))
      ensures var (q, r) := if awakened then RcvWake(old(mQ.Value), thread) else RcvEnter(old(mQ.Value), thread);
              && mQ.Value == q
              && handled == old(handled) + (if r.Got? then [r.msg] else [])
              && again == match r case Got(_) => Some(true) case Failed => Some(false) case Waits => None
      ensures again == Some(true) ==> handled == old(handled + [mQ.Value.sent[|handled|]])
      ensures again == Some(false) ==> mQ.Value.unblocked
    {
      hide PendingOf, Messages;
      ghost var q := mQ.Value;
      if q.pending != [] { MessagesAppend(q.taken, q.pending[0]); }
      var r;
      if awakened { r := mQ.ReceiveWake(thread); } else { r := mQ.ReceiveEnter(thread); }
      match r {
        case Got(msg) =>
          handled := handled + [msg];
          again := Some(true);
        case Failed => again := Some(false);
        case Waits => again := None;
      }
    }

    // destroy(), as far as the queue goes.
    method Destroy()
      requires Valid()
      modifies mQ
      ensures Valid() && mQ.Value == Unblock(old(mQ.Value)).0 && handled == old(handled)
    {
      var rv := mQ.UnblockAll();
    }
  }

  // ----- the queue of the timer service -----

  // The message a step of the timer protocol sends.
  function Sends(s: T.State, step: T.Step): Option<T.Msg>
    requires T.Enabled(s, step)
  {
    match step
    case C(StartBegin(c, ms, wake)) =>
      if s.timers[c].running.None? then Some(T.MPush(T.NewDelegate(s, c, ms, wake))) else None
    case C(StopEnd(c)) => Some(T.MRemove(s.timers[c].phase.d))
    case W(AskDone) => Some(T.MRemove(s.timers[s.worker.timer.client].phase.d))
    case P(SendExpire) => Some(T.MExpire(s.poll.events[0]))
    case _ => None
  }

  // What that step does to a msg_q.
  function Feed(q: Queue<T.Msg>, s: T.State, step: T.Step): Queue<T.Msg>
    requires T.Enabled(s, step)
  {
    if Sends(s, step).Some? then Snd(q, Sends(s, step).value).0
    else if step == T.W(T.Receive) then RcvWake(q, 0).0
    else q
  }

  // What that step does to the protocol's queue.
  lemma QueueStep(s: T.State, step: T.Step)
    requires T.Enabled(s, step)
    ensures T.Next(s, step).queue ==
            if Sends(s, step).Some? then s.queue + [Sends(s, step).value]
            else if step == T.W(T.Receive) then s.queue[1..]
            else s.queue
  {
    hide T.Handle, T.Kernel;
    if step == T.W(T.Receive) { HandleSameQueue(s.(queue := s.queue[1..]), s.queue[0]); }
  }

  lemma HandleSameQueue(s: T.State, m: T.Msg)
    ensures T.Handle(s, m).queue == s.queue
  {
  }

  lemma FeedStep(q: Queue<T.Msg>, s: T.State, step: T.Step)
    requires T.Enabled(s, step) && q.pending == s.queue && !q.unblocked
    requires q.sent == Messages(q.taken) + q.pending
    ensures var q' := Feed(q, s, step);
            && q'.pending == T.Next(s, step).queue && !q'.unblocked
            && q'.sent == Messages(q'.taken) + q'.pending
    ensures step == T.W(T.Receive) ==> RcvWake(q, 0).1 == Got(s.queue[0])
  {
    hide T.Next, Sends;
    QueueStep(s, step);
    if Sends(s, step).None? && step == T.W(T.Receive) {
      assert s.queue != [];
      assert Messages(q.taken + [Received(q.pending[0])]) == Messages(q.taken) + [q.pending[0]];
    }
  }

  // The msg_q behind the queue of a run's i-th state.
  ghost function Behind(ss: seq<T.State>, steps: seq<T.Step>, i: nat): Queue<T.Msg>
    requires T.IsRun(ss, steps) && i < |ss|
  {
    if i == 0 then Empty() else Feed(Behind(ss, steps, i - 1), ss[i - 1], steps[i - 1])
  }

  // The worker of the timer service handles the messages in the order in which they were sent,
  // each once: the queue of the protocol is what a msg_q with that one consumer holds.
  lemma {:induction false} HandledInOrder(ss: seq<T.State>, steps: seq<T.Step>, i: nat)
    requires T.IsRun(ss, steps) && i < |ss|
    ensures var q := Behind(ss, steps, i);
            q.pending == ss[i].queue && !q.unblocked && q.sent == Messages(q.taken) + ss[i].queue
  {
    hide Feed, T.Next, T.Enabled;
    if i == 0 {
      assert ss[0].queue == [];
    } else {
      HandledInOrder(ss, steps, i - 1);
      var step := steps[i - 1];
      FeedStep(Behind(ss, steps, i - 1), ss[i - 1], step);
    }
  }
}
