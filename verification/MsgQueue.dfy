// The blocking message queue of gps/utils/msg_q.c. Each function below is what one critical
// section of list_mutex does; pthread_cond_wait splits msg_q_rcv into two of them, so any
// interleaving of the threads is a sequence of these steps.
module MsgQueues {
  import opened LinkedLists

  datatype Status = Ok | Unavailable

  // How a message left the queue.
  datatype Taken<M> = Received(msg: M) | Flushed(msg: M)

  // The queue with its history: pending is oldest first; sent and taken are what successful
  // sends put in and what receives and flushes took out, in order; waiting are the threads
  // blocked inside msg_q_rcv.
  datatype Queue<M> = Queue(pending: seq<M>, unblocked: bool, waiting: set<nat>,
                            sent: seq<M>, taken: seq<Taken<M>>)

  function Empty<M>(): Queue<M> { Queue([], false, {}, [], []) }

  function Messages<M>(taken: seq<Taken<M>>): (s: seq<M>)
    ensures |s| == |taken|
  {
    seq(|taken|, i requires 0 <= i < |taken| => taken[i].msg)
  }

  function AllFlushed<M>(s: seq<M>): seq<Taken<M>> {
    seq(|s|, i requires 0 <= i < |s| => Flushed(s[i]))
  }

  // ----- the critical sections -----

  function Snd<M>(q: Queue<M>, msg: M): (Queue<M>, Status) {
    if q.unblocked then (q, Unavailable)
    else (q.(pending := q.pending + [msg], sent := q.sent + [msg]), Ok)
  }

  // The outcome of a critical section of msg_q_rcv.
  datatype Reception<M> = Got(msg: M) | Failed | Waits

  // Entering msg_q_rcv: refused at once if the queue is unblocked, else as after a wake-up.
  function RcvEnter<M>(q: Queue<M>, thread: nat): (Queue<M>, Reception<M>) {
    if q.unblocked then (q, Failed) else RcvWake(q, thread)
  }

  // Holding the mutex at the head of the wait loop, first time or awakened.
  function RcvWake<M>(q: Queue<M>, thread: nat): (Queue<M>, Reception<M>) {
    if q.pending == [] && !q.unblocked then (q.(waiting := q.waiting + {thread}), Waits)
    else if q.pending == [] then (q.(waiting := q.waiting - {thread}), Failed)
    else (q.(pending := q.pending[1..], waiting := q.waiting - {thread},
             taken := q.taken + [Received(q.pending[0])]), Got(q.pending[0]))
  }

  function Flush<M>(q: Queue<M>): Queue<M> {
    q.(pending := [], taken := q.taken + AllFlushed(q.pending))
  }

  function Unblock<M>(q: Queue<M>): (Queue<M>, Status) {
    if q.unblocked then (q, Unavailable) else (q.(unblocked := true), Ok)
  }

  // ----- any interleaving -----

  datatype Step<M> = DoSnd(msg: M) | DoRcv(thread: nat) | DoWake(thread: nat) | DoFlush | DoUnblock

  // A thread wakes up only if it is waiting, and does not enter while it waits.
  predicate Enabled<M>(q: Queue<M>, s: Step<M>) {
    match s
    case DoRcv(t) => t !in q.waiting
    case DoWake(t) => t in q.waiting
    case _ => true
  }

  function Next<M>(q: Queue<M>, s: Step<M>): Queue<M>
    requires Enabled(q, s)
  {
    match s
    case DoSnd(m) => Snd(q, m).0
    case DoRcv(t) => RcvEnter(q, t).0
    case DoWake(t) => RcvWake(q, t).0
    case DoFlush => Flush(q)
    case DoUnblock => Unblock(q).0
  }

  // qs is a run: consecutive states related by enabled steps.
  ghost predicate IsRun<M(!new)>(qs: seq<Queue<M>>, steps: seq<Step<M>>) {
    && |qs| == |steps| + 1
    && forall i {:trigger steps[i]} :: 0 <= i < |steps| ==>
         Enabled(qs[i], steps[i]) && qs[i + 1] == Next(qs[i], steps[i])
  }

  // What lies between an earlier and a later state of a run: the queue is first in, first out,
  // and nothing sent is lost or duplicated; unblocking is final and stops all sending.
  ghost predicate Leads<M>(q: Queue<M>, q': Queue<M>) {
    && q.sent <= q'.sent && q.taken <= q'.taken
    && q.pending + q'.sent[|q.sent|..] == Messages(q'.taken[|q.taken|..]) + q'.pending
    && (q.unblocked ==> q'.unblocked && q'.sent == q.sent)
  }

  lemma StepLeads<M>(q: Queue<M>, s: Step<M>)
    requires Enabled(q, s)
    ensures Leads(q, Next(q, s))
  {
    var q' := Next(q, s);
    match s
    case DoSnd(m) =>
    case DoUnblock =>
    case DoFlush => assert Messages(AllFlushed(q.pending)) == q.pending;
    case DoRcv(_) => assert q.pending == [] || q.pending == [q.pending[0]] + q.pending[1..];
    case DoWake(_) => assert q.pending == [] || q.pending == [q.pending[0]] + q.pending[1..];
  }

  lemma LeadsTrans<M>(a: Queue<M>, b: Queue<M>, c: Queue<M>)
    requires Leads(a, b) && Leads(b, c)
    ensures Leads(a, c)
  {
    var s1, s2 := b.sent[|a.sent|..], c.sent[|b.sent|..];
    var t1, t2 := b.taken[|a.taken|..], c.taken[|b.taken|..];
    assert c.sent[|a.sent|..] == s1 + s2;
    assert c.taken[|a.taken|..] == t1 + t2;
    assert Messages(t1 + t2) == Messages(t1) + Messages(t2);
    calc {
      a.pending + (s1 + s2);
      (a.pending + s1) + s2;
      Messages(t1) + b.pending + s2;
      Messages(t1) + (b.pending + s2);
      Messages(t1) + (Messages(t2) + c.pending);
      Messages(t1) + Messages(t2) + c.pending;
    }
  }

  // Between any two points of any run.
  lemma {:induction false} RunLeads<M(!new)>(qs: seq<Queue<M>>, steps: seq<Step<M>>, i: nat, j: nat)
    requires IsRun(qs, steps) && i <= j < |qs|
    ensures Leads(qs[i], qs[j])
    decreases j
  {
    if i < j {
      hide Next;
      RunLeads(qs, steps, i, j - 1);
      var s := steps[j - 1];
      StepLeads(qs[j - 1], s);
      LeadsTrans(qs[i], qs[j - 1], qs[j]);
    }
  }

  // From the empty queue: everything sent is what left, in order, followed by what is pending.
  lemma RunIsFifo<M(!new)>(qs: seq<Queue<M>>, steps: seq<Step<M>>, j: nat)
    requires IsRun(qs, steps) && qs[0] == Empty() && j < |qs|
    ensures qs[j].sent == Messages(qs[j].taken) + qs[j].pending
  {
    RunLeads(qs, steps, 0, j);
    var q := qs[j];
    assert q.sent[0..] == q.sent && q.taken[0..] == q.taken;
    assert [] + q.sent == q.sent;
  }

  // Once unblocked: sends and newly begun receives fail and change nothing, and an awakened
  // receiver never waits again and gets a message exactly if one is pending.
  lemma AfterUnblock<M(!new)>(qs: seq<Queue<M>>, steps: seq<Step<M>>, i: nat, j: nat, msg: M, thread: nat)
    requires IsRun(qs, steps) && i <= j < |qs| && qs[i].unblocked
    ensures Snd(qs[j], msg) == (qs[j], Unavailable)
    ensures RcvEnter(qs[j], thread) == (qs[j], Failed)
    ensures RcvWake(qs[j], thread).1 == if qs[j].pending == [] then Failed else Got(qs[j].pending[0])
  {
    RunLeads(qs, steps, i, j);
  }

  // What a send answers and does: refused after an unblock, else the message is last in the queue.
  lemma SendAnswers<M>(q: Queue<M>, msg: M)
    ensures var (q', rv) := Snd(q, msg);
            && (rv.Ok? <==> !q.unblocked)
            && q' == if rv.Ok? then q.(pending := q.pending + [msg], sent := q.sent + [msg]) else q
  {
  }

  // A receive, begun or awakened, either takes the oldest message; or has its thread wait, and then
  // that thread is among those waiting and nothing else changes; or fails, after an unblock.
  lemma ReceiveAnswers<M>(q: Queue<M>, t: nat, awakened: bool)
    requires awakened <==> t in q.waiting
    ensures var (q', r) := if awakened then RcvWake(q, t) else RcvEnter(q, t);
            && (r.Waits? <==> q.pending == [] && !q.unblocked) && (r.Waits? <==> t in q'.waiting)
            && (r.Got? <==> q.pending != [] && (awakened || !q.unblocked))
            && (r.Got? ==> q.pending == [r.msg] + q'.pending && q'.taken == q.taken + [Received(r.msg)])
            && (!r.Got? ==> q'.pending == q.pending && q'.taken == q.taken)
            && (forall u :: u != t ==> (u in q'.waiting <==> u in q.waiting))
            && q'.sent == q.sent && q'.unblocked == q.unblocked
  {
  }

  // A flush empties the queue and takes each message, marked as flushed; an unblock changes only
  // that, and succeeds once.
  lemma FlushAndUnblockAnswer<M>(q: Queue<M>)
    ensures var q' := Flush(q);
            && q'.pending == [] && q.taken <= q'.taken && Messages(q'.taken[|q.taken|..]) == q.pending
            && (forall i :: |q.taken| <= i < |q'.taken| ==> q'.taken[i].Flushed?)
            && q'.sent == q.sent && q'.waiting == q.waiting && q'.unblocked == q.unblocked
    ensures var (q', rv) := Unblock(q); q' == q.(unblocked := true) && (rv.Ok? <==> !q.unblocked)
  {
    assert Messages(AllFlushed(q.pending)) == q.pending;
  }

  // ----- the queue object -----

  // The list is kept newest first, so the queue reads it from its tail.
  function PendingOf<M>(s: seq<Entry<M>>): (p: seq<M>)
    ensures |p| == |s|
  {
    seq(|s|, i requires 0 <= i < |s| => s[|s| - 1 - i].data)
  }

  lemma PendingLast<M>(s: seq<Entry<M>>)
    requires s != []
    ensures PendingOf(s)[0] == s[|s| - 1].data && PendingOf(s[..|s| - 1]) == PendingOf(s)[1..]
  {
  }

  class MsgQ<M> {
    const msgList: LinkedList<M>
    var unblocked: bool
    ghost var Value: Queue<M>

    ghost predicate Valid()
      reads this, msgList, msgList.Elements
    {
      && msgList.Valid()
      && unblocked == Value.unblocked
      && PendingOf(msgList.Contents()) == Value.pending
    }

    ghost function Repr(): set<object>
      reads this, msgList
    {
      {this} + msgList.Repr()
    }

    constructor ()
      ensures Valid() && fresh(Repr()) && Value == Empty()
    {
      msgList := new LinkedList();
      unblocked := false;
      Value := Empty();
    }

    // msg_q_snd
    method Send(msg: M, dealloc: bool) returns (rv: Status)
      requires Valid()
      modifies Repr()
      ensures Valid() && fresh(Repr() - old(Repr()))
      ensures (Value, rv) == Snd(old(Value), msg)
    {
      if unblocked {
        return Unavailable;
      }
      var status := msgList.Add(msg, dealloc);
      Value := Snd(Value, msg).0;
      return Ok;
    }

    // msg_q_rcv, up to its first wait.
    method ReceiveEnter(ghost thread: nat) returns (r: Reception<M>)
      requires Valid()
      modifies Repr()
      ensures Valid() && fresh(Repr() - old(Repr()))
      ensures (Value, r) == RcvEnter(old(Value), thread)
    {
      if unblocked {
        return Failed;
      }
      r := ReceiveWake(thread);
    }

    // msg_q_rcv, from the test of its wait loop on.
    method ReceiveWake(ghost thread: nat) returns (r: Reception<M>)
      requires Valid()
      modifies Repr()
      ensures Valid() && fresh(Repr() - old(Repr()))
      ensures (Value, r) == RcvWake(old(Value), thread)
    {
      hide PendingOf;
      var empty := msgList.IsEmpty();
      if msgList.Contents() != [] { PendingLast(msgList.Contents()); }
      Value := RcvWake(Value, thread).0;
      if empty && !unblocked {
        return Waits;
      }
      var status, msg := msgList.Remove();
      match status {
        case Success => r := Got(msg.value);
        case UnavailableResource => r := Failed;
      }
    }

    // msg_q_flush
    method FlushAll()
      requires Valid()
      modifies Repr()
      ensures Valid() && fresh(Repr() - old(Repr()))
      ensures Value == Flush(old(Value))
      ensures msgList.deallocated == old(msgList.deallocated) + Deallocs(old(msgList.Contents()))
    {
      var status := msgList.Flush();
      Value := Flush(Value);
    }

    // msg_q_unblock
    method UnblockAll() returns (rv: Status)
      requires Valid()
      modifies this
      ensures Valid() && (Value, rv) == Unblock(old(Value))
    {
      if unblocked {
        return Unavailable;
      }
      unblocked := true;
      Value := Unblock(Value).0;
      return Ok;
    }
  }
}
