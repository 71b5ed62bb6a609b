// LocTimerContainer: the heap of timer delegates, and what the message worker does to it in
// place (gps/utils/LocTimer.cpp:281-390).
module LocTimerContainers {
  import opened Options
  import opened TimerCore
  import opened LocHeaps
  import HT = HeapTree

  class LocTimerContainer {
    const heap: LocHeap<Delegate>
    // The calls made to epoll and timerfd for this container's fd, in order.
    var kernelCalls: seq<Call>

    ghost predicate Valid()
      reads this, heap, heap.mTree, heap.Footprint()
    {
      heap.Valid() && heap.outRanks == OutRanks && this !in heap.Footprint()
    }

    ghost function Footprint(): set<object>
      reads this, heap, heap.mTree
    {
      {this} + heap.Footprint()
    }

    ghost function Tree(): Heap
      reads heap, heap.mTree
    {
      heap.Tree()
    }

    constructor ()
      ensures Valid() && fresh(Footprint())
      ensures Tree() == HT.Empty && kernelCalls == []
    {
      heap := new LocHeap(OutRanks);
      kernelCalls := [];
    }

    method GetSoonestTimer() returns (top: Option<Delegate>)
      requires Valid()
      ensures top == Top(Tree())
    {
      top := heap.Peek();
    }

    method UpdateSoonestTime(priorTop: Option<Delegate>)
      requires Valid()
      modifies this`kernelCalls
      ensures kernelCalls == old(kernelCalls) + UpdateCalls(Top(Tree()), priorTop)
    {
      var curTop := GetSoonestTimer();
      if curTop != priorTop {
        var delay := ZERO;
        var toSetTime := false;
        if curTop.None? {
          kernelCalls := kernelCalls + [RemovePoll];
          toSetTime := true;
        } else if priorTop.None? || OutRanks(curTop.value, priorTop.value) {
          kernelCalls := kernelCalls + [AddPoll];
          delay := curTop.value.time;
          toSetTime := true;
        }
        if toSetTime {
          kernelCalls := kernelCalls + [SetTime(delay)];
        }
      }
    }

    // MsgTimerPush::proc
    method ProcPush(timer: Delegate)
      requires Valid()
      modifies Footprint()
      ensures Valid() && fresh(Footprint() - old(Footprint()))
      ensures var (t, calls) := PushMsg(old(Tree()), timer);
              Tree() == t && kernelCalls == old(kernelCalls) + calls
    {
      var priorTop := GetSoonestTimer();
      heap.Push(timer);
      UpdateSoonestTime(priorTop);
    }

    // MsgTimerRemove::proc, up to the delete of the timer.
    method ProcRemove(timer: Delegate)
      requires Valid()
      modifies Footprint()
      ensures Valid() && fresh(Footprint() - old(Footprint()))
      ensures var (t, calls) := RemoveMsg(old(Tree()), timer);
              Tree() == t && kernelCalls == old(kernelCalls) + calls
    {
      var priorTop := GetSoonestTimer();
      var removed := heap.Remove(timer);
      if priorTop == removed {
        UpdateSoonestTime(None);
      }
    }

    method PopIfOutRanks(now: Time) returns (popped: Option<Delegate>)
      requires Valid()
      modifies Footprint()
      ensures Valid() && fresh(Footprint() - old(Footprint()))
      ensures kernelCalls == old(kernelCalls)
      ensures if old(Tree()).Node? && Due(old(Tree()).data, now)
              then popped == Some(old(Tree()).data) && Tree() == HT.Pop(old(Tree()), OutRanks)
              else popped == None && Tree() == old(Tree())
    {
      popped := None;
      var top := heap.Peek();
      if top.Some? && !(top.value.time.sec - now.sec > 0) {
        popped := heap.Pop();
      }
    }

    // MsgTimerExpire::proc; expired lists the timers whose expire() it calls, in order.
    method ProcExpire(now: Time) returns (expired: seq<Delegate>)
      requires Valid()
      modifies Footprint()
      ensures Valid() && fresh(Footprint() - old(Footprint()))
      ensures var (ds, rest) := Batch(old(Tree()), now);
              && expired == ds && Tree() == rest
              && kernelCalls == old(kernelCalls) + UpdateCalls(Top(rest), None)
    {
      hide PopDue, HT.Pop, HT.Count;
      expired := [];
      var timer := heap.Pop();
      ghost var ds, rest := Batch(old(Tree()), now).0, Batch(old(Tree()), now).1;
      while timer.Some?
        invariant Valid() && fresh(Footprint() - old(Footprint()))
        invariant kernelCalls == old(kernelCalls)
        invariant timer.Some? ==>
                    ds == expired + ([timer.value] + PopDue(Tree(), now).0) && rest == PopDue(Tree(), now).1
        invariant timer.None? ==> ds == expired && rest == Tree()
        decreases timer.Some?, HT.Count(Tree())
      {
        ghost var t := Tree();
        PopDueStep(t, now);
        assert expired + ([timer.value] + PopDue(t, now).0) == (expired + [timer.value]) + PopDue(t, now).0;
        expired := expired + [timer.value];
        timer := PopIfOutRanks(now);
        if timer.Some? {
          HT.PopElements(t, OutRanks);
        } else {
          assert expired + [] == expired;
        }
      }
      UpdateSoonestTime(None);
    }
  }
}
