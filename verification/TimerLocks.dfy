// Timer protocol: the reference count of LocSharedLock, across every step.
module TimerLocks {
  import opened Options
  import opened TimerCore
  import opened TimerProtocol
  import opened TimerConservation
  import opened TimerLifetime
  import HT = HeapTree

  ghost function LiveOf(s: State, c: nat): set<Delegate> {
    set d | d in s.created && d !in s.deleted && d.client == c
  }

  // The lock's count is the number of undeleted delegates, plus one while the client exists.
  ghost predicate LockCounts(s: State, c: nat)
    requires c in s.timers
  {
    s.timers[c].lockRefs == |LiveOf(s, c)| + Bit(s.timers[c].alive)
  }

  ghost predicate LocksOk(s: State) {
    forall c :: c in s.timers ==> LockCounts(s, c)
  }

  lemma SameLocks(s: State, s': State)
    requires LocksOk(s) && s'.timers.Keys == s.timers.Keys && s'.created == s.created && s'.deleted == s.deleted
    requires forall c :: c in s.timers ==>
               s'.timers[c].lockRefs == s.timers[c].lockRefs && s'.timers[c].alive == s.timers[c].alive
    ensures LocksOk(s')
  {
    forall c | c in s'.timers ensures LockCounts(s', c) {
      assert LockCounts(s, c);
      assert LiveOf(s', c) == LiveOf(s, c);
    }
  }

  lemma NewTimerLocks(s: State, c: nat)
    requires LocksOk(s) && RefsOk(s) && c !in s.timers
    ensures LocksOk(ClientNext(s, NewTimer(c)))
  {
    hide RefsOk;
    CreatedClients(s);
    var s' := ClientNext(s, NewTimer(c));
    forall c' | c' in s'.timers ensures LockCounts(s', c') {
      assert LiveOf(s', c') == LiveOf(s, c');
      assert c' != c ==> LockCounts(s, c');
      assert c' == c ==> LiveOf(s, c') == {};
    }
  }

  lemma LiveAdded(s: State, s': State, d0: Delegate, c: nat)
    requires s'.created == s.created + {d0} && s'.deleted == s.deleted
    requires d0 !in s.created && d0 !in s.deleted
    ensures |LiveOf(s', c)| == |LiveOf(s, c)| + Bit(d0.client == c)
  {
    if d0.client == c {
      assert LiveOf(s', c) == LiveOf(s, c) + {d0};
    } else {
      assert LiveOf(s', c) == LiveOf(s, c);
    }
  }

  lemma FreshDelegate(s: State, d: Delegate)
    requires RefsOk(s) && d.id == s.nextId
    ensures d !in s.created && d !in s.deleted
  {
  }

  lemma StartLocks(s: State, c: nat, ms: nat, wake: bool)
    requires LocksOk(s) && RefsOk(s) && ClientEnabled(s, StartBegin(c, ms, wake)) && s.timers[c].running.None?
    ensures LocksOk(ClientNext(s, StartBegin(c, ms, wake)))
  {
    hide FutureTime, RefsOk, LiveOf;
    var d0 := NewDelegate(s, c, ms, wake);
    var s' := ClientNext(s, StartBegin(c, ms, wake));
    FreshDelegate(s, d0);
    forall c' | c' in s'.timers ensures LockCounts(s', c') {
      assert LockCounts(s, c');
      LiveAdded(s, s', d0, c');
    }
  }

  lemma DestroyLocks(s: State, c: nat)
    requires LocksOk(s) && ClientEnabled(s, Destroy(c))
    ensures LocksOk(ClientNext(s, Destroy(c)))
  {
    var s' := ClientNext(s, Destroy(c));
    forall c' | c' in s'.timers ensures LockCounts(s', c') {
      assert LockCounts(s, c');
      assert LiveOf(s', c') == LiveOf(s, c');
    }
  }

  lemma DeleteLocks(s: State, d0: Delegate)
    requires LocksOk(s) && d0 in s.created && d0 !in s.deleted && d0.client in s.timers
    ensures LocksOk(Delete(s, d0))
  {
    var s' := Delete(s, d0);
    forall c | c in s'.timers ensures LockCounts(s', c) {
      assert LockCounts(s, c);
      if c == d0.client {
        assert LiveOf(s', c) == LiveOf(s, c) - {d0};
        assert d0 in LiveOf(s, c);
      } else {
        assert LiveOf(s', c) == LiveOf(s, c);
      }
    }
  }

  lemma ClientLocks(s: State, step: ClientStep)
    requires LocksOk(s) && RefsOk(s) && ClientEnabled(s, step)
    ensures LocksOk(ClientNext(s, step))
  {
    hide LocksOk, RefsOk, FutureTime;
    match step
    case NewTimer(c) => NewTimerLocks(s, c);
    case StartBegin(c, ms, wake) => if s.timers[c].running.None? { StartLocks(s, c, ms, wake); }
    case Destroy(c) => DestroyLocks(s, c);
    case _ => SameLocks(s, ClientNext(s, step));
  }

  lemma HandleSameTimers(s: State, m: Msg)
    ensures var s' := Handle(s, m);
            s'.timers == s.timers && s'.created == s.created && s'.deleted == s.deleted
  {
    hide PushMsg, RemoveMsg, UpdateCalls, HT.Pop;
  }

  lemma PopTopSameTimers(s: State, k: bool, now: Time)
    requires s.At(k).heap.Node?
    ensures var s' := PopTop(s, k, now);
            s'.timers == s.timers && s'.created == s.created && s'.deleted == s.deleted
  {
  }

  lemma WorkerLocks(s: State, step: WorkerStep)
    requires LocksOk(s) && Living(s) && WorkerEnabled(s, step)
    ensures LocksOk(WorkerNext(s, step))
  {
    hide LocksOk, Living, PushMsg, RemoveMsg, Kernel, UpdateCalls, HT.Pop, Due;
    if step.Receive? { HandleSameTimers(s.(queue := s.queue[1..]), s.queue[0]); }
    if step.PopNext? && s.At(s.worker.k).heap.Node? { PopTopSameTimers(s, s.worker.k, s.worker.now); }
    hide Handle, PopTop;
    if step.Finish? && s.worker.deleting.Some? {
      DeletingKnown(s);
      SameLocks(s, s.(worker := Idle));
      DeleteLocks(s.(worker := Idle), s.worker.deleting.value);
    } else {
      SameLocks(s, WorkerNext(s, step));
    }
  }
}
