// The reference count of LocSharedLock (gps/utils/LocSharedLock.h). share() and drop() read mRef
// and write it back without a lock of their own: a client thread shares under the timer's lock,
// and the worker drops without it.
module LocSharedLocks {

  // ----- one call after the other -----

  class LocSharedLock {
    var mRef: nat
    var deleted: bool
    ghost var users: nat

    ghost predicate Valid()
      reads this
    {
      mRef == users && (deleted <==> users == 0)
    }

    constructor ()
      ensures Valid() && users == 1
    {
      mRef, deleted, users := 1, false, 1;
    }

    method Share()
      requires Valid() && !deleted
      modifies this
      ensures Valid() && users == old(users) + 1
    {
      mRef := mRef + 1;
      users := users + 1;
    }

    // Deletes the lock exactly when its last user goes.
    method Drop()
      requires Valid() && !deleted
      modifies this
      ensures Valid() && users == old(users) - 1
      ensures deleted <==> old(users) == 1
    {
      mRef := mRef - 1;
      users := users - 1;
      if mRef == 0 { deleted := true; }
    }
  }

  // ----- calls that overlap -----

  // A call under way: what it adds to the count, and the count it has read.
  datatype Call = Call(delta: int, read: int)

  // users is how many the calls that ended have made; deleted, whether a drop has written zero.
  datatype State = State(mRef: int, users: int, calls: map<nat, Call>, deleted: bool)

  datatype Step = Read(thread: nat, delta: int) | Write(thread: nat)

  function Init(): State { State(1, 1, map[], false) }

  predicate Enabled(s: State, step: Step) {
    match step
    case Read(t, delta) => t !in s.calls && (delta == 1 || delta == -1) && !s.deleted
    case Write(t) => t in s.calls
  }

  function Next(s: State, step: Step): State
    requires Enabled(s, step)
  {
    match step
    case Read(t, delta) => s.(calls := s.calls[t := Call(delta, s.mRef)])
    case Write(t) =>
      var c := s.calls[t];
      State(c.read + c.delta, s.users + c.delta, s.calls - {t},
            s.deleted || (c.delta == -1 && c.read + c.delta == 0))
  }

  ghost predicate IsRun(ss: seq<State>, steps: seq<Step>) {
    && |ss| == |steps| + 1 && ss[0] == Init()
    && forall i {:trigger steps[i]} :: 0 <= i < |steps| ==>
         Enabled(ss[i], steps[i]) && ss[i + 1] == Next(ss[i], steps[i])
  }

  predicate Exact(s: State) { s.mRef == s.users }

  // What the calls that end from step i up to step j add to the users.
  ghost function Net(ss: seq<State>, steps: seq<Step>, i: nat, j: nat): int
    requires IsRun(ss, steps) && i <= j <= |steps|
    decreases j
  {
    if i == j then 0
    else Net(ss, steps, i, j - 1)
         + if steps[j - 1].Write? && steps[j - 1].thread in ss[j - 1].calls
             then ss[j - 1].calls[steps[j - 1].thread].delta
           else 0
  }

  lemma {:induction false} NetUsers(ss: seq<State>, steps: seq<Step>, i: nat, j: nat)
    requires IsRun(ss, steps) && i <= j <= |steps|
    ensures ss[j].users == ss[i].users + Net(ss, steps, i, j)
    decreases j
  {
    if i < j {
      NetUsers(ss, steps, i, j - 1);
      var step := steps[j - 1];
    }
  }

  lemma {:induction false} CallKept(ss: seq<State>, steps: seq<Step>, i: nat, j: nat, t: nat)
    requires IsRun(ss, steps) && i < j <= |steps| && steps[i].Read? && steps[i].thread == t
    requires forall n {:trigger steps[n]} :: i < n < j ==> steps[n].thread != t
    ensures t in ss[j].calls && ss[j].calls[t] == Call(steps[i].delta, ss[i].mRef)
    decreases j
  {
    if i + 1 < j {
      CallKept(ss, steps, i, j - 1, t);
      var step := steps[j - 1];
    } else {
      var step := steps[i];
    }
  }

  // The overlap that loses a count: a call that reads an exact count at step i and writes at step j,
  // over one that is exact again, leaves it exact exactly if the calls that ended in between add up
  // to nothing.
  lemma ExactIffNothingBetween(ss: seq<State>, steps: seq<Step>, i: nat, j: nat, t: nat)
    requires IsRun(ss, steps) && i < j < |steps|
    requires steps[i].Read? && steps[i].thread == t && steps[j] == Write(t)
    requires forall n {:trigger steps[n]} :: i < n < j ==> steps[n].thread != t
    requires Exact(ss[i]) && Exact(ss[j])
    ensures Exact(ss[j + 1]) <==> Net(ss, steps, i, j) == 0
  {
    hide Net;
    CallKept(ss, steps, i, j, t);
    NetUsers(ss, steps, i, j);
    var step := steps[j];
  }

  // Calls that do not overlap keep the count, and delete the lock exactly when its last user goes.
  lemma {:induction false} NoOverlapIsExact(ss: seq<State>, steps: seq<Step>, i: nat)
    requires IsRun(ss, steps) && i < |ss| && forall n :: 0 <= n < |ss| ==> |ss[n].calls| <= 1
    requires forall n :: 0 <= n < |ss| ==> ss[n].users >= 0
    ensures Exact(ss[i]) && (ss[i].deleted <==> ss[i].users == 0)
    ensures forall t :: t in ss[i].calls ==>
              var c := ss[i].calls[t]; c.read == ss[i].mRef && (c.delta == 1 || c.delta == -1) && ss[i].users > 0
  {
    if i > 0 {
      NoOverlapIsExact(ss, steps, i - 1);
      var s, step := ss[i - 1], steps[i - 1];
      assert |ss[i].calls| <= 1 && ss[i].users >= 0;
      if step.Read? {
        OnlyCall(ss[i].calls, step.thread);
      } else {
        OnlyCall(s.calls, step.thread);
      }
    }
  }

  lemma OnlyCall(calls: map<nat, Call>, t: nat)
    requires t in calls && |calls| <= 1
    ensures forall u :: u in calls ==> u == t
  {
    var rest := calls.Keys - {t};
    assert |rest| == |calls.Keys| - 1;
    assert rest == {};
    forall u | u in calls ensures u == t { assert u !in rest; }
  }

  // ----- a lost count -----

  ghost predicate Reachable(s: State) {
    exists ss, steps :: IsRun(ss, steps) && ss[|steps|] == s
  }

  lemma InitReachable()
    ensures Reachable(Init())
  {
    assert IsRun([Init()], []);
  }

  lemma Go(s: State, step: Step, s': State)
    requires Reachable(s) && Enabled(s, step) && s' == Next(s, step)
    ensures Reachable(s')
  {
    hide Next, Enabled, Init;
    var ss, steps :| IsRun(ss, steps) && ss[|steps|] == s;
    var ss', steps' := ss + [s'], steps + [step];
    forall i {:trigger steps'[i]} | 0 <= i < |steps'|
      ensures Enabled(ss'[i], steps'[i]) && ss'[i + 1] == Next(ss'[i], steps'[i])
    {
      if i < |steps| { assert steps'[i] == steps[i]; }
    }
    assert IsRun(ss', steps');
  }

  // Thread 0 starts a timer, stops it and starts it again while thread 1, the worker, drops the
  // lock for the first delegate: the second share is overwritten. When the worker has dropped the
  // lock for the second delegate too it deletes it, although the timer itself still uses it.
  lemma LostShareExample() returns (lost: State, s: State)
    ensures Reachable(lost) && lost.calls == map[] && lost.users == 2 && lost.mRef == 1
    ensures Reachable(s) && s.calls == map[] && s.users == 1 && s.deleted
  {
    hide Reachable;
    InitReachable();
    var s1 := State(1, 1, map[0 := Call(1, 1)], false);
    Go(Init(), Read(0, 1), s1);
    var s2 := State(2, 2, map[], false);
    Go(s1, Write(0), s2);
    var s3 := State(2, 2, map[1 := Call(-1, 2)], false);
    Go(s2, Read(1, -1), s3);
    var s4 := State(2, 2, map[0 := Call(1, 2), 1 := Call(-1, 2)], false);
    Go(s3, Read(0, 1), s4);
    var s5 := State(3, 3, map[1 := Call(-1, 2)], false);
    Go(s4, Write(0), s5);
    lost := State(1, 2, map[], false);
    Go(s5, Write(1), lost);
    var s7 := State(1, 2, map[1 := Call(-1, 1)], false);
    Go(lost, Read(1, -1), s7);
    s := State(0, 1, map[], true);
    Go(s7, Write(1), s);
  }
}
