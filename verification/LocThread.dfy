// The two-party life of a LocThreadDelegate (gps/utils/LocThread.cpp). The parent runs the
// constructor, create(), and later stop() or bye(); the spawned thread runs threadMain(). Every
// access to the shared delegate is a step of its own, so a run is any interleaving of the two.
module LocThread {
  import opened Options

  // Where the parent is. Test, Dec and Delete are the three parts of destroy().
  datatype Parent =
    | Spawning | Naming | Failing | Checking   // constructor and create()
    | Holding                                  // start() has returned true
    | StopNull | StopJoin | Joining            // stop()
    | Test | Dec | Delete | Gone

  // Where the spawned thread is, inside threadMain().
  datatype Child =
    | Unborn | Read | PreTest | InPrerun | LoopTest | InRun | PostTest | InPostrun | Nulling | FreeRunnable
    | Test | Dec | Delete | Exited

  // What the thread does with the runnable.
  datatype RunnableCall = Prerun | Ran(again: bool) | Postrun | Deleted

  datatype State = State(
    runnable: bool,      // mRunnable is not NULL
    joinable: bool,      // mJoinable
    refCount: int,       // mRefCount
    frees: nat,          // times the delegate was deleted
    parent: Parent,
    child: Child,
    took: bool,          // threadMain's own copy of the runnable pointer is not NULL
    runnableFrees: nat,  // times the runnable was deleted
    // history: what start() returned, whether the thread exists, whether stop() cleared mRunnable
    // before the thread read it
    started: bool, refused: bool, spawned: bool, stoppedFirst: bool,
    joinableThread: bool,
    calls: seq<RunnableCall>)   // made by the thread so far, in order

  function Init(joinable: bool): State {
    State(true, joinable, 2, 0, Spawning, Unborn, false, 0, false, false, false, false, joinable, [])
  }

  datatype ParentStep =
    | Spawn(ok: bool) | Name | FailInit | Check
    | CallStop | CallBye | NullRunnable | TestJoinable | Join
    | TestCount | Decrement | DeleteThis

  datatype ChildStep =
    | ReadRunnable | TestPrerun | CallPrerun | TestLoop | Run(again: bool) | TestPostrun | CallPostrun
    | ClearRunnable | DeleteRunnable
    | TestCount | Decrement | DeleteThis

  datatype Step = P(p: ParentStep) | C(c: ChildStep)

  predicate ParentEnabled(s: State, p: ParentStep) {
    match p
    case Spawn(_) => s.parent.Spawning?
    case Name => s.parent.Naming?
    case FailInit => s.parent.Failing?
    case Check => s.parent.Checking?
    case CallStop => s.parent.Holding?
    case CallBye => s.parent.Holding?
    case NullRunnable => s.parent.StopNull?
    case TestJoinable => s.parent.StopJoin?
    case Join => s.parent.Joining? && s.child.Exited?
    case TestCount => s.parent.Test?
    case Decrement => s.parent.Dec?
    case DeleteThis => s.parent.Delete?
  }

  function ParentNext(s: State, p: ParentStep): State {
    match p
    case Spawn(ok) =>
      if ok then s.(parent := Naming, child := Read, spawned := true) else s.(parent := Failing)
    case Name => s.(parent := Checking)
    case FailInit => s.(runnable := false, joinable := false, refCount := 1, parent := Checking)
    case Check =>
      if s.runnable then s.(parent := Holding, started := true)
      else s.(parent := Parent.Test, refused := true)
    case CallStop => s.(parent := StopNull)
    case CallBye => s.(parent := if s.joinable then StopNull else Parent.Test)
    case NullRunnable =>
      s.(runnable := false, parent := StopJoin, stoppedFirst := s.stoppedFirst || s.child.Read?)
    case TestJoinable => s.(joinable := false, parent := if s.joinable then Joining else Parent.Test)
    case Join => s.(parent := Parent.Test)
    case TestCount => s.(parent := if s.refCount > 0 then Parent.Dec else Gone)
    case Decrement =>
      s.(refCount := s.refCount - 1, parent := if s.refCount == 1 then Parent.Delete else Gone)
    case DeleteThis => s.(frees := s.frees + 1, parent := Gone)
  }

  predicate ChildEnabled(s: State, c: ChildStep) {
    match c
    case ReadRunnable => s.child.Read?
    case TestPrerun => s.child.PreTest?
    case CallPrerun => s.child.InPrerun?
    case TestLoop => s.child.LoopTest?
    case Run(_) => s.child.InRun?
    case TestPostrun => s.child.PostTest?
    case CallPostrun => s.child.InPostrun?
    case ClearRunnable => s.child.Nulling?
    case DeleteRunnable => s.child.FreeRunnable?
    case TestCount => s.child.Test?
    case Decrement => s.child.Dec?
    case DeleteThis => s.child.Delete?
  }

  function ChildNext(s: State, c: ChildStep): State {
    match c
    case ReadRunnable => s.(took := s.runnable, child := if s.runnable then PreTest else Child.Test)
    case TestPrerun => s.(child := if s.runnable then InPrerun else LoopTest)
    case CallPrerun => s.(child := LoopTest, calls := s.calls + [Prerun])
    case TestLoop => s.(child := if s.runnable then InRun else PostTest)
    case Run(again) => s.(child := if again then LoopTest else PostTest, calls := s.calls + [Ran(again)])
    case TestPostrun => s.(child := if s.runnable then InPostrun else Nulling)
    case CallPostrun => s.(child := Nulling, calls := s.calls + [Postrun])
    case ClearRunnable => s.(runnable := false, child := FreeRunnable)
    case DeleteRunnable =>
      s.(runnableFrees := s.runnableFrees + 1, child := Child.Test, calls := s.calls + [Deleted])
    case TestCount => s.(child := if s.refCount > 0 then Child.Dec else Exited)
    case Decrement =>
      s.(refCount := s.refCount - 1, child := if s.refCount == 1 then Child.Delete else Exited)
    case DeleteThis => s.(frees := s.frees + 1, child := Exited)
  }

  predicate Enabled(s: State, step: Step) {
    match step
    case P(p) => ParentEnabled(s, p)
    case C(c) => ChildEnabled(s, c)
  }

  function Next(s: State, step: Step): State {
    match step
    case P(p) => ParentNext(s, p)
    case C(c) => ChildNext(s, c)
  }

  // Steps that read or write the delegate object.
  predicate Touches(step: Step) {
    match step
    case P(_) => true   // pthread_join reads mThandle
    case C(c) => !c.CallPrerun? && !c.Run? && !c.CallPostrun? && !c.DeleteRunnable?
  }

  ghost predicate IsRun(ss: seq<State>, steps: seq<Step>) {
    && |ss| == |steps| + 1
    && (exists j :: ss[0] == Init(j))
    && forall i {:trigger steps[i]} :: 0 <= i < |steps| ==>
         Enabled(ss[i], steps[i]) && ss[i + 1] == Next(ss[i], steps[i])
  }

  // ----- the invariant -----

  // Who still owes the delegate a decrement.
  predicate ParentOwes(s: State) { !s.parent.Delete? && !s.parent.Gone? }

  predicate ChildOwes(s: State) {
    if s.spawned then !s.child.Delete? && !s.child.Exited? else s.parent.Spawning? || s.parent.Failing?
  }

  function Bit(b: bool): nat { if b then 1 else 0 }

  predicate CountInv(s: State) {
    && s.refCount == Bit(ParentOwes(s)) + Bit(ChildOwes(s))
    && s.frees + Bit(s.parent.Delete?) + Bit(s.child.Delete?) == Bit(!ParentOwes(s) && !ChildOwes(s))
  }

  predicate Past(c: Child) { c.FreeRunnable? || c.Test? || c.Dec? || c.Delete? || c.Exited? }

  predicate RunnableInv(s: State) {
    && (s.took ==> s.spawned && !s.child.Read?)
    && (s.spawned && !s.took ==> s.child.Read? || s.child.Test? || s.child.Dec? || s.child.Delete? || s.child.Exited?)
    && s.runnableFrees == Bit(s.took && Past(s.child) && !s.child.FreeRunnable?)
    && (s.took && Past(s.child) ==> !s.runnable)
    && (s.child.Read? && !s.stoppedFirst ==> s.runnable)
    && (s.stoppedFirst ==> s.spawned && s.started && !s.runnable && !s.took)
    && (s.spawned && !s.took && !s.child.Read? ==> s.stoppedFirst)
    && (s.spawned && !s.runnable
        && (s.parent.Naming? || s.parent.Checking? || s.parent.Holding? || s.parent.StopNull?) ==>
          s.took && Past(s.child))
  }

  predicate PhaseInv(s: State) {
    && (s.child.Unborn? <==> !s.spawned)
    && (s.parent.Spawning? || s.parent.Failing? ==> !s.spawned && s.runnable)
    && (s.parent.Naming? ==> s.spawned)
    && (!s.spawned && !s.parent.Spawning? && !s.parent.Failing? ==> !s.runnable && !s.joinable)
    && (s.parent.Spawning? || s.parent.Naming? || s.parent.Failing? || s.parent.Checking? ==> !s.started && !s.refused)
    && (s.parent.Holding? || s.parent.StopNull? || s.parent.StopJoin? || s.parent.Joining? ==> s.started)
    && (s.started ==> s.spawned && !s.refused)
    && (s.refused && s.spawned ==> s.took && Past(s.child))
    && (s.parent.Test? || s.parent.Dec? || s.parent.Delete? || s.parent.Gone? ==> s.started || s.refused)
  }

  predicate JoinInv(s: State) {
    && (s.joinable ==> s.joinableThread)
    && (s.parent.Holding? || s.parent.StopNull? || s.parent.StopJoin? ==> s.joinable == s.joinableThread)
    && (s.parent.Joining? ==> s.joinableThread)
    && (s.started && s.joinableThread && (s.parent.Test? || s.parent.Dec? || s.parent.Delete? || s.parent.Gone?) ==>
          s.child.Exited?)
    && (s.parent.Spawning? || s.parent.Naming? || (s.spawned && s.parent.Checking?) ==>
          s.joinable == s.joinableThread)
  }

  predicate Inv(s: State) { CountInv(s) && RunnableInv(s) && PhaseInv(s) && JoinInv(s) }

  lemma ParentKeepsCount(s: State, p: ParentStep)
    requires Inv(s) && ParentEnabled(s, p)
    ensures CountInv(ParentNext(s, p))
  {
    hide RunnableInv, JoinInv;
  }

  lemma ParentKeepsRunnable(s: State, p: ParentStep)
    requires Inv(s) && ParentEnabled(s, p)
    ensures RunnableInv(ParentNext(s, p))
  {
    hide CountInv, JoinInv;
  }

  lemma ParentKeepsPhase(s: State, p: ParentStep)
    requires Inv(s) && ParentEnabled(s, p)
    ensures PhaseInv(ParentNext(s, p))
  {
    hide CountInv, JoinInv;
  }

  lemma ParentKeepsJoin(s: State, p: ParentStep)
    requires Inv(s) && ParentEnabled(s, p)
    ensures JoinInv(ParentNext(s, p))
  {
    hide CountInv, RunnableInv;
  }

  lemma ChildKeepsCount(s: State, c: ChildStep)
    requires Inv(s) && ChildEnabled(s, c)
    ensures CountInv(ChildNext(s, c))
  {
    hide RunnableInv, JoinInv;
  }

  lemma ChildKeepsRunnable(s: State, c: ChildStep)
    requires Inv(s) && ChildEnabled(s, c)
    ensures RunnableInv(ChildNext(s, c))
  {
    hide CountInv, JoinInv;
  }

  lemma ChildKeepsPhase(s: State, c: ChildStep)
    requires Inv(s) && ChildEnabled(s, c)
    ensures PhaseInv(ChildNext(s, c))
  {
    hide CountInv, JoinInv;
  }

  lemma ChildKeepsJoin(s: State, c: ChildStep)
    requires Inv(s) && ChildEnabled(s, c)
    ensures JoinInv(ChildNext(s, c))
  {
    hide CountInv, RunnableInv;
  }

  lemma StepInv(s: State, step: Step)
    requires Inv(s) && Enabled(s, step)
    ensures Inv(Next(s, step))
  {
    hide ParentNext, ChildNext, ParentEnabled, ChildEnabled, CountInv, RunnableInv, PhaseInv, JoinInv;
    match step
    case P(p) =>
      ParentKeepsCount(s, p);
      ParentKeepsRunnable(s, p);
      ParentKeepsPhase(s, p);
      ParentKeepsJoin(s, p);
    case C(c) =>
      ChildKeepsCount(s, c);
      ChildKeepsRunnable(s, c);
      ChildKeepsPhase(s, c);
      ChildKeepsJoin(s, c);
  }

  lemma InitCount(j: bool)
    ensures CountInv(Init(j))
  {
  }

  lemma InitRunnable(j: bool)
    ensures RunnableInv(Init(j))
  {
  }

  lemma InitPhase(j: bool)
    ensures PhaseInv(Init(j))
  {
  }

  lemma InitJoin(j: bool)
    ensures JoinInv(Init(j))
  {
  }

  lemma InitInv(j: bool)
    ensures Inv(Init(j))
  {
    hide CountInv, RunnableInv, PhaseInv, JoinInv;
    InitCount(j);
    InitRunnable(j);
    InitPhase(j);
    InitJoin(j);
  }

  lemma {:induction false} RunInv(ss: seq<State>, steps: seq<Step>, i: nat)
    requires IsRun(ss, steps) && i < |ss|
    ensures Inv(ss[i])
  {
    hide Next, Enabled, Inv, Init;
    if i == 0 {
      var j :| ss[0] == Init(j);
      InitInv(j);
    } else {
      RunInv(ss, steps, i - 1);
      var step := steps[i - 1];
      StepInv(ss[i - 1], step);
    }
  }

  // ----- what it means, in every state of every run -----

  // No party touches a freed delegate, and destroy()'s "else shouldn't happen" never does.
  lemma NeverTouchedAfterFree(ss: seq<State>, steps: seq<Step>, i: nat)
    requires IsRun(ss, steps) && i < |steps|
    ensures Touches(steps[i]) ==> ss[i].frees == 0
    ensures steps[i] == P(ParentStep.TestCount) || steps[i] == C(ChildStep.TestCount) ==> ss[i].refCount > 0
  {
    hide Next, Inv, ParentEnabled, ChildEnabled;
    RunInv(ss, steps, i);
    var step := steps[i];
    assert Enabled(ss[i], step);
    match step
    case P(p) => ParentFindsIt(ss[i], p);
    case C(c) => ChildFindsIt(ss[i], c);
  }

  lemma ParentFindsIt(s: State, p: ParentStep)
    requires Inv(s) && ParentEnabled(s, p)
    ensures s.frees == 0 && (p.TestCount? ==> s.refCount > 0)
  {
    hide RunnableInv, PhaseInv, JoinInv;
  }

  lemma ChildFindsIt(s: State, c: ChildStep)
    requires Inv(s) && ChildEnabled(s, c)
    ensures s.frees == 0 && (c.TestCount? ==> s.refCount > 0)
  {
    hide RunnableInv, JoinInv;
  }

  // The delegate is freed at most once, and only when neither party has its destroy() still to
  // come; if the thread could not be created the parent alone frees it. Once both are through,
  // it has been freed.
  lemma FreedExactlyOnce(ss: seq<State>, steps: seq<Step>, i: nat)
    requires IsRun(ss, steps) && i < |ss|
    ensures var s := ss[i];
            && s.frees <= 1
            && (s.frees == 1 ==> s.parent.Gone? && if s.spawned then s.child.Exited? else s.child.Unborn?)
            && (s.parent.Gone? && (s.spawned ==> s.child.Exited?) ==> s.frees == 1)
  {
    RunInv(ss, steps, i);
  }

  // The runnable is deleted at most once and only by the spawned thread; an exited thread has
  // deleted it unless stop() cleared mRunnable before the thread first read it, in which case
  // nobody ever does.
  lemma RunnableFreed(ss: seq<State>, steps: seq<Step>, i: nat)
    requires IsRun(ss, steps) && i < |ss|
    ensures var s := ss[i];
            && s.runnableFrees <= 1
            && (s.runnableFrees == 1 ==> s.spawned && s.took)
            && (s.child.Exited? ==> (s.runnableFrees == 1 <==> !s.stoppedFirst))
  {
    RunInv(ss, steps, i);
  }

  // LocThread.h promises that after a refused start() the caller still owns the runnable. That
  // is so exactly if the thread was not created: a runnable that finishes before create() looks
  // makes start() return false too, and its thread deletes it.
  lemma RefusedStartOwnership(ss: seq<State>, steps: seq<Step>, i: nat)
    requires IsRun(ss, steps) && i < |ss| && ss[i].refused
    ensures !ss[i].spawned ==> ss[i].runnableFrees == 0
    ensures ss[i].spawned ==> ss[i].runnableFrees == 1 || ss[i].child.FreeRunnable?
  {
    RunInv(ss, steps, i);
  }

  // After stop() or bye() on a joinable thread the spawned thread is over.
  lemma JoinedBeforeReturn(ss: seq<State>, steps: seq<Step>, i: nat)
    requires IsRun(ss, steps) && i < |ss|
    requires ss[i].started && ss[i].joinableThread && ss[i].parent.Gone?
    ensures ss[i].child.Exited? && ss[i].frees == 1
  {
    RunInv(ss, steps, i);
  }

  // ----- what the thread does with the runnable -----

  // Which call may come next.
  predicate Follows(a: RunnableCall, b: RunnableCall) {
    match a
    case Prerun => b.Ran? || b.Deleted?
    case Ran(again) => if again then b.Ran? || b.Deleted? else b.Postrun? || b.Deleted?
    case Postrun => b.Deleted?
    case Deleted => false
  }

  ghost predicate InOrder(calls: seq<RunnableCall>) {
    && (calls != [] ==> calls[0].Prerun? || calls[0].Deleted?)
    && forall i :: 0 <= i < |calls| - 1 ==> Follows(calls[i], calls[i + 1])
  }

  // The last call made, at each stage of the thread.
  predicate LastCall(s: State) {
    var none := s.calls == [];
    var last := if none then Deleted else s.calls[|s.calls| - 1];
    match s.child
    case LoopTest => if none then !s.runnable else last.Prerun? || last == Ran(true)
    case InRun => !none && (last.Prerun? || last == Ran(true))
    case PostTest =>
      if none then !s.runnable else last == Ran(false) || (!s.runnable && (last.Prerun? || last == Ran(true)))
    case InPostrun => last == Ran(false)
    case Nulling => none || !last.Deleted?
    case FreeRunnable => none || !last.Deleted?
    case Unborn => none
    case Read => none
    case PreTest => none
    case InPrerun => none
    case _ => if s.took then !none && last.Deleted? else none
  }

  ghost predicate CallsOk(s: State) { InOrder(s.calls) && LastCall(s) }

  lemma InOrderAppend(calls: seq<RunnableCall>, c: RunnableCall)
    requires InOrder(calls)
    requires if calls == [] then c.Prerun? || c.Deleted? else Follows(calls[|calls| - 1], c)
    ensures InOrder(calls + [c])
  {
    var more := calls + [c];
    forall i | 0 <= i < |more| - 1 ensures Follows(more[i], more[i + 1]) {
      assert i < |calls| - 1 ==> Follows(calls[i], calls[i + 1]);
    }
  }

  lemma StepCalls(s: State, step: Step)
    requires Inv(s) && CallsOk(s) && Enabled(s, step)
    ensures CallsOk(Next(s, step))
  {
    hide CountInv, JoinInv, InOrder, Follows;
    match step
    case P(p) => ParentCalls(s, p);
    case C(c) => ChildCalls(s, c);
  }

  lemma ParentCalls(s: State, p: ParentStep)
    requires PhaseInv(s) && CallsOk(s) && ParentEnabled(s, p)
    ensures CallsOk(ParentNext(s, p))
  {
    hide InOrder;
  }

  lemma ChildCalls(s: State, c: ChildStep)
    requires RunnableInv(s) && PhaseInv(s) && CallsOk(s) && ChildEnabled(s, c)
    ensures CallsOk(ChildNext(s, c))
  {
    hide InOrder, RunnableInv, PhaseInv, LastCall;
    ChildAppends(s, c);
    ChildLast(s, c);
    if Made(c).Some? { InOrderAppend(s.calls, Made(c).value); }
  }

  // The call that a step of the thread is, if any.
  function Made(c: ChildStep): Option<RunnableCall> {
    match c
    case CallPrerun => Some(Prerun)
    case Run(again) => Some(Ran(again))
    case CallPostrun => Some(Postrun)
    case DeleteRunnable => Some(Deleted)
    case _ => None
  }

  lemma ChildAppends(s: State, c: ChildStep)
    requires LastCall(s) && ChildEnabled(s, c)
    ensures ChildNext(s, c).calls == if Made(c).Some? then s.calls + [Made(c).value] else s.calls
    ensures Made(c).Some? ==>
              if s.calls == [] then Made(c).value.Prerun? || Made(c).value.Deleted?
              else Follows(s.calls[|s.calls| - 1], Made(c).value)
  {
  }

  lemma ChildLast(s: State, c: ChildStep)
    requires RunnableInv(s) && PhaseInv(s) && LastCall(s) && ChildEnabled(s, c)
    ensures LastCall(ChildNext(s, c))
  {
    if c.DeleteRunnable? {
      DeletingTook(s);
    } else {
      hide PhaseInv;
    }
    hide RunnableInv;
  }

  lemma DeletingTook(s: State)
    requires RunnableInv(s) && PhaseInv(s) && s.child.FreeRunnable?
    ensures s.took
  {
  }

  lemma {:induction false} RunCalls(ss: seq<State>, steps: seq<Step>, i: nat)
    requires IsRun(ss, steps) && i < |ss|
    ensures CallsOk(ss[i])
  {
    hide Next, Enabled, Inv;
    if i > 0 {
      hide CallsOk, Init;
      RunCalls(ss, steps, i - 1);
      RunInv(ss, steps, i - 1);
      var step := steps[i - 1];
      StepCalls(ss[i - 1], step);
    }
  }

  // In every run the runnable sees: prerun() first, unless it was told to stop before that; then
  // run(), again and again while it returns true; postrun() only after a run() that returned false;
  // and its deletion last. An exited thread has done the last of these if it took the runnable.
  lemma CallsInOrder(ss: seq<State>, steps: seq<Step>, i: nat)
    requires IsRun(ss, steps) && i < |ss|
    ensures InOrder(ss[i].calls)
    ensures ss[i].child.Exited? && ss[i].took ==> ss[i].calls != [] && ss[i].calls[|ss[i].calls| - 1].Deleted?
  {
    RunCalls(ss, steps, i);
  }

  // A step of the parent leaves the thread where it is, but for creating it.
  lemma {:induction false} ChildStays(ss: seq<State>, steps: seq<Step>, i: nat, j: nat)
    requires IsRun(ss, steps) && i <= j < |ss| && ss[i].spawned
    requires forall n {:trigger steps[n]} :: i <= n < j ==> steps[n].P?
    ensures ss[j].child == ss[i].child && ss[j].calls == ss[i].calls && ss[j].spawned
    decreases j
  {
    if i < j {
      ChildStays(ss, steps, i, j - 1);
      RunInv(ss, steps, j - 1);
      var step := steps[j - 1];
      hide CountInv, RunnableInv, JoinInv;
    }
  }

  // The loop goes on exactly while run() returns true and mRunnable is set: the thread's next step
  // after run() returned true is to test mRunnable, and it runs again iff that is set; after run()
  // returned false it is done with the loop.
  lemma LoopGoesOn(ss: seq<State>, steps: seq<Step>, i: nat, j: nat, again: bool)
    requires IsRun(ss, steps) && i < j < |steps| && steps[i] == C(Run(again)) && steps[j].C?
    requires forall n {:trigger steps[n]} :: i < n < j ==> steps[n].P?
    ensures if again then steps[j] == C(TestLoop) && ss[j + 1].child == (if ss[j].runnable then InRun else PostTest)
            else steps[j] == C(TestPostrun)
    ensures ss[i + 1].calls == ss[i].calls + [Ran(again)]
  {
    RunInv(ss, steps, i);
    hide CountInv, JoinInv, PhaseInv;
    var step, next := steps[i], steps[j];
    assert Enabled(ss[i], step) && ss[i + 1] == Next(ss[i], step);
    RunSpawned(ss[i], step);
    ChildStays(ss, steps, i + 1, j);
    assert Enabled(ss[j], next) && ss[j + 1] == Next(ss[j], next);
  }

  lemma RunSpawned(s: State, step: Step)
    requires Inv(s) && Enabled(s, step) && step.C? && step.c.Run?
    ensures Next(s, step).spawned
  {
    hide CountInv, JoinInv, RunnableInv;
  }

  // Once mRunnable is NULL it stays so, and a thread that is not inside run() by then never enters
  // it again.
  lemma {:induction false} NullEndsTheLoop(ss: seq<State>, steps: seq<Step>, i: nat, k: nat)
    requires IsRun(ss, steps) && i <= k < |ss| && !ss[i].runnable && !ss[i].child.InRun?
    ensures !ss[k].runnable && !ss[k].child.InRun?
    ensures k < |steps| ==> !(steps[k].C? && steps[k].c.Run?)
    decreases k
  {
    hide Next, Enabled;
    if i < k {
      NullEndsTheLoop(ss, steps, i, k - 1);
      var step := steps[k - 1];
      StaysNull(ss[k - 1], step);
    }
    if k < |steps| {
      var step := steps[k];
      NotRunning(ss[k], step);
    }
  }

  lemma StaysNull(s: State, step: Step)
    requires Enabled(s, step) && !s.runnable && !s.child.InRun?
    ensures !Next(s, step).runnable && !Next(s, step).child.InRun?
  {
    hide ParentNext, ChildNext, ParentEnabled, ChildEnabled;
    match step
    case P(p) => ParentStaysNull(s, p);
    case C(c) => ChildStaysNull(s, c);
  }

  lemma ParentStaysNull(s: State, p: ParentStep)
    requires ParentEnabled(s, p) && !s.runnable && !s.child.InRun?
    ensures !ParentNext(s, p).runnable && !ParentNext(s, p).child.InRun?
  {
    match p
    case Spawn(ok) => assert ParentNext(s, p).child == if ok then Read else s.child;
    case Name =>
    case FailInit =>
    case Check =>
    case CallStop =>
    case CallBye =>
    case NullRunnable =>
    case TestJoinable =>
    case Join =>
    case TestCount =>
    case Decrement =>
    case DeleteThis =>
  }

  lemma ChildStaysNull(s: State, c: ChildStep)
    requires ChildEnabled(s, c) && !s.runnable && !s.child.InRun?
    ensures !ChildNext(s, c).runnable && !ChildNext(s, c).child.InRun?
  {
    match c
    case TestLoop => assert ChildNext(s, c).child == PostTest;
    case ReadRunnable => assert ChildNext(s, c).child == Child.Test;
    case Run(_) => assert false;
    case _ => assert !ChildNext(s, c).runnable;
  }

  lemma NotRunning(s: State, step: Step)
    requires Enabled(s, step) && !s.child.InRun?
    ensures !(step.C? && step.c.Run?)
  {
  }

  // prerun() is called exactly if mRunnable is set when the thread first tests it, postrun() exactly
  // if it is set after the loop, and each test that finds it set is followed by the call.
  lemma TestsDecide(ss: seq<State>, steps: seq<Step>, i: nat)
    requires IsRun(ss, steps) && i < |steps|
    ensures steps[i] == C(TestPrerun) ==> ss[i + 1].child == (if ss[i].runnable then InPrerun else LoopTest)
    ensures steps[i] == C(CallPrerun) ==> ss[i + 1].child == LoopTest && ss[i + 1].calls == ss[i].calls + [Prerun]
    ensures steps[i] == C(TestLoop) ==> ss[i + 1].child == (if ss[i].runnable then InRun else PostTest)
    ensures steps[i] == C(TestPostrun) ==> ss[i + 1].child == (if ss[i].runnable then InPostrun else Nulling)
    ensures steps[i] == C(CallPostrun) ==> ss[i + 1].child == Nulling && ss[i + 1].calls == ss[i].calls + [Postrun]
  {
    var step := steps[i];
    assert Enabled(ss[i], step) && ss[i + 1] == Next(ss[i], step);
    hide IsRun, ParentNext, ParentEnabled;
  }

  // bye() stops a joinable thread, and leaves a detached one to run on.
  lemma ByeStopsJoinable(ss: seq<State>, steps: seq<Step>, i: nat)
    requires IsRun(ss, steps) && i < |steps| && steps[i] == P(CallBye)
    ensures ss[i + 1].runnable == ss[i].runnable
    ensures ss[i + 1].parent == if ss[i].joinableThread then StopNull else Parent.Test
  {
    RunInv(ss, steps, i);
    var step := steps[i];
    assert Enabled(ss[i], step) && ss[i + 1] == Next(ss[i], step);
    hide CountInv, RunnableInv, PhaseInv;
  }

  // stop() does clear it.
  lemma StopClears(ss: seq<State>, steps: seq<Step>, i: nat)
    requires IsRun(ss, steps) && i < |steps| && steps[i].P? && steps[i].p.NullRunnable?
    ensures !ss[i + 1].runnable
  {
    var step := steps[i];
    assert ss[i + 1] == Next(ss[i], step);
  }

  // ----- both surprises do happen -----

  ghost predicate Reachable(s: State) {
    exists ss, steps :: IsRun(ss, steps) && ss[|steps|] == s
  }

  lemma InitReachable(j: bool)
    ensures Reachable(Init(j))
  {
    assert IsRun([Init(j)], []);
  }

  lemma NextReachable(s: State, step: Step, s': State)
    requires Reachable(s) && Enabled(s, step) && s' == Next(s, step)
    ensures Reachable(s')
  {
    hide Next, Enabled, Init;
    var ss, steps :| IsRun(ss, steps) && ss[|steps|] == s;
    var ss', steps' := ss + [s'], steps + [step];
    forall i {:trigger steps'[i]} | 0 <= i < |steps'|
      ensures Enabled(ss'[i], steps'[i]) && ss'[i + 1] == Next(ss'[i], steps'[i])
    {
      if i < |steps| { assert steps'[i] == steps[i]; }
    }
    assert IsRun(ss', steps');
  }

  // A quick runnable: the thread reads it, runs it once, and clears mRunnable before create()
  // looks. start() returns false, and the thread deletes the runnable all the same.
  lemma QuickRunnableIsRefused() returns (s: State)
    ensures Reachable(s) && s.refused && s.runnableFrees == 1
  {
    hide Reachable;
    QuickRunnableRan();
    var done := [Prerun, Ran(false), Postrun];
    var s0 := State(false, false, 2, 0, Naming, FreeRunnable, true, 0, false, false, true, false, false, done);
    NextReachable(s0, P(Name), s0.(parent := Checking));
    var s1 := State(false, false, 2, 0, Parent.Test, FreeRunnable, true, 0, false, true, true, false, false, done);
    NextReachable(s0.(parent := Checking), P(Check), s1);
    s := s1.(child := Child.Test, runnableFrees := 1, calls := done + [Deleted]);
    NextReachable(s1, C(DeleteRunnable), s);
  }

  lemma QuickRunnableRan()
    ensures Reachable(State(false, false, 2, 0, Naming, FreeRunnable, true, 0, false, false, true, false, false,
                            [Prerun, Ran(false), Postrun]))
  {
    hide Reachable;
    ThreadCreated();
    var s0 := State(true, false, 2, 0, Naming, PreTest, true, 0, false, false, true, false, false, []);
    NextReachable(Created(), C(ReadRunnable), s0);
    NextReachable(s0, C(TestPrerun), s0.(child := InPrerun));
    var s1 := s0.(child := LoopTest, calls := [Prerun]);
    NextReachable(s0.(child := InPrerun), C(CallPrerun), s1);
    NextReachable(s1, C(TestLoop), s1.(child := InRun));
    var s2 := s0.(child := PostTest, calls := [Prerun, Ran(false)]);
    NextReachable(s1.(child := InRun), C(Run(false)), s2);
    NextReachable(s2, C(TestPostrun), s2.(child := InPostrun));
    var s3 := s0.(child := Nulling, calls := [Prerun, Ran(false), Postrun]);
    NextReachable(s2.(child := InPostrun), C(CallPostrun), s3);
    NextReachable(s3, C(ClearRunnable), s3.(runnable := false, child := FreeRunnable));
  }

  // A detached thread right after its creation.
  function Created(): State {
    State(true, false, 2, 0, Naming, Read, false, 0, false, false, true, false, false, [])
  }

  lemma ThreadCreated()
    ensures Reachable(Created())
  {
    hide Reachable;
    InitReachable(false);
    NextReachable(Init(false), P(Spawn(true)), Created());
  }

  // stop() clears mRunnable before the thread first reads it. start() returned true, both
  // parties are through, and nobody has deleted the runnable.
  lemma StoppedBeforeReadLeaks() returns (s: State)
    ensures Reachable(s) && s.started && s.parent.Gone? && s.child.Exited? && s.runnableFrees == 0
  {
    hide Reachable;
    StoppedBeforeRead();
    var s0 := State(false, false, 1, 0, StopJoin, Exited, false, 0, true, false, true, true, false, []);
    NextReachable(s0, P(TestJoinable), s0.(parent := Parent.Test));
    NextReachable(s0.(parent := Parent.Test), P(ParentStep.TestCount), s0.(parent := Parent.Dec));
    var s1 := State(false, false, 0, 0, Parent.Delete, Exited, false, 0, true, false, true, true, false, []);
    NextReachable(s0.(parent := Parent.Dec), P(ParentStep.Decrement), s1);
    s := s1.(parent := Gone, frees := 1);
    NextReachable(s1, P(ParentStep.DeleteThis), s);
  }

  lemma StoppedBeforeRead()
    ensures Reachable(State(false, false, 1, 0, StopJoin, Exited, false, 0, true, false, true, true, false, []))
  {
    hide Reachable;
    ThreadCreated();
    NextReachable(Created(), P(Name), Created().(parent := Checking));
    var s0 := Created().(parent := Holding, started := true);
    NextReachable(Created().(parent := Checking), P(Check), s0);
    NextReachable(s0, P(CallStop), s0.(parent := StopNull));
    var s1 := State(false, false, 2, 0, StopJoin, Read, false, 0, true, false, true, true, false, []);
    NextReachable(s0.(parent := StopNull), P(NullRunnable), s1);
    NextReachable(s1, C(ReadRunnable), s1.(child := Child.Test));
    NextReachable(s1.(child := Child.Test), C(ChildStep.TestCount), s1.(child := Child.Dec));
    NextReachable(s1.(child := Child.Dec), C(ChildStep.Decrement), s1.(refCount := 1, child := Exited));
  }
}
