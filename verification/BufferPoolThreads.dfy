// Streams that use one QCameraMemoryPool from several threads (camera/QCamera2/HAL/QCameraMem.cpp).
// The pool is locked for one buffer at a time, so every acquisition and every release is a step of
// its own and a run is any interleaving of the calls of different streams.
module BufferPoolThreads {
  import opened Options
  import opened BufferPool

  // Where a stream is in its call: filling slots, cleaning up after a failure (todo is what it has
  // still to release, from the end), or releasing its slots (todo, from the front).
  datatype Phase =
    | Resting
    | Filling(more: bool, count: nat, req: Request)
    | Undoing(todo: seq<MemInfo>)
    | Releasing(todo: seq<MemInfo>)

  // stream holds the live slots; taken are the slots the call under way has filled behind them.
  datatype User = User(stream: Stream, taken: seq<MemInfo>, phase: Phase)

  datatype State = State(pool: Pool, users: seq<User>)

  datatype Step =
    | Begin(i: nat, more: bool, count: nat, size: nat) | Fill(i: nat) | Commit(i: nat)
    | Undo(i: nat) | Fail(i: nat)
    | BeginRelease(i: nat) | ReleaseOne(i: nat) | EndRelease(i: nat)
    | DoClear

  predicate CanDo(u: User, step: Step) {
    match step
    case Begin(_, _, _, _) => u.phase.Resting?
    case Fill(_) => u.phase.Filling? && |u.taken| < u.phase.count
    case Commit(_) => u.phase.Filling? && |u.taken| == u.phase.count
    case Undo(_) => u.phase.Undoing? && u.phase.todo != []
    case Fail(_) => u.phase.Undoing? && u.phase.todo == []
    case BeginRelease(_) => u.phase.Resting?
    case ReleaseOne(_) => u.phase.Releasing? && u.phase.todo != []
    case EndRelease(_) => u.phase.Releasing? && u.phase.todo == []
    case DoClear => false
  }

  predicate Enabled(s: State, step: Step) {
    step.DoClear? ||
    (step.i < |s.users| && CanDo(s.users[step.i], step) && s.users[step.i].stream.streamType < |s.pool.lists|)
  }

  // The section of the pool that a step is, if any, and what becomes of the stream.
  function Section(p: Pool, u: User, step: Step, grants: Grants): (Pool, User)
    requires CanDo(u, step) && u.stream.streamType < |p.lists|
  {
    var t := u.stream.streamType;
    match step
    case Begin(_, more, count, size) =>
      if |u.stream.slots| + count > MM_CAMERA_MAX_NUM_FRAMES then (p, u)   // refused
      else (p, User(u.stream, [], Filling(more, count, Request(size, u.stream.cached, IOMMU_HEAP_MASK))))
    case Fill(_) =>
      var (p', m) := Acquire(p, t, u.phase.req, grants);
      if m.Some? then (p', u.(taken := u.taken + [m.value]))
      else (p', u.(phase := Undoing(u.stream.slots + u.taken)))
    case Commit(_) =>
      var all := u.stream.slots + u.taken;
      (p, User(u.stream.(slots := if u.phase.more then all else all[..u.phase.count]), [], Resting))
    case Undo(_) =>
      var n := |u.phase.todo| - 1;
      (Release(p, t, u.phase.todo[n]), u.(phase := Undoing(u.phase.todo[..n])))
    case Fail(_) => (p, User(u.stream, [], Resting))
    case BeginRelease(_) => (p, u.(phase := Releasing(u.stream.slots)))
    case ReleaseOne(_) => (Release(p, t, u.phase.todo[0]), u.(phase := Releasing(u.phase.todo[1..])))
    case EndRelease(_) => (p, User(u.stream.(slots := []), [], Resting))
  }

  function Next(s: State, step: Step, grants: Grants): State
    requires Enabled(s, step)
  {
    if step.DoClear? then s.(pool := Cleared(s.pool))
    else
      var (p, u) := Section(s.pool, s.users[step.i], step, grants);
      State(p, s.users[step.i := u])
  }

  // ----- where a buffer is -----

  // The slots that a stream holds: those it has taken too, and live slots for as long as its
  // count says so.
  function Holds(u: User): seq<MemInfo> {
    match u.phase
    case Resting => u.stream.slots
    case Filling(_, _, _) => u.stream.slots + u.taken
    case Undoing(todo) => if |todo| > |u.stream.slots| then todo else u.stream.slots
    case Releasing(todo) => todo
  }

  function Held(users: seq<User>, m: MemInfo): nat {
    if users == [] then 0 else Held(users[..|users| - 1], m) + Count(Holds(users[|users| - 1]), m)
  }

  function Places(s: State, m: MemInfo): nat {
    Count(s.pool.freed, m) + Pooled(s.pool.lists, m) + Held(s.users, m)
  }

  ghost predicate Conserved(s: State) {
    forall m :: Places(s, m) == Count(s.pool.made, m)
  }

  // Among others: every buffer a call has taken fits what it asked for.
  predicate UserSane(u: User) {
    match u.phase
    case Filling(_, count, req) =>
      && |u.taken| <= count && |u.stream.slots| + count <= MM_CAMERA_MAX_NUM_FRAMES
      && forall b :: b in u.taken ==> Fits(b, req)
    case Undoing(todo) => todo <= u.stream.slots + u.taken
    case _ => u.phase.Resting? ==> u.taken == []
  }

  ghost predicate Sane(s: State) {
    && Numbered(s.pool)
    && forall i :: 0 <= i < |s.users| ==> UserSane(s.users[i]) && s.users[i].stream.streamType < |s.pool.lists|
  }

  lemma {:induction false} HeldUpdate(users: seq<User>, i: nat, u: User, m: MemInfo)
    requires i < |users|
    ensures Held(users[i := u], m) + Count(Holds(users[i]), m) == Held(users, m) + Count(Holds(u), m)
  {
    hide Count, Holds;
    var n := |users| - 1;
    if i < n {
      HeldUpdate(users[..n], i, u, m);
      assert users[i := u][..n] == users[..n][i := u];
    } else {
      assert users[i := u][..n] == users[..n];
    }
  }

  // The two steps that lose or double a buffer: an allocate that becomes the count of a stream
  // with live slots, and a clean-up that releases a live slot.
  predicate Harmful(u: User, step: Step) {
    || (step.Commit? && u.phase.Filling? && !u.phase.more && u.stream.slots != [])
    || (step.Undo? && u.phase.Undoing? && |u.phase.todo| <= |u.stream.slots|)
  }

  // What the step takes out of every place (positive) or puts into one place too many (negative).
  function Lost(u: User, step: Step): (seq<MemInfo>, seq<MemInfo>) {
    if !Harmful(u, step) then ([], [])
    else if step.Commit? then
      var all := u.stream.slots + u.taken;
      (if u.phase.count <= |all| then all[u.phase.count..] else [], [])
    else ([], if u.phase.todo == [] then [] else [u.phase.todo[|u.phase.todo| - 1]])
  }

  lemma FillBalance(p: Pool, u: User, step: Step, grants: Grants, m: MemInfo)
    requires step.Fill? && CanDo(u, step) && u.stream.streamType < |p.lists|
    ensures var (p', u') := Section(p, u, step, grants);
            Kept(p', m) + Count(Holds(u'), m) == Kept(p, m) + Count(Holds(u), m)
  {
    hide Kept, Count, Acquire;
    AcquireKeeps(p, u.stream.streamType, u.phase.req, grants, m);
    var (p', b) := Acquire(p, u.stream.streamType, u.phase.req, grants);
    var held := u.stream.slots + u.taken;
    if b.Some? {
      CountAdd(held, [b.value], m);
      assert held + [b.value] == u.stream.slots + (u.taken + [b.value]);
    } else if u.taken == [] {
      assert held == u.stream.slots;
    }
  }

  lemma UndoBalance(p: Pool, u: User, step: Step, grants: Grants, m: MemInfo)
    requires step.Undo? && CanDo(u, step) && u.stream.streamType < |p.lists| && UserSane(u)
    ensures var (p', u') := Section(p, u, step, grants);
            Kept(p', m) + Count(Holds(u'), m) == Kept(p, m) + Count(Holds(u), m) + Count(Lost(u, step).1, m)
    ensures Lost(u, step).0 == []
  {
    hide Kept, Count, Release;
    var todo, n := u.phase.todo, |u.phase.todo| - 1;
    ReleaseKeeps(p, u.stream.streamType, todo[n], m);
    CountNone(m);
    if |todo| > |u.stream.slots| {
      CountSplit(todo, n, m);
      assert todo[n..] == [todo[n]];
      if n == |u.stream.slots| {
        assert todo[..n] == (u.stream.slots + u.taken)[..n] == u.stream.slots;
      }
    }
  }

  lemma CommitBalance(p: Pool, u: User, step: Step, grants: Grants, m: MemInfo)
    requires step.Commit? && CanDo(u, step) && u.stream.streamType < |p.lists|
    ensures var (p', u') := Section(p, u, step, grants);
            p' == p && Count(Holds(u'), m) + Count(Lost(u, step).0, m) == Count(Holds(u), m)
    ensures Lost(u, step).1 == []
  {
    hide Count;
    var all := u.stream.slots + u.taken;
    CountNone(m);
    CountSplit(all, u.phase.count, m);
    if u.stream.slots == [] { assert all[..u.phase.count] == all; }
  }

  // The balance of every step, for the pool and the one stream it concerns.
  lemma SectionBalance(p: Pool, u: User, step: Step, grants: Grants, m: MemInfo)
    requires CanDo(u, step) && u.stream.streamType < |p.lists| && UserSane(u)
    ensures var (p', u') := Section(p, u, step, grants);
            var (gone, doubled) := Lost(u, step);
            Kept(p', m) + Count(Holds(u'), m) + Count(gone, m) == Kept(p, m) + Count(Holds(u), m) + Count(doubled, m)
  {
    hide Kept, Count, Acquire, Release;
    CountNone(m);
    match step
    case Fill(_) => FillBalance(p, u, step, grants, m);
    case Undo(_) => UndoBalance(p, u, step, grants, m);
    case Commit(_) => CommitBalance(p, u, step, grants, m);
    case ReleaseOne(_) =>
      var todo := u.phase.todo;
      ReleaseKeeps(p, u.stream.streamType, todo[0], m);
      CountSplit(todo, 1, m);
      assert todo[..1] == [todo[0]];
    case Begin(_, _, _, _) => assert u.stream.slots + [] == u.stream.slots;
    case _ =>
  }

  lemma ClearBalance(p: Pool, m: MemInfo)
    ensures Kept(Cleared(p), m) == Kept(p, m)
  {
    hide Count, Pooled, Concat;
    CountAdd(p.freed, Concat(p.lists), m);
    ConcatPooled(p.lists, m);
    PooledNone(|p.lists|, m);
  }

  // One step keeps every buffer in one place exactly if it is not one of the two harmful ones.
  lemma StepConservesIff(s: State, step: Step, grants: Grants)
    requires Enabled(s, step) && Sane(s) && Conserved(s)
    ensures Conserved(Next(s, step, grants)) <==> step.DoClear? || !Harmful(s.users[step.i], step)
  {
    hide Count, Pooled, Held, Section, Lost, Holds, CanDo, Harmful, UserSane, Cleared;
    var s' := Next(s, step, grants);
    if step.DoClear? {
      forall m ensures Places(s', m) == Count(s'.pool.made, m) { ClearBalance(s.pool, m); }
    } else {
      var u := s.users[step.i];
      forall m ensures Places(s', m) - Count(s'.pool.made, m) == Count(Lost(u, step).1, m) - Count(Lost(u, step).0, m) {
        SectionBalance(s.pool, u, step, grants, m);
        HeldUpdate(s.users, step.i, s'.users[step.i], m);
      }
      LostIff(u, step);
      if Harmful(u, step) {
        var m := LostOne(u, step);
        assert Places(s', m) != Count(s'.pool.made, m);
      } else {
        forall m ensures Places(s', m) == Count(s'.pool.made, m) { CountNone(m); }
      }
    }
  }

  lemma LostIff(u: User, step: Step)
    ensures !Harmful(u, step) ==> Lost(u, step) == ([], [])
  {
  }

  lemma LostOne(u: User, step: Step) returns (m: MemInfo)
    requires CanDo(u, step) && Harmful(u, step)
    ensures Count(Lost(u, step).0, m) != Count(Lost(u, step).1, m)
  {
    var gone, doubled := Lost(u, step).0, Lost(u, step).1;
    m := if gone != [] then gone[0] else doubled[0];
    assert gone != [] ==> m in multiset(gone);
    assert doubled != [] ==> m in multiset(doubled);
  }

  lemma SectionSane(p: Pool, u: User, step: Step, grants: Grants)
    requires CanDo(u, step) && u.stream.streamType < |p.lists| && UserSane(u) && Numbered(p)
    ensures var (p', u') := Section(p, u, step, grants);
            && Numbered(p') && UserSane(u') && |p'.lists| == |p.lists| && u'.stream.streamType == u.stream.streamType
  {
    hide Acquire;
    if step.Fill? {
      AcquireFits(p, u.stream.streamType, u.phase.req, grants);
    }
  }

  lemma StepSane(s: State, step: Step, grants: Grants)
    requires Enabled(s, step) && Sane(s)
    ensures Sane(Next(s, step, grants)) && |Next(s, step, grants).users| == |s.users|
  {
    hide Section, UserSane, CanDo, Concat;
    if !step.DoClear? { SectionSane(s.pool, s.users[step.i], step, grants); }
  }

  // ----- runs -----

  ghost predicate IsRun(ss: seq<State>, steps: seq<Step>, grants: Grants) {
    && |ss| == |steps| + 1 && Sane(ss[0]) && Conserved(ss[0])
    && forall i {:trigger steps[i]} :: 0 <= i < |steps| ==>
         Enabled(ss[i], steps[i]) && ss[i + 1] == Next(ss[i], steps[i], grants)
  }

  ghost predicate HarmlessUpTo(ss: seq<State>, steps: seq<Step>, n: nat)
    requires |ss| == |steps| + 1 && n <= |steps|
  {
    forall i {:trigger steps[i]} :: 0 <= i < n && !steps[i].DoClear? && steps[i].i < |ss[i].users| ==>
      !Harmful(ss[i].users[steps[i].i], steps[i])
  }

  // In any interleaving, as long as no step is harmful, every buffer ever made is in exactly one
  // place: freed, in one list of the pool, or held by one stream.
  lemma {:induction false} RunConserves(ss: seq<State>, steps: seq<Step>, grants: Grants, n: nat)
    requires IsRun(ss, steps, grants) && n <= |steps| && HarmlessUpTo(ss, steps, n)
    ensures Sane(ss[n]) && Conserved(ss[n])
    ensures forall m :: Places(ss[n], m) == if m in ss[n].pool.made then 1 else 0
  {
    hide Sane, Conserved, Next, Enabled, Harmful, Places;
    if n > 0 {
      RunConserves(ss, steps, grants, n - 1);
      var step := steps[n - 1];
      StepSane(ss[n - 1], step, grants);
      StepConservesIff(ss[n - 1], step, grants);
      EnabledUser(ss[n - 1], step);
    }
    forall m ensures Places(ss[n], m) == if m in ss[n].pool.made then 1 else 0 { OnlyPlace(ss[n], m); }
  }

  lemma EnabledUser(s: State, step: Step)
    requires Enabled(s, step)
    ensures step.DoClear? || step.i < |s.users|
  {
  }

  lemma OnlyPlace(s: State, m: MemInfo)
    requires Sane(s) && Conserved(s)
    ensures Places(s, m) == if m in s.pool.made then 1 else 0
  {
    hide Places;
    AtMostOnce(s.pool.made, m);
  }

  // A caller who begins allocate and allocateMore only on streams without live slots never meets
  // a harmful step, whatever the device grants and however the threads interleave.
  ghost predicate BeginsEmpty(ss: seq<State>, steps: seq<Step>)
    requires |ss| == |steps| + 1
  {
    forall i {:trigger steps[i]} :: 0 <= i < |steps| && steps[i].Begin? && steps[i].i < |ss[i].users| ==>
      ss[i].users[steps[i].i].stream.slots == []
  }

  predicate NoLiveInCall(u: User) { u.phase.Filling? || u.phase.Undoing? ==> u.stream.slots == [] }

  lemma {:induction false} EmptyBeginsAreHarmless(ss: seq<State>, steps: seq<Step>, grants: Grants, n: nat)
    requires IsRun(ss, steps, grants) && n <= |steps| && BeginsEmpty(ss, steps)
    requires forall i :: 0 <= i < |ss[0].users| ==> NoLiveInCall(ss[0].users[i])
    ensures forall i :: 0 <= i < |ss[n].users| ==> NoLiveInCall(ss[n].users[i])
    ensures HarmlessUpTo(ss, steps, n)
  {
    hide Sane, Conserved, Next, Enabled, Harmful, NoLiveInCall, CanDo;
    if n > 0 {
      EmptyBeginsAreHarmless(ss, steps, grants, n - 1);
      var s, step := ss[n - 1], steps[n - 1];
      EnabledUser(s, step);
      NextNoLive(s, step, grants);
    }
  }

  lemma NextNoLive(s: State, step: Step, grants: Grants)
    requires Enabled(s, step) && forall i :: 0 <= i < |s.users| ==> NoLiveInCall(s.users[i])
    requires step.Begin? ==> s.users[step.i].stream.slots == []
    ensures var s' := Next(s, step, grants); forall i :: 0 <= i < |s'.users| ==> NoLiveInCall(s'.users[i])
    ensures step.DoClear? || !Harmful(s.users[step.i], step)
  {
    hide Acquire, Release;
  }

  // ----- a call that nobody interrupts -----

  // The rest of an allocation, section by section, to its end.
  function Finish(p: Pool, u: User, grants: Grants): (Pool, User)
    requires u.stream.streamType < |p.lists| && (u.phase.Undoing? || (u.phase.Filling? && |u.taken| <= u.phase.count))
    decreases if u.phase.Filling? then 1 else 0,
              if u.phase.Filling? then u.phase.count - |u.taken| else |u.phase.todo|
  {
    if u.phase.Filling? then
      if |u.taken| == u.phase.count then Section(p, u, Commit(0), grants)
      else
        var (p', u') := Section(p, u, Fill(0), grants);
        Finish(p', u', grants)
    else if u.phase.todo == [] then Section(p, u, Fail(0), grants)
    else
      var (p', u') := Section(p, u, Undo(0), grants);
      Finish(p', u', grants)
  }

  lemma {:induction false} FinishUndo(p: Pool, u: User, grants: Grants)
    requires u.stream.streamType < |p.lists| && u.phase.Undoing?
    ensures Finish(p, u, grants) == (ReleaseDown(p, u.stream.streamType, u.phase.todo), User(u.stream, [], Resting))
    decreases |u.phase.todo|
  {
    if u.phase.todo != [] {
      var (p', u') := Section(p, u, Undo(0), grants);
      FinishUndo(p', u', grants);
    }
  }

  lemma {:induction false} FinishFilling(p: Pool, u: User, grants: Grants)
    requires u.stream.streamType < |p.lists| && u.phase.Filling? && |u.taken| <= u.phase.count
    ensures var (p', all) :=
              AcquireAll(p, u.stream.streamType, u.phase.req, u.stream.slots + u.taken, u.phase.count - |u.taken|,
                  grants);
            var (q, v) := Finish(p, u, grants);
            && q == p' && v.phase.Resting? && v.taken == []
            && v.stream == if all.None? then u.stream
                           else u.stream.(slots := if u.phase.more then all.value else all.value[..u.phase.count])
    decreases u.phase.count - |u.taken|
  {
    hide Acquire, ReleaseDown;
    if |u.taken| < u.phase.count {
      var (p', u') := Section(p, u, Fill(0), grants);
      if u'.phase.Filling? {
        FinishFilling(p', u', grants);
        assert u.stream.slots + u.taken + [u'.taken[|u.taken|]] == u.stream.slots + u'.taken;
      } else {
        FinishUndo(p', u', grants);
      }
    }
  }

  // An allocation of which all sections follow each other is the whole call.
  lemma AloneIsTheCall(p: Pool, s: Stream, more: bool, count: nat, size: nat, grants: Grants)
    requires s.streamType < |p.lists|
    ensures var (p0, u) := Section(p, User(s, [], Resting), Begin(0, more, count, size), grants);
            var (q, v) := if u.phase.Resting? then (p0, u) else Finish(p0, u, grants);
            && v.phase.Resting? && v.taken == []
            && if more then q == AllocatedMore(p, s, count, size, grants).0
                         && v.stream == AllocatedMore(p, s, count, size, grants).1
               else q == Allocated(p, s, count, size, grants).0 && v.stream == Allocated(p, s, count, size, grants).1
  {
    hide AcquireAll, Finish;
    var u := Section(p, User(s, [], Resting), Begin(0, more, count, size), grants).1;
    if !u.phase.Resting? {
      FinishFilling(p, u, grants);
      assert s.slots + [] == s.slots;
    }
  }

  function FinishRelease(p: Pool, u: User, grants: Grants): (Pool, User)
    requires u.stream.streamType < |p.lists| && u.phase.Releasing?
    decreases |u.phase.todo|
  {
    if u.phase.todo == [] then Section(p, u, EndRelease(0), grants)
    else
      var (p', u') := Section(p, u, ReleaseOne(0), grants);
      FinishRelease(p', u', grants)
  }

  lemma {:induction false} FinishReleaseIs(p: Pool, u: User, grants: Grants)
    requires u.stream.streamType < |p.lists| && u.phase.Releasing?
    ensures FinishRelease(p, u, grants)
         == (ReleaseUp(p, u.stream.streamType, u.phase.todo), User(u.stream.(slots := []), [], Resting))
    decreases |u.phase.todo|
  {
    if u.phase.todo != [] {
      var (p', u') := Section(p, u, ReleaseOne(0), grants);
      FinishReleaseIs(p', u', grants);
    }
  }

  // So is a release.
  lemma AloneIsTheRelease(p: Pool, s: Stream, grants: Grants)
    requires s.streamType < |p.lists|
    ensures var (p0, u) := Section(p, User(s, [], Resting), BeginRelease(0), grants);
            FinishRelease(p0, u, grants) == (Deallocated(p, s).0, User(Deallocated(p, s).1, [], Resting))
  {
    hide ReleaseUp, FinishRelease;
    var (p0, u) := Section(p, User(s, [], Resting), BeginRelease(0), grants);
    FinishReleaseIs(p0, u, grants);
  }
}
