// QCameraGrallocMemory (camera/QCamera2/HAL/QCameraMem.cpp): which side owns each preview buffer,
// the camera or the native window. What the window answers is a parameter of every call; buffer
// handles are numbers.
module Gralloc {
  import opened Options

  const MM_CAMERA_MAX_NUM_FRAMES: nat := 24

  // all are the window's buffers and held those it has now. owned is mLocalFlag, true for
  // BUFFER_OWNED; handles is mBufferHandle.
  datatype Memory = Memory(all: set<nat>, held: set<nat>, handles: seq<Option<nat>>, owned: seq<bool>,
                           count: nat, minUndequeued: nat)

  // dequeue_buffer: an error, no buffer, or a buffer.
  datatype Dequeued = Failed | Null | Got(handle: nat)

  datatype Displayed = InvalidOperation | BadIndex | Index(i: nat)

  // How the window's setup calls end: before set_buffer_count took effect, after it, or well.
  // buffers is what the window has from set_buffer_count on.
  datatype Setup =
    | Refused(minUndequeued: nat)
    | Recounted(minUndequeued: nat, buffers: set<nat>)
    | Ready(minUndequeued: nat, buffers: set<nat>)

  predicate Shape(g: Memory) {
    |g.handles| == |g.owned| == MM_CAMERA_MAX_NUM_FRAMES && g.count <= MM_CAMERA_MAX_NUM_FRAMES
  }

  // ----- the operations -----

  // cancel_buffer: the window takes back a buffer of its own.
  function Cancel(g: Memory, h: Option<nat>): Memory {
    if h.Some? && h.value in g.all then g.(held := g.held + {h.value}) else g
  }

  function IndexOf(handles: seq<Option<nat>>, h: nat): (i: nat)
    ensures i <= |handles| && (i < |handles| ==> handles[i] == Some(h))
    ensures forall j :: 0 <= j < i ==> handles[j] != Some(h)
  {
    if handles == [] || handles[0] == Some(h) then 0 else IndexOf(handles[1..], h) + 1
  }

  function Enqueue(g: Memory, index: nat, ok: bool): Memory
    requires Shape(g) && index < MM_CAMERA_MAX_NUM_FRAMES && g.handles[index].Some?
  {
    if ok then g.(held := g.held + {g.handles[index].value}, owned := g.owned[index := false]) else g
  }

  function Dequeue(g: Memory, answer: Dequeued): (Memory, Displayed)
    requires Shape(g)
  {
    if !answer.Got? then (g, BadIndex)
    else
      var i := IndexOf(g.handles[..g.count], answer.handle);
      var g' := g.(held := g.held - {answer.handle});
      if i < g.count then (g'.(owned := g'.owned[i := true]), Index(i)) else (g', BadIndex)
  }

  function Display(g: Memory, index: nat, enqueued: bool, answer: Dequeued): (Memory, Displayed)
    requires Shape(g) && index < MM_CAMERA_MAX_NUM_FRAMES && (g.owned[index] ==> g.handles[index].Some?)
  {
    if !g.owned[index] then (g, InvalidOperation)
    else Dequeue(Enqueue(g, index, enqueued), answer)
  }

  // allocate's loop, from its cnt-th turn on; answers(cnt) is None for a failed dequeue_buffer.
  function DequeueAll(g: Memory, cnt: nat, count: nat, answers: nat -> Option<nat>): (res: (Memory, bool))
    requires Shape(g) && cnt <= count <= MM_CAMERA_MAX_NUM_FRAMES
    ensures Shape(res.0) && res.0.count == g.count && res.0.all == g.all && res.0.minUndequeued == g.minUndequeued
    decreases count - cnt
  {
    if cnt == count then (g, true)
    else match answers(cnt)
      case None => (Undo(g.(owned := g.owned[cnt := false]), 0, cnt), false)
      case Some(h) => DequeueAll(Take(g, cnt, h), cnt + 1, count, answers)
  }

  function Take(g: Memory, cnt: nat, h: nat): Memory
    requires Shape(g) && cnt < MM_CAMERA_MAX_NUM_FRAMES
  {
    g.(held := g.held - {h}, handles := g.handles[cnt := Some(h)], owned := g.owned[cnt := true])
  }

  // The clean-up of a failed turn.
  function Undo(g: Memory, i: nat, cnt: nat): (g': Memory)
    requires Shape(g) && i <= cnt <= MM_CAMERA_MAX_NUM_FRAMES
    ensures Shape(g') && g'.count == g.count && g'.all == g.all && g'.minUndequeued == g.minUndequeued
    decreases cnt - i
  {
    if i == cnt then g
    else
      var c := if g.owned[i] then Cancel(g, g.handles[i]) else g;
      Undo(c.(owned := c.owned[i := false], handles := c.handles[i := None]), i + 1, cnt)
  }

  // The first n buffers go back to the window.
  function CancelFirst(g: Memory, i: nat, n: nat): (g': Memory)
    requires Shape(g) && i <= n <= MM_CAMERA_MAX_NUM_FRAMES
    ensures Shape(g') && g'.count == g.count && g'.all == g.all && g'.minUndequeued == g.minUndequeued
        && g'.handles == g.handles
    decreases n - i
  {
    if i == n then g
    else
      var c := Cancel(g, g.handles[i]);
      CancelFirst(c.(owned := c.owned[i := false]), i + 1, n)
  }

  function Start(g: Memory, s: Setup): Memory {
    var m := g.(minUndequeued := s.minUndequeued);
    if s.Refused? then m else m.(all := s.buffers, held := s.buffers)
  }

  function Allocated(g: Memory, count: nat, s: Setup, answers: nat -> Option<nat>): (Memory, bool)
    requires Shape(g) && count <= MM_CAMERA_MAX_NUM_FRAMES && s.minUndequeued <= MM_CAMERA_MAX_NUM_FRAMES
  {
    if !s.Ready? then (Start(g, s), false)
    else
      var (d, ok) := DequeueAll(Start(g, s), 0, count, answers);
      if ok then (CancelFirst(d.(count := count), 0, s.minUndequeued), true) else (d, false)
  }

  // deallocate's loop: what the camera owns goes back.
  function GiveBack(g: Memory, cnt: nat): (g': Memory)
    requires Shape(g) && cnt <= g.count
    ensures Shape(g') && g'.count == g.count && g'.all == g.all && g'.minUndequeued == g.minUndequeued
        && g'.handles == g.handles
    decreases g.count - cnt
  {
    if cnt == g.count then g
    else
      var c := if g.owned[cnt] then Cancel(g, g.handles[cnt]) else g;
      GiveBack(c.(owned := c.owned[cnt := false]), cnt + 1)
  }

  function Deallocated(g: Memory): Memory
    requires Shape(g)
  {
    GiveBack(g, 0).(count := 0)
  }

  function RegFlags(g: Memory): (flags: seq<nat>)
    ensures |flags| == if g.minUndequeued > g.count then g.minUndequeued else g.count
    ensures forall i :: 0 <= i < |flags| ==> flags[i] == if i < g.minUndequeued then 0 else 1
  {
    var n := if g.minUndequeued > g.count then g.minUndequeued else g.count;
    seq(n, i requires 0 <= i < n => if i < g.minUndequeued then 0 else 1)
  }

  // ----- who owns what -----

  ghost predicate Distinct(handles: seq<Option<nat>>) {
    forall i, j :: 0 <= i < j < |handles| ==> handles[i] != handles[j]
  }

  // A buffer's flag is OWNED iff the window does not hold it.
  ghost predicate FlagsAgree(g: Memory)
    requires Shape(g)
  {
    && g.held <= g.all && Distinct(g.handles[..g.count])
    && forall i :: 0 <= i < g.count ==>
         g.handles[i].Some? && g.handles[i].value in g.all && (g.owned[i] <==> g.handles[i].value !in g.held)
  }

  // Every buffer of the window is in the table, or the table is unused and the window has them all.
  ghost predicate NoneForgotten(g: Memory)
    requires Shape(g)
  {
    (g.count == 0 && g.held == g.all) || forall h :: h in g.all ==> Some(h) in g.handles[..g.count]
  }

  ghost predicate Inv(g: Memory) {
    Shape(g) && FlagsAgree(g) && NoneForgotten(g)
  }

  // Each buffer has one owner: the window, or the camera through one flagged slot.
  lemma OneOwner(g: Memory, h: nat)
    requires Inv(g) && h in g.all
    ensures h in g.held <==> forall i :: 0 <= i < g.count ==> !(g.handles[i] == Some(h) && g.owned[i])
    ensures forall i, j :: 0 <= i < j < g.count && g.handles[i] == Some(h) ==> g.handles[j] != Some(h)
  {
    if h !in g.held {
      var i := IndexOf(g.handles[..g.count], h);
      assert g.handles[..g.count][i] == g.handles[i];
    }
    assert forall i :: 0 <= i < g.count ==> g.handles[..g.count][i] == g.handles[i];
  }

  lemma EnqueueKeeps(g: Memory, index: nat, ok: bool)
    requires Inv(g) && index < g.count
    ensures Inv(Enqueue(g, index, ok))
  {
    assert forall i :: 0 <= i < g.count ==> g.handles[..g.count][i] == g.handles[i];
  }

  lemma DequeueKeeps(g: Memory, answer: Dequeued)
    requires Inv(g) && g.count > 0 && (answer.Got? ==> answer.handle in g.held)
    ensures var (g', r) := Dequeue(g, answer);
            && Inv(g')
            && (answer.Got? <==> r.Index?) && !r.InvalidOperation?
            && (r.Index? ==> r.i < g.count && g.handles[r.i] == Some(answer.handle) && g'.owned[r.i] && !g.owned[r.i])
  {
    assert forall i :: 0 <= i < g.count ==> g.handles[..g.count][i] == g.handles[i];
  }

  // Every outcome of displayBuffer keeps the ownership right, the failed enqueue and the failed
  // dequeue among them; the index it returns is that of the buffer the window gave.
  lemma DisplayKeeps(g: Memory, index: nat, enqueued: bool, answer: Dequeued)
    requires Inv(g) && index < MM_CAMERA_MAX_NUM_FRAMES && (g.owned[index] ==> index < g.count)
    requires HonestDisplay(g, index, enqueued, answer)
    ensures var (g', r) := Display(g, index, enqueued, answer);
            && Inv(g')
            && (r.InvalidOperation? <==> index >= g.count || g.handles[index].value in g.held)
            && (r.InvalidOperation? ==> g' == g)
            && (r.Index? <==> !r.InvalidOperation? && answer.Got?)
            && (r.Index? ==> r.i < g.count && g.handles[r.i] == Some(answer.handle) && g'.owned[r.i])
            && (!r.InvalidOperation? ==> g'.held == g.held + (if enqueued then {g.handles[index].value} else {})
                                                   - (if answer.Got? then {answer.handle} else {}))
  {
    hide IndexOf, NoneForgotten;
    if g.owned[index] {
      EnqueueKeeps(g, index, enqueued);
      DequeueKeeps(Enqueue(g, index, enqueued), answer);
    }
  }

  // The window gives only buffers that it holds.
  predicate HonestDisplay(g: Memory, index: nat, enqueued: bool, answer: Dequeued)
    requires Shape(g) && index < MM_CAMERA_MAX_NUM_FRAMES && (g.owned[index] ==> g.handles[index].Some?)
  {
    answer.Got? && g.owned[index] ==> answer.handle in Enqueue(g, index, enqueued).held
  }

  predicate Honest(g: Memory, cnt: nat, count: nat, answers: nat -> Option<nat>)
    requires Shape(g) && cnt <= count <= MM_CAMERA_MAX_NUM_FRAMES
    decreases count - cnt
  {
    cnt == count || answers(cnt).None? ||
    (answers(cnt).value in g.held && Honest(Take(g, cnt, answers(cnt).value), cnt + 1, count, answers))
  }

  // After cnt turns of allocate's loop: the first cnt slots hold what the window no longer does.
  ghost predicate Taken(g: Memory, cnt: nat)
    requires Shape(g) && cnt <= MM_CAMERA_MAX_NUM_FRAMES
  {
    && g.held <= g.all && Distinct(g.handles[..cnt]) && |g.held| + cnt == |g.all|
    && (forall i :: 0 <= i < cnt ==> g.owned[i] && g.handles[i].Some? && g.handles[i].value in g.all - g.held)
    && forall h :: h in g.all - g.held ==> Some(h) in g.handles[..cnt]
  }

  lemma TakeKeeps(g: Memory, cnt: nat, h: nat)
    requires Shape(g) && cnt < MM_CAMERA_MAX_NUM_FRAMES && Taken(g, cnt) && h in g.held
    ensures Taken(Take(g, cnt, h), cnt + 1)
  {
    var g' := Take(g, cnt, h);
    assert g'.handles[..cnt + 1] == g.handles[..cnt] + [Some(h)];
    assert forall i :: 0 <= i < cnt ==> g.handles[..cnt][i] == g.handles[i];
  }

  lemma {:induction false} UndoReturns(g: Memory, i: nat, cnt: nat)
    requires Shape(g) && i <= cnt <= MM_CAMERA_MAX_NUM_FRAMES && g.held <= g.all
    requires forall k :: i <= k < cnt ==> g.owned[k]
    requires forall h :: h in g.all - g.held ==> Some(h) in g.handles[i..cnt]
    ensures Undo(g, i, cnt).held == g.all
    ensures forall k :: 0 <= k < MM_CAMERA_MAX_NUM_FRAMES ==>
              var g' := Undo(g, i, cnt);
              (i <= k < cnt ==> g'.handles[k] == None && !g'.owned[k])
              && (k < i || cnt <= k ==> g'.handles[k] == g.handles[k] && g'.owned[k] == g.owned[k])
    decreases cnt - i
  {
    if i < cnt {
      var c := Cancel(g, g.handles[i]);
      var n := c.(owned := c.owned[i := false], handles := c.handles[i := None]);
      assert g.handles[i..cnt] == [g.handles[i]] + g.handles[i + 1..cnt];
      assert n.handles[i + 1..cnt] == g.handles[i + 1..cnt];
      UndoReturns(n, i + 1, cnt);
    } else {
      forall h | h in g.all ensures h in g.held { assert h in g.held || h in g.all - g.held; }
    }
  }

  // allocate's loop ends with every buffer taken, or with every buffer given back.
  lemma {:induction false} DequeueAllEnds(g: Memory, cnt: nat, count: nat, answers: nat -> Option<nat>)
    requires Shape(g) && cnt <= count <= MM_CAMERA_MAX_NUM_FRAMES && |g.all| == count
    requires Taken(g, cnt) && Honest(g, cnt, count, answers)
    ensures var (g', ok) := DequeueAll(g, cnt, count, answers);
            if ok then Taken(g', count) && g'.held == {} else g'.held == g'.all
    decreases count - cnt
  {
    hide Taken;
    if cnt == count {
      TakenAll(g, cnt);
    } else if answers(cnt).Some? {
      TakeKeeps(g, cnt, answers(cnt).value);
      DequeueAllEnds(Take(g, cnt, answers(cnt).value), cnt + 1, count, answers);
    } else {
      UndoTaken(g, cnt);
    }
  }

  lemma TakenAll(g: Memory, cnt: nat)
    requires Shape(g) && cnt <= MM_CAMERA_MAX_NUM_FRAMES && Taken(g, cnt) && |g.all| == cnt
    ensures g.held == {}
  {
  }

  lemma UndoTaken(g: Memory, cnt: nat)
    requires Shape(g) && cnt < MM_CAMERA_MAX_NUM_FRAMES && Taken(g, cnt)
    ensures Undo(g.(owned := g.owned[cnt := false]), 0, cnt).held == g.all
  {
    assert g.handles[0..cnt] == g.handles[..cnt];
    UndoReturns(g.(owned := g.owned[cnt := false]), 0, cnt);
  }

  // What the loop leaves: FlagsAgree for a table of cnt slots none of which the window has.
  lemma TakenAgrees(g: Memory, count: nat)
    requires Shape(g) && count <= MM_CAMERA_MAX_NUM_FRAMES && Taken(g, count) && g.held == {}
    ensures Inv(g.(count := count))
  {
    assert forall i :: 0 <= i < count ==> g.handles[..count][i] == g.handles[i];
  }

  lemma CancelSlotKeeps(g: Memory, i: nat)
    requires Inv(g) && i < MM_CAMERA_MAX_NUM_FRAMES
    requires i < g.count || forall k :: 0 <= k < g.count ==> !g.owned[k]
    ensures var c := Cancel(g, g.handles[i]); Inv(c.(owned := c.owned[i := false]))
  {
    assert forall k :: 0 <= k < g.count ==> g.handles[..g.count][k] == g.handles[k];
  }

  lemma {:induction false} CancelFirstKeeps(g: Memory, i: nat, n: nat)
    requires Inv(g) && i <= n <= MM_CAMERA_MAX_NUM_FRAMES
    requires forall k :: 0 <= k < g.count && k < i ==> !g.owned[k]
    ensures var g' := CancelFirst(g, i, n);
            Inv(g') && forall k :: 0 <= k < g.count ==> g'.owned[k] == (n <= k && g.owned[k])
    decreases n - i
  {
    InvShape(g);
    hide Inv;
    if i < n {
      CancelSlotKeeps(g, i);
      var c := Cancel(g, g.handles[i]);
      var next := c.(owned := c.owned[i := false]);
      hide Cancel;
      CancelFirstKeeps(next, i + 1, n);
    }
  }

  lemma InvShape(g: Memory)
    requires Inv(g)
    ensures Shape(g)
  {
  }

  ghost predicate HonestSetup(g: Memory, count: nat, s: Setup, answers: nat -> Option<nat>)
    requires Shape(g) && count <= MM_CAMERA_MAX_NUM_FRAMES
  {
    s.Ready? ==> |s.buffers| == count && Honest(Start(g, s), 0, count, answers)
  }

  // A successful allocate, whatever was there before, leaves each buffer with one owner: the
  // first minUndequeued with the window and the rest with the camera. A failed one leaves every
  // buffer with the window, unless the window refused at once, which moves none.
  lemma AllocateOwns(g: Memory, count: nat, s: Setup, answers: nat -> Option<nat>)
    requires Shape(g) && count <= MM_CAMERA_MAX_NUM_FRAMES && s.minUndequeued <= MM_CAMERA_MAX_NUM_FRAMES
    requires HonestSetup(g, count, s, answers)
    ensures var (g', ok) := Allocated(g, count, s, answers);
            if ok
            then Inv(g') && g'.count == count && g'.all == s.buffers
                 && forall i :: 0 <= i < count ==> (g'.owned[i] <==> i >= s.minUndequeued)
            else g'.count == g.count && Shape(g')
                 && (if s.Refused? then g'.held == g.held && g'.all == g.all else g'.held == g'.all)
  {
    hide Taken, Inv, Honest;
    if s.Ready? {
      var b := Start(g, s);
      TakenNone(b);
      DequeueAllEnds(b, 0, count, answers);
      var (d, ok) := DequeueAll(b, 0, count, answers);
      if ok {
        TakenAgrees(d, count);
        TakenOwned(d, count);
        CancelFirstKeeps(d.(count := count), 0, s.minUndequeued);
      }
    }
  }

  lemma TakenNone(g: Memory)
    requires Shape(g) && g.held == g.all
    ensures Taken(g, 0)
  {
  }

  lemma TakenOwned(g: Memory, cnt: nat)
    requires Shape(g) && cnt <= MM_CAMERA_MAX_NUM_FRAMES && Taken(g, cnt)
    ensures forall i :: 0 <= i < cnt ==> g.owned[i]
  {
  }

  lemma {:induction false} GiveBackReturns(g: Memory, cnt: nat)
    requires Inv(g) && cnt <= g.count
    requires forall k :: 0 <= k < cnt ==> !g.owned[k]
    ensures GiveBack(g, cnt).held == g.all
    decreases g.count - cnt
  {
    InvShape(g);
    hide Inv;
    if cnt < g.count {
      GiveBackSlot(g, cnt);
      var c := if g.owned[cnt] then Cancel(g, g.handles[cnt]) else g;
      GiveBackReturns(c.(owned := c.owned[cnt := false]), cnt + 1);
    } else {
      NoneOwned(g);
    }
  }

  lemma GiveBackSlot(g: Memory, cnt: nat)
    requires Inv(g) && cnt < g.count
    ensures var c := if g.owned[cnt] then Cancel(g, g.handles[cnt]) else g;
            Inv(c.(owned := c.owned[cnt := false]))
  {
    CancelSlotKeeps(g, cnt);
    if !g.owned[cnt] {
      assert g.owned[cnt := false] == g.owned;
    }
  }

  lemma NoneOwned(g: Memory)
    requires Inv(g) && forall k :: 0 <= k < g.count ==> !g.owned[k]
    ensures g.held == g.all
  {
    forall h | h in g.all ensures h in g.held { OneOwner(g, h); }
  }

  // deallocate gives the window back every buffer.
  lemma DeallocateReturns(g: Memory)
    requires Inv(g)
    ensures var g' := Deallocated(g); Inv(g') && g'.held == g'.all == g.all && g'.count == 0
  {
    GiveBackReturns(g, 0);
  }

  // getRegFlags agrees with the flags right after an allocate.
  lemma RegFlagsAgree(g: Memory, count: nat, s: Setup, answers: nat -> Option<nat>)
    requires Shape(g) && count <= MM_CAMERA_MAX_NUM_FRAMES && s.minUndequeued <= MM_CAMERA_MAX_NUM_FRAMES
    requires HonestSetup(g, count, s, answers) && Allocated(g, count, s, answers).1
    ensures var g' := Allocated(g, count, s, answers).0;
            && (s.minUndequeued <= count ==> |RegFlags(g')| == count)
            && forall i :: 0 <= i < count ==> (RegFlags(g')[i] == 1 <==> g'.owned[i])
  {
    hide Inv;
    AllocateOwns(g, count, s, answers);
  }

  lemma {:induction false} DequeueAllAnswers(g: Memory, cnt: nat, count: nat, answers: nat -> Option<nat>)
    requires Shape(g) && cnt <= count <= MM_CAMERA_MAX_NUM_FRAMES
    ensures var (g', ok) := DequeueAll(g, cnt, count, answers);
            ok ==> forall i :: 0 <= i < MM_CAMERA_MAX_NUM_FRAMES ==>
                     g'.handles[i] == if cnt <= i < count then answers(i) else g.handles[i]
    decreases count - cnt
  {
    if cnt < count && answers(cnt).Some? {
      DequeueAllAnswers(Take(g, cnt, answers(cnt).value), cnt + 1, count, answers);
    }
  }

  // Slot i of a successful allocate names the buffer that the window gave at the i-th dequeue, and
  // the count and the window's min-undequeued are those of this call.
  lemma AllocateTakesTheAnswers(g: Memory, count: nat, s: Setup, answers: nat -> Option<nat>)
    requires Shape(g) && count <= MM_CAMERA_MAX_NUM_FRAMES && s.minUndequeued <= MM_CAMERA_MAX_NUM_FRAMES
    requires Allocated(g, count, s, answers).1
    ensures var g' := Allocated(g, count, s, answers).0;
            && |g'.handles| == |g.handles| && g'.count == count && g'.minUndequeued == s.minUndequeued
            && forall i :: 0 <= i < MM_CAMERA_MAX_NUM_FRAMES ==>
                 g'.handles[i] == if i < count then answers(i) else g.handles[i]
  {
    hide DequeueAll;
    DequeueAllAnswers(Start(g, s), 0, count, answers);
  }

  // ----- an allocate that fails -----

  // The turn at which allocate's loop ends early; count if it does not.
  function FailingTurn(cnt: nat, count: nat, answers: nat -> Option<nat>): (t: nat)
    requires cnt <= count
    ensures cnt <= t <= count && (t < count ==> answers(t).None?)
    ensures forall k :: cnt <= k < t ==> answers(k).Some?
    decreases count - cnt
  {
    if cnt == count || answers(cnt).None? then cnt else FailingTurn(cnt + 1, count, answers)
  }

  // Where a failing loop leaves the table: cleared up to its failing turn, and as it was from
  // there on but for the flag of that turn.
  lemma {:induction false} FailedLoopLeaves(g: Memory, cnt: nat, count: nat, answers: nat -> Option<nat>)
    requires Shape(g) && cnt <= count <= MM_CAMERA_MAX_NUM_FRAMES && Taken(g, cnt) && Honest(g, cnt, count, answers)
    ensures var (g', ok) := DequeueAll(g, cnt, count, answers);
            var t := FailingTurn(cnt, count, answers);
            && (ok <==> t == count)
            && (!ok ==> forall k :: 0 <= k < MM_CAMERA_MAX_NUM_FRAMES ==>
                  g'.handles[k] == (if k < t then None else g.handles[k]) && g'.owned[k] == (k > t && g.owned[k]))
    decreases count - cnt
  {
    hide Taken;
    if cnt < count {
      if answers(cnt).Some? {
        var h := answers(cnt).value;
        TakeKeeps(g, cnt, h);
        FailedLoopLeaves(Take(g, cnt, h), cnt + 1, count, answers);
      } else {
        UndoCleared(g, cnt);
      }
    }
  }

  lemma UndoCleared(g: Memory, cnt: nat)
    requires Shape(g) && cnt < MM_CAMERA_MAX_NUM_FRAMES && Taken(g, cnt)
    ensures var g' := Undo(g.(owned := g.owned[cnt := false]), 0, cnt);
            forall k :: 0 <= k < MM_CAMERA_MAX_NUM_FRAMES ==>
              g'.handles[k] == (if k < cnt then None else g.handles[k]) && g'.owned[k] == (k > cnt && g.owned[k])
  {
    assert g.handles[0..cnt] == g.handles[..cnt];
    UndoReturns(g.(owned := g.owned[cnt := false]), 0, cnt);
    TakenOwned(g, cnt);
  }

  // The table names exactly these buffers.
  ghost predicate Names(g: Memory, buffers: set<nat>)
    requires Shape(g)
  {
    && (forall i :: 0 <= i < g.count ==> g.handles[i].Some? && g.handles[i].value in buffers)
    && forall h :: h in buffers ==> Some(h) in g.handles[..g.count]
  }

  // Whether allocate keeps the ownership right, told from its inputs: there are no buffers yet; or
  // the window refuses at once; or every dequeue succeeds; or else set_buffer_count brought back
  // the very buffers of the table, none of them flagged (slot 0 apart if it is the one whose
  // dequeue failed), and no dequeue succeeded.
  ghost predicate AllocateSafe(g: Memory, count: nat, s: Setup, answers: nat -> Option<nat>)
    requires Shape(g)
  {
    || g.count == 0 || s.Refused?
    || (s.Ready? && forall k :: 0 <= k < count ==> answers(k).Some?)
    || (&& Names(g, s.buffers) && (s.Ready? ==> answers(0).None?)
        && forall i :: 0 <= i < g.count ==> g.owned[i] ==> s.Ready? && i == 0)
  }

  // What a failed allocate leaves, flag by flag and handle by handle.
  lemma FailedAllocateLeaves(g: Memory, count: nat, s: Setup, answers: nat -> Option<nat>)
    requires Shape(g) && count <= MM_CAMERA_MAX_NUM_FRAMES && s.minUndequeued <= MM_CAMERA_MAX_NUM_FRAMES
    requires HonestSetup(g, count, s, answers)
    ensures var (g', ok) := Allocated(g, count, s, answers);
            && (ok <==> s.Ready? && forall k :: 0 <= k < count ==> answers(k).Some?)
            && (!ok ==>
                  && Shape(g') && g'.count == g.count && g'.minUndequeued == s.minUndequeued
                  && (if s.Refused? then g'.all == g.all && g'.held == g.held else g'.all == g'.held == s.buffers)
                  && forall k :: 0 <= k < MM_CAMERA_MAX_NUM_FRAMES ==>
                       if s.Ready? then
                         var t := FailingTurn(0, count, answers);
                         g'.handles[k] == (if k < t then None else g.handles[k]) && g'.owned[k] == (k > t && g.owned[k])
                       else g'.handles[k] == g.handles[k] && g'.owned[k] == g.owned[k])
  {
    hide Taken, Honest, DequeueAll, CancelFirst;
    if s.Ready? {
      var b := Start(g, s);
      TakenNone(b);
      DequeueAllEnds(b, 0, count, answers);
      FailedLoopLeaves(b, 0, count, answers);
    }
  }

  // Keeping the invariant, for a failed call that left the window with all its buffers.
  lemma InvWhenReturned(g: Memory)
    requires Shape(g) && g.held == g.all && Distinct(g.handles[..g.count])
    ensures Inv(g) <==> g.count == 0 || (Names(g, g.all) && forall i :: 0 <= i < g.count ==> !g.owned[i])
  {
  }

  // An allocate keeps the invariant exactly if its inputs are safe.
  lemma AllocateKeepsIff(g: Memory, count: nat, s: Setup, answers: nat -> Option<nat>)
    requires Inv(g) && count <= MM_CAMERA_MAX_NUM_FRAMES && s.minUndequeued <= MM_CAMERA_MAX_NUM_FRAMES
    requires HonestSetup(g, count, s, answers)
    ensures Inv(Allocated(g, count, s, answers).0) <==> AllocateSafe(g, count, s, answers)
  {
    hide Honest;
    var (g', ok) := Allocated(g, count, s, answers);
    FailedAllocateLeaves(g, count, s, answers);
    if ok {
      AllocateOwns(g, count, s, answers);
    } else if s.Refused? {
      RefusedAgrees(g, g', s.minUndequeued);
    } else if g.count == 0 {
      IdleInv(g');
    } else {
      var t := FailingTurn(0, count, answers);
      if s.Ready? && t > 0 {
        assert g'.handles[0] == None;
      } else {
        assert g'.handles == g.handles;
        InvWhenReturned(g');
      }
    }
  }

  lemma RefusedAgrees(g: Memory, g': Memory, min: nat)
    requires Inv(g) && g' == g.(minUndequeued := min)
    ensures Inv(g')
  {
  }

  lemma IdleInv(g: Memory)
    requires Shape(g) && g.count == 0 && g.held == g.all
    ensures Inv(g)
  {
  }

  // A slot that is OWNED for a buffer the window no longer has: set_buffer_count brings other
  // buffers and a later setup call fails. And a slot emptied under a live count: the second
  // dequeue fails.
  lemma FailedReallocationExample()
    ensures Allocated(Fresh(), 1, Ready(0, {7}), (k: nat) => Some(7)) == (OneOwned(7), true)
    ensures var g := OneOwned(7);
            var a := (k: nat) => if k == 0 then Some(8) else None;
            && Inv(g) && HonestSetup(g, 1, Recounted(0, {8}), a) && HonestSetup(g, 2, Ready(0, {8, 9}), a)
            && (var g' := Allocated(g, 1, Recounted(0, {8}), a).0;
                  !Inv(g') && g'.owned[0] && g'.handles[0] == Some(7) && g'.all == {8})
            && (var g' := Allocated(g, 2, Ready(0, {8, 9}), a).0;
                  !Inv(g') && g'.count == 1 && g'.handles[0] == None)
  {
    OneOwnedReached(7, (k: nat) => Some(7));
    var g := OneOwned(7);
    var a := (k: nat) => if k == 0 then Some(8) else None;
    assert g.handles[..1] == [Some(7)];
    assert Honest(Start(g, Ready(0, {8, 9})), 0, 2, a) by {
      assert Honest(Take(Start(g, Ready(0, {8, 9})), 0, 8), 1, 2, a);
    }
    assert FailingTurn(0, 2, a) == FailingTurn(1, 2, a) == 1;
    FailedAllocateLeaves(g, 1, Recounted(0, {8}), a);
    FailedAllocateLeaves(g, 2, Ready(0, {8, 9}), a);
  }

  // A memory with no buffers yet, and a window without any.
  function Fresh(): Memory {
    Memory({}, {}, seq(MM_CAMERA_MAX_NUM_FRAMES, _ => None), seq(MM_CAMERA_MAX_NUM_FRAMES, _ => false), 0, 0)
  }

  lemma OneOwnedReached(h: nat, answers: nat -> Option<nat>)
    requires answers(0) == Some(h)
    ensures Allocated(Fresh(), 1, Ready(0, {h}), answers) == (OneOwned(h), true)
  {
    var b := Start(Fresh(), Ready(0, {h}));
    var d := Take(b, 0, h);
    assert DequeueAll(b, 0, 1, answers) == DequeueAll(d, 1, 1, answers) == (d, true);
    assert d.(count := 1) == OneOwned(h);
  }

  function OneOwned(h: nat): Memory {
    Memory({h}, {}, [Some(h)] + seq(MM_CAMERA_MAX_NUM_FRAMES - 1, _ => None),
           [true] + seq(MM_CAMERA_MAX_NUM_FRAMES - 1, _ => false), 1, 0)
  }

  // ----- runs -----

  datatype Op =
    | DoAllocate(count: nat, s: Setup, answers: nat -> Option<nat>)
    | DoDisplay(index: nat, enqueued: bool, answer: Dequeued)
    | DoDeallocate

  // What the callers and the window owe: counts within the table, an index in use or not flagged, a
  // window that gives only what it has.
  ghost predicate Enabled(g: Memory, op: Op) {
    Shape(g) &&
    match op
    case DoAllocate(count, s, answers) =>
      && count <= MM_CAMERA_MAX_NUM_FRAMES && s.minUndequeued <= MM_CAMERA_MAX_NUM_FRAMES
      && HonestSetup(g, count, s, answers)
    case DoDisplay(index, enqueued, answer) =>
      && index < MM_CAMERA_MAX_NUM_FRAMES && (g.owned[index] ==> index < g.count && g.handles[index].Some?)
      && HonestDisplay(g, index, enqueued, answer)
    case DoDeallocate => true
  }

  ghost function Next(g: Memory, op: Op): Memory
    requires Enabled(g, op)
  {
    match op
    case DoAllocate(count, s, answers) => Allocated(g, count, s, answers).0
    case DoDisplay(index, enqueued, answer) => Display(g, index, enqueued, answer).0
    case DoDeallocate => Deallocated(g)
  }

  ghost predicate Safe(g: Memory, op: Op)
    requires Enabled(g, op)
  {
    op.DoAllocate? ==> AllocateSafe(g, op.count, op.s, op.answers)
  }

  // Every call with every answer of the window keeps the ownership right, an allocate exactly if
  // it is safe.
  lemma StepInv(g: Memory, op: Op)
    requires Inv(g) && Enabled(g, op)
    ensures Inv(Next(g, op)) <==> Safe(g, op)
  {
    hide Inv, Allocated, AllocateSafe, Display, Deallocated, HonestSetup, HonestDisplay;
    match op
    case DoAllocate(count, s, answers) => AllocateKeepsIff(g, count, s, answers);
    case DoDisplay(index, enqueued, answer) => DisplayKeeps(g, index, enqueued, answer);
    case DoDeallocate => DeallocateReturns(g);
  }

  // A run in which each allocate is safe where it happens, as it is when the memory has no buffers.
  ghost predicate IsRun(g: Memory, ops: seq<Op>)
    decreases |ops|
  {
    ops == [] || (Enabled(g, ops[0]) && Safe(g, ops[0]) && IsRun(Next(g, ops[0]), ops[1..]))
  }

  ghost function Run(g: Memory, ops: seq<Op>): Memory
    requires IsRun(g, ops)
    decreases |ops|
  {
    if ops == [] then g else Run(Next(g, ops[0]), ops[1..])
  }

  // The window has the buffer exactly if no slot owns it.
  ghost predicate OwnedOnce(g: Memory, h: nat)
    requires Shape(g)
  {
    h in g.held <==> forall i :: 0 <= i < g.count ==> !(g.handles[i] == Some(h) && g.owned[i])
  }

  // After any such run each buffer of the window has one owner, and deallocate then returns them
  // all.
  lemma {:induction false} RunOwns(g: Memory, ops: seq<Op>)
    requires Inv(g) && IsRun(g, ops)
    ensures var g' := Run(g, ops);
            && Inv(g') && (forall h :: h in g'.all ==> OwnedOnce(g', h))
            && Deallocated(g').held == g'.all
    decreases |ops|
  {
    hide FlagsAgree, NoneForgotten, Enabled, Safe, Next, GiveBack, OwnedOnce;
    if ops == [] {
      forall h | h in g.all ensures OwnedOnce(g, h) {
        OneOwner(g, h);
        OwnedOnceIs(g, h);
      }
      DeallocateReturns(g);
    } else {
      StepInv(g, ops[0]);
      RunOwns(Next(g, ops[0]), ops[1..]);
    }
  }

  lemma OwnedOnceIs(g: Memory, h: nat)
    requires Shape(g)
    ensures OwnedOnce(g, h) <==>
            (h in g.held <==> forall i :: 0 <= i < g.count ==> !(g.handles[i] == Some(h) && g.owned[i]))
  {
  }

  // ----- the objects -----

  class PreviewWindow {
    var all: set<nat>
    var held: set<nat>

    constructor (buffers: set<nat>)
      ensures all == held == buffers
    {
      all, held := buffers, buffers;
    }

    method Setup(s: Setup)
      modifies this
      ensures if s.Refused? then all == old(all) && held == old(held) else all == held == s.buffers
    {
      if !s.Refused? { all, held := s.buffers, s.buffers; }
    }

    method EnqueueBuffer(h: nat, ok: bool)
      modifies `held
      ensures held == if ok then old(held) + {h} else old(held)
    {
      if ok { held := held + {h}; }
    }

    method DequeueBuffer(h: nat)
      modifies `held
      ensures held == old(held) - {h}
    {
      held := held - {h};
    }

    method CancelBuffer(h: Option<nat>)
      modifies `held
      ensures held == if h.Some? && h.value in all then old(held) + {h.value} else old(held)
    {
      if h.Some? && h.value in all { held := held + {h.value}; }
    }
  }

  class QCameraGrallocMemory {
    const mWindow: PreviewWindow
    const mLocalFlag: array<bool>
    const mBufferHandle: array<Option<nat>>
    var mBufferCount: nat
    var mMinUndequeuedBuffers: nat

    constructor (window: PreviewWindow)
      ensures Valid() && fresh(mLocalFlag) && fresh(mBufferHandle) && mWindow == window
      ensures View() == Memory(window.all, window.held, seq(MM_CAMERA_MAX_NUM_FRAMES, _ => None),
                               seq(MM_CAMERA_MAX_NUM_FRAMES, _ => false), 0, 0)
    {
      mWindow, mBufferCount, mMinUndequeuedBuffers := window, 0, 0;
      mLocalFlag := new bool[MM_CAMERA_MAX_NUM_FRAMES](_ => false);
      mBufferHandle := new Option<nat>[MM_CAMERA_MAX_NUM_FRAMES](_ => None);
    }

    ghost predicate Valid()
      reads this
    {
      mLocalFlag.Length == mBufferHandle.Length == MM_CAMERA_MAX_NUM_FRAMES && mBufferCount <= MM_CAMERA_MAX_NUM_FRAMES
    }

    ghost function View(): (g: Memory)
      reads this, mWindow, mLocalFlag, mBufferHandle
      requires Valid()
      ensures Shape(g)
    {
      Memory(mWindow.all, mWindow.held, mBufferHandle[..], mLocalFlag[..], mBufferCount, mMinUndequeuedBuffers)
    }

    method DisplayBuffer(index: nat, enqueued: bool, answer: Dequeued) returns (r: Displayed)
      requires Valid() && index < MM_CAMERA_MAX_NUM_FRAMES && (mLocalFlag[index] ==> mBufferHandle[index].Some?)
      modifies mWindow`held, mLocalFlag
      ensures Valid() && (View(), r) == Display(old(View()), index, enqueued, answer)
    {
      hide Dequeue;
      if !mLocalFlag[index] { return InvalidOperation; }
      mWindow.EnqueueBuffer(mBufferHandle[index].value, enqueued);
      if enqueued { mLocalFlag[index] := false; }
      r := TakeNext(answer);
    }

    // The second half of DisplayBuffer.
    method TakeNext(answer: Dequeued) returns (r: Displayed)
      requires Valid()
      modifies mWindow`held, mLocalFlag
      ensures Valid() && (View(), r) == Dequeue(old(View()), answer)
    {
      r := BadIndex;
      if answer.Got? {
        mWindow.DequeueBuffer(answer.handle);
        var i := 0;
        while i < mBufferCount
          invariant i <= mBufferCount && mLocalFlag[..] == old(mLocalFlag[..])
          invariant IndexOf(mBufferHandle[..mBufferCount], answer.handle)
                 == i + IndexOf(mBufferHandle[i..mBufferCount], answer.handle)
        {
          if mBufferHandle[i] == Some(answer.handle) {
            mLocalFlag[i] := true;
            return Index(i);
          }
          i := i + 1;
        }
      }
    }

    // The clean-up loop of a failed turn of Allocate.
    method UndoAllocate(cnt: nat)
      requires Valid() && cnt <= MM_CAMERA_MAX_NUM_FRAMES
      modifies mWindow`held, mLocalFlag, mBufferHandle
      ensures Valid() && View() == Undo(old(View()), 0, cnt)
    {
      ghost var u := Undo(View(), 0, cnt);
      var i := 0;
      while i < cnt
        invariant i <= cnt && Undo(View(), i, cnt) == u
      {
        if mLocalFlag[i] { mWindow.CancelBuffer(mBufferHandle[i]); }
        mLocalFlag[i] := false;
        mBufferHandle[i] := None;
        i := i + 1;
      }
    }

    method Allocate(count: nat, s: Setup, answers: nat -> Option<nat>) returns (ok: bool)
      requires Valid() && count <= MM_CAMERA_MAX_NUM_FRAMES && s.minUndequeued <= MM_CAMERA_MAX_NUM_FRAMES
      modifies this, mWindow, mLocalFlag, mBufferHandle
      ensures Valid() && (View(), ok) == Allocated(old(View()), count, s, answers)
    {
      mMinUndequeuedBuffers := s.minUndequeued;
      mWindow.Setup(s);
      if !s.Ready? { return false; }
      ghost var d := DequeueAll(View(), 0, count, answers);
      var cnt := 0;
      while cnt < count
        invariant Valid() && cnt <= count && DequeueAll(View(), cnt, count, answers) == d
        invariant mMinUndequeuedBuffers == s.minUndequeued
      {
        var h := answers(cnt);
        if h.None? {
          mLocalFlag[cnt] := false;
          UndoAllocate(cnt);
          return false;
        }
        mWindow.DequeueBuffer(h.value);
        mBufferHandle[cnt] := h;
        mLocalFlag[cnt] := true;
        cnt := cnt + 1;
      }
      mBufferCount := count;
      CancelMinUndequeued();
      return true;
    }

    // The last loop of Allocate.
    method CancelMinUndequeued()
      requires Valid() && mMinUndequeuedBuffers <= MM_CAMERA_MAX_NUM_FRAMES
      modifies mWindow`held, mLocalFlag
      ensures Valid() && View() == CancelFirst(old(View()), 0, mMinUndequeuedBuffers)
    {
      ghost var c := CancelFirst(View(), 0, mMinUndequeuedBuffers);
      var i := 0;
      while i < mMinUndequeuedBuffers
        invariant i <= mMinUndequeuedBuffers && CancelFirst(View(), i, mMinUndequeuedBuffers) == c
      {
        mWindow.CancelBuffer(mBufferHandle[i]);
        mLocalFlag[i] := false;
        i := i + 1;
      }
    }

    method Deallocate()
      requires Valid()
      modifies this, mWindow`held, mLocalFlag
      ensures Valid() && View() == Deallocated(old(View()))
    {
      ghost var d := GiveBack(View(), 0);
      var cnt := 0;
      while cnt < mBufferCount
        invariant Valid() && cnt <= mBufferCount && GiveBack(View(), cnt) == d
      {
        if mLocalFlag[cnt] { mWindow.CancelBuffer(mBufferHandle[cnt]); }
        mLocalFlag[cnt] := false;
        cnt := cnt + 1;
      }
      mBufferCount := 0;
    }

    method GetRegFlags(regFlags: array<nat>)
      requires Valid() && regFlags.Length >= mMinUndequeuedBuffers && regFlags.Length >= mBufferCount
      modifies regFlags
      ensures regFlags[..|RegFlags(View())|] == RegFlags(View())
      ensures regFlags[|RegFlags(View())|..] == old(regFlags[|RegFlags(View())|..])
    {
      var i := 0;
      while i < mMinUndequeuedBuffers
        invariant i <= mMinUndequeuedBuffers && forall k :: 0 <= k < i ==> regFlags[k] == 0
        invariant forall k :: i <= k < regFlags.Length ==> regFlags[k] == old(regFlags[k])
      {
        regFlags[i] := 0;
        i := i + 1;
      }
      while i < mBufferCount
        invariant mMinUndequeuedBuffers <= i <= |RegFlags(View())|
        invariant forall k :: 0 <= k < i ==> regFlags[k] == if k < mMinUndequeuedBuffers then 0 else 1
        invariant forall k :: i <= k < regFlags.Length ==> regFlags[k] == old(regFlags[k])
      {
        regFlags[i] := 1;
        i := i + 1;
      }
    }
  }
}
