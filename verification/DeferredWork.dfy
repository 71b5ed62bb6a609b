// The deferred-job slots of QCamera2HardwareInterface (camera/QCamera2/HAL/QCamera2HWI.cpp,
// with QCameraQueue and QCameraCmdThread of camera/QCamera2/util): client threads queue work and
// wait for it, one worker thread does it.
module DeferredWork {
  import opened Options

  const MAX_ONGOING_JOBS := 25

  // What a job asks for. Buffer allocation without a channel, and an unknown command, are given
  // up by the worker without freeing the slot.
  datatype Command = AllocateBuffers(hasChannel: bool) | StartPostproc | Unknown

  predicate Doable(c: Command) {
    match c
    case AllocateBuffers(ch) => ch
    case StartPostproc => true
    case Unknown => false
  }

  // ticket tells apart the jobs that use the same slot one after the other.
  datatype Job = Job(ticket: nat, id: nat, cmd: Command)

  datatype Cmd = DoNextJob | StartDataProc | StopDataProc | Exit

  // mDeffLock is free, or held inside queueDefferedWork with the job enqueued and the slot yet to
  // be marked, or marked and the command yet to be sent.
  datatype Lock = Free | ToMark(job: Job) | ToSend(job: Job)

  datatype Worker = Idle | Dequeuing | Executing(job: Job) | Finishing(job: Job) | Exited

  // A thread inside waitDefferedWork, with the jobs that were outstanding in its slot when it
  // began to wait.
  datatype Wait = Wait(id: nat, tickets: set<nat>)

  datatype State = State(
    ongoing: seq<bool>,
    queue: seq<Job>,
    cmds: seq<Cmd>,
    lock: Lock,
    worker: Worker,
    dropped: set<Job>,       // given up by the worker
    waits: map<nat, Wait>,
    asleep: set<nat>,        // those of them inside mDeffCond.wait
    nextTicket: nat,
    finished: set<nat>)

  function Init(): State {
    State(seq(MAX_ONGOING_JOBS, _ => false), [], [], Free, Idle, {}, map[], {}, 0, {})
  }

  function FirstFree(ongoing: seq<bool>): (k: nat)
    ensures k <= |ongoing| && (forall j :: 0 <= j < k ==> ongoing[j])
    ensures k < |ongoing| ==> !ongoing[k]
  {
    if ongoing == [] || !ongoing[0] then 0 else FirstFree(ongoing[1..]) + 1
  }

  // ----- the steps -----

  datatype Step =
    | QueueBegin(cmd: Command) | QueueMark | QueueSend      // queueDefferedWork
    | SendOther(other: Cmd, priority: bool)                   // any other command to the worker
    | WorkerGet | WorkerDequeue | WorkerRun | WorkerFinish(woken: Option<nat>)  // defferedWorkRoutine
    | WaitBegin(thread: nat, id: int) | WaitAgain(thread: nat) | WaitReturn(thread: nat)  // waitDefferedWork

  // mDeffCond.signal wakes one of the threads asleep, any one, or nobody if none is.
  predicate Signals(s: State, woken: Option<nat>) {
    if s.asleep == {} then woken.None? else woken.Some? && woken.value in s.asleep
  }

  // An awake thread inside waitDefferedWork, about to test its slot again.
  predicate Rechecks(s: State, t: nat) {
    s.lock.Free? && t in s.waits && t !in s.asleep && s.waits[t].id < |s.ongoing|
  }

  predicate Enabled(s: State, step: Step) {
    match step
    case QueueBegin(_) => s.lock.Free?
    case QueueMark => s.lock.ToMark? && s.lock.job.id < |s.ongoing|
    case QueueSend => s.lock.ToSend?
    case SendOther(c, _) => !c.DoNextJob?
    case WorkerGet => s.worker.Idle? && s.cmds != []
    case WorkerDequeue => s.worker.Dequeuing?
    case WorkerRun => s.worker.Executing?
    case WorkerFinish(woken) =>
      s.worker.Finishing? && s.lock.Free? && s.worker.job.id < |s.ongoing| && Signals(s, woken)
    case WaitBegin(t, _) => s.lock.Free? && t !in s.waits && |s.ongoing| == MAX_ONGOING_JOBS
    case WaitAgain(t) => Rechecks(s, t) && s.ongoing[s.waits[t].id]
    case WaitReturn(t) => Rechecks(s, t) && !s.ongoing[s.waits[t].id]
  }

  ghost function Next(s: State, step: Step): State
    requires Enabled(s, step)
  {
    match step
    case QueueBegin(cmd) =>
      var i := FirstFree(s.ongoing);
      if i == |s.ongoing| then s   // all slots taken: -1
      else
        var job := Job(s.nextTicket, i, cmd);
        s.(queue := s.queue + [job], lock := ToMark(job), nextTicket := s.nextTicket + 1)
    case QueueMark => s.(ongoing := s.ongoing[s.lock.job.id := true], lock := ToSend(s.lock.job))
    case QueueSend => s.(cmds := s.cmds + [DoNextJob], lock := Free)
    case SendOther(c, priority) => s.(cmds := if priority then [c] + s.cmds else s.cmds + [c])
    case WorkerGet =>
      s.(cmds := s.cmds[1..],
         worker := match s.cmds[0] case DoNextJob => Dequeuing case Exit => Exited case _ => Idle)
    case WorkerDequeue =>
      if s.queue == [] then s.(worker := Idle)
      else s.(queue := s.queue[1..], worker := Executing(s.queue[0]))
    case WorkerRun =>
      var job := s.worker.job;
      if Doable(job.cmd) then s.(worker := Finishing(job))
      else s.(worker := Idle, dropped := s.dropped + {job})
    case WorkerFinish(woken) =>
      var job := s.worker.job;
      s.(ongoing := s.ongoing[job.id := false], worker := Idle, finished := s.finished + {job.ticket},
         asleep := if woken.Some? then s.asleep - {woken.value} else s.asleep)
    case WaitBegin(t, id) =>
      if 0 <= id < MAX_ONGOING_JOBS && s.ongoing[id] then
        s.(waits := s.waits[t := Wait(id, TicketsIn(s, id))], asleep := s.asleep + {t})
      else s   // out of range or not ongoing: returns at once
    case WaitAgain(t) => s.(asleep := s.asleep + {t})
    case WaitReturn(t) => s.(waits := s.waits - {t})
  }

  // ----- what is outstanding -----

  function WorkerJob(w: Worker): Option<Job> {
    match w
    case Executing(j) => Some(j)
    case Finishing(j) => Some(j)
    case _ => None
  }

  // Queued, in the worker's hands, or given up.
  function Outstanding(s: State): set<Job> {
    (set j | j in s.queue) + (if WorkerJob(s.worker).Some? then {WorkerJob(s.worker).value} else {}) + s.dropped
  }

  ghost function TicketsIn(s: State, id: nat): set<nat> {
    set j | j in Outstanding(s) && j.id == id :: j.ticket
  }

  function JobCmds(cmds: seq<Cmd>): nat {
    if cmds == [] then 0 else (if cmds[0].DoNextJob? then 1 else 0) + JobCmds(cmds[1..])
  }

  function Bit(b: bool): nat { if b then 1 else 0 }

  // ----- the invariant -----

  // No two outstanding jobs share a slot or a ticket...
  ghost predicate JobsDistinct(jobs: set<Job>, nextTicket: nat, finished: set<nat>) {
    && (forall a, b :: a in jobs && b in jobs && a.id == b.id ==> a == b)
    && (forall j :: j in jobs ==> j.ticket < nextTicket && j.ticket !in finished)
    && (forall a, b :: a in jobs && b in jobs && a.ticket == b.ticket ==> a == b)
    && (forall t :: t in finished ==> t < nextTicket)
  }

  // ...and none is in two places.
  ghost predicate Apart(queue: seq<Job>, worker: Worker, dropped: set<Job>) {
    && (forall i, j :: 0 <= i < j < |queue| ==> queue[i] != queue[j])
    && (WorkerJob(worker).Some? ==> WorkerJob(worker).value !in queue && WorkerJob(worker).value !in dropped)
    && (forall j :: j in dropped ==> j !in queue && !Doable(j.cmd))
    && (worker.Finishing? ==> Doable(worker.job.cmd))
  }

  ghost predicate SlotsDistinct(s: State) {
    JobsDistinct(Outstanding(s), s.nextTicket, s.finished) && Apart(s.queue, s.worker, s.dropped)
  }

  // A slot is marked exactly if an outstanding job has it, but for the one being marked.
  ghost predicate SlotsMarked(s: State) {
    && |s.ongoing| == MAX_ONGOING_JOBS
    && (forall j :: j in Outstanding(s) ==> j.id < MAX_ONGOING_JOBS && (s.ongoing[j.id] || s.lock == ToMark(j)))
    && (forall i :: 0 <= i < MAX_ONGOING_JOBS && s.ongoing[i] ==> exists j :: j in Outstanding(s) && j.id == i)
    && (s.lock.ToMark? ==> s.lock.job in Outstanding(s) && !s.ongoing[s.lock.job.id])
  }

  // One command on its way for every queued job.
  ghost predicate Commanded(s: State) {
    JobCmds(s.cmds) + Bit(s.worker.Dequeuing?) + Bit(!s.lock.Free?) == |s.queue|
  }

  // A job once seen in slot id is finished or still in that slot.
  ghost predicate Accounted(s: State, id: nat, ticket: nat) {
    ticket in s.finished || exists j :: j in Outstanding(s) && j.id == id && j.ticket == ticket
  }

  ghost predicate WaitsOk(s: State) {
    && s.asleep <= s.waits.Keys
    && forall t :: t in s.waits ==>
      && s.waits[t].id < MAX_ONGOING_JOBS && |s.waits[t].tickets| == 1
      && forall k :: k in s.waits[t].tickets ==> Accounted(s, s.waits[t].id, k)
  }

  ghost predicate Inv(s: State) {
    SlotsDistinct(s) && SlotsMarked(s) && Commanded(s) && WaitsOk(s)
  }

  lemma {:induction false} JobCmdsSplit(a: seq<Cmd>, b: seq<Cmd>)
    ensures JobCmds(a + b) == JobCmds(a) + JobCmds(b)
  {
    if a == [] {
      assert a + b == b;
    } else {
      JobCmdsSplit(a[1..], b);
      assert (a + b)[1..] == a[1..] + b;
    }
  }

  lemma CommandedNext(s: State, step: Step)
    requires Commanded(s) && Enabled(s, step)
    ensures Commanded(Next(s, step))
  {
    match step
    case QueueSend => JobCmdsSplit(s.cmds, [DoNextJob]);
    case SendOther(c, priority) => JobCmdsSplit(s.cmds, [c]); JobCmdsSplit([c], s.cmds);
    case WorkerGet => JobCmdsSplit([s.cmds[0]], s.cmds[1..]); assert s.cmds == [s.cmds[0]] + s.cmds[1..];
    case _ =>
  }

  // How a step changes what is outstanding: a queued job joins, a finished one leaves.
  lemma OutstandingNext(s: State, step: Step)
    requires SlotsDistinct(s) && Enabled(s, step)
    ensures var s' := Next(s, step);
            Outstanding(s') ==
            if step.QueueBegin? && FirstFree(s.ongoing) < |s.ongoing|
            then Outstanding(s) + {Job(s.nextTicket, FirstFree(s.ongoing), step.cmd)}
            else if step.WorkerFinish? then Outstanding(s) - {s.worker.job}
            else Outstanding(s)
  {
    var s' := Next(s, step);
    if step.WorkerDequeue? && s.queue != [] {
      assert s.queue == [s.queue[0]] + s.queue[1..];
    }
    if step.QueueBegin? && FirstFree(s.ongoing) < |s.ongoing| {
      assert forall j :: j in s'.queue <==> j in s.queue || j == s'.queue[|s.queue|];
    }
  }

  lemma JoinDistinct(jobs: set<Job>, nextTicket: nat, finished: set<nat>, job: Job)
    requires JobsDistinct(jobs, nextTicket, finished)
    requires job.ticket == nextTicket && forall j :: j in jobs ==> j.id != job.id
    ensures JobsDistinct(jobs + {job}, nextTicket + 1, finished)
  {
  }

  lemma LeaveDistinct(jobs: set<Job>, nextTicket: nat, finished: set<nat>, job: Job)
    requires JobsDistinct(jobs, nextTicket, finished) && job in jobs
    ensures JobsDistinct(jobs - {job}, nextTicket, finished + {job.ticket})
  {
  }

  lemma EnqueueApart(s: State, job: Job)
    requires Apart(s.queue, s.worker, s.dropped) && job !in Outstanding(s)
    ensures Apart(s.queue + [job], s.worker, s.dropped)
  {
    WorkerJobIn(s);
    assert forall j :: j in s.queue || j in s.dropped ==> j in Outstanding(s);
    hide Outstanding;
    assert forall j :: j in s.queue + [job] <==> j in s.queue || j == job;
  }

  lemma DequeueApart(s: State)
    requires Apart(s.queue, s.worker, s.dropped) && s.worker.Dequeuing? && s.queue != []
    ensures Apart(s.queue[1..], Executing(s.queue[0]), s.dropped)
  {
    DequeueDistinct(s.queue);
    assert s.queue[0] in s.queue;
  }

  lemma QueueDistinct(s: State, cmd: Command)
    requires SlotsDistinct(s) && SlotsMarked(s) && s.lock.Free? && FirstFree(s.ongoing) < |s.ongoing|
    ensures SlotsDistinct(Next(s, QueueBegin(cmd)))
  {
    hide JobCmds, FirstFree, TicketsIn, Outstanding, Apart;
    OutstandingNext(s, QueueBegin(cmd));
    var job := Job(s.nextTicket, FirstFree(s.ongoing), cmd);
    FirstFreeIsFree(s.ongoing);
    JoinDistinct(Outstanding(s), s.nextTicket, s.finished, job);
    EnqueueApart(s, job);
  }

  lemma DistinctNext(s: State, step: Step)
    requires SlotsDistinct(s) && SlotsMarked(s) && Enabled(s, step)
    ensures SlotsDistinct(Next(s, step))
  {
    hide JobCmds, FirstFree, TicketsIn, SlotsMarked, Outstanding, JobsDistinct;
    if step.QueueBegin? {
      if FirstFree(s.ongoing) < |s.ongoing| { QueueDistinct(s, step.cmd); }
    } else {
      OutstandingNext(s, step);
      WorkerJobIn(s);
      if step.WorkerFinish? { LeaveDistinct(Outstanding(s), s.nextTicket, s.finished, s.worker.job); }
      if step.WorkerDequeue? && s.queue != [] { DequeueApart(s); }
    }
  }

  lemma FirstFreeIsFree(ongoing: seq<bool>)
    ensures FirstFree(ongoing) < |ongoing| ==> !ongoing[FirstFree(ongoing)]
  {
  }

  lemma DequeueDistinct(q: seq<Job>)
    requires q != [] && forall i, j :: 0 <= i < j < |q| ==> q[i] != q[j]
    ensures q[0] !in q[1..] && forall i, j :: 0 <= i < j < |q[1..]| ==> q[1..][i] != q[1..][j]
    ensures forall j :: j in q[1..] ==> j in q
  {
  }

  lemma MarkMarked(s: State)
    requires SlotsMarked(s) && SlotsDistinct(s) && Enabled(s, QueueMark)
    ensures SlotsMarked(Next(s, QueueMark))
  {
    OutstandingNext(s, QueueMark);
    hide Outstanding, SlotsDistinct;
    var s' := Next(s, QueueMark);
    forall i | 0 <= i < MAX_ONGOING_JOBS && s'.ongoing[i] ensures exists j :: j in Outstanding(s') && j.id == i {
      if i == s.lock.job.id {
        assert s.lock.job in Outstanding(s');
      } else {
        assert s.ongoing[i];
      }
    }
  }

  lemma FinishMarked(s: State, woken: Option<nat>)
    requires SlotsMarked(s) && SlotsDistinct(s) && Enabled(s, WorkerFinish(woken))
    ensures SlotsMarked(Next(s, WorkerFinish(woken)))
  {
    OutstandingNext(s, WorkerFinish(woken));
    WorkerJobIn(s);
    hide Outstanding;
    var s' := Next(s, WorkerFinish(woken));
    assert forall j :: j in Outstanding(s') ==> j.id != s.worker.job.id;
    forall i | 0 <= i < MAX_ONGOING_JOBS && s'.ongoing[i] ensures exists j :: j in Outstanding(s') && j.id == i {
      var j :| j in Outstanding(s) && j.id == i;
      assert j in Outstanding(s');
    }
  }

  lemma MarkedNext(s: State, step: Step)
    requires SlotsDistinct(s) && SlotsMarked(s) && Enabled(s, step)
    ensures SlotsMarked(Next(s, step))
  {
    hide JobCmds, FirstFree, TicketsIn;
    match step
    case QueueMark => MarkMarked(s);
    case WorkerFinish(woken) => FinishMarked(s, woken);
    case _ =>
      OutstandingNext(s, step);
      FirstFreeIsFree(s.ongoing);
      hide Outstanding, SlotsDistinct;
  }

  lemma WorkerJobIn(s: State)
    ensures WorkerJob(s.worker).Some? ==> WorkerJob(s.worker).value in Outstanding(s)
  {
  }

  lemma AccountedNext(s: State, step: Step, id: nat, k: nat)
    requires SlotsDistinct(s) && Enabled(s, step) && Accounted(s, id, k)
    ensures Accounted(Next(s, step), id, k)
  {
    hide JobCmds, FirstFree, SlotsMarked;
    OutstandingNext(s, step);
    hide Outstanding, SlotsDistinct;
    var s' := Next(s, step);
    if k !in s.finished {
      var j :| j in Outstanding(s) && j.id == id && j.ticket == k;
      assert j in Outstanding(s') || k in s'.finished;
    }
  }

  lemma TicketsAccounted(s: State, id: nat)
    ensures forall k :: k in TicketsIn(s, id) ==> Accounted(s, id, k)
  {
    hide Outstanding;
  }

  // A marked slot is watched for its one job.
  lemma WatchedJob(s: State, id: nat) returns (j: Job)
    requires SlotsDistinct(s) && SlotsMarked(s) && id < MAX_ONGOING_JOBS && s.ongoing[id]
    ensures j in Outstanding(s) && j.id == id && TicketsIn(s, id) == {j.ticket}
  {
    hide Outstanding;
    j :| j in Outstanding(s) && j.id == id;
  }

  lemma WaitsNext(s: State, step: Step)
    requires SlotsDistinct(s) && SlotsMarked(s) && WaitsOk(s) && Enabled(s, step)
    ensures WaitsOk(Next(s, step))
  {
    hide JobCmds, FirstFree, Commanded, Outstanding, SlotsDistinct, Accounted, TicketsIn;
    var s' := Next(s, step);
    if step.WaitBegin? && 0 <= step.id < MAX_ONGOING_JOBS && s.ongoing[step.id] {
      var j := WatchedJob(s, step.id);
      assert |TicketsIn(s, step.id)| == 1;
    }
    hide SlotsMarked;
    forall t, k | t in s.waits && k in s.waits[t].tickets ensures Accounted(s', s.waits[t].id, k) {
      AccountedNext(s, step, s.waits[t].id, k);
    }
    if step.WaitBegin? && 0 <= step.id < MAX_ONGOING_JOBS {
      TicketsAccounted(s, step.id);
      forall k | k in TicketsIn(s, step.id) ensures Accounted(s', step.id, k) {
        AccountedNext(s, step, step.id, k);
      }
    }
  }

  // ----- every run -----

  ghost predicate IsRun(ss: seq<State>, steps: seq<Step>) {
    && |ss| == |steps| + 1 && ss[0] == Init()
    && forall i {:trigger steps[i]} :: 0 <= i < |steps| ==>
         Enabled(ss[i], steps[i]) && ss[i + 1] == Next(ss[i], steps[i])
  }

  lemma {:induction false} RunInv(ss: seq<State>, steps: seq<Step>, i: nat)
    requires IsRun(ss, steps) && i < |ss|
    ensures Inv(ss[i])
  {
    if i == 0 {
      InitInv();
    } else {
      hide Next, Enabled, Init, SlotsDistinct, SlotsMarked, Commanded, WaitsOk;
      RunInv(ss, steps, i - 1);
      var step := steps[i - 1];
      DistinctNext(ss[i - 1], step);
      MarkedNext(ss[i - 1], step);
      CommandedNext(ss[i - 1], step);
      WaitsNext(ss[i - 1], step);
    }
  }

  lemma InitInv()
    ensures Inv(Init())
  {
    assert Outstanding(Init()) == {};
  }

  // Between queueing calls a slot is marked exactly if one job, and only one, has it: queued, in
  // the worker's hands, or given up; only undoable jobs are ever given up.
  lemma SlotsExact(ss: seq<State>, steps: seq<Step>, n: nat, i: nat)
    requires IsRun(ss, steps) && n < |ss| && ss[n].lock.Free? && i < MAX_ONGOING_JOBS
    ensures var s := ss[n];
            && |s.ongoing| == MAX_ONGOING_JOBS
            && (s.ongoing[i] <==> exists j :: j in Outstanding(s) && j.id == i)
            && (forall a, b :: a in Outstanding(s) && b in Outstanding(s) && a.id == i == b.id ==> a == b)
            && (forall j :: j in s.dropped ==> !Doable(j.cmd))
  {
    hide IsRun, Outstanding, JobCmds;
    RunInv(ss, steps, n);
  }

  // The worker never finds the queue empty.
  lemma NeverEmpty(ss: seq<State>, steps: seq<Step>, n: nat)
    requires IsRun(ss, steps) && n < |ss| && ss[n].worker.Dequeuing?
    ensures ss[n].queue != []
  {
    hide IsRun, Outstanding;
    RunInv(ss, steps, n);
  }

  // A thread that has to wait watches the one job of its slot, and nothing else.
  lemma WaitWatchesTheJob(ss: seq<State>, steps: seq<Step>, n: nat)
    requires IsRun(ss, steps) && n < |steps| && steps[n].WaitBegin?
    ensures var s, t, id := ss[n], steps[n].thread, steps[n].id;
            if 0 <= id < MAX_ONGOING_JOBS && |s.ongoing| == MAX_ONGOING_JOBS && s.ongoing[id]
            then t in ss[n + 1].waits && ss[n + 1].waits[t].id == id &&
                 exists j :: j in Outstanding(s) && j.id == id && ss[n + 1].waits[t].tickets == {j.ticket}
            else ss[n + 1] == s
  {
    hide Outstanding, JobCmds, Accounted, TicketsIn;
    RunInv(ss, steps, n);
    var s, step := ss[n], steps[n];
    assert Enabled(s, step);
    if 0 <= step.id < MAX_ONGOING_JOBS && s.ongoing[step.id] {
      var j := WatchedJob(s, step.id);
    }
  }

  // waitDefferedWork returns only after the job that was in its slot when it began to wait has
  // finished, whoever has taken the slot since.
  lemma WaitIsForTheJob(ss: seq<State>, steps: seq<Step>, n: nat)
    requires IsRun(ss, steps) && n < |steps| && steps[n].WaitReturn?
    ensures steps[n].thread in ss[n].waits
    ensures |ss[n].waits[steps[n].thread].tickets| == 1
    ensures ss[n].waits[steps[n].thread].tickets <= ss[n].finished
  {
    hide Outstanding, JobCmds, Next;
    RunInv(ss, steps, n);
    var s, step := ss[n], steps[n];
    assert Enabled(s, step);
    forall k | k in s.waits[step.thread].tickets ensures k in s.finished {
    }
  }

  // ----- the order of jobs -----

  // queueDefferedWork puts the job last, in the first free slot, with the command asked for; if all
  // slots are taken it does nothing.
  lemma QueueTakesTheJob(ss: seq<State>, steps: seq<Step>, i: nat, cmd: Command)
    requires IsRun(ss, steps) && i < |steps| && steps[i] == QueueBegin(cmd)
    ensures if forall k :: 0 <= k < |ss[i].ongoing| ==> ss[i].ongoing[k] then ss[i + 1] == ss[i]
            else
              && |ss[i + 1].queue| == |ss[i].queue| + 1 && ss[i].queue <= ss[i + 1].queue
              && var job := ss[i + 1].queue[|ss[i].queue|];
                 && job.cmd == cmd && job.ticket == ss[i].nextTicket
                 && job.id < |ss[i].ongoing| && !ss[i].ongoing[job.id]
                 && (forall k :: 0 <= k < job.id ==> ss[i].ongoing[k])
                 && ss[i + 1].lock == ToMark(job)
  {
    var step := steps[i];
    assert Enabled(ss[i], step) && ss[i + 1] == Next(ss[i], step);
    FirstFreeIsFree(ss[i].ongoing);
    hide IsRun, TicketsIn, JobCmds;
  }

  // Tickets are given out in order, and the queue keeps it.
  ghost predicate TicketsAscend(s: State) {
    && Ascend(s.queue) && (forall j :: j in s.queue ==> j.ticket < s.nextTicket)
    && (WorkerJob(s.worker).Some? ==>
          && WorkerJob(s.worker).value.ticket < s.nextTicket
          && forall j :: j in s.queue ==> WorkerJob(s.worker).value.ticket < j.ticket)
  }

  ghost predicate Ascend(queue: seq<Job>) {
    forall i, j :: 0 <= i < j < |queue| ==> queue[i].ticket < queue[j].ticket
  }

  lemma AscendAppend(queue: seq<Job>, job: Job)
    requires Ascend(queue) && forall j :: j in queue ==> j.ticket < job.ticket
    ensures Ascend(queue + [job]) && forall j :: j in queue + [job] <==> j in queue || j == job
  {
  }

  lemma AscendTail(queue: seq<Job>)
    requires Ascend(queue) && queue != []
    ensures Ascend(queue[1..]) && forall j :: j in queue[1..] ==> j in queue && queue[0].ticket < j.ticket
    ensures queue[0] in queue
  {
  }

  lemma TicketsNext(s: State, step: Step)
    requires TicketsAscend(s) && Enabled(s, step)
    ensures TicketsAscend(Next(s, step))
  {
    hide FirstFree, TicketsIn, JobCmds, Ascend;
    if step.QueueBegin? { AscendAppend(s.queue, Job(s.nextTicket, FirstFree(s.ongoing), step.cmd)); }
    if step.WorkerDequeue? && s.queue != [] { AscendTail(s.queue); }
  }

  lemma {:induction false} RunTickets(ss: seq<State>, steps: seq<Step>, i: nat)
    requires IsRun(ss, steps) && i < |ss|
    ensures TicketsAscend(ss[i])
  {
    if i > 0 {
      hide Next, Enabled, Init, TicketsAscend;
      RunTickets(ss, steps, i - 1);
      var step := steps[i - 1];
      TicketsNext(ss[i - 1], step);
    }
  }

  // From a point on, only tickets from a certain one on are queued.
  lemma {:induction false} LaterTickets(ss: seq<State>, steps: seq<Step>, i: nat, k: nat, ticket: nat)
    requires IsRun(ss, steps) && i <= k < |ss|
    requires ticket < ss[i].nextTicket && forall j :: j in ss[i].queue ==> ticket < j.ticket
    ensures ticket < ss[k].nextTicket && forall j :: j in ss[k].queue ==> ticket < j.ticket
    decreases k
  {
    if i < k {
      hide Next, Enabled, Init;
      LaterTickets(ss, steps, i, k - 1, ticket);
      var step := steps[k - 1];
      LaterNext(ss[k - 1], step, ticket);
    }
  }

  lemma LaterNext(s: State, step: Step, ticket: nat)
    requires Enabled(s, step) && ticket < s.nextTicket && forall j :: j in s.queue ==> ticket < j.ticket
    ensures ticket < Next(s, step).nextTicket && forall j :: j in Next(s, step).queue ==> ticket < j.ticket
  {
    hide FirstFree, TicketsIn, JobCmds;
  }

  // The worker begins the jobs in the order in which they were queued: it always takes the oldest of
  // the queue, and never one older than any it has begun before.
  lemma JobsInOrder(ss: seq<State>, steps: seq<Step>, i: nat, k: nat)
    requires IsRun(ss, steps) && i <= k < |steps| && steps[i] == WorkerDequeue && steps[k] == WorkerDequeue
    ensures ss[i].queue != [] && ss[k].queue != []
    ensures ss[k + 1].worker == Executing(ss[k].queue[0]) && ss[k + 1].queue == ss[k].queue[1..]
    ensures forall j :: j in ss[k + 1].queue ==> ss[k].queue[0].ticket < j.ticket
    ensures i < k ==> ss[i].queue[0].ticket < ss[k].queue[0].ticket
  {
    DequeueTakes(ss, steps, i);
    DequeueTakes(ss, steps, k);
    if i < k {
      hide IsRun;
      LaterTickets(ss, steps, i + 1, k, ss[i].queue[0].ticket);
      assert ss[k].queue[0] in ss[k].queue;
    }
  }

  lemma DequeueTakes(ss: seq<State>, steps: seq<Step>, i: nat)
    requires IsRun(ss, steps) && i < |steps| && steps[i] == WorkerDequeue
    ensures ss[i].queue != [] && ss[i + 1].worker == Executing(ss[i].queue[0]) && ss[i + 1].queue == ss[i].queue[1..]
    ensures ss[i].queue[0].ticket < ss[i + 1].nextTicket
    ensures forall j :: j in ss[i + 1].queue ==> ss[i].queue[0].ticket < j.ticket
  {
    var step := steps[i];
    assert Enabled(ss[i], step) && ss[i + 1] == Next(ss[i], step);
    NeverEmpty(ss, steps, i);
    RunTickets(ss, steps, i);
    hide IsRun, FirstFree, TicketsIn, JobCmds;
    assert ss[i].queue[0] in ss[i].queue;
  }

  // Commands: that of a job goes last, others last or ahead of all; the worker takes the first, goes
  // for a job, ends, or does neither. A waiter that returns is no longer inside; one that tests in
  // vain sleeps again.
  lemma CommandsInOrder(ss: seq<State>, steps: seq<Step>, i: nat)
    requires IsRun(ss, steps) && i < |steps|
    ensures steps[i].QueueSend? ==> ss[i + 1].cmds == ss[i].cmds + [DoNextJob] && ss[i + 1].lock.Free?
    ensures steps[i].SendOther? ==>
              ss[i + 1].cmds ==
              if steps[i].priority then [steps[i].other] + ss[i].cmds else ss[i].cmds + [steps[i].other]
    ensures steps[i].WorkerGet? ==>
              && ss[i].cmds != [] && ss[i + 1].cmds == ss[i].cmds[1..]
              && (ss[i + 1].worker.Dequeuing? <==> ss[i].cmds[0].DoNextJob?)
              && (ss[i + 1].worker.Exited? <==> ss[i].cmds[0].Exit?)
    ensures steps[i].WaitReturn? ==>
              ss[i + 1].waits.Keys == ss[i].waits.Keys - {steps[i].thread} && ss[i + 1].asleep == ss[i].asleep
    ensures steps[i].WaitAgain? ==>
              ss[i + 1].waits == ss[i].waits && ss[i + 1].asleep == ss[i].asleep + {steps[i].thread}
  {
    var step := steps[i];
    assert Enabled(ss[i], step) && ss[i + 1] == Next(ss[i], step);
    hide IsRun, FirstFree, TicketsIn, JobCmds;
  }

  // ----- what becomes of a job -----

  // The job being queued is the last in the queue: the worker gets no command for it before.
  ghost predicate LastQueued(s: State) {
    !s.lock.Free? ==> s.queue != [] && s.queue[|s.queue| - 1] == s.lock.job
  }

  lemma LastQueuedNext(s: State, step: Step)
    requires Commanded(s) && LastQueued(s) && Enabled(s, step)
    ensures LastQueued(Next(s, step))
  {
    hide FirstFree, TicketsIn, JobCmds;
  }

  lemma {:induction false} RunLastQueued(ss: seq<State>, steps: seq<Step>, i: nat)
    requires IsRun(ss, steps) && i < |ss|
    ensures LastQueued(ss[i])
  {
    if i > 0 {
      hide Next, Enabled, Init, SlotsDistinct, SlotsMarked, Commanded, WaitsOk, LastQueued;
      RunLastQueued(ss, steps, i - 1);
      RunInv(ss, steps, i - 1);
      var step := steps[i - 1];
      LastQueuedNext(ss[i - 1], step);
    }
  }

  // A given up job has its slot marked, and stays given up.
  lemma {:induction false} DroppedForEver(ss: seq<State>, steps: seq<Step>, i: nat, k: nat, j: Job)
    requires IsRun(ss, steps) && i <= k < |ss| && j in ss[i].dropped
    ensures j in ss[k].dropped && j.id < |ss[k].ongoing| && ss[k].ongoing[j.id]
    decreases k
  {
    if i < k {
      DroppedForEver(ss, steps, i, k - 1, j);
      var step := steps[k - 1];
      DroppedStays(ss[k - 1], step, j);
    }
    RunInv(ss, steps, k);
    RunLastQueued(ss, steps, k);
    DroppedMarked(ss[k], j);
  }

  lemma DroppedStays(s: State, step: Step, j: Job)
    requires Enabled(s, step) && j in s.dropped
    ensures j in Next(s, step).dropped
  {
    hide FirstFree, TicketsIn;
  }

  lemma DroppedMarked(s: State, j: Job)
    requires SlotsDistinct(s) && SlotsMarked(s) && LastQueued(s) && j in s.dropped
    ensures j.id < |s.ongoing| && s.ongoing[j.id]
  {
    assert j in Outstanding(s);
  }

  // A job that has left the queue and the worker's hands has been finished exactly if it could be
  // done, and given up for ever otherwise.
  lemma JobFate(ss: seq<State>, steps: seq<Step>, i: nat, k: nat, j: Job)
    requires IsRun(ss, steps) && i <= k < |ss| && j in Outstanding(ss[i])
    ensures var s := ss[k];
            if j in s.queue || WorkerJob(s.worker) == Some(j) then j.ticket !in s.finished && j !in s.dropped
            else (j.ticket in s.finished <==> Doable(j.cmd)) && (j in s.dropped <==> !Doable(j.cmd))
  {
    RunInv(ss, steps, k);
    OutstandingOrDone(ss, steps, i, k, j);
    hide IsRun, SlotsMarked;
    assert j in ss[k].queue || WorkerJob(ss[k].worker) == Some(j) || j in ss[k].dropped ==> j in Outstanding(ss[k]);
  }

  lemma {:induction false} OutstandingOrDone(ss: seq<State>, steps: seq<Step>, i: nat, k: nat, j: Job)
    requires IsRun(ss, steps) && i <= k < |ss| && j in Outstanding(ss[i])
    ensures j in Outstanding(ss[k]) || (j.ticket in ss[k].finished && Doable(j.cmd))
    decreases k
  {
    hide Next, Enabled, Outstanding, SlotsMarked, SlotsDistinct, Commanded, WaitsOk;
    if i < k {
      OutstandingOrDone(ss, steps, i, k - 1, j);
      RunInv(ss, steps, k - 1);
      var step := steps[k - 1];
      OutstandingOrDoneNext(ss[k - 1], step, j);
    }
  }

  lemma OutstandingOrDoneNext(s: State, step: Step, j: Job)
    requires SlotsDistinct(s) && Enabled(s, step)
    requires j in Outstanding(s) || (j.ticket in s.finished && Doable(j.cmd))
    ensures var s' := Next(s, step); j in Outstanding(s') || (j.ticket in s'.finished && Doable(j.cmd))
  {
    hide FirstFree, TicketsIn, JobCmds;
    OutstandingNext(s, step);
    hide Outstanding;
  }

  // ----- a slot lost for good -----

  ghost predicate Reachable(s: State) {
    exists ss, steps :: IsRun(ss, steps) && ss[|steps|] == s
  }

  lemma NextReachable(s: State, step: Step, s': State)
    requires Reachable(s) && Enabled(s, step) && s' == Next(s, step)
    ensures Reachable(s')
  {
    hide Next, Enabled, Init;
    var ss, steps :| IsRun(ss, steps) && ss[|steps|] == s;
    var ss', steps' := ss + [s'], steps + [step];
    forall i {:trigger steps'[i]} | 0 <= i < |steps'|
      ensures Enabled(ss'[i], steps'[i]) && ss'[i + 1] == Next(ss'[i], steps'[i])
    {
      if i < |steps| { assert steps'[i] == steps[i]; }
    }
    assert IsRun(ss', steps');
  }

  // A job to allocate buffers for a channel that is gone: the worker gives it up, and its slot
  // stays marked.
  lemma LostSlotExample() returns (s: State, j: Job)
    ensures Reachable(s) && s.queue == [] && s.cmds == [] && s.worker.Idle? && s.lock.Free?
    ensures j in s.dropped && j.cmd == AllocateBuffers(false) && |s.ongoing| == MAX_ONGOING_JOBS && s.ongoing[0]
  {
    hide Reachable;
    var free := seq(MAX_ONGOING_JOBS, _ => false);
    var marked := free[0 := true];
    j := Job(0, 0, AllocateBuffers(false));
    InitReachable();
    assert FirstFree(free) == 0;
    var s1 := State(free, [j], [], ToMark(j), Idle, {}, map[], {}, 1, {});
    NextReachable(Init(), QueueBegin(AllocateBuffers(false)), s1);
    var s2 := s1.(ongoing := marked, lock := ToSend(j));
    NextReachable(s1, QueueMark, s2);
    var s3 := s2.(cmds := [DoNextJob], lock := Free);
    NextReachable(s2, QueueSend, s3);
    var s4 := s3.(cmds := [], worker := Dequeuing);
    NextReachable(s3, WorkerGet, s4);
    var s5 := s4.(queue := [], worker := Executing(j));
    NextReachable(s4, WorkerDequeue, s5);
    s := s5.(worker := Idle, dropped := {j});
    NextReachable(s5, WorkerRun, s);
  }

  lemma InitReachable()
    ensures Reachable(Init())
  {
    assert IsRun([Init()], []);
  }

  // A job enters the watched set of a waiting thread, and leaves outstanding work, only by being
  // done: nothing but the worker's last step finishes a job, and it frees exactly its slot.
  lemma FinishFreesOneSlot(s: State, woken: Option<nat>)
    requires Inv(s) && Enabled(s, WorkerFinish(woken))
    ensures var s' := Next(s, WorkerFinish(woken));
            && Outstanding(s') == Outstanding(s) - {s.worker.job} && s.worker.job in Outstanding(s)
            && Doable(s.worker.job.cmd)
            && (forall i :: 0 <= i < MAX_ONGOING_JOBS ==> s'.ongoing[i] == (s.ongoing[i] && i != s.worker.job.id))
            && s.ongoing[s.worker.job.id]
  {
    hide JobCmds;
    OutstandingNext(s, WorkerFinish(woken));
    WorkerJobIn(s);
  }

  // ----- the object -----

  // The three steps of queueDefferedWork in a row, as they are under the lock.
  ghost function Queued(s: State, cmd: Command): State
    requires s.lock.Free? && FirstFree(s.ongoing) < |s.ongoing|
  {
    Next(Next(Next(s, QueueBegin(cmd)), QueueMark), QueueSend)
  }

  // The worker's answer to one command, undisturbed.
  ghost function Answered(s: State, woken: Option<nat>): State
    requires s.lock.Free? && s.worker.Idle? && s.cmds != [] && Signals(s, woken)
    requires s.queue != [] ==> s.queue[0].id < |s.ongoing|
  {
    var s1 := Next(s, WorkerGet);
    if !s1.worker.Dequeuing? then s1
    else
      var s2 := Next(s1, WorkerDequeue);
      if !s2.worker.Executing? then s2
      else
        var s3 := Next(s2, WorkerRun);
        if s3.worker.Finishing? then Next(s3, WorkerFinish(woken)) else s3
  }

  class QCamera2HardwareInterface {
    const mDeffOngoingJobs: array<bool>
    var mCmdQueue: seq<Job>
    var cmdQueue: seq<Cmd>
    var running: bool
    var nextTicket: nat      // numbers the jobs; the source tells them apart by address
    // The protocol state this object is in between two uses of its lock.
    ghost var Value: State

    ghost predicate Valid()
      reads this, mDeffOngoingJobs
    {
      && mDeffOngoingJobs.Length == MAX_ONGOING_JOBS
      && Value.ongoing == mDeffOngoingJobs[..] && Value.queue == mCmdQueue && Value.cmds == cmdQueue
      && Value.nextTicket == nextTicket && Value.lock.Free?
      && (if running then Value.worker.Idle? else Value.worker.Exited?)
      && SlotsMarked(Value) && SlotsDistinct(Value)
    }

    constructor ()
      ensures Valid() && Value == Init() && fresh(mDeffOngoingJobs)
    {
      InitInv();
      mDeffOngoingJobs := new bool[MAX_ONGOING_JOBS](_ => false);
      mCmdQueue, cmdQueue, running, nextTicket := [], [], true, 0;
      Value := Init();
      new;
      assert mDeffOngoingJobs[..] == Value.ongoing;
    }

    method QueueDefferedWork(cmd: Command) returns (id: int)
      requires Valid()
      modifies this, mDeffOngoingJobs
      ensures Valid() && running == old(running)
      ensures var i := FirstFree(old(Value).ongoing);
              if i == MAX_ONGOING_JOBS then id == -1 && Value == old(Value)
              else id == i && Value == Queued(old(Value), cmd)
    {
      hide Outstanding, SlotsMarked, SlotsDistinct;
      MarkedLength(Value);
      ghost var s := Value;
      for i := 0 to MAX_ONGOING_JOBS
        invariant Valid() && Value == s && running == old(running)
        invariant i <= FirstFree(s.ongoing)
      {
        if !mDeffOngoingJobs[i] {
          assert s.ongoing[i] == mDeffOngoingJobs[i];
          assert FirstFree(s.ongoing) == i;
          QueuedMarked(s, cmd);
          mCmdQueue := mCmdQueue + [Job(nextTicket, i, cmd)];
          nextTicket := nextTicket + 1;
          mDeffOngoingJobs[i] := true;
          cmdQueue := cmdQueue + [DoNextJob];
          Value := Queued(s, cmd);
          return i;
        }
      }
      return -1;
    }

    // One round of defferedWorkRoutine; its signal, if it comes to that, wakes the given thread.
    method AnswerCommand(ghost woken: Option<nat>)
      requires Valid() && running && cmdQueue != [] && Signals(Value, woken)
      modifies this, mDeffOngoingJobs
      ensures Valid() && old(mCmdQueue != [] ==> mCmdQueue[0].id < mDeffOngoingJobs.Length)
      ensures Value == Answered(old(Value), woken)
    {
      ghost var s := Value;
      AnsweredMarked(s, woken);
      MarkedLength(s);
      hide Outstanding, SlotsMarked, SlotsDistinct;
      var cmd := cmdQueue[0];
      cmdQueue := cmdQueue[1..];
      match cmd {
        case DoNextJob =>
          if mCmdQueue != [] {
            var dw := mCmdQueue[0];
            mCmdQueue := mCmdQueue[1..];
            if Doable(dw.cmd) {
              mDeffOngoingJobs[dw.id] := false;
            }
          }
        case Exit =>
          running := false;
        case _ =>
      }
      Value := Answered(s, woken);
    }

    // waitDefferedWork at the test of its loop: whether the caller may go, and what becomes of
    // its job id if so.
    method MayReturn(jobId: int) returns (done: bool, newId: int)
      requires Valid()
      ensures done <==> !(0 <= jobId < MAX_ONGOING_JOBS && Value.ongoing[jobId])
      ensures newId == if done && 0 <= jobId < MAX_ONGOING_JOBS then MAX_ONGOING_JOBS else jobId
    {
      if MAX_ONGOING_JOBS <= jobId || 0 > jobId {
        return true, jobId;
      }
      if mDeffOngoingJobs[jobId] == true {
        return false, jobId;
      }
      return true, MAX_ONGOING_JOBS;
    }
  }

  lemma MarkedLength(s: State)
    requires SlotsMarked(s)
    ensures |s.ongoing| == MAX_ONGOING_JOBS
    ensures s.queue != [] ==> s.queue[0].id < MAX_ONGOING_JOBS
  {
    assert s.queue != [] ==> s.queue[0] in Outstanding(s);
  }

  lemma QueuedMarked(s: State, cmd: Command)
    requires SlotsMarked(s) && SlotsDistinct(s) && s.lock.Free? && FirstFree(s.ongoing) < |s.ongoing|
    ensures SlotsMarked(Queued(s, cmd)) && SlotsDistinct(Queued(s, cmd))
  {
    hide Outstanding, SlotsMarked, SlotsDistinct;
    var s1 := Next(s, QueueBegin(cmd));
    MarkedNext(s, QueueBegin(cmd));
    DistinctNext(s, QueueBegin(cmd));
    MarkedNext(s1, QueueMark);
    DistinctNext(s1, QueueMark);
    MarkedNext(Next(s1, QueueMark), QueueSend);
    DistinctNext(Next(s1, QueueMark), QueueSend);
  }

  lemma AnsweredMarked(s: State, woken: Option<nat>)
    requires SlotsMarked(s) && SlotsDistinct(s) && s.lock.Free? && s.worker.Idle? && s.cmds != [] && Signals(s, woken)
    ensures s.queue != [] ==> s.queue[0].id < |s.ongoing|
    ensures SlotsMarked(Answered(s, woken)) && SlotsDistinct(Answered(s, woken))
  {
    hide Outstanding, SlotsMarked, SlotsDistinct;
    MarkedLength(s);
    var s1 := Next(s, WorkerGet);
    MarkedNext(s, WorkerGet);
    DistinctNext(s, WorkerGet);
    if s1.worker.Dequeuing? {
      var s2 := Next(s1, WorkerDequeue);
      MarkedNext(s1, WorkerDequeue);
      DistinctNext(s1, WorkerDequeue);
      if s2.worker.Executing? {
        var s3 := Next(s2, WorkerRun);
        MarkedNext(s2, WorkerRun);
        DistinctNext(s2, WorkerRun);
        if s3.worker.Finishing? {
          MarkedNext(s3, WorkerFinish(woken));
          DistinctNext(s3, WorkerFinish(woken));
        }
      }
    }
  }
}
