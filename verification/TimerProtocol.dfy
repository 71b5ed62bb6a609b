// The timer service as a protocol (gps/utils/LocTimer.cpp, with LocSharedLock.h and the queue of
// MsgTask.cpp). Client threads call start() and stop() under each timer's lock, one worker
// thread takes messages from a queue and owns the two heaps, one poll thread waits on the two
// timer fds, and the kernel keeps each fd's armed time and its place in the epoll set. Every
// lock section boundary, message and system call is a step of its own, so a run is any
// interleaving of them.
module TimerProtocol {
  import opened Options
  import opened TimerCore
  import HT = HeapTree

  datatype Msg = MPush(d: Delegate) | MRemove(d: Delegate) | MExpire(wake: bool)

  // A container and its fd: the heap, and whether the fd is in the epoll set and for when it is
  // armed.
  datatype Container = Container(heap: Heap, polled: bool, armed: Option<Time>)

  // Where a LocTimer is inside start() or stop(), that is, who holds its lock: Starting has sent
  // the push but not yet set mTimer; Stopping has cleared mTimer and the delegate's client
  // pointer but not yet sent the remove.
  datatype Phase = Unlocked | Starting(d: Delegate) | Stopping(d: Delegate, byWorker: bool)

  // A LocTimer with its shared lock's count, and how often start() succeeded, stop() returned
  // true to a client, stop() returned true to an expiry, and the callback was made.
  datatype Timer = Timer(alive: bool, running: Option<Delegate>, phase: Phase, lockRefs: int,
                         starts: nat, clientStops: nat, expiryStops: nat, callbacks: nat)

  // What the worker is doing: the kernel calls left to make for a container (and then a delegate
  // to delete), or where it is in the loop of an expiry.
  datatype Worker =
    | Idle
    | Calling(k: bool, calls: seq<Call>, deleting: Option<Delegate>)
    | Expiring(k: bool, now: Time, timer: Delegate)    // popped; about to read its client pointer
    | Asking(k: bool, now: Time, timer: Delegate)      // about to call the client's stop()
    | AskWait(k: bool, now: Time, timer: Delegate)     // inside that stop()
    | CallingBack(k: bool, now: Time, client: nat)
    | NextPop(k: bool, now: Time)

  // The poll thread: in epoll_wait, or in expire() of the container of events[0].
  datatype PollStage = ToDisarm | ToUnpoll | ToSend
  datatype Poll = Waiting | Handling(events: seq<bool>, stage: PollStage)

  datatype State = State(
    now: Time,
    timers: map<nat, Timer>,
    nextId: nat,
    created: set<Delegate>,
    nulled: set<Delegate>,   // their mClient has been cleared
    pushed: multiset<Delegate>,    // pushes into a heap that the worker has made
    deleted: multiset<Delegate>,   // deletes that it has made
    queue: seq<Msg>,
    sw: Container, hw: Container,
    worker: Worker,
    poll: Poll)
  {
    // The container of alarms or of timers.
    function At(k: bool): Container { if k then hw else sw }

    function With(k: bool, c: Container): State { if k then this.(hw := c) else this.(sw := c) }

    function WithTimer(c: nat, t: Timer): State { this.(timers := timers[c := t]) }
  }

  const NoContainer := Container(HT.Empty, false, None)

  function Init(now: Time): State {
    State(now, map[], 0, {}, {}, multiset{}, multiset{}, [], NoContainer, NoContainer, Idle, Waiting)
  }

  predicate Earlier(a: Time, b: Time) { a.sec < b.sec || (a.sec == b.sec && a.nsec <= b.nsec) }

  // ----- client threads -----

  datatype ClientStep =
    | NewTimer(c: nat)
    | StartBegin(c: nat, ms: nat, wake: bool) | StartEnd(c: nat)
    | StopBegin(c: nat) | StopEnd(c: nat)
    | Destroy(c: nat)

  predicate ClientEnabled(s: State, step: ClientStep) {
    match step
    case NewTimer(c) => c !in s.timers
    case StartBegin(c, _, _) => c in s.timers && s.timers[c].alive && s.timers[c].phase.Unlocked?
    case StartEnd(c) => c in s.timers && s.timers[c].phase.Starting?
    case StopBegin(c) => c in s.timers && s.timers[c].alive && s.timers[c].phase.Unlocked?
    case StopEnd(c) => c in s.timers && s.timers[c].phase.Stopping? && !s.timers[c].phase.byWorker
    case Destroy(c) =>
      && c in s.timers && s.timers[c].alive && s.timers[c].phase.Unlocked?
      && s.timers[c].running.None? && Using(s.worker) != Some(c)
  }

  // The timer the worker holds a pointer to on its stack.
  function Using(w: Worker): Option<nat> {
    match w
    case Asking(_, _, d) => Some(d.client)
    case AskWait(_, _, d) => Some(d.client)
    case CallingBack(_, _, c) => Some(c)
    case _ => None
  }

  function NewDelegate(s: State, c: nat, ms: nat, wake: bool): Delegate {
    Delegate(s.nextId, c, FutureTime(s.now, ms), wake)
  }

  function ClientNext(s: State, step: ClientStep): State
    requires ClientEnabled(s, step)
  {
    match step
    case NewTimer(c) => s.WithTimer(c, Timer(true, None, Unlocked, 1, 0, 0, 0, 0))
    case StartBegin(c, ms, wake) =>
      var t := s.timers[c];
      if t.running.Some? then s   // already running: start() returns false
      else
        var d := NewDelegate(s, c, ms, wake);
        s.WithTimer(c, t.(phase := Starting(d), lockRefs := t.lockRefs + 1))
         .(nextId := s.nextId + 1, created := s.created + {d}, queue := s.queue + [MPush(d)])
    case StartEnd(c) =>
      var t := s.timers[c];
      s.WithTimer(c, t.(running := Some(t.phase.d), phase := Unlocked, starts := t.starts + 1))
    case StopBegin(c) =>
      var t := s.timers[c];
      if t.running.None? then s   // not running: stop() returns false
      else BeginStop(s, c, false)
    case StopEnd(c) =>
      var s' := EndStop(s, c);
      s'.WithTimer(c, s'.timers[c].(clientStops := s.timers[c].clientStops + 1))
    case Destroy(c) =>
      var t := s.timers[c];
      s.WithTimer(c, t.(alive := false, lockRefs := t.lockRefs - 1))
  }

  // LocTimer::stop on a running timer, up to the sending of the remove message...
  function BeginStop(s: State, c: nat, byWorker: bool): State
    requires c in s.timers && s.timers[c].running.Some?
  {
    var t := s.timers[c];
    s.WithTimer(c, t.(running := None, phase := Stopping(t.running.value, byWorker)))
     .(nulled := s.nulled + {t.running.value})
  }

  // ...and from there on.
  function EndStop(s: State, c: nat): State
    requires c in s.timers && s.timers[c].phase.Stopping?
  {
    var t := s.timers[c];
    s.WithTimer(c, t.(phase := Unlocked)).(queue := s.queue + [MRemove(t.phase.d)])
  }

  // ----- the worker -----

  datatype WorkerStep =
    | Receive | KernelCall | Finish | ReadClient | AskStop | AskDone | CallBack | PopNext

  predicate WorkerEnabled(s: State, step: WorkerStep) {
    match step
    case Receive => s.worker.Idle? && s.queue != []
    case KernelCall => s.worker.Calling? && s.worker.calls != []
    case Finish =>
      && s.worker.Calling? && s.worker.calls == []
      && (s.worker.deleting.Some? ==> s.worker.deleting.value.client in s.timers)
    case ReadClient => s.worker.Expiring?
    case AskStop =>
      && s.worker.Asking? && s.worker.timer.client in s.timers
      && s.timers[s.worker.timer.client].phase.Unlocked?
    case AskDone =>
      && s.worker.AskWait? && s.worker.timer.client in s.timers
      && s.timers[s.worker.timer.client].phase.Stopping?
    case CallBack => s.worker.CallingBack? && s.worker.client in s.timers
    case PopNext => s.worker.NextPop?
  }

  function WorkerNext(s: State, step: WorkerStep): State
    requires WorkerEnabled(s, step)
  {
    match step
    case Receive => Handle(s.(queue := s.queue[1..]), s.queue[0])
    case KernelCall =>
      var Calling(k, calls, deleting) := s.worker;
      s.With(k, Kernel(s.At(k), calls[0])).(worker := Calling(k, calls[1..], deleting))
    case Finish =>
      var s' := s.(worker := Idle);
      if s.worker.deleting.None? then s' else Delete(s', s.worker.deleting.value)
    case ReadClient =>
      var Expiring(k, now, d) := s.worker;
      s.(worker := if d in s.nulled then NextPop(k, now) else Asking(k, now, d))
    case AskStop =>
      var Asking(k, now, d) := s.worker;
      if s.timers[d.client].running.None? then s.(worker := NextPop(k, now))
      else BeginStop(s, d.client, true).(worker := AskWait(k, now, d))
    case AskDone =>
      var AskWait(k, now, d) := s.worker;
      var c := d.client;
      var s' := EndStop(s, c);
      s'.WithTimer(c, s'.timers[c].(expiryStops := s.timers[c].expiryStops + 1))
        .(worker := CallingBack(k, now, c))
    case CallBack =>
      var CallingBack(k, now, c) := s.worker;
      s.WithTimer(c, s.timers[c].(callbacks := s.timers[c].callbacks + 1))
       .(worker := NextPop(k, now))
    case PopNext =>
      var NextPop(k, now) := s.worker;
      var h := s.At(k).heap;
      if h.Node? && Due(h.data, now) then PopTop(s, k, now)
      else s.(worker := Calling(k, UpdateCalls(Top(h), None), None))
  }

  // The delegate's destructor drops the shared lock.
  function Delete(s: State, d: Delegate): State
    requires d.client in s.timers
  {
    var t := s.timers[d.client];
    s.WithTimer(d.client, t.(lockRefs := t.lockRefs - 1)).(deleted := s.deleted + multiset{d})
  }

  function PopTop(s: State, k: bool, now: Time): State
    requires s.At(k).heap.Node?
  {
    var c := s.At(k);
    s.With(k, c.(heap := HT.Pop(c.heap, OutRanks))).(worker := Expiring(k, now, c.heap.data))
  }

  // The proc() of a message, up to its first kernel call or client access.
  function Handle(s: State, m: Msg): State {
    match m
    case MPush(d) =>
      var c := s.At(d.wake);
      var (h, calls) := PushMsg(c.heap, d);
      s.With(d.wake, c.(heap := h)).(worker := Calling(d.wake, calls, None), pushed := s.pushed + multiset{d})
    case MRemove(d) =>
      var c := s.At(d.wake);
      var (h, calls) := RemoveMsg(c.heap, d);
      s.With(d.wake, c.(heap := h)).(worker := Calling(d.wake, calls, Some(d)))
    case MExpire(k) =>
      if s.At(k).heap.Empty? then s.(worker := Calling(k, UpdateCalls(None, None), None))
      else PopTop(s, k, s.now)
  }

  // One system call on a container's fd. Setting the zero time disarms.
  function Kernel(c: Container, call: Call): Container {
    match call
    case AddPoll => c.(polled := true)
    case RemovePoll => c.(polled := false)
    case SetTime(t) => c.(armed := if t == ZERO then None else Some(t))
  }

  // ----- the poll thread -----

  datatype PollStep = Report(events: seq<bool>) | Disarm | Unpoll | SendExpire

  predicate Ready(c: Container, now: Time) {
    c.polled && c.armed.Some? && Earlier(c.armed.value, now)
  }

  predicate PollEnabled(s: State, step: PollStep) {
    match step
    case Report(events) =>
      && s.poll.Waiting? && 0 < |events| <= 2 && (|events| == 2 ==> events[0] != events[1])
      && forall i :: 0 <= i < |events| ==> Ready(s.At(events[i]), s.now)
    case Disarm => s.poll.Handling? && s.poll.events != [] && s.poll.stage.ToDisarm?
    case Unpoll => s.poll.Handling? && s.poll.events != [] && s.poll.stage.ToUnpoll?
    case SendExpire => s.poll.Handling? && s.poll.events != [] && s.poll.stage.ToSend?
  }

  function PollNext(s: State, step: PollStep): State
    requires PollEnabled(s, step)
  {
    match step
    case Report(events) => s.(poll := Handling(events, ToDisarm))
    case Disarm =>
      var k := s.poll.events[0];
      s.With(k, Kernel(s.At(k), SetTime(ZERO))).(poll := Handling(s.poll.events, ToUnpoll))
    case Unpoll =>
      var k := s.poll.events[0];
      s.With(k, Kernel(s.At(k), RemovePoll)).(poll := Handling(s.poll.events, ToSend))
    case SendExpire =>
      var rest := s.poll.events[1..];
      s.(queue := s.queue + [MExpire(s.poll.events[0])],
         poll := if rest == [] then Waiting else Handling(rest, ToDisarm))
  }

  // ----- runs -----

  datatype Step = C(c: ClientStep) | W(w: WorkerStep) | P(p: PollStep) | Tick(now: Time)

  predicate Enabled(s: State, step: Step) {
    match step
    case C(c) => ClientEnabled(s, c)
    case W(w) => WorkerEnabled(s, w)
    case P(p) => PollEnabled(s, p)
    case Tick(t) => Normal(t) && Earlier(s.now, t)
  }

  function Next(s: State, step: Step): State
    requires Enabled(s, step)
  {
    match step
    case C(c) => ClientNext(s, c)
    case W(w) => WorkerNext(s, w)
    case P(p) => PollNext(s, p)
    case Tick(t) => s.(now := t)
  }

  // Consecutive states related by enabled steps, from a start at which the boot clock runs.
  ghost predicate IsRun(ss: seq<State>, steps: seq<Step>) {
    && |ss| == |steps| + 1
    && (exists now :: Normal(now) && now != ZERO && ss[0] == Init(now))
    && forall i {:trigger steps[i]} :: 0 <= i < |steps| ==>
         Enabled(ss[i], steps[i]) && ss[i + 1] == Next(ss[i], steps[i])
  }
}
