// Timer protocol: what every step keeps about the counts of starts, stops and callbacks.
module TimerConservation {
  import opened TimerCore
  import opened TimerProtocol

  function Bit(b: bool): nat { if b then 1 else 0 }

  // For one timer: every successful start() is a stop() that returned true, to a client or to an
  // expiry, or the timer is running (or inside such a stop()); and every stop won by an expiry
  // is one callback, made or just about to be.
  predicate Conserved(t: Timer, w: Worker, c: nat) {
    && t.starts == t.clientStops + t.expiryStops + Bit(t.running.Some?) + Bit(t.phase.Stopping?)
    && t.expiryStops == t.callbacks + Bit(w.CallingBack? && w.client == c)
    && (t.running.Some? ==> t.phase.Unlocked?)
    && (t.phase.Stopping? && t.phase.byWorker <==> w.AskWait? && w.timer.client == c)
  }

  ghost predicate Conservation(s: State) {
    && (forall c :: c in s.timers ==> Conserved(s.timers[c], s.worker, c))
    && (s.worker.CallingBack? ==> s.worker.client in s.timers)
    && (s.worker.AskWait? ==> s.worker.timer.client in s.timers)
  }

  lemma ClientConserves(s: State, step: ClientStep)
    requires Conservation(s) && ClientEnabled(s, step)
    ensures Conservation(ClientNext(s, step))
  {
    hide FutureTime;
  }

  // A step of the worker that touches at most the one timer c.
  lemma ConservesAt(s: State, s': State, c: nat)
    requires Conservation(s) && c in s.timers
    requires s'.timers.Keys == s.timers.Keys
    requires forall c' :: c' in s.timers && c' != c ==> s'.timers[c'] == s.timers[c']
    requires Conserved(s'.timers[c], s'.worker, c)
    requires forall w :: w in {s.worker, s'.worker} && w.CallingBack? ==> w.client == c
    requires forall w :: w in {s.worker, s'.worker} && w.AskWait? ==> w.timer.client == c
    ensures Conservation(s')
  {
    assert s.worker in {s.worker, s'.worker} && s'.worker in {s.worker, s'.worker};
  }

  // A step of the worker that touches no timer, outside its dealings with clients.
  lemma ConservesIdle(s: State, s': State)
    requires Conservation(s) && s'.timers == s.timers
    requires !s.worker.CallingBack? && !s.worker.AskWait? && !s'.worker.CallingBack? && !s'.worker.AskWait?
    ensures Conservation(s')
  {
  }

  lemma WorkerConserves(s: State, step: WorkerStep)
    requires Conservation(s) && WorkerEnabled(s, step)
    ensures Conservation(WorkerNext(s, step))
  {
    hide Kernel, PushMsg, RemoveMsg, UpdateCalls, Conservation;
    var s' := WorkerNext(s, step);
    match step
    case Finish =>
      if s.worker.deleting.Some? { DeleteConserves(s, s.worker.deleting.value.client); } else { ConservesIdle(s, s'); }
    case AskStop => AskStopConserves(s);
    case AskDone => AskDoneConserves(s);
    case CallBack => CallBackConserves(s);
    case _ => ConservesIdle(s, s');
  }

  lemma DeleteConserves(s: State, c: nat)
    requires Conservation(s) && WorkerEnabled(s, Finish) && s.worker.deleting.Some?
        && s.worker.deleting.value.client == c
    ensures Conservation(WorkerNext(s, Finish))
  {
    ConservesAt(s, WorkerNext(s, Finish), c);
  }

  lemma AskStopConserves(s: State)
    requires Conservation(s) && WorkerEnabled(s, AskStop)
    ensures Conservation(WorkerNext(s, AskStop))
  {
    ConservesAt(s, WorkerNext(s, AskStop), s.worker.timer.client);
  }

  lemma AskDoneConserves(s: State)
    requires Conservation(s) && WorkerEnabled(s, AskDone)
    ensures Conservation(WorkerNext(s, AskDone))
  {
    ConservesAt(s, WorkerNext(s, AskDone), s.worker.timer.client);
  }

  lemma CallBackConserves(s: State)
    requires Conservation(s) && WorkerEnabled(s, CallBack)
    ensures Conservation(WorkerNext(s, CallBack))
  {
    ConservesAt(s, WorkerNext(s, CallBack), s.worker.client);
  }

  lemma PollConserves(s: State, step: PollStep)
    requires Conservation(s) && PollEnabled(s, step)
    ensures Conservation(PollNext(s, step))
  {
  }
}
