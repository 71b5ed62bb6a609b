// QCameraCbNotifier (camera/QCamera2/HAL/QCamera2HWICallbacks.cpp, with the queue of
// camera/QCamera2/util/QCameraQueue.cpp): callbacks queued by any thread, delivered and released
// by the notifier thread, which also counts the snapshots of a session.
module Notifier {
  const UINT32: nat := 0x1_0000_0000

  datatype CbType = Notify | Data | DataTimestamp | Snapshot | Invalid

  // id tells callbacks apart; hasRelease is whether release_cb is set.
  datatype Cb = Cb(id: nat, cbType: CbType, hasRelease: bool)

  datatype Status = NoError | BadValue | InvalidOperation | FailedTransaction

  datatype Release = Release(cb: Cb, status: Status)

  // What the notifier thread is told: start a snapshot session with so many snapshots expected,
  // stop it, handle the next callback (whose message type may be disabled by then), exit.
  datatype Command =
    | Start(expected: nat, longShot: bool) | Stop | DoNextJob(enabled: bool) | Exit

  // The command as it is queued: what comes with it is read when it is handled.
  datatype Kind = StartDataProc | StopDataProc | NextJob | ExitThread

  function KindOf(c: Command): Kind {
    match c
    case Start(_, _) => StartDataProc
    case Stop => StopDataProc
    case DoNextJob(_) => NextJob
    case Exit => ExitThread
  }

  // The thread's variables, the queue of callbacks and the queue of commands, with how many
  // threads have enqueued a callback and not yet sent the command for it, and with what has
  // happened so far: callbacks accepted into the queue, processed and flushed, and release calls
  // made, in order; job commands that found no callback; and, since the last start, the snapshots
  // counted and the SNAPSHOT_DONE events raised.
  datatype State = State(
    active: bool, running: bool, hasDataCb: bool,
    snapshotActive: bool, longShot: bool, expected: nat, rcvd: nat,
    dataQ: seq<Cb>, cmds: seq<Kind>, sending: nat,
    accepted: seq<Cb>, processed: seq<Cb>, flushed: seq<Cb>, released: seq<Release>,
    surplus: nat, counted: nat, dones: nat)

  function Init(hasDataCb: bool): State {
    State(true, true, hasDataCb, false, false, 0, 0, [], [], 0, [], [], [], [], 0, 0, 0)
  }

  // ----- the queue -----

  function IsSnapshot(cb: Cb): bool { cb.cbType.Snapshot? }

  function Any(cb: Cb): bool { true }

  function Not(p: Cb -> bool): Cb -> bool { cb => !p(cb) }

  function Filter(s: seq<Cb>, p: Cb -> bool): seq<Cb> {
    if s == [] then [] else (if p(s[0]) then [s[0]] else []) + Filter(s[1..], p)
  }

  // The release calls for callbacks dropped unprocessed.
  function Dropped(s: seq<Cb>): seq<Release> {
    if s == [] then []
    else (if s[0].hasRelease then [Release(s[0], FailedTransaction)] else []) + Dropped(s[1..])
  }

  // QCameraQueue::flushNodes and flush, which release what they drop.
  function FlushNodes(s: State, match_: Cb -> bool): State {
    var gone := Filter(s.dataQ, match_);
    s.(dataQ := Filter(s.dataQ, Not(match_)), flushed := s.flushed + gone, released := s.released + Dropped(gone))
  }

  // ----- one command -----

  function Outcome(cb: Cb, enabled: bool): Status {
    if !enabled then InvalidOperation else if cb.cbType.Invalid? then BadValue else NoError
  }

  // Whether handling this callback counts a snapshot.
  predicate Counts(s: State, cb: Cb, enabled: bool) {
    enabled && cb.cbType.Snapshot? && s.snapshotActive && s.hasDataCb && !s.longShot
  }

  function Count(s: State): State {
    var rcvd := (s.rcvd + 1) % UINT32;
    s.(rcvd := rcvd, counted := s.counted + 1,
       dones := s.dones + if s.expected > 0 && s.expected == rcvd then 1 else 0)
  }

  // The thread takes the first command off its queue.
  predicate IsNext(s: State, c: Command) {
    s.running && s.cmds != [] && s.cmds[0] == KindOf(c)
  }

  function Next(s: State, c: Command): State
    requires IsNext(s, c)
  {
    Done(s.(cmds := s.cmds[1..]), c)
  }

  // What it does for it.
  function Done(s: State, c: Command): State {
    match c
    case Start(expected, longShot) =>
      s.(snapshotActive := true, expected := expected % UINT32, longShot := longShot, rcvd := 0, counted := 0,
          dones := 0)
    case Stop => FlushNodes(s, IsSnapshot).(snapshotActive := false, expected := 0, rcvd := 0)
    case DoNextJob(enabled) =>
      if s.dataQ == [] then s.(surplus := s.surplus + 1)
      else
        var cb := s.dataQ[0];
        var s1 := if Counts(s, cb, enabled) then Count(s) else s;
        s1.(dataQ := s.dataQ[1..], processed := s.processed + [cb],
            released := s.released + if cb.hasRelease then [Release(cb, Outcome(cb, enabled))] else [])
    case Exit => FlushNodes(s, Any).(running := false)
  }

  // ----- any interleaving with the threads that queue callbacks -----

  // Accept is the enqueue of notifyCallback, whose test of mActive may be long past by then, and
  // SendJob the command it sends after that. All other commands go to the head of their queue.
  datatype Step = Accept(cb: Cb) | SendJob | SendFirst(kind: Kind) | Deactivate | Handle(c: Command)

  predicate Enabled(s: State, step: Step) {
    match step
    case Accept(cb) => cb !in s.accepted
    case SendJob => s.sending > 0
    case SendFirst(kind) => !kind.NextJob?
    case Deactivate => true
    case Handle(c) => IsNext(s, c)
  }

  function Apply(s: State, step: Step): State
    requires Enabled(s, step)
  {
    match step
    case Accept(cb) => s.(dataQ := s.dataQ + [cb], accepted := s.accepted + [cb], sending := s.sending + 1)
    case SendJob => s.(cmds := s.cmds + [NextJob], sending := s.sending - 1)
    case SendFirst(kind) => s.(cmds := [kind] + s.cmds)
    case Deactivate => s.(active := false)
    case Handle(c) => Next(s, c)
  }

  ghost predicate IsRun(ss: seq<State>, steps: seq<Step>) {
    && |ss| == |steps| + 1 && (exists b :: ss[0] == Init(b))
    && forall i {:trigger steps[i]} :: 0 <= i < |steps| ==>
         Enabled(ss[i], steps[i]) && ss[i + 1] == Apply(ss[i], steps[i])
  }

  // ----- snapshots -----

  // How often the counter, which wraps around, has hit the expected number after n snapshots.
  function Hits(expected: nat, n: nat): nat {
    if expected == 0 || n < expected then 0 else (n - expected) / UINT32 + 1
  }

  ghost predicate Counting(s: State) {
    && s.expected < UINT32
    && (s.snapshotActive && !s.longShot ==> s.rcvd == s.counted % UINT32 && s.dones == Hits(s.expected, s.counted))
    && (s.snapshotActive && s.longShot ==> s.dones == 0)
  }

  lemma HitsNext(expected: nat, n: nat)
    requires 0 < expected < UINT32
    ensures Hits(expected, n + 1) == Hits(expected, n) + if (n + 1) % UINT32 == expected then 1 else 0
  {
    if n + 1 >= expected {
      var a := n + 1 - expected;
      assert a % UINT32 == 0 <==> (n + 1) % UINT32 == expected by { ModShift(n + 1, expected); }
      assert n >= expected ==> (a - 1) / UINT32 + (if a % UINT32 == 0 then 1 else 0) == a / UINT32;
    } else {
      assert (n + 1) % UINT32 == n + 1;
    }
  }

  lemma ModShift(a: nat, e: nat)
    requires e < UINT32 && e <= a
    ensures (a - e) % UINT32 == 0 <==> a % UINT32 == e
  {
    var q, r := a / UINT32, a % UINT32;
    assert a - e == q * UINT32 + (r - e);
    if r >= e {
      assert (a - e) % UINT32 == r - e;
    } else {
      assert a - e == (q - 1) * UINT32 + (r - e + UINT32);
      assert (a - e) % UINT32 == r - e + UINT32;
    }
  }

  lemma CountingNext(s: State, step: Step)
    requires Counting(s) && Enabled(s, step)
    ensures Counting(Apply(s, step))
  {
    hide Filter, Dropped, Hits;
    match step
    case Handle(Start(e, _)) => HitsNone(e % UINT32);
    case Handle(DoNextJob(enabled)) =>
      if s.dataQ != [] && Counts(s, s.dataQ[0], enabled) { CountCounts(s); }
    case _ =>
  }

  lemma HitsNone(expected: nat)
    ensures Hits(expected, 0) == 0
  {
  }

  lemma CountCounts(s: State)
    requires Counting(s) && s.snapshotActive && !s.longShot
    ensures Counting(Count(s))
  {
    WrapNext(s.counted);
    if s.expected > 0 {
      HitsNext(s.expected, s.counted);
      hide Hits;
    }
  }

  lemma WrapNext(n: nat)
    ensures (n % UINT32 + 1) % UINT32 == (n + 1) % UINT32
  {
  }

  // ----- releases -----

  function Cbs(released: seq<Release>): (r: seq<Cb>)
    ensures |r| == |released|
  {
    seq(|released|, i requires 0 <= i < |released| => released[i].cb)
  }

  // How often each callback has been released: once for each time it was processed or flushed,
  // if it has a release function.
  ghost predicate ReleasesMatch(s: State) {
    forall cb :: multiset(Cbs(s.released))[cb] ==
                 if cb.hasRelease then multiset(s.processed)[cb] + multiset(s.flushed)[cb] else 0
  }

  ghost predicate Ledger(s: State) {
    && (forall i, j :: 0 <= i < j < |s.accepted| ==> s.accepted[i] != s.accepted[j])
    && multiset(s.accepted) == multiset(s.processed) + multiset(s.flushed) + multiset(s.dataQ)
    && ReleasesMatch(s)
  }

  lemma {:induction false} FilterSplits(s: seq<Cb>, p: Cb -> bool)
    ensures multiset(Filter(s, p)) + multiset(Filter(s, Not(p))) == multiset(s)
  {
    if s != [] {
      FilterSplits(s[1..], p);
      assert s == [s[0]] + s[1..];
    }
  }

  lemma {:induction false} DroppedReleases(s: seq<Cb>, cb: Cb)
    ensures multiset(Cbs(Dropped(s)))[cb] == if cb.hasRelease then multiset(s)[cb] else 0
  {
    if s != [] {
      DroppedReleases(s[1..], cb);
      assert s == [s[0]] + s[1..];
      var first := if s[0].hasRelease then [Release(s[0], FailedTransaction)] else [];
      CbsSplit(first, Dropped(s[1..]));
      assert Cbs(first) == if s[0].hasRelease then [s[0]] else [];
    } else {
      assert Cbs(Dropped(s)) == [];
    }
  }

  lemma CbsSplit(a: seq<Release>, b: seq<Release>)
    ensures Cbs(a + b) == Cbs(a) + Cbs(b)
    ensures multiset(Cbs(a + b)) == multiset(Cbs(a)) + multiset(Cbs(b))
  {
    assert Cbs(a + b) == Cbs(a) + Cbs(b);
  }

  lemma FlushLedger(s: State, p: Cb -> bool)
    requires Ledger(s)
    ensures Ledger(FlushNodes(s, p))
  {
    hide Filter, Dropped, Cbs;
    var gone := Filter(s.dataQ, p);
    FilterSplits(s.dataQ, p);
    CbsSplit(s.released, Dropped(gone));
    forall cb ensures multiset(Cbs(Dropped(gone)))[cb] == if cb.hasRelease then multiset(gone)[cb] else 0 {
      DroppedReleases(gone, cb);
    }
  }

  lemma ProcessLedger(s: State, s': State, made: seq<Release>)
    requires Ledger(s) && s.dataQ != [] && s'.dataQ == s.dataQ[1..] && s'.accepted == s.accepted
    requires s'.processed == s.processed + [s.dataQ[0]] && s'.flushed == s.flushed
    requires s'.released == s.released + made
    requires Cbs(made) == if s.dataQ[0].hasRelease then [s.dataQ[0]] else []
    ensures Ledger(s')
  {
    var cb := s.dataQ[0];
    CbsSplit(s.released, made);
    hide Cbs;
    assert multiset(s.dataQ) == multiset{cb} + multiset(s.dataQ[1..]) by { assert s.dataQ == [cb] + s.dataQ[1..]; }
    assert multiset(s'.processed) == multiset(s.processed) + multiset{cb};
    Moved(multiset(s.processed), multiset(s.flushed), multiset(s'.dataQ), cb);
    assert ReleasesMatch(s');
  }

  lemma Moved(processed: multiset<Cb>, flushed: multiset<Cb>, pending: multiset<Cb>, cb: Cb)
    ensures processed + flushed + (multiset{cb} + pending) == processed + multiset{cb} + flushed + pending
  {
  }

  lemma AcceptLedger(s: State, cb: Cb)
    requires Ledger(s) && cb !in s.accepted
    ensures Ledger(Apply(s, Accept(cb)))
  {
    hide Cbs;
    var s' := Apply(s, Accept(cb));
    assert multiset(s'.accepted) == multiset(s.accepted) + multiset{cb};
    assert multiset(s'.dataQ) == multiset(s.dataQ) + multiset{cb};
  }

  lemma SameLedger(s: State, s': State)
    requires Ledger(s) && s'.accepted == s.accepted && s'.dataQ == s.dataQ
    requires s'.processed == s.processed && s'.flushed == s.flushed && s'.released == s.released
    ensures Ledger(s')
  {
    hide Cbs;
  }

  lemma LedgerNext(s: State, step: Step)
    requires Ledger(s) && Enabled(s, step)
    ensures Ledger(Apply(s, step))
  {
    hide Ledger, Filter, Dropped, Cbs;
    match step
    case Accept(cb) => AcceptLedger(s, cb);
    case Handle(Stop) =>
      FlushLedger(s, IsSnapshot);
      SameLedger(FlushNodes(s, IsSnapshot), Apply(s, step));
    case Handle(Exit) =>
      FlushLedger(s, Any);
      SameLedger(FlushNodes(s, Any), Apply(s, step));
    case Handle(DoNextJob(enabled)) =>
      if s.dataQ != [] {
        var made := if s.dataQ[0].hasRelease then [Release(s.dataQ[0], Outcome(s.dataQ[0], enabled))] else [];
        OneRelease(s.dataQ[0], Outcome(s.dataQ[0], enabled));
        ProcessLedger(s, Apply(s, step), made);
      } else {
        SameLedger(s, Apply(s, step));
      }
    case _ => SameLedger(s, Apply(s, step));
  }

  lemma OneRelease(cb: Cb, status: Status)
    ensures Cbs([Release(cb, status)]) == [cb] && Cbs([]) == []
  {
  }

  // ----- commands -----

  function Jobs(cmds: seq<Kind>): nat {
    if cmds == [] then 0 else (if cmds[0].NextJob? then 1 else 0) + Jobs(cmds[1..])
  }

  // Until the thread exits: there is a job command, sent or about to be, for every pending
  // callback, and one more for every flushed one whose command has not come up yet.
  ghost predicate Commanded(s: State) {
    s.running ==> |s.dataQ| + |s.flushed| == Jobs(s.cmds) + s.sending + s.surplus && s.surplus <= |s.flushed|
  }

  lemma {:induction false} JobsAppend(cmds: seq<Kind>, kind: Kind)
    ensures Jobs(cmds + [kind]) == Jobs(cmds) + if kind.NextJob? then 1 else 0
  {
    if cmds == [] {
      assert cmds + [kind] == [kind];
    } else {
      JobsAppend(cmds[1..], kind);
      assert (cmds + [kind])[1..] == cmds[1..] + [kind];
    }
  }

  lemma {:induction false} FilterLengths(s: seq<Cb>, p: Cb -> bool)
    ensures |Filter(s, p)| + |Filter(s, Not(p))| == |s|
  {
    if s != [] { FilterLengths(s[1..], p); }
  }

  lemma CommandedNext(s: State, step: Step)
    requires Commanded(s) && Enabled(s, step)
    ensures Commanded(Apply(s, step))
  {
    hide Filter, Dropped;
    match step
    case SendJob => JobsAppend(s.cmds, NextJob);
    case SendFirst(kind) => assert ([kind] + s.cmds)[1..] == s.cmds;
    case Handle(Stop) => FilterLengths(s.dataQ, IsSnapshot);
    case _ =>
  }

  lemma {:induction false} RunInv(ss: seq<State>, steps: seq<Step>, i: nat)
    requires IsRun(ss, steps) && i < |ss|
    ensures Counting(ss[i]) && Ledger(ss[i]) && Commanded(ss[i])
  {
    if i == 0 {
      assert Cbs([]) == [];
    } else {
      hide Counting, Ledger, Commanded, Apply, Enabled;
      RunInv(ss, steps, i - 1);
      var step := steps[i - 1];
      CommandedNext(ss[i - 1], step);
      CountingNext(ss[i - 1], step);
      LedgerNext(ss[i - 1], step);
    }
  }

  // In every command trace: a session raises SNAPSHOT_DONE exactly when its count of snapshots,
  // kept in 32 bits, reaches the expected number, and never in longshot...
  lemma DoneWhenReached(ss: seq<State>, steps: seq<Step>, i: nat)
    requires IsRun(ss, steps) && i < |ss| && ss[i].snapshotActive
    ensures var s := ss[i]; s.dones == if s.longShot then 0 else Hits(s.expected, s.counted)
  {
    hide IsRun, Ledger, Hits;
    RunInv(ss, steps, i);
  }

  // ...so it raises it at most once exactly as long as the count has not gone a whole 32-bit turn
  // past the expected number.
  lemma DoneAtMostOnceIff(ss: seq<State>, steps: seq<Step>, i: nat)
    requires IsRun(ss, steps) && i < |ss| && ss[i].snapshotActive && !ss[i].longShot
    ensures var s := ss[i];
            && (s.dones <= 1 <==> s.expected == 0 || s.counted < s.expected + UINT32)
            && (s.dones >= 1 <==> s.expected > 0 && s.counted >= s.expected)
  {
    hide IsRun, Ledger;
    RunInv(ss, steps, i);
  }

  // Between a session's stop and the next start no SNAPSHOT_DONE is raised, however many
  // callbacks are handled.
  lemma {:induction false} QuietUntilStart(ss: seq<State>, steps: seq<Step>, i: nat, k: nat)
    requires IsRun(ss, steps) && i <= k < |ss| && !ss[i].snapshotActive
    requires forall j {:trigger steps[j]} :: i <= j < k ==> !(steps[j].Handle? && steps[j].c.Start?)
    ensures !ss[k].snapshotActive && ss[k].dones == ss[i].dones
    decreases k
  {
    hide Apply, Enabled;
    if i < k {
      QuietUntilStart(ss, steps, i, k - 1);
      var step := steps[k - 1];
      QuietStep(ss[k - 1], step);
    }
  }

  lemma QuietStep(s: State, step: Step)
    requires Enabled(s, step) && !s.snapshotActive && !(step.Handle? && step.c.Start?)
    ensures !Apply(s, step).snapshotActive && Apply(s, step).dones == s.dones
  {
    hide Filter, Dropped;
  }

  // Every accepted callback is pending, or has been processed or flushed, once; it is released
  // at most once, namely if it has a release function and is no longer pending; nothing else is
  // ever released.
  lemma ReleasedAtMostOnce(ss: seq<State>, steps: seq<Step>, i: nat, cb: Cb)
    requires IsRun(ss, steps) && i < |ss|
    ensures var s := ss[i];
            var releases := multiset(Cbs(s.released))[cb];
            && releases <= 1
            && (releases == 1 <==> cb.hasRelease && cb in s.accepted && cb !in s.dataQ)
            && multiset(s.processed)[cb] + multiset(s.flushed)[cb] + multiset(s.dataQ)[cb]
               == (if cb in s.accepted then 1 else 0)
  {
    hide IsRun, Counting, Cbs;
    RunInv(ss, steps, i);
    var s := ss[i];
    OnceIfDistinct(s.accepted, cb);
    assert cb in s.dataQ <==> multiset(s.dataQ)[cb] > 0;
  }

  lemma {:induction false} OnceIfDistinct(s: seq<Cb>, cb: Cb)
    requires forall i, j :: 0 <= i < j < |s| ==> s[i] != s[j]
    ensures multiset(s)[cb] == if cb in s then 1 else 0
  {
    if s != [] {
      OnceIfDistinct(s[1..], cb);
      assert s == [s[0]] + s[1..];
    }
  }

  // No accepted callback is stranded: before the thread exits, every pending callback has a job
  // command sent or about to be; the rest of them are those of flushed callbacks. Once all have
  // been handled the queue is empty, and just the flushed callbacks' commands were surplus.
  lemma NoneStranded(ss: seq<State>, steps: seq<Step>, i: nat)
    requires IsRun(ss, steps) && i < |ss| && ss[i].running
    ensures var s := ss[i];
            && s.surplus <= |s.flushed|
            && Jobs(s.cmds) + s.sending == |s.dataQ| + (|s.flushed| - s.surplus)
            && (s.dataQ != [] ==> Jobs(s.cmds) + s.sending > 0)
            && (Jobs(s.cmds) + s.sending == 0 ==> s.dataQ == [] && s.surplus == |s.flushed|)
  {
    hide IsRun, Counting, Ledger;
    RunInv(ss, steps, i);
  }

  // A job command that finds no callback is that of a flushed one, and does nothing but go away.
  lemma SurplusJobHarmless(ss: seq<State>, steps: seq<Step>, i: nat)
    requires IsRun(ss, steps) && i < |steps|
    requires steps[i].Handle? && steps[i].c.DoNextJob? && ss[i].dataQ == []
    ensures ss[i].surplus < |ss[i].flushed|
    ensures ss[i].cmds != [] && ss[i + 1] == ss[i].(cmds := ss[i].cmds[1..], surplus := ss[i].surplus + 1)
  {
    RunInv(ss, steps, i);
    var step := steps[i];
    assert Enabled(ss[i], step) && ss[i + 1] == Apply(ss[i], step);
    hide IsRun, Counting, Ledger;
  }

  // ----- what a stop, an exit, a job and a start do -----

  // a stands somewhere before b.
  ghost predicate Before(q: seq<Cb>, a: Cb, b: Cb) {
    exists m, n :: 0 <= m < n < |q| && q[m] == a && q[n] == b
  }

  ghost predicate OrderKept(q: seq<Cb>, q': seq<Cb>) {
    forall i, j :: 0 <= i < j < |q'| ==> Before(q, q'[i], q'[j])
  }

  lemma {:induction false} FilterCount(s: seq<Cb>, p: Cb -> bool, cb: Cb)
    ensures multiset(Filter(s, p))[cb] == if p(cb) then multiset(s)[cb] else 0
  {
    if s != [] {
      FilterCount(s[1..], p, cb);
      assert s == [s[0]] + s[1..];
    }
  }

  lemma {:induction false} FilterOrder(s: seq<Cb>, p: Cb -> bool)
    ensures OrderKept(s, Filter(s, p))
  {
    if s != [] {
      FilterOrder(s[1..], p);
      var f, rest := Filter(s, p), Filter(s[1..], p);
      forall i, j | 0 <= i < j < |f| ensures Before(s, f[i], f[j]) {
        var d := |f| - |rest|;
        if i >= d {
          assert Before(s[1..], rest[i - d], rest[j - d]);
          var m, n :| 0 <= m < n < |s[1..]| && s[1..][m] == f[i] && s[1..][n] == f[j];
          assert s[m + 1] == f[i] && s[n + 1] == f[j];
        } else {
          FilterCount(s[1..], p, f[j]);
          assert f[j] in multiset(rest);
          var n :| 0 <= n < |s[1..]| && s[1..][n] == f[j];
          assert s[0] == f[i] && s[n + 1] == f[j];
        }
      }
    }
  }

  // A stop takes the pending snapshot callbacks out of the queue, no other, and releases those that
  // have a release function, as failed; what stays and what goes keeps its order.
  lemma StopDropsSnapshots(ss: seq<State>, steps: seq<Step>, i: nat, cb: Cb)
    requires IsRun(ss, steps) && i < |steps| && steps[i] == Handle(Stop)
    ensures ss[i].flushed <= ss[i + 1].flushed && ss[i].released <= ss[i + 1].released
    ensures var q, q' := ss[i].dataQ, ss[i + 1].dataQ;
            var gone, made := ss[i + 1].flushed[|ss[i].flushed|..], ss[i + 1].released[|ss[i].released|..];
            && multiset(q')[cb] == (if cb.cbType.Snapshot? then 0 else multiset(q)[cb])
            && multiset(gone)[cb] == (if cb.cbType.Snapshot? then multiset(q)[cb] else 0)
            && multiset(Cbs(made))[cb] == (if cb.cbType.Snapshot? && cb.hasRelease then multiset(q)[cb] else 0)
            && OrderKept(q, q') && OrderKept(q, gone)
            && forall r :: r in made ==> r.status == FailedTransaction
    ensures !ss[i + 1].snapshotActive && ss[i + 1].processed == ss[i].processed && ss[i + 1].accepted == ss[i].accepted
  {
    var s, step := ss[i], steps[i];
    assert Enabled(s, step) && ss[i + 1] == Apply(s, step);
    hide IsRun, Filter, Dropped, Cbs, OrderKept;
    var gone := Filter(s.dataQ, IsSnapshot);
    assert ss[i + 1].flushed[|s.flushed|..] == gone;
    assert ss[i + 1].released[|s.released|..] == Dropped(gone);
    FilterCount(s.dataQ, Not(IsSnapshot), cb);
    FilterCount(s.dataQ, IsSnapshot, cb);
    FilterOrder(s.dataQ, Not(IsSnapshot));
    FilterOrder(s.dataQ, IsSnapshot);
    DroppedReleases(gone, cb);
    DroppedFailed(gone);
    StopKeeps(s);
  }

  lemma StopKeeps(s: State)
    requires IsNext(s, Stop)
    ensures Next(s, Stop).dataQ == Filter(s.dataQ, Not(IsSnapshot))
  {
  }

  lemma {:induction false} DroppedFailed(s: seq<Cb>)
    ensures forall r :: r in Dropped(s) ==> r.status == FailedTransaction
  {
    if s != [] { DroppedFailed(s[1..]); }
  }

  // At the exit nothing stays pending, and the thread handles no command any more.
  lemma ExitDropsAll(ss: seq<State>, steps: seq<Step>, i: nat, cb: Cb)
    requires IsRun(ss, steps) && i < |steps| && steps[i] == Handle(Command.Exit)
    ensures ss[i + 1].dataQ == [] && !ss[i + 1].running
    ensures ss[i].flushed <= ss[i + 1].flushed && ss[i].released <= ss[i + 1].released
    ensures var made := ss[i + 1].released[|ss[i].released|..];
            && multiset(ss[i + 1].flushed[|ss[i].flushed|..])[cb] == multiset(ss[i].dataQ)[cb]
            && multiset(Cbs(made))[cb] == (if cb.hasRelease then multiset(ss[i].dataQ)[cb] else 0)
            && forall r :: r in made ==> r.status == FailedTransaction
  {
    var s, step := ss[i], steps[i];
    assert Enabled(s, step) && ss[i + 1] == Apply(s, step);
    hide IsRun, Filter, Dropped, Cbs;
    var gone := Filter(s.dataQ, Any);
    assert ss[i + 1].flushed[|s.flushed|..] == gone;
    assert ss[i + 1].released[|s.released|..] == Dropped(gone);
    FilterCount(s.dataQ, Any, cb);
    DroppedReleases(gone, cb);
    DroppedFailed(gone);
    NothingLeft(s.dataQ);
    ExitKeeps(s);
  }

  lemma ExitKeeps(s: State)
    requires IsNext(s, Command.Exit)
    ensures Next(s, Command.Exit).dataQ == Filter(s.dataQ, Not(Any))
  {
  }

  lemma NotIs(p: Cb -> bool, cb: Cb)
    ensures Not(p)(cb) == !p(cb)
  {
  }

  lemma {:induction false} NothingLeft(s: seq<Cb>)
    ensures Filter(s, Not(Any)) == []
  {
    if s != [] {
      NothingLeft(s[1..]);
      NotIs(Any, s[0]);
    }
  }

  // A job command takes the oldest pending callback, and releases it, if it has a release function,
  // with how it went: not delivered as its message type is disabled, of no known type, or done.
  lemma JobTakesTheOldest(ss: seq<State>, steps: seq<Step>, i: nat, enabled: bool)
    requires IsRun(ss, steps) && i < |steps| && steps[i] == Handle(DoNextJob(enabled)) && ss[i].dataQ != []
    ensures var cb := ss[i].dataQ[0];
            && ss[i].dataQ == [cb] + ss[i + 1].dataQ && ss[i + 1].processed == ss[i].processed + [cb]
            && ss[i + 1].flushed == ss[i].flushed
            && (!cb.hasRelease ==> ss[i + 1].released == ss[i].released)
            && (cb.hasRelease ==>
                  && |ss[i + 1].released| == |ss[i].released| + 1 && ss[i].released <= ss[i + 1].released
                  && var r := ss[i + 1].released[|ss[i].released|];
                     && r.cb == cb && (r.status == InvalidOperation <==> !enabled)
                     && (r.status == BadValue <==> enabled && cb.cbType.Invalid?)
                     && (r.status == NoError <==> enabled && !cb.cbType.Invalid?))
  {
    var step := steps[i];
    assert Enabled(ss[i], step) && ss[i + 1] == Apply(ss[i], step);
    hide IsRun, Filter, Dropped, Cbs;
  }

  // A new callback goes behind all pending ones, its command behind all commands, and a start, stop
  // or exit command ahead of them.
  lemma QueuesInOrder(ss: seq<State>, steps: seq<Step>, i: nat)
    requires IsRun(ss, steps) && i < |steps|
    ensures steps[i].Accept? ==>
              ss[i + 1].dataQ == ss[i].dataQ + [steps[i].cb] && ss[i + 1].cmds == ss[i].cmds
    ensures steps[i].SendJob? ==> ss[i + 1].cmds == ss[i].cmds + [NextJob] && ss[i + 1].dataQ == ss[i].dataQ
    ensures steps[i].SendFirst? ==> ss[i + 1].cmds == [steps[i].kind] + ss[i].cmds && ss[i + 1].dataQ == ss[i].dataQ
    ensures steps[i].Deactivate? ==> !ss[i + 1].active && ss[i + 1].dataQ == ss[i].dataQ && ss[i + 1].cmds == ss[i].cmds
    ensures steps[i].Handle? ==> ss[i].cmds != [] && ss[i + 1].cmds == ss[i].cmds[1..]
  {
    var step := steps[i];
    assert Enabled(ss[i], step) && ss[i + 1] == Apply(ss[i], step);
    hide IsRun, Filter, Dropped, Cbs;
  }

  // A session counts from nothing, on the terms of the start that began it, until it is stopped or
  // started anew.
  lemma {:induction false} SessionKeepsItsTerms(ss: seq<State>, steps: seq<Step>, i: nat, k: nat, expected: nat,
      longShot: bool)
    requires IsRun(ss, steps) && i < k < |ss| && steps[i] == Handle(Start(expected, longShot))
    requires forall j {:trigger steps[j]} :: i < j < k ==>
               !(steps[j].Handle? && (steps[j].c.Start? || steps[j].c.Stop?))
    ensures ss[k].snapshotActive && ss[k].longShot == longShot && ss[k].expected == expected % UINT32
    ensures k == i + 1 ==> ss[k].counted == 0 && ss[k].rcvd == 0 && ss[k].dones == 0 && ss[k].dataQ == ss[i].dataQ
    decreases k
  {
    var step := steps[k - 1];
    assert Enabled(ss[k - 1], step) && ss[k] == Apply(ss[k - 1], step);
    if i + 1 < k {
      hide Apply, Enabled;
      SessionKeepsItsTerms(ss, steps, i, k - 1, expected, longShot);
      TermsNext(ss[k - 1], step);
    } else {
      hide IsRun, Filter, Dropped, Cbs;
    }
  }

  lemma TermsNext(s: State, step: Step)
    requires Enabled(s, step) && !(step.Handle? && (step.c.Start? || step.c.Stop?))
    ensures var s' := Apply(s, step);
            s'.snapshotActive == s.snapshotActive && s'.longShot == s.longShot && s'.expected == s.expected
  {
    hide Filter, Dropped, Counts, Outcome;
    match step
    case Accept(_) =>
    case SendJob =>
    case SendFirst(_) =>
    case Deactivate =>
    case Handle(c) =>
  }

  // Which callbacks count: enabled snapshots of a session that is not longshot, with a data callback
  // set; and each counts once.
  lemma CountsSnapshots(ss: seq<State>, steps: seq<Step>, i: nat, enabled: bool)
    requires IsRun(ss, steps) && i < |steps| && steps[i] == Handle(DoNextJob(enabled)) && ss[i].dataQ != []
    ensures var cb := ss[i].dataQ[0];
            ss[i + 1].counted == ss[i].counted
              + if enabled && cb.cbType.Snapshot? && ss[i].snapshotActive && ss[i].hasDataCb && !ss[i].longShot
                then 1 else 0
  {
    var step := steps[i];
    assert Enabled(ss[i], step) && ss[i + 1] == Apply(ss[i], step);
    hide IsRun, Filter, Dropped, Cbs;
  }

  // ----- a second SNAPSHOT_DONE -----

  ghost predicate Reachable(s: State) {
    exists ss, steps :: IsRun(ss, steps) && ss[|steps|] == s
  }

  lemma InitReachable(hasDataCb: bool)
    ensures Reachable(Init(hasDataCb))
  {
    assert IsRun([Init(hasDataCb)], []);
  }

  lemma NextReachable(s: State, step: Step, s': State)
    requires Reachable(s) && Enabled(s, step) && s' == Apply(s, step)
    ensures Reachable(s')
  {
    hide Apply, Enabled, Init;
    var ss, steps :| IsRun(ss, steps) && ss[|steps|] == s;
    var ss', steps' := ss + [s'], steps + [step];
    forall i {:trigger steps'[i]} | 0 <= i < |steps'|
      ensures Enabled(ss'[i], steps'[i]) && ss'[i + 1] == Apply(ss'[i], steps'[i])
    {
      if i < |steps| { assert steps'[i] == steps[i]; }
    }
    assert IsRun(ss', steps');
  }

  // In a session that expects one snapshot, with n counted and nothing pending.
  ghost predicate Counted(s: State, n: nat) {
    && Reachable(s) && s.running && s.snapshotActive && s.hasDataCb && !s.longShot && s.expected == 1 && s.counted == n
    && s.dataQ == [] && s.cmds == [] && s.sending == 0
    && forall cb :: cb in s.accepted ==> cb.id < n
  }

  lemma SessionBegins() returns (s: State)
    ensures Counted(s, 0)
  {
    hide Reachable;
    InitReachable(true);
    var s1 := Init(true).(cmds := [StartDataProc]);
    NextReachable(Init(true), SendFirst(StartDataProc), s1);
    s := Apply(s1, Handle(Start(1, false)));
    NextReachable(s1, Handle(Start(1, false)), s);
  }

  lemma OneMore(s: State, n: nat) returns (s': State)
    requires Counted(s, n)
    ensures Counted(s', n + 1)
  {
    hide Reachable;
    var cb := Cb(n, Snapshot, false);
    var s1, s2 := Apply(s, Accept(cb)), Apply(Apply(s, Accept(cb)), SendJob);
    NextReachable(s, Accept(cb), s1);
    NextReachable(s1, SendJob, s2);
    s' := Apply(s2, Handle(DoNextJob(true)));
    NextReachable(s2, Handle(DoNextJob(true)), s');
    assert s1.accepted == s.accepted + [cb];
  }

  lemma {:induction false} CountedReachable(n: nat) returns (s: State)
    ensures Counted(s, n)
  {
    hide Counted;
    if n == 0 {
      s := SessionBegins();
    } else {
      var s0 := CountedReachable(n - 1);
      s := OneMore(s0, n - 1);
    }
  }

  // A session does raise SNAPSHOT_DONE a second time when its counter has gone all the way round.
  lemma SecondDone() returns (s: State)
    ensures Reachable(s) && s.snapshotActive && s.expected == 1 && s.counted == UINT32 + 1 && s.dones == 2
  {
    s := CountedReachable(UINT32 + 1);
    hide IsRun;
    var ss, steps :| IsRun(ss, steps) && ss[|steps|] == s;
    IsRunLength(ss, steps);
    DoneWhenReached(ss, steps, |steps|);
  }

  lemma IsRunLength(ss: seq<State>, steps: seq<Step>)
    requires IsRun(ss, steps)
    ensures |ss| == |steps| + 1
  {
  }

  // ----- the object -----

  lemma {:induction false} FilterSnoc(s: seq<Cb>, x: Cb, p: Cb -> bool)
    ensures Filter(s + [x], p) == Filter(s, p) + if p(x) then [x] else []
  {
    if s == [] {
      assert s + [x] == [x];
    } else {
      FilterSnoc(s[1..], x, p);
      assert (s + [x])[1..] == s[1..] + [x];
    }
  }

  lemma {:induction false} DroppedSnoc(s: seq<Cb>, x: Cb)
    ensures Dropped(s + [x]) == Dropped(s) + if x.hasRelease then [Release(x, FailedTransaction)] else []
  {
    if s == [] {
      assert s + [x] == [x];
    } else {
      DroppedSnoc(s[1..], x);
      assert (s + [x])[1..] == s[1..] + [x];
    }
  }

  class QCameraCbNotifier {
    var mActive: bool
    var mDataQ: seq<Cb>
    // the command queue of mProcTh
    var cmdQueue: seq<Kind>
    const hasDataCb: bool
    // variables of cbNotifyRoutine
    var running: bool
    var isSnapshotActive: bool
    var longShotEnabled: bool
    var numOfSnapshotExpected: nat
    var numOfSnapshotRcvd: nat
    // calls made to release functions, and SNAPSHOT_DONE events raised since the last start
    var released: seq<Release>
    var dones: nat
    ghost var Value: State

    ghost predicate Valid()
      reads this
    {
      && Value.active == mActive && Value.dataQ == mDataQ && Value.hasDataCb == hasDataCb
      && Value.cmds == cmdQueue && Value.sending == 0
      && Value.running == running && Value.snapshotActive == isSnapshotActive
      && Value.longShot == longShotEnabled && Value.expected == numOfSnapshotExpected
      && Value.rcvd == numOfSnapshotRcvd && Value.released == released && Value.dones == dones
    }

    constructor (hasDataCb: bool)
      ensures Valid() && Value == Init(hasDataCb)
    {
      mActive, running, mDataQ, cmdQueue := true, true, [], [];
      this.hasDataCb := hasDataCb;
      isSnapshotActive, longShotEnabled, numOfSnapshotExpected, numOfSnapshotRcvd := false, false, 0, 0;
      released, dones, Value := [], 0, Init(hasDataCb);
    }

    // notifyCallback
    method NotifyCallback(cb: Cb) returns (accepted: bool)
      requires Valid() && cb !in Value.accepted
      modifies this
      ensures Valid() && accepted == old(mActive)
      ensures Value == if accepted then Apply(Apply(old(Value), Accept(cb)), SendJob) else old(Value)
    {
      if !mActive {
        return false;
      }
      mDataQ := mDataQ + [cb];
      Value := Apply(Value, Accept(cb));
      cmdQueue := cmdQueue + [NextJob];
      Value := Apply(Value, SendJob);
      return true;
    }

    // startSnapshots
    method StartSnapshots()
      requires Valid()
      modifies this`cmdQueue, this`Value
      ensures Valid() && Value == Apply(old(Value), SendFirst(StartDataProc))
    {
      cmdQueue := [StartDataProc] + cmdQueue;
      Value := Apply(Value, SendFirst(StartDataProc));
    }

    // stopSnapshots
    method StopSnapshots()
      requires Valid()
      modifies this`cmdQueue, this`Value
      ensures Valid() && Value == Apply(old(Value), SendFirst(StopDataProc))
    {
      cmdQueue := [StopDataProc] + cmdQueue;
      Value := Apply(Value, SendFirst(StopDataProc));
    }

    // exit, up to the join with the thread
    method Exit()
      requires Valid()
      modifies this`mActive, this`cmdQueue, this`Value
      ensures Valid() && Value == Apply(Apply(old(Value), Deactivate), SendFirst(ExitThread))
    {
      mActive := false;
      cmdQueue := [ExitThread] + cmdQueue;
      Value := Apply(Apply(Value, Deactivate), SendFirst(ExitThread));
    }

    // Walks the queue, unlinks the matching nodes and releases them.
    method Flush(match_: Cb -> bool)
      requires Valid()
      modifies this`mDataQ, this`released, this`Value
      ensures Valid() && Value == FlushNodes(old(Value), match_)
    {
      hide Filter, Dropped;
      ghost var q, keeps := mDataQ, Not(match_);
      var kept: seq<Cb> := [];
      var i := 0;
      ghost var gone: seq<Cb> := [];
      FilterNone(match_);
      FilterNone(keeps);
      while i < |mDataQ|
        invariant 0 <= i <= |q| && mDataQ == q
        invariant kept == Filter(q[..i], keeps) && gone == Filter(q[..i], match_)
        invariant released == old(released) + Dropped(gone) && Value == old(Value)
      {
        assert q[..i + 1] == q[..i] + [q[i]];
        FilterSnoc(q[..i], q[i], keeps);
        FilterSnoc(q[..i], q[i], match_);
        if match_(mDataQ[i]) {
          DroppedSnoc(gone, q[i]);
          if mDataQ[i].hasRelease {
            released := released + [Release(mDataQ[i], FailedTransaction)];
          }
          gone := gone + [q[i]];
        } else {
          kept := kept + [mDataQ[i]];
        }
        i := i + 1;
      }
      assert q[..i] == q;
      mDataQ := kept;
      Value := FlushNodes(Value, match_);
    }

    // What cbNotifyRoutine does for a job command.
    method HandleNextJob(enabled: bool)
      requires Valid() && running
      modifies this
      ensures Valid() && Value == Done(old(Value), DoNextJob(enabled))
    {
      hide Filter, Dropped, FlushNodes;
      ghost var s := Value;
      if mDataQ != [] {
        var cb := mDataQ[0];
        mDataQ := mDataQ[1..];
        var cbStatus := NoError;
        if enabled {
          match cb.cbType {
            case Snapshot =>
              if isSnapshotActive && hasDataCb && !longShotEnabled {
                numOfSnapshotRcvd := (numOfSnapshotRcvd + 1) % UINT32;
                if numOfSnapshotExpected > 0 && numOfSnapshotExpected == numOfSnapshotRcvd {
                  dones := dones + 1;
                }
              }
            case Invalid => cbStatus := BadValue;
            case _ =>
          }
        } else {
          cbStatus := InvalidOperation;
        }
        if cb.hasRelease {
          released := released + [Release(cb, cbStatus)];
        }
      }
      Value := Done(s, DoNextJob(enabled));
    }

    // What it does for the others.
    method BeginSession(expected: nat, longShot: bool)
      requires Valid()
      modifies this
      ensures Valid() && running == old(running) && Value == Done(old(Value), Start(expected, longShot))
    {
      isSnapshotActive := true;
      numOfSnapshotExpected := expected % UINT32;
      longShotEnabled := longShot;
      numOfSnapshotRcvd, dones := 0, 0;
      Value := Done(Value, Start(expected, longShot));
    }

    method EndSession()
      requires Valid()
      modifies this
      ensures Valid() && running == old(running) && Value == Done(old(Value), Stop)
    {
      hide Filter, Dropped;
      ghost var s := Value;
      Flush(IsSnapshot);
      isSnapshotActive := false;
      numOfSnapshotExpected, numOfSnapshotRcvd := 0, 0;
      Value := Done(s, Stop);
    }

    method Leave()
      requires Valid()
      modifies this
      ensures Valid() && Value == Done(old(Value), Command.Exit)
    {
      hide Filter, Dropped;
      ghost var s := Value;
      running := false;
      Value := Value.(running := false);
      Flush(Any);
      Value := Done(s, Command.Exit);
    }

    // One round of cbNotifyRoutine.
    method HandleCommand(c: Command)
      requires Valid() && running && cmdQueue != [] && cmdQueue[0] == KindOf(c)
      modifies this
      ensures Valid() && Value == Next(old(Value), c)
    {
      hide Done;
      cmdQueue := cmdQueue[1..];
      Value := Value.(cmds := cmdQueue);
      match c {
        case Start(expected, longShot) => BeginSession(expected, longShot);
        case Stop => EndSession();
        case DoNextJob(enabled) => HandleNextJob(enabled);
        case Exit => Leave();
      }
    }
  }

  lemma FilterNone(p: Cb -> bool)
    ensures Filter([], p) == [] && Dropped([]) == []
  {
  }
}
