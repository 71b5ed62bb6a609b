// The values of the timer service (gps/utils/LocTimer.cpp): due times, timer delegates and
// their ranking, the kernel calls a container makes, and the batch one expiry pops.
module TimerCore {
  import opened Options
  import HT = HeapTree

  // ----- struct timespec -----

  datatype Time = Time(sec: int, nsec: int)

  const BILLION: int := 1_000_000_000
  const ZERO := Time(0, 0)

  predicate Normal(t: Time) { 0 <= t.sec && 0 <= t.nsec < BILLION }

  function Nanos(t: Time): int { t.sec * BILLION + t.nsec }

  // LocTimer::start's due time.
  function FutureTime(now: Time, timeOutInMs: nat): Time {
    var sec := now.sec + timeOutInMs / 1000;
    var nsec := now.nsec + (timeOutInMs % 1000) * 1_000_000;
    if nsec >= BILLION then Time(sec + nsec / BILLION, nsec % BILLION) else Time(sec, nsec)
  }

  // It is the requested delay after now, exactly, and normalised; the nanoseconds stay within a
  // 32-bit long on the way.
  lemma FutureTimeExact(now: Time, timeOutInMs: nat)
    requires Normal(now)
    ensures Normal(FutureTime(now, timeOutInMs))
    ensures Nanos(FutureTime(now, timeOutInMs)) == Nanos(now) + timeOutInMs * 1_000_000
    ensures now.nsec + (timeOutInMs % 1000) * 1_000_000 < 0x8000_0000
  {
    var ms := timeOutInMs % 1000;
    assert timeOutInMs == timeOutInMs / 1000 * 1000 + ms;
    var nsec := now.nsec + ms * 1_000_000;
    assert 0 <= nsec < 2 * BILLION;
    assert nsec >= BILLION ==> nsec / BILLION == 1 && nsec % BILLION == nsec - BILLION;
  }

  // ----- delegates and their ranking -----

  // id stands for the object's address.
  datatype Delegate = Delegate(id: nat, client: nat, time: Time, wake: bool)

  // LocTimerDelegate::ranks looks at whole seconds only.
  function Ranks(a: Delegate, b: Delegate): int { b.time.sec - a.time.sec }

  predicate OutRanks(a: Delegate, b: Delegate) { Ranks(a, b) > 0 }

  type Heap = HT.Tree<Delegate>

  predicate Checked(t: Heap) { HT.CheckNodes(t, OutRanks) }

  lemma RankingOk()
    ensures HT.Ranking(OutRanks)
  {
  }

  function Top(t: Heap): Option<Delegate> { if t.Empty? then None else Some(t.data) }

  // ----- what a container asks of the kernel -----

  datatype Call = AddPoll | RemovePoll | SetTime(time: Time)

  // LocTimerContainer::updateSoonestTime.
  function UpdateCalls(curTop: Option<Delegate>, priorTop: Option<Delegate>): seq<Call> {
    if curTop == priorTop then []
    else if curTop.None? then [RemovePoll, SetTime(ZERO)]
    else if priorTop.None? || OutRanks(curTop.value, priorTop.value) then
      [AddPoll, SetTime(curTop.value.time)]
    else []
  }

  // The three kinds of message, as far as heap and kernel are concerned.
  function PushMsg(t: Heap, d: Delegate): (Heap, seq<Call>) {
    var t' := HT.Push(t, d, OutRanks);
    (t', UpdateCalls(Top(t'), Top(t)))
  }

  function RemoveMsg(t: Heap, d: Delegate): (Heap, seq<Call>) {
    match HT.Remove(t, d, OutRanks)
    case NotFound => (t, if Top(t).None? then UpdateCalls(Top(t), None) else [])
    case Removed(rest) => (rest, if Top(t) == Some(d) then UpdateCalls(Top(rest), None) else [])
  }

  // Arming for whatever is on top.
  function ArmTop(t: Heap): seq<Call> {
    if t.Empty? then [] else [AddPoll, SetTime(t.data.time)]
  }

  // A push arms for the new top exactly if it is a new one; the disarming branch of
  // updateSoonestTime is never taken, so an emptied container leaves its fd as it was.
  lemma PushMsgCalls(t: Heap, d: Delegate)
    requires Checked(t)
    ensures var (t', calls) := PushMsg(t, d);
            && Checked(t') && t'.Node?
            && HT.Elements(t') == HT.Elements(t) + multiset{d}
            && calls == (if Top(t') == Top(t) then [] else ArmTop(t'))
  {
    RankingOk();
    HT.PushKeepsHeap(t, d, OutRanks);
    HT.PushElements(t, d, OutRanks);
  }

  lemma RemoveMsgCalls(t: Heap, d: Delegate)
    requires Checked(t)
    ensures var (t', calls) := RemoveMsg(t, d);
            && Checked(t')
            && HT.Elements(t') == HT.Elements(t) - multiset{d}
            && calls == (if Top(t) == Some(d) then ArmTop(t') else [])
            && (Top(t) != Some(d) ==> Top(t') == Top(t))
  {
    hide HT.CheckNodes, HT.Elements, HT.Remove, HT.Ranking;
    RankingOk();
    HT.RemoveKeepsHeap(t, d, OutRanks);
    HT.RemoveExact(t, d, OutRanks);
    TopIn(t);
    if HT.Remove(t, d, OutRanks).Removed? {
      Without(HT.Elements(t), HT.Elements(HT.Remove(t, d, OutRanks).rest), d);
    } else {
      assert HT.Elements(t) - multiset{d} == HT.Elements(t);
    }
  }

  lemma Without(m: multiset<Delegate>, rest: multiset<Delegate>, d: Delegate)
    requires rest + multiset{d} == m
    ensures m - multiset{d} == rest
  {
  }

  lemma TopIn(t: Heap)
    ensures t.Node? ==> t.data in HT.Elements(t)
    ensures t.Empty? ==> HT.Elements(t) == multiset{}
  {
  }

  // The top is the soonest, to the second.
  lemma TopSoonest(t: Heap)
    requires Checked(t) && t.Node?
    ensures forall d :: d in HT.Elements(t) ==> t.data.time.sec <= d.time.sec
  {
    hide HT.CheckNodes, HT.Elements;
    RankingOk();
    HT.TopDominates(t, OutRanks);
    forall d | d in HT.Elements(t) ensures t.data.time.sec <= d.time.sec {
      assert !OutRanks(d, t.data);
    }
  }

  lemma PopFacts(t: Heap)
    requires Checked(t) && t.Node?
    ensures var t' := HT.Pop(t, OutRanks);
            && Checked(t') && HT.Count(t') < HT.Count(t)
            && HT.Elements(t') + multiset{t.data} == HT.Elements(t)
            && (t'.Node? ==> t.data.time.sec <= t'.data.time.sec)
  {
    hide HT.CheckNodes, HT.Elements, HT.Pop, HT.Count;
    RankingOk();
    HT.PopElements(t, OutRanks);
    HT.PopKeepsHeap(t, OutRanks);
    assert HT.Pop(t, OutRanks).Node? ==> !OutRanks(HT.Pop(t, OutRanks).data, t.data);
  }

  // ----- the expiry batch -----

  // MsgTimerExpire's loop after its first pop: popIfOutRanks pops while the top is not outranked
  // by "now".
  function PopDue(t: Heap, now: Time): (seq<Delegate>, Heap)
    decreases HT.Count(t)
  {
    if t.Empty? || t.data.time.sec > now.sec then ([], t)
    else
      HT.PopElements(t, OutRanks);
      var (ds, rest) := PopDue(HT.Pop(t, OutRanks), now);
      ([t.data] + ds, rest)
  }

  // The whole loop: the first pop is unconditional.
  function Batch(t: Heap, now: Time): (seq<Delegate>, Heap) {
    if t.Empty? then ([], t)
    else
      var (ds, rest) := PopDue(HT.Pop(t, OutRanks), now);
      ([t.data] + ds, rest)
  }

  // Due, as far as the ranking can tell.
  predicate Due(d: Delegate, now: Time) { d.time.sec <= now.sec }

  lemma {:induction false} PopDueExact(t: Heap, now: Time)
    requires Checked(t)
    ensures var (ds, rest) := PopDue(t, now);
            && Checked(rest)
            && multiset(ds) + HT.Elements(rest) == HT.Elements(t)
            && (forall d :: d in HT.Elements(rest) ==> !Due(d, now))
            && (forall d :: d in ds ==> Due(d, now))
    decreases HT.Count(t)
  {
    hide HT.CheckNodes, HT.Elements, HT.Pop, HT.Count;
    if t.Empty? {
      TopIn(t);
    } else if Due(t.data, now) {
      var t' := HT.Pop(t, OutRanks);
      PopFacts(t);
      PopDueExact(t', now);
      assert multiset([t.data] + PopDue(t', now).0) == multiset{t.data} + multiset(PopDue(t', now).0);
    } else {
      TopSoonest(t);
    }
  }

  lemma {:induction false} PopDueSorted(t: Heap, now: Time)
    requires Checked(t)
    ensures var ds := PopDue(t, now).0;
            && (forall i, j :: 0 <= i < j < |ds| ==> ds[i].time.sec <= ds[j].time.sec)
            && (t.Node? ==> forall i :: 0 <= i < |ds| ==> t.data.time.sec <= ds[i].time.sec)
    decreases HT.Count(t)
  {
    hide HT.CheckNodes, HT.Elements, HT.Pop, HT.Count, PopDue;
    PopDueStep(t, now);
    if t.Node? && Due(t.data, now) {
      var t' := HT.Pop(t, OutRanks);
      PopFacts(t);
      PopDueSorted(t', now);
      PopDueStep(t', now);
      Prepended(t.data, PopDue(t', now).0);
    }
  }

  lemma PopDueStep(t: Heap, now: Time)
    ensures PopDue(t, now) ==
            if t.Node? && Due(t.data, now) then
              var (ds, rest) := PopDue(HT.Pop(t, OutRanks), now);
              ([t.data] + ds, rest)
            else ([], t)
  {
  }

  lemma Prepended(d: Delegate, ds: seq<Delegate>)
    requires forall i, j :: 0 <= i < j < |ds| ==> ds[i].time.sec <= ds[j].time.sec
    requires ds != [] ==> d.time.sec <= ds[0].time.sec
    ensures var s := [d] + ds;
            forall i, j :: 0 <= i < j < |s| ==> s[i].time.sec <= s[j].time.sec
    ensures forall i :: 0 <= i < |ds| ==> d.time.sec <= ds[i].time.sec
  {
    forall i | 0 <= i < |ds| ensures d.time.sec <= ds[i].time.sec {
      assert i > 0 ==> ds[0].time.sec <= ds[i].time.sec;
    }
  }

  // The batch of one expiry of a non-empty heap splits the heap, in rank order; what stays is
  // not due; everything after the first is due.
  lemma BatchExact(t: Heap, now: Time)
    requires Checked(t) && t.Node?
    ensures var (ds, rest) := Batch(t, now);
            && Checked(rest)
            && multiset(ds) + HT.Elements(rest) == HT.Elements(t)
            && (forall d :: d in HT.Elements(rest) ==> !Due(d, now))
            && |ds| > 0 && ds[0] == t.data
            && (forall i :: 0 < i < |ds| ==> Due(ds[i], now))
            && (forall i, j :: 0 <= i < j < |ds| ==> ds[i].time.sec <= ds[j].time.sec)
  {
    hide HT.CheckNodes, HT.Elements, HT.Pop, HT.Count, PopDue;
    var t' := HT.Pop(t, OutRanks);
    PopFacts(t);
    PopDueExact(t', now);
    PopDueSorted(t', now);
    var tail := PopDue(t', now).0;
    assert multiset([t.data] + tail) == multiset{t.data} + multiset(tail);
    PopDueStep(t', now);
    Prepended(t.data, tail);
  }

  // If the top was due the batch is exactly the due timers; if not, it is the top alone.
  lemma BatchIsTheDue(t: Heap, now: Time)
    requires Checked(t) && t.Node?
    ensures var (ds, rest) := Batch(t, now);
            && (Due(t.data, now) ==>
                  forall d :: multiset(ds)[d] == if Due(d, now) then HT.Elements(t)[d] else 0)
            && (!Due(t.data, now) ==> ds == [t.data])
  {
    hide HT.CheckNodes, HT.Elements, HT.Pop, HT.Count, PopDue, Batch;
    BatchExact(t, now);
    var (ds, rest) := Batch(t, now);
    if Due(t.data, now) {
      forall d ensures multiset(ds)[d] == if Due(d, now) then HT.Elements(t)[d] else 0 {
        assert d in multiset(ds) <==> d in ds;
        assert HT.Elements(t)[d] == multiset(ds)[d] + HT.Elements(rest)[d];
      }
    } else {
      assert |ds| > 1 ==> !Due(ds[1], now);
    }
  }

  lemma LessThanASecondEarly(d: Delegate, now: Time)
    requires Normal(d.time) && Normal(now) && Due(d, now)
    ensures Nanos(d.time) < Nanos(now) + BILLION
  {
  }

  // "Never fires early" is not true in general, but exactly when the top is due to the second and
  // no timer falls later within the current second.
  lemma NeverEarlyIff(t: Heap, now: Time)
    requires Checked(t) && t.Node? && Normal(now)
    requires forall d :: d in HT.Elements(t) ==> Normal(d.time)
    ensures (forall d :: d in Batch(t, now).0 ==> Nanos(d.time) <= Nanos(now))
        <==> (Due(t.data, now) &&
              forall d :: d in HT.Elements(t) && d.time.sec == now.sec ==> d.time.nsec <= now.nsec)
  {
    hide HT.CheckNodes, HT.Elements, Batch, Nanos;
    BatchIsTheDue(t, now);
    BatchExact(t, now);
    var ds := Batch(t, now).0;
    forall d | d in ds ensures d in HT.Elements(t) {
      assert multiset(ds)[d] > 0;
    }
    forall d | d in HT.Elements(t) ensures Nanos(d.time) <= Nanos(now) <==>
        d.time.sec < now.sec || (d.time.sec == now.sec && d.time.nsec <= now.nsec) {
      CompareNanos(d.time, now);
    }
    if Due(t.data, now) {
      forall d | d in HT.Elements(t) && Due(d, now) ensures d in ds {
        assert multiset(ds)[d] > 0;
      }
      forall d | d in ds ensures Due(d, now) {
        assert multiset(ds)[d] > 0;
      }
    } else {
      assert t.data in ds;
    }
  }

  lemma CompareNanos(a: Time, b: Time)
    requires Normal(a) && Normal(b)
    ensures Nanos(a) <= Nanos(b) <==> a.sec < b.sec || (a.sec == b.sec && a.nsec <= b.nsec)
  {
  }
}
