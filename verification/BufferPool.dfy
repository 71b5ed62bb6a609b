// ION buffers between QCameraStreamMemory objects and the QCameraMemoryPool they share
// (camera/QCamera2/HAL/QCameraMem.cpp): what an allocation takes, what a release gives back, and
// which calls keep every buffer in exactly one place.
module BufferPool {
  import opened Options

  const MM_CAMERA_MAX_NUM_FRAMES: nat := 24

  // 0x1 << ION_IOMMU_HEAP_ID. The kernel header that numbers the heaps is not part of this model.
  const IOMMU_HEAP_MASK: nat := 0x2000000

  // handle identifies the ION buffer.
  datatype MemInfo = MemInfo(handle: nat, size: nat, cached: bool, heapId: nat)

  datatype Request = Request(size: nat, cached: bool, heapId: nat)

  predicate Fits(m: MemInfo, r: Request) {
    m.size >= r.size && m.heapId == r.heapId && m.cached == r.cached
  }

  // The pool's lists, one per stream type, and the ION device behind them: the buffers it has
  // made and got back so far, and how often it was asked for one.
  datatype Pool = Pool(lists: seq<seq<MemInfo>>, made: seq<MemInfo>, freed: seq<MemInfo>, asked: nat)

  // Which requests to the ION device succeed, by their number.
  type Grants = nat -> bool

  datatype Rc = Ok | BadIndex | NoMemory

  // A stream memory: the buffers in its live slots, and what it asks the pool for.
  datatype Stream = Stream(slots: seq<MemInfo>, streamType: nat, cached: bool)

  // ----- one buffer -----

  function RoundUp(size: nat): (r: nat)
    ensures size <= r < size + 4096
  {
    (size + 4095) / 4096 * 4096
  }

  function FirstFit(s: seq<MemInfo>, r: Request): (k: nat)
    ensures k <= |s| && (k < |s| ==> Fits(s[k], r))
    ensures forall j :: 0 <= j < k ==> !Fits(s[j], r)
  {
    if s == [] || Fits(s[0], r) then 0 else FirstFit(s[1..], r) + 1
  }

  function Without<T>(s: seq<T>, k: nat): seq<T>
    requires k < |s|
  {
    s[..k] + s[k + 1..]
  }

  // allocateBuffer: the first pooled buffer that fits, or else a new one.
  function Acquire(p: Pool, t: nat, r: Request, grants: Grants): (res: (Pool, Option<MemInfo>))
    requires t < |p.lists|
    ensures |res.0.lists| == |p.lists|
  {
    var k := FirstFit(p.lists[t], r);
    if k < |p.lists[t]| then
      (p.(lists := p.lists[t := Without(p.lists[t], k)]), Some(p.lists[t][k]))
    else if grants(p.asked) then
      var m := MemInfo(|p.made|, RoundUp(r.size), r.cached, r.heapId);
      (p.(made := p.made + [m], asked := p.asked + 1), Some(m))
    else (p.(asked := p.asked + 1), None)
  }

  // releaseBuffer
  function Release(p: Pool, t: nat, m: MemInfo): Pool
    requires t < |p.lists|
  {
    p.(lists := p.lists[t := p.lists[t] + [m]])
  }

  // clear: every pooled buffer goes back to the device.
  function Cleared(p: Pool): Pool {
    p.(lists := seq(|p.lists|, _ => []), freed := p.freed + Concat(p.lists))
  }

  function Concat(lists: seq<seq<MemInfo>>): seq<MemInfo> {
    if lists == [] then [] else Concat(lists[..|lists| - 1]) + lists[|lists| - 1]
  }

  // ----- the slots of a stream -----

  // Releasing slots from the last one down, as a failed alloc does.
  function ReleaseDown(p: Pool, t: nat, slots: seq<MemInfo>): (p': Pool)
    requires t < |p.lists|
    ensures |p'.lists| == |p.lists|
    decreases |slots|
  {
    if slots == [] then p else ReleaseDown(Release(p, t, slots[|slots| - 1]), t, slots[..|slots| - 1])
  }

  // Releasing slots from the first one up, as dealloc does.
  function ReleaseUp(p: Pool, t: nat, slots: seq<MemInfo>): (p': Pool)
    requires t < |p.lists|
    ensures |p'.lists| == |p.lists|
    decreases |slots|
  {
    if slots == [] then p else ReleaseUp(Release(p, t, slots[0]), t, slots[1..])
  }

  // alloc's loop: n more buffers behind the slots there are. A failure releases every slot filled
  // so far, those that were live before the call included.
  function AcquireAll(p: Pool, t: nat, r: Request, slots: seq<MemInfo>, n: nat, grants: Grants)
    : (res: (Pool, Option<seq<MemInfo>>))
    requires t < |p.lists|
    ensures |res.0.lists| == |p.lists|
    ensures res.1.Some? ==> |res.1.value| == |slots| + n
    decreases n
  {
    if n == 0 then (p, Some(slots))
    else
      var (p', m) := Acquire(p, t, r, grants);
      if m.None? then (ReleaseDown(p', t, slots), None)
      else AcquireAll(p', t, r, slots + [m.value], n - 1, grants)
  }

  function Filled(p: Pool, s: Stream, count: nat, size: nat, grants: Grants): (Pool, Rc, seq<MemInfo>)
    requires s.streamType < |p.lists|
  {
    if |s.slots| + count > MM_CAMERA_MAX_NUM_FRAMES then (p, BadIndex, s.slots)
    else
      var (p', all) := AcquireAll(p, s.streamType, Request(size, s.cached, IOMMU_HEAP_MASK), s.slots, count, grants);
      if all.None? then (p', NoMemory, s.slots) else (p', Ok, all.value)
  }

  // QCameraStreamMemory::allocate makes the first count slots live...
  function Allocated(p: Pool, s: Stream, count: nat, size: nat, grants: Grants): (Pool, Stream, Rc)
    requires s.streamType < |p.lists|
  {
    var (p', rc, all) := Filled(p, s, count, size, grants);
    (p', if rc.Ok? then s.(slots := all[..count]) else s, rc)
  }

  // ...and allocateMore all of them.
  function AllocatedMore(p: Pool, s: Stream, count: nat, size: nat, grants: Grants): (Pool, Stream, Rc)
    requires s.streamType < |p.lists|
  {
    var (p', rc, all) := Filled(p, s, count, size, grants);
    (p', if rc.Ok? then s.(slots := all) else s, rc)
  }

  function Deallocated(p: Pool, s: Stream): (Pool, Stream)
    requires s.streamType < |p.lists|
  {
    (ReleaseUp(p, s.streamType, s.slots), s.(slots := []))
  }

  // ----- where a buffer is -----

  function Count(s: seq<MemInfo>, m: MemInfo): nat { multiset(s)[m] }

  function Pooled(lists: seq<seq<MemInfo>>, m: MemInfo): nat {
    if lists == [] then 0 else Pooled(lists[..|lists| - 1], m) + Count(lists[|lists| - 1], m)
  }

  // How often m is in the pool or freed, less how often the device made it: minus one for a
  // buffer that some stream has to hold.
  function Kept(p: Pool, m: MemInfo): int {
    Count(p.freed, m) + Pooled(p.lists, m) - Count(p.made, m)
  }

  // The device numbers the buffers it makes.
  ghost predicate Numbered(p: Pool) {
    forall k :: 0 <= k < |p.made| ==> p.made[k].handle == k
  }

  lemma CountAdd(a: seq<MemInfo>, b: seq<MemInfo>, m: MemInfo)
    ensures Count(a + b, m) == Count(a, m) + Count(b, m)
  {
  }

  lemma CountSplit(s: seq<MemInfo>, k: nat, m: MemInfo)
    requires k <= |s|
    ensures Count(s, m) == Count(s[..k], m) + Count(s[k..], m)
  {
    assert s == s[..k] + s[k..];
  }

  lemma CountWithout(s: seq<MemInfo>, k: nat, m: MemInfo)
    requires k < |s|
    ensures Count(s, m) == Count(Without(s, k), m) + Count([s[k]], m)
  {
    CountSplit(s, k, m);
    CountSplit(s[k..], 1, m);
    assert s[k..][..1] == [s[k]] && s[k..][1..] == s[k + 1..];
    CountAdd(s[..k], s[k + 1..], m);
  }

  lemma {:induction false} PooledUpdate(lists: seq<seq<MemInfo>>, t: nat, s: seq<MemInfo>, m: MemInfo)
    requires t < |lists|
    ensures Pooled(lists[t := s], m) + Count(lists[t], m) == Pooled(lists, m) + Count(s, m)
  {
    hide Count;
    var n := |lists| - 1;
    if t < n {
      PooledUpdate(lists[..n], t, s, m);
      assert lists[t := s][..n] == lists[..n][t := s];
    } else {
      assert lists[t := s][..n] == lists[..n];
    }
  }

  lemma ReleaseKeeps(p: Pool, t: nat, b: MemInfo, m: MemInfo)
    requires t < |p.lists|
    ensures Kept(Release(p, t, b), m) == Kept(p, m) + Count([b], m)
  {
    hide Count, Pooled;
    PooledUpdate(p.lists, t, p.lists[t] + [b], m);
    CountAdd(p.lists[t], [b], m);
  }

  // Whatever outcome it has, an acquisition hands out what the pool then lacks.
  lemma AcquireKeeps(p: Pool, t: nat, r: Request, grants: Grants, m: MemInfo)
    requires t < |p.lists|
    ensures var (p', b) := Acquire(p, t, r, grants);
            Kept(p', m) + (if b.Some? then Count([b.value], m) else 0) == Kept(p, m)
  {
    hide Count, Pooled, FirstFit, Without;
    var k := FirstFit(p.lists[t], r);
    if k < |p.lists[t]| {
      PooledUpdate(p.lists, t, Without(p.lists[t], k), m);
      CountWithout(p.lists[t], k, m);
    } else if grants(p.asked) {
      CountAdd(p.made, [MemInfo(|p.made|, RoundUp(r.size), r.cached, r.heapId)], m);
    }
  }

  lemma AcquireFits(p: Pool, t: nat, r: Request, grants: Grants)
    requires t < |p.lists|
    ensures var (p', b) := Acquire(p, t, r, grants);
            && (b.Some? ==> Fits(b.value, r))
            && p.made <= p'.made && (Numbered(p) ==> Numbered(p'))
  {
    hide Without;
  }

  lemma {:induction false} ReleaseDownKeeps(p: Pool, t: nat, slots: seq<MemInfo>, m: MemInfo)
    requires t < |p.lists|
    ensures Kept(ReleaseDown(p, t, slots), m) == Kept(p, m) + Count(slots, m)
    ensures ReleaseDown(p, t, slots).made == p.made
    decreases |slots|
  {
    hide Kept;
    var n := |slots| - 1;
    if slots != [] {
      ReleaseKeeps(p, t, slots[n], m);
      ReleaseDownKeeps(Release(p, t, slots[n]), t, slots[..n], m);
      CountSplit(slots, n, m);
      assert slots[n..] == [slots[n]];
    }
  }

  lemma {:induction false} ReleaseUpKeeps(p: Pool, t: nat, slots: seq<MemInfo>, m: MemInfo)
    requires t < |p.lists|
    ensures Kept(ReleaseUp(p, t, slots), m) == Kept(p, m) + Count(slots, m)
    ensures ReleaseUp(p, t, slots).made == p.made
    decreases |slots|
  {
    hide Kept;
    if slots != [] {
      ReleaseKeeps(p, t, slots[0], m);
      ReleaseUpKeeps(Release(p, t, slots[0]), t, slots[1..], m);
      CountSplit(slots, 1, m);
      assert slots[..1] == [slots[0]];
    }
  }

  // On success the slots hold what they held and what left the pool; on failure the pool has got
  // back the buffers of this call, and those of the slots there were as well.
  lemma {:induction false} AcquireAllKeeps(p: Pool, t: nat, r: Request, slots: seq<MemInfo>, n: nat, grants: Grants,
      m: MemInfo)
    requires t < |p.lists|
    ensures var (p', all) := AcquireAll(p, t, r, slots, n, grants);
            Kept(p', m) + (if all.Some? then Count(all.value, m) else 0) == Kept(p, m) + Count(slots, m)
    decreases n
  {
    hide Kept, Acquire, Count, ReleaseDown;
    if n > 0 {
      var (p', b) := Acquire(p, t, r, grants);
      AcquireKeeps(p, t, r, grants, m);
      if b.None? {
        ReleaseDownKeeps(p', t, slots, m);
      } else {
        AcquireAllKeeps(p', t, r, slots + [b.value], n - 1, grants, m);
        CountAdd(slots, [b.value], m);
      }
    }
  }

  lemma {:induction false} AcquireAllFits(p: Pool, t: nat, r: Request, slots: seq<MemInfo>, n: nat, grants: Grants)
    requires t < |p.lists|
    ensures var (p', all) := AcquireAll(p, t, r, slots, n, grants);
            && (all.Some? ==> slots <= all.value && forall k :: |slots| <= k < |all.value| ==> Fits(all.value[k], r))
            && p.made <= p'.made && (Numbered(p) ==> Numbered(p'))
    decreases n
  {
    hide Acquire, Fits, ReleaseDown;
    if n > 0 {
      var (p', b) := Acquire(p, t, r, grants);
      AcquireFits(p, t, r, grants);
      if b.Some? {
        AcquireAllFits(p', t, r, slots + [b.value], n - 1, grants);
      } else {
        ReleaseDownKeeps(p', t, slots, MemInfo(0, 0, false, 0));
      }
    }
  }

  // ----- streams that share a pool -----

  datatype World = World(pool: Pool, streams: seq<Stream>)

  datatype Op =
    | DoAllocate(i: nat, count: nat, size: nat)
    | DoAllocateMore(i: nat, count: nat, size: nat)
    | DoDeallocate(i: nat)
    | DoClear

  ghost predicate WellTyped(w: World) {
    forall i :: 0 <= i < |w.streams| ==> w.streams[i].streamType < |w.pool.lists|
  }

  predicate Possible(w: World, op: Op) {
    op.DoClear? || (op.i < |w.streams| && w.streams[op.i].streamType < |w.pool.lists|)
  }

  function Next(w: World, op: Op, grants: Grants): (World, Rc)
    requires Possible(w, op)
  {
    match op
    case DoAllocate(i, count, size) =>
      var (p, s, rc) := Allocated(w.pool, w.streams[i], count, size, grants);
      (World(p, w.streams[i := s]), rc)
    case DoAllocateMore(i, count, size) =>
      var (p, s, rc) := AllocatedMore(w.pool, w.streams[i], count, size, grants);
      (World(p, w.streams[i := s]), rc)
    case DoDeallocate(i) =>
      var (p, s) := Deallocated(w.pool, w.streams[i]);
      (World(p, w.streams[i := s]), Ok)
    case DoClear => (World(Cleared(w.pool), w.streams), Ok)
  }

  function Live(streams: seq<Stream>, m: MemInfo): nat {
    if streams == [] then 0 else Live(streams[..|streams| - 1], m) + Count(streams[|streams| - 1].slots, m)
  }

  // In how many places a buffer is: freed, in a list of the pool, or in a live slot.
  function Places(w: World, m: MemInfo): nat {
    Count(w.pool.freed, m) + Pooled(w.pool.lists, m) + Live(w.streams, m)
  }

  // Every buffer the device made is in one place, and no other buffer is anywhere.
  ghost predicate Conserved(w: World) {
    forall m :: Places(w, m) == Count(w.pool.made, m)
  }

  lemma {:induction false} LiveUpdate(streams: seq<Stream>, i: nat, s: Stream, m: MemInfo)
    requires i < |streams|
    ensures Live(streams[i := s], m) + Count(streams[i].slots, m) == Live(streams, m) + Count(s.slots, m)
  {
    hide Count;
    var n := |streams| - 1;
    if i < n {
      LiveUpdate(streams[..n], i, s, m);
      assert streams[i := s][..n] == streams[..n][i := s];
    } else {
      assert streams[i := s][..n] == streams[..n];
    }
  }

  // What a call takes out of every place (positive) or puts into one place too many (negative).
  function Lost(w: World, op: Op, grants: Grants, m: MemInfo): int
    requires Possible(w, op)
  {
    var (w', rc) := Next(w, op, grants);
    if op.DoClear? || op.DoDeallocate? || rc.BadIndex? then 0
    else if rc.NoMemory? then 0 - Count(w.streams[op.i].slots, m)
    else if op.DoAllocateMore? then 0
    else Count(Filled(w.pool, w.streams[op.i], op.count, op.size, grants).2[op.count..], m)
  }

  lemma AllocateKeeps(p: Pool, s: Stream, count: nat, size: nat, grants: Grants, m: MemInfo)
    requires s.streamType < |p.lists|
    ensures var (p', s', rc) := Allocated(p, s, count, size, grants);
            && (rc.BadIndex? ==> p' == p && s' == s)
            && (rc.NoMemory? ==> s' == s && Kept(p', m) == Kept(p, m) + Count(s.slots, m))
            && (rc.Ok? ==> var all := Filled(p, s, count, size, grants).2;
                  |all| == |s.slots| + count
                  && Kept(p', m) + Count(s'.slots, m) + Count(all[count..], m) == Kept(p, m) + Count(s.slots, m))
  {
    hide Kept, Count, AcquireAll;
    var r := Request(size, s.cached, IOMMU_HEAP_MASK);
    AcquireAllKeeps(p, s.streamType, r, s.slots, count, grants, m);
    var all := AcquireAll(p, s.streamType, r, s.slots, count, grants).1;
    if all.Some? { CountSplit(all.value, count, m); }
  }

  lemma AllocateMoreKeeps(p: Pool, s: Stream, count: nat, size: nat, grants: Grants, m: MemInfo)
    requires s.streamType < |p.lists|
    ensures var (p', s', rc) := AllocatedMore(p, s, count, size, grants);
            && (rc.BadIndex? ==> p' == p && s' == s)
            && (rc.NoMemory? ==> s' == s && Kept(p', m) == Kept(p, m) + Count(s.slots, m))
            && (rc.Ok? ==> Kept(p', m) + Count(s'.slots, m) == Kept(p, m) + Count(s.slots, m))
  {
    hide Kept, Count, AcquireAll;
    AcquireAllKeeps(p, s.streamType, Request(size, s.cached, IOMMU_HEAP_MASK), s.slots, count, grants, m);
  }

  lemma {:induction false} ConcatPooled(lists: seq<seq<MemInfo>>, m: MemInfo)
    ensures Count(Concat(lists), m) == Pooled(lists, m)
  {
    if lists != [] {
      var n := |lists| - 1;
      ConcatPooled(lists[..n], m);
      CountAdd(Concat(lists[..n]), lists[n], m);
    }
  }

  // The balance of one call, whatever its outcome.
  lemma StepBalance(w: World, op: Op, grants: Grants, m: MemInfo)
    requires Possible(w, op)
    ensures var w' := Next(w, op, grants).0;
            Places(w', m) - Count(w'.pool.made, m) + Lost(w, op, grants, m) == Places(w, m) - Count(w.pool.made, m)
  {
    hide Count, Live, Pooled, Filled, Allocated, AllocatedMore, ReleaseUp, Concat;
    var w' := Next(w, op, grants).0;
    match op
    case DoAllocate(i, count, size) =>
      AllocateKeeps(w.pool, w.streams[i], count, size, grants, m);
      LiveUpdate(w.streams, i, w'.streams[i], m);
    case DoAllocateMore(i, count, size) =>
      AllocateMoreKeeps(w.pool, w.streams[i], count, size, grants, m);
      LiveUpdate(w.streams, i, w'.streams[i], m);
    case DoDeallocate(i) =>
      ReleaseUpKeeps(w.pool, w.streams[i].streamType, w.streams[i].slots, m);
      LiveUpdate(w.streams, i, w'.streams[i], m);
      CountNone(m);
    case DoClear =>
      CountAdd(w.pool.freed, Concat(w.pool.lists), m);
      ConcatPooled(w.pool.lists, m);
      PooledNone(|w.pool.lists|, m);
  }

  lemma CountNone(m: MemInfo)
    ensures Count([], m) == 0
  {
  }

  lemma {:induction false} PooledNone(n: nat, m: MemInfo)
    ensures Pooled(seq(n, _ => []), m) == 0
  {
    if n > 0 {
      PooledNone(n - 1, m);
      assert seq<seq<MemInfo>>(n, _ => [])[..n - 1] == seq<seq<MemInfo>>(n - 1, _ => []);
    }
  }

  // ----- when the buffers suffice -----

  function Fitting(s: seq<MemInfo>, r: Request): nat {
    if s == [] then 0 else Fitting(s[..|s| - 1], r) + if Fits(s[|s| - 1], r) then 1 else 0
  }

  // The pool has n buffers for the request, or the device grants as many as it lacks.
  ghost predicate Supplied(p: Pool, t: nat, r: Request, n: nat, grants: Grants)
    requires t < |p.lists|
  {
    forall j :: p.asked <= j < p.asked + n - Fitting(p.lists[t], r) ==> grants(j)
  }

  lemma {:induction false} FittingAdd(a: seq<MemInfo>, b: seq<MemInfo>, r: Request)
    ensures Fitting(a + b, r) == Fitting(a, r) + Fitting(b, r)
    decreases |b|
  {
    if b == [] {
      assert a + b == a;
    } else {
      var n := |b| - 1;
      FittingAdd(a, b[..n], r);
      assert (a + b)[..|a + b| - 1] == a + b[..n];
    }
  }

  lemma {:induction false} NoneFits(s: seq<MemInfo>, r: Request)
    ensures Fitting(s, r) == 0 <==> FirstFit(s, r) == |s|
  {
    if s != [] {
      var n := |s| - 1;
      NoneFits(s[..n], r);
      FirstFitInit(s, r);
    }
  }

  lemma {:induction false} FirstFitInit(s: seq<MemInfo>, r: Request)
    requires s != []
    ensures FirstFit(s, r) == |s| <==> FirstFit(s[..|s| - 1], r) == |s| - 1 && !Fits(s[|s| - 1], r)
  {
    var k, init := FirstFit(s, r), s[..|s| - 1];
    assert FirstFit(init, r) < |init| ==> Fits(s[FirstFit(init, r)], r);
    assert k < |init| ==> Fits(init[k], r);
  }

  lemma FittingWithout(s: seq<MemInfo>, k: nat, r: Request)
    requires k < |s| && Fits(s[k], r)
    ensures Fitting(Without(s, k), r) == Fitting(s, r) - 1
  {
    hide Fits;
    assert s == s[..k] + [s[k]] + s[k + 1..];
    FittingAdd(s[..k], [s[k]], r);
    FittingAdd(s[..k] + [s[k]], s[k + 1..], r);
    FittingAdd(s[..k], s[k + 1..], r);
    assert [s[k]][..0] == [];
  }

  // One acquisition, seen from the supply.
  lemma AcquireSupply(p: Pool, t: nat, r: Request, grants: Grants)
    requires t < |p.lists|
    ensures var (p', m) := Acquire(p, t, r, grants);
            if Fitting(p.lists[t], r) > 0
            then m.Some? && Fitting(p'.lists[t], r) == Fitting(p.lists[t], r) - 1 && p'.asked == p.asked
            else (m.Some? <==> grants(p.asked)) && Fitting(p'.lists[t], r) == 0 && p'.asked == p.asked + 1
  {
    hide Fitting, FirstFit, Fits, Without;
    var k := FirstFit(p.lists[t], r);
    NoneFits(p.lists[t], r);
    if k < |p.lists[t]| { FittingWithout(p.lists[t], k, r); }
  }

  // alloc's loop succeeds exactly if the buffers suffice.
  lemma {:induction false} AcquireAllSucceedsIff(p: Pool, t: nat, r: Request, slots: seq<MemInfo>, n: nat,
      grants: Grants)
    requires t < |p.lists|
    ensures AcquireAll(p, t, r, slots, n, grants).1.Some? <==> Supplied(p, t, r, n, grants)
    decreases n
  {
    hide Acquire, Fitting, ReleaseDown;
    if n > 0 {
      var (p', m) := Acquire(p, t, r, grants);
      AcquireSupply(p, t, r, grants);
      if m.Some? {
        AcquireAllSucceedsIff(p', t, r, slots + [m.value], n - 1, grants);
      }
    }
  }

  // The calls that keep the ownership right, told before they are made: allocate needs a stream
  // without live slots, allocateMore that or enough buffers, and both are harmless when refused
  // for their count.
  ghost predicate Harmless(w: World, op: Op, grants: Grants)
    requires Possible(w, op)
  {
    op.DoClear? || op.DoDeallocate? ||
    var s := w.streams[op.i];
    || s.slots == [] || |s.slots| + op.count > MM_CAMERA_MAX_NUM_FRAMES
    || (op.DoAllocateMore?
        && Supplied(w.pool, s.streamType, Request(op.size, s.cached, IOMMU_HEAP_MASK), op.count, grants))
  }

  // Each of the three outcomes of an allocation, told before.
  lemma OutcomeIff(p: Pool, s: Stream, count: nat, size: nat, grants: Grants)
    requires s.streamType < |p.lists|
    ensures var rc := Filled(p, s, count, size, grants).1;
            && (rc.BadIndex? <==> |s.slots| + count > MM_CAMERA_MAX_NUM_FRAMES)
            && (rc.Ok? <==>
                  !rc.BadIndex? && Supplied(p, s.streamType, Request(size, s.cached, IOMMU_HEAP_MASK), count, grants))
  {
    hide AcquireAll, Supplied;
    AcquireAllSucceedsIff(p, s.streamType, Request(size, s.cached, IOMMU_HEAP_MASK), s.slots, count, grants);
  }

  lemma HarmlessLosesNothing(w: World, op: Op, grants: Grants, m: MemInfo)
    requires Possible(w, op) && Harmless(w, op, grants)
    ensures Lost(w, op, grants, m) == 0
  {
    hide AcquireAll, Supplied;
    if op.DoAllocate? || op.DoAllocateMore? { OutcomeIff(w.pool, w.streams[op.i], op.count, op.size, grants); }
  }

  lemma HarmfulLoses(w: World, op: Op, grants: Grants) returns (m: MemInfo)
    requires Possible(w, op) && !Harmless(w, op, grants)
    ensures Lost(w, op, grants, m) != 0
  {
    hide AcquireAll, Supplied;
    OutcomeIff(w.pool, w.streams[op.i], op.count, op.size, grants);
    var slots := w.streams[op.i].slots;
    var all := Filled(w.pool, w.streams[op.i], op.count, op.size, grants).2;
    if Next(w, op, grants).1.NoMemory? {
      m := slots[0];
      assert m in multiset(slots);
    } else {
      m := all[op.count];
      assert all[op.count..][0] == m && m in multiset(all[op.count..]);
    }
  }

  lemma ConservedIffHarmless(w: World, op: Op, grants: Grants)
    requires Possible(w, op) && Conserved(w)
    ensures Conserved(Next(w, op, grants).0) <==> Harmless(w, op, grants)
  {
    hide Places, Count, Next, Harmless, Lost, Possible;
    var w' := Next(w, op, grants).0;
    if Harmless(w, op, grants) {
      forall m ensures Places(w', m) == Count(w'.pool.made, m) {
        StepBalance(w, op, grants, m);
        HarmlessLosesNothing(w, op, grants, m);
      }
    } else {
      var m := HarmfulLoses(w, op, grants);
      StepBalance(w, op, grants, m);
    }
  }

  // What else every call keeps: the device's numbering and the streams' types.
  ghost predicate Sane(w: World) {
    Numbered(w.pool) && WellTyped(w)
  }

  lemma StepSane(w: World, op: Op, grants: Grants)
    requires Possible(w, op) && Sane(w)
    ensures var w' := Next(w, op, grants).0; Sane(w') && |w'.streams| == |w.streams|
  {
    hide AcquireAll, ReleaseUp, Concat;
    if op.DoAllocate? || op.DoAllocateMore? {
      var s := w.streams[op.i];
      AcquireAllFits(w.pool, s.streamType, Request(op.size, s.cached, IOMMU_HEAP_MASK), s.slots, op.count, grants);
    } else if op.DoDeallocate? {
      ReleaseUpKeeps(w.pool, w.streams[op.i].streamType, w.streams[op.i].slots, MemInfo(0, 0, false, 0));
    }
  }

  // A run of calls by streams 0 .. n - 1, each of them harmless where it happens.
  ghost predicate HarmlessRun(w: World, ops: seq<Op>, grants: Grants)
    decreases |ops|
  {
    ops == [] || (Possible(w, ops[0]) && Harmless(w, ops[0], grants)
                  && HarmlessRun(Next(w, ops[0], grants).0, ops[1..], grants))
  }

  ghost function Run(w: World, ops: seq<Op>, grants: Grants): World
    requires HarmlessRun(w, ops, grants)
    decreases |ops|
  {
    if ops == [] then w else Run(Next(w, ops[0], grants).0, ops[1..], grants)
  }

  lemma OnePlace(w: World, m: MemInfo)
    requires Conserved(w) && Numbered(w.pool)
    ensures Places(w, m) == if m in w.pool.made then 1 else 0
  {
    hide Places;
    AtMostOnce(w.pool.made, m);
  }

  lemma {:induction false} AtMostOnce(s: seq<MemInfo>, m: MemInfo)
    requires forall k :: 0 <= k < |s| ==> s[k].handle == k
    ensures Count(s, m) == if m in s then 1 else 0
  {
    if s != [] {
      var n := |s| - 1;
      AtMostOnce(s[..n], m);
      assert s == s[..n] + [s[n]];
    }
  }

  // Over any harmless run every buffer the device ever made stays in exactly one place: a live
  // slot, a list of the pool, or back with the device.
  lemma {:induction false} RunConserves(w: World, ops: seq<Op>, grants: Grants)
    requires Sane(w) && Conserved(w) && HarmlessRun(w, ops, grants)
    ensures var w' := Run(w, ops, grants);
            && Sane(w') && Conserved(w')
            && forall m :: Places(w', m) == if m in w'.pool.made then 1 else 0
    decreases |ops|
  {
    hide Places, Next, Harmless, Conserved, Possible, WellTyped;
    if ops == [] {
      forall m ensures Places(w, m) == if m in w.pool.made then 1 else 0 { OnePlace(w, m); }
    } else {
      StepSane(w, ops[0], grants);
      ConservedIffHarmless(w, ops[0], grants);
      RunConserves(Next(w, ops[0], grants).0, ops[1..], grants);
    }
  }

  // A successful call leaves the live slots where they were and fills only slots that fit the
  // request; the pool is asked for nothing once the slots run out.
  lemma HandsOutFitting(p: Pool, s: Stream, count: nat, size: nat, grants: Grants)
    requires s.streamType < |p.lists|
    ensures var (_, rc, all) := Filled(p, s, count, size, grants);
            && (rc.BadIndex? <==> |s.slots| + count > MM_CAMERA_MAX_NUM_FRAMES)
            && (rc.Ok? ==> |all| == |s.slots| + count && s.slots <= all)
            && (rc.Ok? ==>
                  forall k :: |s.slots| <= k < |all| ==> Fits(all[k], Request(size, s.cached, IOMMU_HEAP_MASK)))
  {
    hide AcquireAll, Fits;
    AcquireAllFits(p, s.streamType, Request(size, s.cached, IOMMU_HEAP_MASK), s.slots, count, grants);
  }

  lemma {:induction false} LiveHolds(streams: seq<Stream>, i: nat, m: MemInfo)
    requires i < |streams|
    ensures Live(streams, m) >= Count(streams[i].slots, m)
  {
    var n := |streams| - 1;
    if i < n { LiveHolds(streams[..n], i, m); }
  }

  // A failed allocateMore leaves every live buffer of its stream in two places.
  lemma FailedMoreOwnsTwice(w: World, i: nat, count: nat, size: nat, grants: Grants, m: MemInfo)
    requires Sane(w) && Conserved(w) && i < |w.streams| && m in w.streams[i].slots
    requires Next(w, DoAllocateMore(i, count, size), grants).1.NoMemory?
    ensures Places(Next(w, DoAllocateMore(i, count, size), grants).0, m) == 2
  {
    hide AcquireAll, Live, Pooled;
    var op := DoAllocateMore(i, count, size);
    var s := w.streams[i];
    StepBalance(w, op, grants, m);
    StepSane(w, op, grants);
    OnePlace(w, m);
    LiveHolds(w.streams, i, m);
    assert m in multiset(s.slots);
    AcquireAllFits(w.pool, s.streamType, Request(size, s.cached, IOMMU_HEAP_MASK), s.slots, count, grants);
    AtMostOnce(Next(w, op, grants).0.pool.made, m);
  }

  function Never(k: nat): bool { false }

  // One live buffer and a device that refuses: allocateMore fails and the buffer is in its slot
  // and in the pool. Allocating none instead drops it from both.
  lemma LiveSlotsExample(m: MemInfo)
    requires m.handle == 0
    ensures var w := World(Pool([[]], [m], [], 0), [Stream([m], 0, m.cached)]);
            var (failed, rc) := Next(w, DoAllocateMore(0, 1, m.size + 1), Never);
            && Sane(w) && Conserved(w)
            && rc == NoMemory && failed.streams[0].slots == [m] && failed.pool.lists == [[m]]
            && Places(failed, m) == 2
            && Places(Next(w, DoAllocate(0, 0, m.size), Never).0, m) == 0
  {
    var p := Pool([[]], [m], [], 0);
    var w := World(p, [Stream([m], 0, m.cached)]);
    forall x ensures Places(w, x) == Count([m], x) {
      assert Pooled([[]], x) == Pooled([], x) + Count([], x) == 0;
      assert Live(w.streams, x) == Live([], x) + Count([m], x);
    }
    var r := Request(m.size + 1, m.cached, IOMMU_HEAP_MASK);
    assert FirstFit([], r) == 0 && Acquire(p, 0, r, Never) == (p.(asked := 1), None);
    var q := p.(asked := 1);
    assert ReleaseDown(q, 0, [m]) == ReleaseDown(Release(q, 0, m), 0, []) == Release(q, 0, m);
    assert [] + [m] == [m];
    assert Pooled([[m]], m) == Pooled([], m) + Count([m], m) == 1;
    assert Live(w.streams, m) == Live([], m) + Count([m], m);
    var none := Stream([], 0, m.cached);
    assert Live([none], m) == Live([], m) + Count([], m) == 0;
  }

  // ----- which buffer, which list -----

  // An acquisition hands out the first buffer of its stream type's list that fits, and only if there
  // is none a new one, of whole pages and less than a page too large; other lists stay as they are.
  lemma AcquireOutcome(p: Pool, t: nat, r: Request, grants: Grants)
    requires t < |p.lists|
    ensures var (p', b) := Acquire(p, t, r, grants);
            && p'.freed == p.freed && |p'.lists| == |p.lists|
            && (forall u :: 0 <= u < |p.lists| && u != t ==> p'.lists[u] == p.lists[u])
            && ((Pick(p.lists[t], p'.lists[t], b, r) && p'.made == p.made && p'.asked == p.asked)
                || (NoFit(p.lists[t], r) && p'.lists == p.lists && p'.asked == p.asked + 1
                    && if grants(p.asked)
                       then b.Some? && p'.made == p.made + [b.value] && IsNew(b.value, |p.made|, r)
                       else b.None? && p'.made == p.made))
  {
    var k := FirstFit(p.lists[t], r);
    if k < |p.lists[t]| {
      assert PickAt(p.lists[t], Without(p.lists[t], k), Some(p.lists[t][k]), r, k);
    }
  }

  ghost predicate NoFit(list: seq<MemInfo>, r: Request) {
    forall k :: 0 <= k < |list| ==> !Fits(list[k], r)
  }

  // b is the first of the list that fits, and the list is left without it.
  ghost predicate Pick(list: seq<MemInfo>, list': seq<MemInfo>, b: Option<MemInfo>, r: Request) {
    exists k: nat :: PickAt(list, list', b, r, k)
  }

  ghost predicate PickAt(list: seq<MemInfo>, list': seq<MemInfo>, b: Option<MemInfo>, r: Request, k: nat) {
    k < |list| && Fits(list[k], r) && NoFit(list[..k], r) && b == Some(list[k]) && list' == list[..k] + list[k + 1..]
  }

  ghost predicate IsNew(b: MemInfo, handle: nat, r: Request) {
    && b.handle == handle && r.size <= b.size < r.size + 4096 && b.size % 4096 == 0
    && b.cached == r.cached && b.heapId == r.heapId
  }

  // All else of the pool, but for list t, its requests to the device and what that made.
  ghost predicate OnlyList(p: Pool, p': Pool, t: nat) {
    && |p'.lists| == |p.lists| && p'.freed == p.freed && p.made <= p'.made
    && forall u :: 0 <= u < |p.lists| && u != t ==> p'.lists[u] == p.lists[u]
  }

  lemma {:induction false} ReleaseUpList(p: Pool, t: nat, slots: seq<MemInfo>)
    requires t < |p.lists|
    ensures var p' := ReleaseUp(p, t, slots);
            OnlyList(p, p', t) && p'.lists[t] == p.lists[t] + slots && p'.made == p.made && p'.asked == p.asked
    decreases |slots|
  {
    if slots == [] {
      assert p.lists[t] + slots == p.lists[t];
    } else {
      ReleaseUpList(Release(p, t, slots[0]), t, slots[1..]);
      assert p.lists[t] + [slots[0]] + slots[1..] == p.lists[t] + slots;
    }
  }

  lemma {:induction false} ReleaseDownList(p: Pool, t: nat, slots: seq<MemInfo>)
    requires t < |p.lists|
    ensures var p' := ReleaseDown(p, t, slots);
            && OnlyList(p, p', t) && multiset(p'.lists[t]) == multiset(p.lists[t]) + multiset(slots)
            && p'.made == p.made && p'.asked == p.asked
    decreases |slots|
  {
    var n := |slots| - 1;
    if slots != [] {
      ReleaseDownList(Release(p, t, slots[n]), t, slots[..n]);
      assert slots == slots[..n] + [slots[n]];
    }
  }

  // deallocate: the slots go behind what the list of their own stream type held, in order, and no
  // other list changes.
  lemma DeallocateReturnsHome(p: Pool, s: Stream)
    requires s.streamType < |p.lists|
    ensures var (p', s') := Deallocated(p, s);
            && p'.lists[s.streamType] == p.lists[s.streamType] + s.slots
            && (forall u :: 0 <= u < |p.lists| && u != s.streamType ==> p'.lists[u] == p.lists[u])
            && |p'.lists| == |p.lists| && p'.made == p.made && p'.freed == p.freed && p'.asked == p.asked
            && s' == s.(slots := [])
  {
    ReleaseUpList(p, s.streamType, s.slots);
  }

  // alloc's loop, said of list t alone: success moves into the slots what the list then lacks or the
  // device has made; failure leaves all of it, and the slots there were, in the list.
  lemma {:induction false} AcquireAllList(p: Pool, t: nat, r: Request, slots: seq<MemInfo>, n: nat, grants: Grants)
    requires t < |p.lists|
    ensures var (p', all) := AcquireAll(p, t, r, slots, n, grants);
            && OnlyList(p, p', t)
            && multiset(p'.lists[t]) + (if all.Some? then multiset(all.value) else multiset{})
               == multiset(p.lists[t]) + multiset(slots) + multiset(p'.made[|p.made|..])
    decreases n
  {
    hide Acquire, ReleaseDown;
    if n == 0 {
      assert p.made[|p.made|..] == [];
    } else {
      var (p', b) := Acquire(p, t, r, grants);
      AcquireList(p, t, r, grants);
      if b.None? {
        ReleaseDownList(p', t, slots);
        assert p'.made[|p.made|..] == [];
      } else {
        AcquireAllList(p', t, r, slots + [b.value], n - 1, grants);
        var (q, all) := AcquireAll(p', t, r, slots + [b.value], n - 1, grants);
        MadeSplit(p.made, p'.made, q.made);
        assert multiset(slots + [b.value]) == multiset(slots) + multiset{b.value};
        Through(multiset(p.lists[t]), multiset(p'.lists[t]), multiset(slots), multiset{b.value},
                multiset(p'.made[|p.made|..]), multiset(q.made[|p'.made|..]));
      }
    }
  }

  lemma Through(list: multiset<MemInfo>, list': multiset<MemInfo>, slots: multiset<MemInfo>, b: multiset<MemInfo>,
      made: multiset<MemInfo>, made': multiset<MemInfo>)
    requires list' + b == list + made
    ensures list' + (slots + b) + made' == list + slots + (made + made')
  {
    assert list' + (slots + b) + made' == list' + b + slots + made';
  }

  lemma MadeSplit(a: seq<MemInfo>, b: seq<MemInfo>, c: seq<MemInfo>)
    requires a <= b <= c
    ensures multiset(c[|a|..]) == multiset(b[|a|..]) + multiset(c[|b|..])
  {
    assert c[|a|..] == b[|a|..] + c[|b|..];
  }

  lemma AcquireList(p: Pool, t: nat, r: Request, grants: Grants)
    requires t < |p.lists|
    ensures var (p', b) := Acquire(p, t, r, grants);
            && OnlyList(p, p', t)
            && multiset(p'.lists[t]) + (if b.Some? then multiset{b.value} else multiset{})
               == multiset(p.lists[t]) + multiset(p'.made[|p.made|..])
            && (b.None? ==> p'.lists == p.lists && p'.made == p.made)
  {
    hide Fits;
    var k := FirstFit(p.lists[t], r);
    if k < |p.lists[t]| {
      assert p.lists[t] == p.lists[t][..k] + [p.lists[t][k]] + p.lists[t][k + 1..];
      assert p.made[|p.made|..] == [];
    } else if grants(p.asked) {
      var b := MemInfo(|p.made|, RoundUp(r.size), r.cached, r.heapId);
      assert (p.made + [b])[|p.made|..] == [b];
    } else {
      assert p.made[|p.made|..] == [];
    }
  }

  // A failed allocation: every buffer it had taken or made, and every live one, is in the list of
  // the stream's own type; the stream is as before.
  lemma FailedAllocReturnsHome(p: Pool, s: Stream, count: nat, size: nat, grants: Grants)
    requires s.streamType < |p.lists|
    requires Filled(p, s, count, size, grants).1.NoMemory?
    ensures var (p', _, _) := Filled(p, s, count, size, grants);
            && |p'.lists| == |p.lists| && p.made <= p'.made
            && multiset(p'.lists[s.streamType])
               == multiset(p.lists[s.streamType]) + multiset(s.slots) + multiset(p'.made[|p.made|..])
            && forall u :: 0 <= u < |p.lists| && u != s.streamType ==> p'.lists[u] == p.lists[u]
    ensures Allocated(p, s, count, size, grants).1 == s && AllocatedMore(p, s, count, size, grants).1 == s
  {
    hide AcquireAll;
    AcquireAllList(p, s.streamType, Request(size, s.cached, IOMMU_HEAP_MASK), s.slots, count, grants);
  }

  // A successful one: allocateMore keeps the live slots and adds count that fit; allocate on a
  // stream without live slots has just those.
  lemma AllocGives(p: Pool, s: Stream, count: nat, size: nat, grants: Grants)
    requires s.streamType < |p.lists| && Filled(p, s, count, size, grants).1.Ok?
    ensures var more := AllocatedMore(p, s, count, size, grants).1.slots;
            && |more| == |s.slots| + count && s.slots <= more
            && forall k :: |s.slots| <= k < |more| ==> Fits(more[k], Request(size, s.cached, IOMMU_HEAP_MASK))
    ensures var some := Allocated(p, s, count, size, grants).1.slots;
            && |some| == count && some == AllocatedMore(p, s, count, size, grants).1.slots[..count]
            && (s.slots == [] ==>
                  forall k :: 0 <= k < count ==> Fits(some[k], Request(size, s.cached, IOMMU_HEAP_MASK)))
  {
    hide Filled, Fits;
    HandsOutFitting(p, s, count, size, grants);
  }

  // clear: no list holds anything any more, and what they held has gone back to the device.
  lemma ClearEmpties(p: Pool, m: MemInfo)
    ensures var p' := Cleared(p);
            && |p'.lists| == |p.lists| && (forall u :: 0 <= u < |p.lists| ==> p'.lists[u] == [])
            && p.freed <= p'.freed && p'.made == p.made && p'.asked == p.asked
            && Count(p'.freed, m) == Count(p.freed, m) + Pooled(p.lists, m)
  {
    hide Count, Pooled, Concat;
    CountAdd(p.freed, Concat(p.lists), m);
    ConcatPooled(p.lists, m);
  }

  lemma {:induction false} AllFit(slots: seq<MemInfo>, r: Request)
    requires forall k :: 0 <= k < |slots| ==> Fits(slots[k], r)
    ensures Fitting(slots, r) == |slots|
  {
    if slots != [] { AllFit(slots[..|slots| - 1], r); }
  }

  lemma {:induction false} NothingAsked(p: Pool, t: nat, r: Request, slots: seq<MemInfo>, n: nat, grants: Grants)
    requires t < |p.lists| && n <= Fitting(p.lists[t], r)
    ensures AcquireAll(p, t, r, slots, n, grants).0.asked == p.asked
    decreases n
  {
    hide Acquire, Fitting, ReleaseDown;
    if n > 0 {
      var (p', b) := Acquire(p, t, r, grants);
      AcquireSupply(p, t, r, grants);
      NothingAsked(p', t, r, slots + [b.value], n - 1, grants);
    }
  }

  // There and back: what a stream has given back it gets again, whatever the pool held before, even
  // from a device that refuses everything, which is not even asked.
  lemma RoundTrip(p: Pool, s: Stream, size: nat)
    requires s.streamType < |p.lists| && |s.slots| <= MM_CAMERA_MAX_NUM_FRAMES
    requires forall k :: 0 <= k < |s.slots| ==> Fits(s.slots[k], Request(size, s.cached, IOMMU_HEAP_MASK))
    ensures var (q, empty) := Deallocated(p, s);
            var (p', s', rc) := Allocated(q, empty, |s.slots|, size, Never);
            && rc == Ok && p'.asked == p.asked && |s'.slots| == |s.slots|
            && forall k :: 0 <= k < |s'.slots| ==> Fits(s'.slots[k], Request(size, s.cached, IOMMU_HEAP_MASK))
  {
    hide Filled, Fits, Fitting, ReleaseUp;
    var (q, empty) := Deallocated(p, s);
    var r := Request(size, s.cached, IOMMU_HEAP_MASK);
    DeallocateReturnsHome(p, s);
    AllFit(s.slots, r);
    FittingAdd(p.lists[s.streamType], s.slots, r);
    OutcomeIff(q, empty, |s.slots|, size, Never);
    FilledAsked(q, empty, |s.slots|, size, Never);
    AllocGives(q, empty, |s.slots|, size, Never);
  }

  lemma FilledAsked(p: Pool, s: Stream, count: nat, size: nat, grants: Grants)
    requires s.streamType < |p.lists|
    requires count <= Fitting(p.lists[s.streamType], Request(size, s.cached, IOMMU_HEAP_MASK))
    ensures Filled(p, s, count, size, grants).0.asked == p.asked
  {
    hide AcquireAll, Fitting;
    NothingAsked(p, s.streamType, Request(size, s.cached, IOMMU_HEAP_MASK), s.slots, count, grants);
  }

  // ----- the objects -----

  lemma ConcatStep(lists: seq<seq<MemInfo>>, i: nat)
    requires i < |lists|
    ensures Concat(lists[..i + 1]) == Concat(lists[..i]) + lists[i]
  {
    assert lists[..i + 1][..i] == lists[..i];
  }

  class QCameraMemoryPool {
    const mPools: array<seq<MemInfo>>
    // The ION device.
    var made: seq<MemInfo>
    var freed: seq<MemInfo>
    var asked: nat

    constructor (streamTypes: nat)
      ensures View() == Pool(seq(streamTypes, _ => []), [], [], 0) && fresh(mPools)
    {
      mPools := new seq<MemInfo>[streamTypes](_ => []);
      made, freed, asked := [], [], 0;
    }

    ghost function View(): Pool
      reads this, mPools
    {
      Pool(mPools[..], made, freed, asked)
    }

    method FindBufferLocked(t: nat, r: Request) returns (m: Option<MemInfo>)
      requires t < mPools.Length
      modifies mPools
      ensures var k := FirstFit(old(mPools[t]), r);
              if k < |old(mPools[t])|
              then m == Some(old(mPools[t])[k]) && mPools[..] == old(mPools[..])[t := Without(old(mPools[t]), k)]
              else m.None? && mPools[..] == old(mPools[..])
    {
      m := None;
      var it := 0;
      while it < |mPools[t]|
        invariant it <= |mPools[t]| && m.None? && mPools[..] == old(mPools[..])
        invariant FirstFit(mPools[t], r) == it + FirstFit(mPools[t][it..], r)
      {
        if Fits(mPools[t][it], r) {
          m := Some(mPools[t][it]);
          mPools[t] := Without(mPools[t], it);
          return;
        }
        it := it + 1;
      }
    }

    method AllocateBuffer(t: nat, r: Request, grants: Grants) returns (m: Option<MemInfo>)
      requires t < mPools.Length
      modifies this, mPools
      ensures (View(), m) == Acquire(old(View()), t, r, grants)
    {
      m := FindBufferLocked(t, r);
      if m.None? {
        if grants(asked) {
          m := Some(MemInfo(|made|, RoundUp(r.size), r.cached, r.heapId));
          made := made + [m.value];
        }
        asked := asked + 1;
      }
    }

    method ReleaseBuffer(t: nat, m: MemInfo)
      requires t < mPools.Length
      modifies mPools
      ensures View() == Release(old(View()), t, m)
    {
      mPools[t] := mPools[t] + [m];
    }

    method Clear()
      modifies this, mPools
      ensures View() == Cleared(old(View()))
    {
      ghost var was := mPools[..];
      assert Concat(was[..0]) == [];
      hide Concat;
      var i := 0;
      while i < mPools.Length
        invariant i <= mPools.Length
        invariant forall j :: 0 <= j < |was| ==> mPools[j] == if j < i then [] else was[j]
        invariant freed == old(freed) + Concat(was[..i])
        invariant made == old(made) && asked == old(asked)
      {
        ConcatStep(was, i);
        FreeList(i);
        assert old(freed) + Concat(was[..i]) + was[i] == old(freed) + (Concat(was[..i]) + was[i]);
        mPools[i] := [];
        i := i + 1;
      }
      assert was[..i] == was;
      assert mPools[..] == seq(|was|, _ => []);
    }

    // Clear's inner loop.
    method FreeList(i: nat)
      requires i < mPools.Length
      modifies `freed
      ensures freed == old(freed) + mPools[i]
    {
      var it := 0;
      while it < |mPools[i]|
        invariant it <= |mPools[i]| && freed == old(freed) + mPools[i][..it]
      {
        assert mPools[i][..it + 1] == mPools[i][..it] + [mPools[i][it]];
        freed := freed + [mPools[i][it]];
        it := it + 1;
      }
    }
  }

  // A stream memory that takes its buffers from a pool.
  class QCameraStreamMemory {
    const mMemInfo: array<MemInfo>
    const mMemoryPool: QCameraMemoryPool
    const mStreamType: nat
    const cached: bool
    var mBufferCount: nat

    constructor (pool: QCameraMemoryPool, streamType: nat, isCached: bool)
      requires streamType < pool.mPools.Length
      ensures Valid() && fresh(mMemInfo) && mMemoryPool == pool
      ensures View() == Stream([], streamType, isCached)
    {
      mMemInfo := new MemInfo[MM_CAMERA_MAX_NUM_FRAMES](_ => MemInfo(0, 0, false, 0));
      mMemoryPool, mStreamType, cached, mBufferCount := pool, streamType, isCached, 0;
    }

    ghost predicate Valid()
      reads this
    {
      && mMemInfo.Length == MM_CAMERA_MAX_NUM_FRAMES && mBufferCount <= mMemInfo.Length
      && mStreamType < mMemoryPool.mPools.Length
    }

    ghost function View(): Stream
      reads this, mMemInfo
      requires Valid()
    {
      Stream(mMemInfo[..mBufferCount], mStreamType, cached)
    }

    // alloc's clean-up loop.
    method ReleaseFrom(i: nat)
      requires Valid() && i <= mMemInfo.Length
      modifies mMemoryPool.mPools
      ensures mMemoryPool.View() == ReleaseDown(old(mMemoryPool.View()), mStreamType, mMemInfo[..i])
    {
      ghost var p := ReleaseDown(mMemoryPool.View(), mStreamType, mMemInfo[..i]);
      var j := i;
      while j > 0
        invariant 0 <= j <= i
        invariant ReleaseDown(mMemoryPool.View(), mStreamType, mMemInfo[..j]) == p
      {
        j := j - 1;
        assert mMemInfo[..j + 1][..j] == mMemInfo[..j];
        mMemoryPool.ReleaseBuffer(mStreamType, mMemInfo[j]);
      }
    }

    method Alloc(count: nat, size: nat, grants: Grants) returns (rc: Rc)
      requires Valid()
      modifies mMemoryPool, mMemoryPool.mPools, mMemInfo
      ensures var (p, rc', all) := Filled(old(mMemoryPool.View()), old(View()), count, size, grants);
              && mMemoryPool.View() == p && rc == rc' && View() == old(View())
              && (rc.Ok? ==> mBufferCount + count <= mMemInfo.Length && mMemInfo[..mBufferCount + count] == all)
    {
      hide Acquire, ReleaseDown;
      rc := Ok;
      var newCount := mBufferCount + count;
      if newCount > MM_CAMERA_MAX_NUM_FRAMES { return BadIndex; }
      var r := Request(size, cached, IOMMU_HEAP_MASK);
      ghost var p0, slots := mMemoryPool.View(), mMemInfo[..mBufferCount];
      ghost var filled := AcquireAll(p0, mStreamType, r, slots, count, grants);
      var i := mBufferCount;
      while i < newCount
        invariant mBufferCount <= i <= newCount && mMemInfo[..mBufferCount] == slots
        invariant AcquireAll(mMemoryPool.View(), mStreamType, r, mMemInfo[..i], newCount - i, grants) == filled
      {
        var m := mMemoryPool.AllocateBuffer(mStreamType, r, grants);
        if m.None? {
          ReleaseFrom(i);
          return NoMemory;
        }
        ghost var before := mMemInfo[..i];
        mMemInfo[i] := m.value;
        assert mMemInfo[..i + 1] == before + [m.value];
        i := i + 1;
      }
    }

    method Allocate(count: nat, size: nat, grants: Grants) returns (rc: Rc)
      requires Valid()
      modifies this, mMemoryPool, mMemoryPool.mPools, mMemInfo
      ensures Valid()
      ensures (mMemoryPool.View(), View(), rc) == Allocated(old(mMemoryPool.View()), old(View()), count, size, grants)
    {
      rc := Alloc(count, size, grants);
      if rc.Ok? {
        ghost var n := mBufferCount + count;
        assert mMemInfo[..n][..count] == mMemInfo[..count];
        mBufferCount := count;
      }
    }

    method AllocateMore(count: nat, size: nat, grants: Grants) returns (rc: Rc)
      requires Valid()
      modifies this, mMemoryPool, mMemoryPool.mPools, mMemInfo
      ensures Valid()
      ensures (mMemoryPool.View(), View(), rc)
           == AllocatedMore(old(mMemoryPool.View()), old(View()), count, size, grants)
    {
      rc := Alloc(count, size, grants);
      if rc.Ok? {
        mBufferCount := mBufferCount + count;
      }
    }

    method Deallocate()
      requires Valid()
      modifies this, mMemoryPool.mPools
      ensures Valid()
      ensures (mMemoryPool.View(), View()) == Deallocated(old(mMemoryPool.View()), old(View()))
    {
      ghost var p := ReleaseUp(mMemoryPool.View(), mStreamType, mMemInfo[..mBufferCount]);
      var i := 0;
      while i < mBufferCount
        invariant i <= mBufferCount
        invariant ReleaseUp(mMemoryPool.View(), mStreamType, mMemInfo[i..mBufferCount]) == p
        modifies mMemoryPool.mPools
      {
        assert mMemInfo[i..mBufferCount][1..] == mMemInfo[i + 1..mBufferCount];
        mMemoryPool.ReleaseBuffer(mStreamType, mMemInfo[i]);
        i := i + 1;
      }
      mBufferCount := 0;
    }
  }
}
