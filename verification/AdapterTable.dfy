// The adapter table of LocApiBase (gps/core/LocApiBase.cpp): adding, removing with compaction,
// and the event masks it posts.
module AdapterTable {

  // A 32-bit event mask as the set of its bits.
  type Mask = set<nat>

  const MAX_ADAPTERS := 10

  class LocAdapter {
    var evtMask: Mask

    constructor (evtMask: Mask)
      ensures this.evtMask == evtMask
    {
      this.evtMask := evtMask;
    }

    // LocAdapterBase::updateEvtMask: the adapter's mask changes, and its LocApiBase posts anew.
    method UpdateEvtMask(event: Mask, enabled: bool, locApi: LocApiBase)
      requires locApi.Valid()
      modifies this, locApi`posted
      ensures locApi.Valid() && evtMask == if enabled then old(evtMask) + event else old(evtMask) - event
      ensures locApi.posted == old(locApi.posted) + [Union(locApi.Adapters) - locApi.excludedMask]
    {
      evtMask := if enabled then evtMask + event else evtMask - event;
      locApi.UpdateEvtMask();
    }
  }

  // ----- the table as a sequence -----

  predicate Distinct(s: seq<LocAdapter>) {
    forall i, j :: 0 <= i < j < |s| ==> s[i] != s[j]
  }

  // The masks of all the adapters or-ed together.
  function Union(s: seq<LocAdapter>): Mask
    reads s
  {
    if s == [] then {} else Union(s[..|s| - 1]) + s[|s| - 1].evtMask
  }

  // An event is in the union exactly if some adapter asks for it.
  lemma {:induction false} UnionExact(s: seq<LocAdapter>, event: nat)
    ensures event in Union(s) <==> exists i :: 0 <= i < |s| && event in s[i].evtMask
  {
    if s != [] {
      var init := s[..|s| - 1];
      UnionExact(init, event);
      if i :| 0 <= i < |s| && event in s[i].evtMask {
        assert i < |init| ==> event in init[i].evtMask;
      }
      if i :| 0 <= i < |init| && event in init[i].evtMask {
        assert event in s[i].evtMask;
      }
    }
  }

  function Position(s: seq<LocAdapter>, a: LocAdapter): (k: nat)
    ensures k <= |s| && (k < |s| <==> a in s)
    ensures k < |s| ==> s[k] == a && a !in s[..k]
  {
    if s == [] || s[0] == a then 0 else Position(s[1..], a) + 1
  }

  // addAdapter: known adapters and a full table change nothing.
  function Add(s: seq<LocAdapter>, a: LocAdapter): seq<LocAdapter> {
    if a in s || |s| == MAX_ADAPTERS then s else s + [a]
  }

  // removeAdapter: the last adapter takes the place of the removed one.
  function Remove(s: seq<LocAdapter>, a: LocAdapter): seq<LocAdapter> {
    var k := Position(s, a);
    if k == |s| then s else s[k := s[|s| - 1]][..|s| - 1]
  }

  lemma AddExact(s: seq<LocAdapter>, a: LocAdapter)
    requires Distinct(s) && |s| <= MAX_ADAPTERS
    ensures var s' := Add(s, a);
            && Distinct(s') && |s'| <= MAX_ADAPTERS && s <= s'
            && (a in s' <==> a in s || |s| < MAX_ADAPTERS)
            && Add(s', a) == s'
            && forall b :: b != a ==> (b in s' <==> b in s)
  {
  }

  // Exactly that adapter goes.
  lemma RemoveExact(s: seq<LocAdapter>, a: LocAdapter)
    requires Distinct(s)
    ensures var s' := Remove(s, a);
            && Distinct(s') && a !in s'
            && (forall b :: b != a ==> (b in s' <==> b in s))
            && |s'| == |s| - (if a in s then 1 else 0)
  {
    var k, n := Position(s, a), |s|;
    var s' := Remove(s, a);
    if k < n {
      assert forall i :: 0 <= i < n - 1 ==> s'[i] == if i == k then s[n - 1] else s[i];
      forall b | b in s && b != a ensures b in s' {
        var i :| 0 <= i < n && s[i] == b;
        assert b == s'[if i == n - 1 then k else i];
      }
    }
  }

  datatype Op = DoAdd(a: LocAdapter) | DoRemove(a: LocAdapter)

  function Apply(s: seq<LocAdapter>, op: Op): seq<LocAdapter> {
    match op
    case DoAdd(a) => Add(s, a)
    case DoRemove(a) => Remove(s, a)
  }

  function Run(s: seq<LocAdapter>, ops: seq<Op>): seq<LocAdapter>
    decreases |ops|
  {
    if ops == [] then s else Run(Apply(s, ops[0]), ops[1..])
  }

  lemma {:induction false} RunDistinct(s: seq<LocAdapter>, ops: seq<Op>)
    requires Distinct(s) && |s| <= MAX_ADAPTERS
    ensures Distinct(Run(s, ops)) && |Run(s, ops)| <= MAX_ADAPTERS
    decreases |ops|
  {
    if ops != [] {
      match ops[0] {
        case DoAdd(a) => AddExact(s, a);
        case DoRemove(a) => RemoveExact(s, a);
      }
      RunDistinct(Apply(s, ops[0]), ops[1..]);
    }
  }

  // ----- the table as the array it is -----

  class LocApiBase {
    const locAdapters: array<LocAdapter?>
    const excludedMask: Mask
    // Masks of the open messages sent so far, and calls to close().
    var posted: seq<Mask>
    var closes: nat
    ghost var Adapters: seq<LocAdapter>

    // No holes, no duplicates.
    ghost predicate Valid()
      reads this, locAdapters
    {
      && locAdapters.Length == MAX_ADAPTERS && |Adapters| <= MAX_ADAPTERS
      && Distinct(Adapters)
      && forall i :: 0 <= i < MAX_ADAPTERS ==> locAdapters[i] == Entry(i)
    }

    ghost function Entry(i: nat): LocAdapter?
      reads this
    {
      if i < |Adapters| then Adapters[i] else null
    }

    constructor (excludedMask: Mask)
      ensures Valid() && fresh(locAdapters)
      ensures Adapters == [] && posted == [] && closes == 0 && this.excludedMask == excludedMask
    {
      this.excludedMask := excludedMask;
      locAdapters := new LocAdapter?[MAX_ADAPTERS](_ => null);
      posted, closes, Adapters := [], 0, [];
    }

    method GetEvtMask() returns (mask: Mask)
      requires Valid()
      ensures mask == Union(Adapters) - excludedMask
    {
      mask := {};
      var i := 0;
      while i < MAX_ADAPTERS && locAdapters[i] != null
        invariant 0 <= i <= |Adapters| && mask == Union(Adapters[..i])
      {
        assert Adapters[..i + 1][..i] == Adapters[..i];
        mask := mask + locAdapters[i].evtMask;
        i := i + 1;
      }
      assert Adapters[..i] == Adapters;
      mask := mask - excludedMask;
    }

    method UpdateEvtMask()
      requires Valid()
      modifies this`posted
      ensures Valid() && posted == old(posted) + [Union(Adapters) - excludedMask]
    {
      var mask := GetEvtMask();
      posted := posted + [mask];
    }

    // Opens with the new adapter's own mask.
    method AddAdapter(adapter: LocAdapter?)
      requires Valid()
      modifies this`posted, this`Adapters, locAdapters
      ensures Valid() && Adapters == if adapter == null then old(Adapters) else Add(old(Adapters), adapter)
      ensures posted == old(posted) + if Adapters == old(Adapters) then [] else [adapter.evtMask]
    {
      var i := 0;
      while i < MAX_ADAPTERS && locAdapters[i] != adapter
        invariant 0 <= i <= MAX_ADAPTERS && i <= |Adapters|
        invariant adapter !in Adapters[..i]
        invariant Valid() && Adapters == old(Adapters) && posted == old(posted)
      {
        if locAdapters[i] == null {
          locAdapters[i] := adapter;
          posted := posted + [adapter.evtMask];
          Adapters := Adapters + [adapter];
          return;
        }
        i := i + 1;
      }
    }

    // Compacts the table and either closes, when it is empty now, or reopens with what is left.
    method RemoveAdapter(adapter: LocAdapter?)
      requires Valid()
      modifies this, locAdapters
      ensures Valid() && Adapters == if adapter == null then old(Adapters) else Remove(old(Adapters), adapter)
      ensures closes == old(closes) + if adapter in old(Adapters) && Adapters == [] then 1 else 0
      ensures posted == old(posted) +
                if adapter in old(Adapters) && Adapters != [] then [Union(Adapters) - excludedMask] else []
    {
      hide Union;
      ghost var s := Adapters;
      ghost var done := false;
      var i := 0;
      while i < MAX_ADAPTERS && locAdapters[i] != null
        invariant 0 <= i <= |s| && Valid()
        invariant !done ==>
                    && Adapters == s && adapter !in s[..i]
                    && posted == old(posted) && closes == old(closes)
        invariant done ==>
                    && i == |s| && adapter in s && Adapters == Remove(s, adapter) && |Adapters| < |s|
                    && closes == old(closes) + (if Adapters == [] then 1 else 0)
                    && posted == old(posted) +
                         (if Adapters != [] then [Union(Adapters) - excludedMask] else [])
        decreases MAX_ADAPTERS - i
      {
        if locAdapters[i] == adapter {
          var j := i;
          i := LastUsed(j);
          Compact(adapter, i, j);
          done := true;
          if i == 0 {
            closes := closes + 1;
          } else {
            UpdateEvtMask();
          }
        }
        i := i + 1;
      }
    }

    // The inner scan: from the freed place to the last used one.
    method LastUsed(j: nat) returns (i: nat)
      requires Valid() && j < |Adapters|
      ensures i == |Adapters| - 1
    {
      i := j + 1;
      while i < MAX_ADAPTERS && locAdapters[i] != null
        invariant j < i <= |Adapters|
      {
        i := i + 1;
      }
      i := i - 1;
    }

    // The last used adapter moves to the freed place.
    method Compact(adapter: LocAdapter, i: nat, j: nat)
      requires Valid() && j <= i == |Adapters| - 1 && Adapters[j] == adapter
      modifies locAdapters, this`Adapters
      ensures Valid() && Adapters == Remove(old(Adapters), adapter) && |Adapters| == i
    {
      ghost var s := Adapters;
      assert Position(s, adapter) == j;
      RemoveExact(s, adapter);
      Adapters := Remove(s, adapter);
      assert forall m :: 0 <= m < i ==> Adapters[m] == if m == j then s[i] else s[m];
      locAdapters[j] := null;
      // with i == j this copies the null just written
      locAdapters[j] := locAdapters[i];
      locAdapters[i] := null;
    }
  }
}
