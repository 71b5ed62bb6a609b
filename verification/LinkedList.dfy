// The doubly linked list of gps/utils/linked_list.c. Its abstract value is the sequence of
// entries from head to tail.
module LinkedLists {
  import opened Options

  // What an element carries: the datum, and whether a deallocator was given for it.
  datatype Entry<D> = Entry(data: D, dealloc: bool)

  datatype ListStatus = Success | UnavailableResource

  // The data of the entries that carry a deallocator, in order: what a flush deallocates.
  function Deallocs<D>(s: seq<Entry<D>>): seq<D> {
    if s == [] then []
    else (if s[0].dealloc then [s[0].data] else []) + Deallocs(s[1..])
  }

  lemma DeallocsStep<D>(s: seq<Entry<D>>)
    ensures Deallocs(s) == if s == [] then [] else (if s[0].dealloc then [s[0].data] else []) + Deallocs(s[1..])
  {
  }

  lemma DeallocsOne<D>(e: Entry<D>)
    ensures Deallocs([e]) == if e.dealloc then [e.data] else []
  {
  }

  lemma {:induction false} DeallocsSplit<D>(s: seq<Entry<D>>, t: seq<Entry<D>>)
    ensures Deallocs(s + t) == Deallocs(s) + Deallocs(t)
  {
    hide Deallocs;
    DeallocsStep(s);
    if s == [] {
      assert s + t == t;
    } else {
      DeallocsStep(s + t);
      DeallocsSplit(s[1..], t);
      assert (s + t)[1..] == s[1..] + t;
    }
  }

  // The position nearest the head whose datum matches, |s| if there is none.
  function FirstMatch<D>(s: seq<Entry<D>>, equal: D -> bool): (k: nat)
    ensures k <= |s|
    ensures forall j :: 0 <= j < k ==> !equal(s[j].data)
    ensures k < |s| ==> equal(s[k].data)
  {
    if s == [] || equal(s[0].data) then 0 else FirstMatch(s[1..], equal) + 1
  }

  class ListElement<D> {
    var next: ListElement?<D>
    var prev: ListElement?<D>
    const entry: Entry<D>

    constructor (entry: Entry<D>)
      ensures next == null && prev == null && this.entry == entry
    {
      next, prev, this.entry := null, null, entry;
    }
  }

  class LinkedList<D> {
    var pHead: ListElement?<D>
    var pTail: ListElement?<D>
    // Calls made to deallocators so far, in order.
    var deallocated: seq<D>
    // The elements from head to tail.
    ghost var Elements: seq<ListElement<D>>

    ghost function Repr(): set<object>
      reads this
    {
      {this} + (set e: object | e in Elements)
    }

    static ghost function Entries(elements: seq<ListElement<D>>): (s: seq<Entry<D>>)
      ensures |s| == |elements|
    {
      seq(|elements|, i requires 0 <= i < |elements| => elements[i].entry)
    }

    ghost predicate Valid()
      reads this, Elements
    {
      && (forall i, j :: 0 <= i < j < |Elements| ==> Elements[i] != Elements[j])
      && Linked()
    }

    // head, tail, next and prev all describe the same sequence.
    ghost predicate Linked()
      reads this, Elements
    {
      && pHead == At(0) && pTail == At(|Elements| - 1)
      && (Elements != [] ==> Elements[0].prev == null && Elements[|Elements| - 1].next == null)
      && (forall i {:trigger Elements[i].next} :: 0 <= i < |Elements| - 1 ==> Elements[i].next == Elements[i + 1])
      && (forall i {:trigger Elements[i].prev} :: 0 < i < |Elements| ==> Elements[i].prev == Elements[i - 1])
    }

    // The element at a position, null beyond either end.
    ghost function At(i: int): ListElement?<D>
      reads this
    {
      if 0 <= i < |Elements| then Elements[i] else null
    }

    ghost function Contents(): seq<Entry<D>>
      reads this
    {
      Entries(Elements)
    }

    constructor ()
      ensures Valid() && fresh(Repr()) && Contents() == [] && deallocated == []
    {
      pHead, pTail, deallocated, Elements := null, null, [], [];
    }

    // Puts a new element at the head.
    method Add(data: D, dealloc: bool) returns (status: ListStatus)
      requires Valid()
      modifies Repr()
      ensures Valid() && fresh(Repr() - old(Repr()))
      ensures status == Success && deallocated == old(deallocated)
      ensures Contents() == [Entry(data, dealloc)] + old(Contents())
    {
      var elem := new ListElement(Entry(data, dealloc));
      var tmp := pHead;
      pHead := elem;
      pHead.next := tmp;
      if tmp != null {
        tmp.prev := pHead;
      } else {
        pTail := pHead;
      }
      Elements := [elem] + Elements;
      status := Success;
    }

    // Takes the element at the tail.
    method Remove() returns (status: ListStatus, data: Option<D>)
      requires Valid()
      modifies Repr()
      ensures Valid() && fresh(Repr() - old(Repr()))
      ensures deallocated == old(deallocated)
      ensures old(Contents()) == [] ==> status == UnavailableResource && data == None && Contents() == []
      ensures old(Contents()) != [] ==>
                var last := |old(Contents())| - 1;
                && status == Success && data == Some(old(Contents())[last].data)
                && Contents() == old(Contents())[..last]
    {
      if pTail == null {
        return UnavailableResource, None;
      }
      var tmp := pTail;
      pTail := tmp.prev;
      if pTail != null {
        pTail.next := null;
      } else {
        pHead := pTail;
      }
      Elements := Elements[..|Elements| - 1];
      return Success, Some(tmp.entry.data);
    }

    method IsEmpty() returns (empty: bool)
      requires Valid()
      ensures empty <==> Contents() == []
    {
      empty := pHead == null;
    }

    // Drops every element, deallocating the data of those that carry a deallocator.
    method Flush() returns (status: ListStatus)
      requires Valid()
      modifies this
      ensures Valid() && fresh(Repr() - old(Repr()))
      ensures status == Success && Contents() == []
      ensures deallocated == old(deallocated) + Deallocs(old(Contents()))
    {
      ghost var all := Contents();
      ghost var i := 0;
      while pHead != null
        invariant 0 <= i <= |all| == |Elements| && Elements == old(Elements)
        invariant pHead == At(i)
        invariant deallocated == old(deallocated) + Deallocs(all[..i])
        decreases |all| - i
      {
        var tmp := pHead.next;
        DeallocsSplit(all[..i], [all[i]]);
        assert all[..i + 1] == all[..i] + [all[i]];
        if pHead.entry.dealloc {
          deallocated := deallocated + [pHead.entry.data];
        }
        pHead := tmp;
        i := i + 1;
      }
      assert all[..i] == all;
      pTail := null;
      Elements := [];
      status := Success;
    }

    // Looks for the match nearest the head, and takes it out if asked to. Its datum is handed
    // over if the caller wants it; if not, removing it also deallocates it.
    method Search(equal: D -> bool, wanted: bool, rmIfFound: bool)
        returns (status: ListStatus, data: Option<D>)
      requires Valid()
      modifies Repr()
      ensures Valid() && fresh(Repr() - old(Repr()))
      ensures status == if old(Contents()) == [] then UnavailableResource else Success
      ensures var s := old(Contents());
              var k := FirstMatch(s, equal);
              if k == |s| then
                data == None && Contents() == s && deallocated == old(deallocated)
              else
                && data == (if wanted then Some(s[k].data) else None)
                && Contents() == (if rmIfFound then s[..k] + s[k + 1..] else s)
                && deallocated == old(deallocated) +
                     if rmIfFound && !wanted && s[k].dealloc then [s[k].data] else []
    {
      if pTail == null {
        return UnavailableResource, None;
      }
      status, data := Success, None;
      ghost var s := Contents();
      ghost var k := FirstMatch(s, equal);
      ghost var i := 0;
      var tmp := pHead;
      while tmp != null
        invariant 0 <= i <= |s| && tmp == At(i) && i <= k
        invariant data == None && Valid() && Contents() == s
        invariant Repr() == old(Repr()) && deallocated == old(deallocated)
        decreases |s| - i
      {
        assert s[i] == tmp.entry;
        if equal(tmp.entry.data) {
          assert i == k;
          if wanted {
            data := Some(tmp.entry.data);
          }
          if rmIfFound {
            TakeOut(tmp, i, !wanted);
          }
          return;
        }
        tmp := tmp.next;
        i := i + 1;
      }
    }

    // Removes a found element; its datum is deallocated unless the caller got it.
    method TakeOut(tmp: ListElement<D>, ghost i: nat, unwanted: bool)
      requires Valid() && i < |Elements| && tmp == Elements[i]
      modifies Repr()
      ensures Valid() && Repr() <= old(Repr())
      ensures Contents() == old(Contents())[..i] + old(Contents())[i + 1..]
      ensures deallocated == old(deallocated) + if unwanted then Deallocs([tmp.entry]) else []
    {
      DeallocsOne(tmp.entry);
      hide Deallocs;
      Unlink(tmp, i);
      if unwanted && tmp.entry.dealloc {
        deallocated := deallocated + [tmp.entry.data];
      }
    }

    // Takes one element out of the chain, wherever it is.
    method Unlink(tmp: ListElement<D>, ghost i: nat)
      requires Valid() && i < |Elements| && tmp == Elements[i]
      modifies Repr()
      ensures Valid() && Elements == old(Elements)[..i] + old(Elements)[i + 1..]
      ensures deallocated == old(deallocated)
    {
      ghost var before := Elements;
      assert i > 0 ==> tmp.prev == before[i - 1];
      assert i + 1 < |before| ==> tmp.next == before[i + 1];
      if tmp.prev == null {
        pHead := tmp.next;
      } else {
        tmp.prev.next := tmp.next;
      }
      if tmp.next == null {
        pTail := tmp.prev;
      } else {
        tmp.next.prev := tmp.prev;
      }
      tmp.prev, tmp.next := null, null;
      Elements := before[..i] + before[i + 1..];
    }
  }
}
