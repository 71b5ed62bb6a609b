// LocHeapNode and LocHeap, updated in place (gps/utils/LocHeap.cpp), proved against the
// functions of HeapTree.
module LocHeaps {
  import opened Options
  import HT = HeapTree

  class LocHeapNode<D(==)> {
    var mSize: int
    var mLeft: LocHeapNode?<D>
    var mRight: LocHeapNode?<D>
    var mData: D

    // The value and the nodes of the subtree below and including this node.
    ghost var Model: HT.Tree<D>
    ghost var Repr: set<LocHeapNode<D>>

    ghost predicate Valid()
      reads this, Repr
      decreases Repr
      ensures Valid() ==> this in Repr && Model.Node?
    {
      && this in Repr
      && (mLeft != null ==>
            mLeft in Repr && mLeft.Repr <= Repr && this !in mLeft.Repr && mLeft.Valid())
      && (mRight != null ==>
            mRight in Repr && mRight.Repr <= Repr && this !in mRight.Repr && mRight.Valid())
      && (mLeft != null && mRight != null ==> mLeft.Repr !! mRight.Repr)
      && Model == HT.Node(mSize, mData, TreeAt(mLeft), TreeAt(mRight))
    }

    static ghost function TreeAt(n: LocHeapNode?<D>): HT.Tree<D>
      reads n
    {
      if n == null then HT.Empty else n.Model
    }

    // A node with nothing below it.
    ghost predicate Single()
      reads this
    {
      && mLeft == null && mRight == null
      && Repr == {this} && Model == HT.Node(mSize, mData, HT.Empty, HT.Empty)
    }

    constructor (data: D)
      ensures Single() && mSize == 1 && mData == data
    {
      mSize, mLeft, mRight, mData := 1, null, null, data;
      Model, Repr := HT.Node(1, data, HT.Empty, HT.Empty), {this};
    }

    // Exchanges the data of two nodes; links and sizes stay.
    method Swap(node: LocHeapNode<D>)
      requires this != node
      modifies this`mData, node`mData, this`Model, node`Model
      ensures mData == old(node.mData) && node.mData == old(mData)
      ensures old(Model).Node? ==> Model == old(Model).(data := mData)
      ensures old(node.Model).Node? ==> node.Model == old(node.Model).(data := node.mData)
    {
      var tmpData := node.mData;
      node.mData := mData;
      mData := tmpData;
      if Model.Node? { Model := Model.(data := mData); }
      if node.Model.Node? { node.Model := node.Model.(data := node.mData); }
    }

    // push keeps the tree sorted by rank: the higher ranked of the two data stays here.
    method Push(node: LocHeapNode<D>, out: (D, D) -> bool)
      requires Valid() && node.Single() && node.mSize == 1 && node !in Repr
      modifies Repr, node
      ensures Valid() && Repr == old(Repr) + {node}
      ensures Model == HT.Push(old(Model), old(node.mData), out)
      decreases Repr, 1
    {
      ghost var t := Model;
      if out(node.mData, mData) {
        Swap(node);
      }
      Sink(node, t, out);
    }

    // The other datum, now in the new node, goes into the missing or smaller subtree.
    method Sink(node: LocHeapNode<D>, ghost t: HT.Tree<D>, out: (D, D) -> bool)
      requires t.Node? && Valid() && Model == t.(data := mData)
      requires node.Single() && node.mSize == 1 && node !in Repr
      modifies Repr, node
      ensures Valid() && Repr == old(Repr) + {node}
      ensures Model == HT.Sink(t, old(mData), old(node.mData), out)
      decreases Repr, 0
    {
      if mLeft == null {
        mLeft := node;
      } else if mRight == null {
        mRight := node;
      } else if mLeft.mSize <= mRight.mSize {
        mLeft.Push(node, out);
      } else {
        mRight.Push(node, out);
      }
      mSize := mSize + 1;
      Repr := Repr + {node};
      Model := HT.Node(mSize, mData, TreeAt(mLeft), TreeAt(mRight));
    }

    // pop swaps the top's datum down to a leaf and cuts that leaf off. The source updates the
    // reference to the top in place; here the new top is the first result.
    static method Pop(top: LocHeapNode<D>, out: (D, D) -> bool)
        returns (newTop: LocHeapNode?<D>, popped: LocHeapNode<D>)
      requires top.Valid()
      modifies top.Repr
      ensures newTop == null || newTop == top
      ensures newTop != null ==> newTop.Valid() && newTop.Repr == old(top.Repr) - {popped}
      ensures TreeAt(newTop) == HT.Pop(old(top.Model), out)
      ensures popped in old(top.Repr) && popped.mData == old(top.mData)
      ensures popped.mLeft == null && popped.mRight == null
      decreases top.Repr, 2
    {
      popped := top;
      newTop := null;
      top.mSize := top.mSize - 1;
      top.Model := top.Model.(size := top.mSize);
      if top.mLeft != null || top.mRight != null {
        var promoteLeft := top.mLeft != null &&
                           (top.mRight == null || out(top.mLeft.mData, top.mRight.mData));
        popped := top.Promote(promoteLeft, out);
        newTop := top;
      }
    }

    // Swaps this node's datum with the chosen child's and pops it out of that child's subtree.
    method Promote(promoteLeft: bool, out: (D, D) -> bool) returns (popped: LocHeapNode<D>)
      requires Valid() && if promoteLeft then mLeft != null else mRight != null
      modifies Repr
      ensures Valid() && Repr == old(Repr) - {popped}
      ensures var t := old(Model);
              Model == if promoteLeft then t.(data := t.left.data, left := HT.Pop(t.left, out))
                       else t.(data := t.right.data, right := HT.Pop(t.right, out))
      ensures popped in old(Repr) && popped.mData == old(mData)
      ensures popped.mLeft == null && popped.mRight == null
      decreases Repr, 1
    {
      if promoteLeft {
        SwapDown(mLeft);
        popped := PopLeft(out);
      } else {
        SwapDown(mRight);
        popped := PopRight(out);
      }
    }

    method SwapDown(child: LocHeapNode<D>)
      requires Valid() && (child == mLeft || child == mRight)
      modifies this`mData, this`Model, child`mData, child`Model
      ensures Valid()
      ensures var t := old(Model);
              Model == if child == mLeft
                       then t.(data := t.left.data, left := t.left.(data := t.data))
                       else t.(data := t.right.data, right := t.right.(data := t.data))
    {
      Swap(child);
      Model := HT.Node(mSize, mData, TreeAt(mLeft), TreeAt(mRight));
    }

    method PopLeft(out: (D, D) -> bool) returns (popped: LocHeapNode<D>)
      requires Valid() && mLeft != null
      modifies Repr
      ensures Valid() && Repr == old(Repr) - {popped}
      ensures Model == old(Model).(left := HT.Pop(old(Model).left, out))
      ensures popped in old(Repr) && popped.mData == old(Model).left.data
      ensures popped.mLeft == null && popped.mRight == null
      decreases Repr, 0
    {
      mLeft, popped := Pop(mLeft, out);
      Repr := Repr - {popped};
      Model := Model.(left := TreeAt(mLeft));
    }

    method PopRight(out: (D, D) -> bool) returns (popped: LocHeapNode<D>)
      requires Valid() && mRight != null
      modifies Repr
      ensures Valid() && Repr == old(Repr) - {popped}
      ensures Model == old(Model).(right := HT.Pop(old(Model).right, out))
      ensures popped in old(Repr) && popped.mData == old(Model).right.data
      ensures popped.mLeft == null && popped.mRight == null
      decreases Repr, 0
    {
      mRight, popped := Pop(mRight, out);
      Repr := Repr - {popped};
      Model := Model.(right := TreeAt(mRight));
    }

    // remove finds the node holding data, by identity, and pops it out of its subtree; null if
    // there is none.
    static method Remove(top: LocHeapNode<D>, data: D, out: (D, D) -> bool)
        returns (newTop: LocHeapNode?<D>, removed: LocHeapNode?<D>)
      requires top.Valid()
      modifies top.Repr
      ensures newTop == null || newTop == top
      ensures newTop != null ==> newTop.Valid()
      ensures removed == null ==> newTop == top && top.Repr == old(top.Repr)
      ensures removed != null ==> removed in old(top.Repr) && removed.mData == data
      ensures removed != null && newTop != null ==> top.Repr == old(top.Repr) - {removed}
      ensures match HT.Remove(old(top.Model), data, out)
              case NotFound => removed == null && top.Model == old(top.Model)
              case Removed(rest) => removed != null && TreeAt(newTop) == rest
      decreases top.Repr, 2
    {
      newTop, removed := top, null;
      if data == top.mData {
        newTop, removed := Pop(top, out);
      } else if !out(data, top.mData) {
        removed := top.RemoveBelow(data, out);
      }
    }

    // remove, when the datum is not here but may be underneath: left subtree, then right.
    method RemoveBelow(data: D, out: (D, D) -> bool) returns (removed: LocHeapNode?<D>)
      requires Valid() && data != mData && !out(data, mData)
      modifies Repr
      ensures Valid()
      ensures removed == null ==> Repr == old(Repr)
      ensures removed != null ==>
                removed in old(Repr) && removed.mData == data && Repr == old(Repr) - {removed}
      ensures match HT.Remove(old(Model), data, out)
              case NotFound => removed == null && Model == old(Model)
              case Removed(rest) => removed != null && Model == rest
      decreases Repr, 1
    {
      removed := null;
      ghost var t := Model;
      assert t.left.Empty? ==> HT.Remove(t.left, data, out).NotFound?;
      assert t.right.Empty? ==> HT.Remove(t.right, data, out).NotFound?;
      if mLeft != null {
        removed := RemoveLeft(data, out);
      }
      if removed == null && mRight != null {
        removed := RemoveRight(data, out);
      }
      if removed != null {
        mSize := mSize - 1;
        Model := Model.(size := mSize);
      }
    }

    method RemoveLeft(data: D, out: (D, D) -> bool) returns (removed: LocHeapNode?<D>)
      requires Valid() && mLeft != null
      modifies Repr
      ensures Valid()
      ensures removed == null ==> Repr == old(Repr)
      ensures removed != null ==>
                removed in old(Repr) && removed.mData == data && Repr == old(Repr) - {removed}
      ensures match HT.Remove(old(Model).left, data, out)
              case NotFound => removed == null && Model == old(Model)
              case Removed(rest) => removed != null && Model == old(Model).(left := rest)
      ensures mRight == old(mRight)
      decreases Repr, 0
    {
      mLeft, removed := Remove(mLeft, data, out);
      Repr := Repr - {removed};
      Model := Model.(left := TreeAt(mLeft));
    }

    method RemoveRight(data: D, out: (D, D) -> bool) returns (removed: LocHeapNode?<D>)
      requires Valid() && mRight != null
      modifies Repr
      ensures Valid()
      ensures removed == null ==> Repr == old(Repr)
      ensures removed != null ==>
                removed in old(Repr) && removed.mData == data && Repr == old(Repr) - {removed}
      ensures match HT.Remove(old(Model).right, data, out)
              case NotFound => removed == null && Model == old(Model)
              case Removed(rest) => removed != null && Model == old(Model).(right := rest)
      decreases Repr, 0
    {
      mRight, removed := Remove(mRight, data, out);
      Repr := Repr - {removed};
      Model := Model.(right := TreeAt(mRight));
    }

    // The code's own consistency check.
    method CheckNodes(out: (D, D) -> bool) returns (ok: bool)
      requires Valid()
      ensures ok == HT.CheckNodes(Model, out)
      decreases Repr
    {
      var totalSize := mSize;
      if mLeft != null {
        if out(mLeft.mData, mData) { return false; }
        ok := mLeft.CheckNodes(out);
        if !ok { return false; }
        totalSize := totalSize - mLeft.mSize;
      }
      if mRight != null {
        if out(mRight.mData, mData) { return false; }
        ok := mRight.CheckNodes(out);
        if !ok { return false; }
        totalSize := totalSize - mRight.mSize;
      }
      return totalSize == 1;
    }
  }

  class LocHeap<D(==)> {
    var mTree: LocHeapNode?<D>
    const outRanks: (D, D) -> bool

    ghost predicate Valid()
      reads this, mTree, Footprint()
    {
      mTree != null ==> mTree.Valid()
    }

    ghost function Footprint(): set<object>
      reads this, mTree
    {
      {this} + if mTree == null then {} else mTree.Repr
    }

    ghost function Tree(): HT.Tree<D>
      reads this, mTree
    {
      LocHeapNode.TreeAt(mTree)
    }

    constructor (outRanks: (D, D) -> bool)
      ensures Valid() && fresh(Footprint())
      ensures Tree() == HT.Empty && this.outRanks == outRanks
    {
      mTree := null;
      this.outRanks := outRanks;
    }

    method Push(node: D)
      requires Valid()
      modifies Footprint()
      ensures Valid() && fresh(Footprint() - old(Footprint()))
      ensures Tree() == HT.Push(old(Tree()), node, outRanks)
    {
      var heapNode := new LocHeapNode(node);
      if mTree == null {
        mTree := heapNode;
      } else {
        mTree.Push(heapNode, outRanks);
      }
    }

    method Peek() returns (top: Option<D>)
      requires Valid()
      ensures top == if Tree().Empty? then None else Some(Tree().data)
    {
      top := None;
      if mTree != null {
        top := Some(mTree.mData);
      }
    }

    method Pop() returns (locNode: Option<D>)
      requires Valid()
      modifies Footprint()
      ensures Valid() && fresh(Footprint() - old(Footprint()))
      ensures old(Tree()).Empty? ==> locNode == None && Tree() == HT.Empty
      ensures old(Tree()).Node? ==>
                locNode == Some(old(Tree()).data) && Tree() == HT.Pop(old(Tree()), outRanks)
    {
      locNode := None;
      if mTree != null {
        var heapNode;
        mTree, heapNode := LocHeapNode.Pop(mTree, outRanks);
        locNode := Some(heapNode.mData);
      }
    }

    method Remove(rankable: D) returns (locNode: Option<D>)
      requires Valid()
      modifies Footprint()
      ensures Valid() && fresh(Footprint() - old(Footprint()))
      ensures match HT.Remove(old(Tree()), rankable, outRanks)
              case NotFound => locNode == None && Tree() == old(Tree())
              case Removed(rest) => locNode == Some(rankable) && Tree() == rest
    {
      locNode := None;
      if mTree != null {
        var heapNode;
        mTree, heapNode := LocHeapNode.Remove(mTree, rankable, outRanks);
        if heapNode != null {
          locNode := Some(heapNode.mData);
        }
      }
    }
  }
}
