// The value of a LocHeap: a binary tree whose nodes cache the size of their own subtree, and
// the functions that LocHeapNode's methods compute on it (gps/utils/LocHeap.cpp).
// Everything is stated for an arbitrary ranking, as LocRankable::ranks is a virtual method.
module HeapTree {

  // What LocRankable::outRanks must be for a heap to make sense: "ranks higher than" of a total
  // preorder, that is, asymmetric, with "does not rank higher than" transitive.
  ghost predicate Ranking<D(!new)>(out: (D, D) -> bool) {
    && (forall a, b :: out(a, b) ==> !out(b, a))
    && (forall a, b, c {:trigger Chain(a, b, c)} ::
          Chain(a, b, c) && !out(a, b) && !out(b, c) ==> !out(a, c))
  }

  // Always true; naming a chain is what makes the verifier use transitivity on it.
  ghost predicate Chain<D>(a: D, b: D, c: D) { true }

  datatype Tree<D> = Empty | Node(size: int, data: D, left: Tree<D>, right: Tree<D>)

  function Elements<D>(t: Tree<D>): multiset<D> {
    match t
    case Empty => multiset{}
    case Node(_, d, l, r) => multiset{d} + Elements(l) + Elements(r)
  }

  function Count<D>(t: Tree<D>): nat {
    match t
    case Empty => 0
    case Node(_, _, l, r) => 1 + Count(l) + Count(r)
  }

  function Height<D>(t: Tree<D>): nat {
    match t
    case Empty => 0
    case Node(_, _, l, r) => 1 + if Height(l) < Height(r) then Height(r) else Height(l)
  }

  // ----- what a heap is, said without the code's own check -----

  // No element of the tree outranks x.
  ghost predicate Dominates<D>(x: D, t: Tree<D>, out: (D, D) -> bool) {
    forall y :: y in Elements(t) ==> !out(y, x)
  }

  // Every node is outranked by none of its descendants.
  ghost predicate Ordered<D>(t: Tree<D>, out: (D, D) -> bool) {
    t.Node? ==>
      && Dominates(t.data, t.left, out) && Dominates(t.data, t.right, out)
      && Ordered(t.left, out) && Ordered(t.right, out)
  }

  // Every node caches the number of nodes in its own subtree.
  ghost predicate Sized<D>(t: Tree<D>) {
    t.Node? ==> t.size == Count(t) && Sized(t.left) && Sized(t.right)
  }

  ghost predicate IsHeap<D>(t: Tree<D>, out: (D, D) -> bool) {
    Ordered(t, out) && Sized(t)
  }

  // LocHeapNode::checkNodes: each child against its parent only, and the cached sizes against
  // each other. (On an empty subtree: nothing to check.)
  predicate CheckNodes<D>(t: Tree<D>, out: (D, D) -> bool) {
    match t
    case Empty => true
    case Node(n, d, l, r) =>
      && (l.Node? ==> !out(l.data, d) && CheckNodes(l, out))
      && (r.Node? ==> !out(r.data, d) && CheckNodes(r, out))
      && n - (if l.Node? then l.size else 0) - (if r.Node? then r.size else 0) == 1
  }

  lemma {:induction false} ElementsCount<D>(t: Tree<D>)
    ensures |Elements(t)| == Count(t)
  {
    if t.Node? {
      ElementsCount(t.left);
      ElementsCount(t.right);
    }
  }

  lemma {:induction false} CheckedSize<D>(t: Tree<D>, out: (D, D) -> bool)
    requires CheckNodes(t, out)
    ensures t.Node? ==> t.size == Count(t)
  {
    if t.Node? {
      CheckedSize(t.left, out);
      CheckedSize(t.right, out);
    }
  }

  // Local order makes the top outranked by no element.
  lemma {:induction false} TopDominates<D(!new)>(t: Tree<D>, out: (D, D) -> bool)
    requires Ranking(out)
    requires t.Node? && CheckNodes(t, out)
    ensures Dominates(t.data, t, out)
  {
    var Node(_, d, l, r) := t;
    if l.Node? { TopDominates(l, out); }
    if r.Node? { TopDominates(r, out); }
    forall y | y in Elements(t) ensures !out(y, d) {
      if y in Elements(l) {
        assert Chain(y, l.data, d);
      } else if y in Elements(r) {
        assert Chain(y, r.data, d);
      } else {
        assert y == d;
      }
    }
  }

  // The code's local check is exactly the global heap property.
  lemma CheckNodesIsHeap<D(!new)>(t: Tree<D>, out: (D, D) -> bool)
    requires Ranking(out)
    ensures CheckNodes(t, out) <==> IsHeap(t, out)
  {
    if CheckNodes(t, out) {
      CheckedIsOrdered(t, out);
      CheckedIsSized(t, out);
    }
    if IsHeap(t, out) {
      HeapIsChecked(t, out);
    }
  }

  lemma {:induction false} CheckedIsOrdered<D(!new)>(t: Tree<D>, out: (D, D) -> bool)
    requires Ranking(out)
    requires CheckNodes(t, out)
    ensures Ordered(t, out)
  {
    if t.Node? {
      TopDominates(t, out);
      DominatesBelow(t.data, t, out);
      CheckedIsOrdered(t.left, out);
      CheckedIsOrdered(t.right, out);
    }
  }

  lemma DominatesBelow<D>(d: D, t: Tree<D>, out: (D, D) -> bool)
    requires t.Node? && Dominates(d, t, out)
    ensures Dominates(d, t.left, out) && Dominates(d, t.right, out)
  {
    assert Elements(t.left) <= Elements(t) && Elements(t.right) <= Elements(t);
  }

  lemma {:induction false} CheckedIsSized<D>(t: Tree<D>, out: (D, D) -> bool)
    requires CheckNodes(t, out)
    ensures Sized(t)
  {
    if t.Node? {
      CheckedIsSized(t.left, out);
      CheckedIsSized(t.right, out);
      CheckedSize(t, out);
    }
  }

  lemma {:induction false} HeapIsChecked<D>(t: Tree<D>, out: (D, D) -> bool)
    requires Ordered(t, out) && Sized(t)
    ensures CheckNodes(t, out)
  {
    if t.Node? {
      HeapIsChecked(t.left, out);
      HeapIsChecked(t.right, out);
      DominatesTop(t.data, t.left, out);
      DominatesTop(t.data, t.right, out);
      SizedTop(t.left);
      SizedTop(t.right);
    }
  }

  lemma DominatesTop<D>(d: D, t: Tree<D>, out: (D, D) -> bool)
    requires Dominates(d, t, out)
    ensures t.Node? ==> !out(t.data, d)
  {
    assert t.Node? ==> t.data in Elements(t);
  }

  lemma SizedTop<D>(t: Tree<D>)
    requires Sized(t)
    ensures (if t.Node? then t.size else 0) == Count(t)
  {
  }

  // ----- push -----

  // LocHeapNode::push, first half: keep the higher ranked datum here.
  function Push<D>(t: Tree<D>, x: D, out: (D, D) -> bool): (r: Tree<D>)
    ensures r.Node?
    decreases t, 1
  {
    if t.Empty? then Node(1, x, Empty, Empty)
    else if out(x, t.data) then Sink(t, x, t.data, out)
    else Sink(t, t.data, x, out)
  }

  // Second half: send the other one into the missing or smaller subtree.
  function Sink<D>(t: Tree<D>, keep: D, drop: D, out: (D, D) -> bool): (r: Tree<D>)
    requires t.Node?
    ensures r.Node?
    decreases t, 0
  {
    var Node(n, _, l, r) := t;
    if l.Empty? || (r.Node? && l.size <= r.size) then Node(n + 1, keep, Push(l, drop, out), r)
    else Node(n + 1, keep, l, Push(r, drop, out))
  }

  lemma {:induction false} PushElements<D>(t: Tree<D>, x: D, out: (D, D) -> bool)
    ensures Elements(Push(t, x, out)) == Elements(t) + multiset{x}
    ensures Count(Push(t, x, out)) == Count(t) + 1
    decreases t, 1
  {
    if t.Node? {
      if out(x, t.data) {
        SinkElements(t, x, t.data, out);
        Regroup(multiset{t.data}, multiset{x}, Elements(t.left), Elements(t.right));
      } else {
        SinkElements(t, t.data, x, out);
      }
    }
  }

  lemma {:induction false} SinkElements<D>(t: Tree<D>, keep: D, drop: D, out: (D, D) -> bool)
    requires t.Node?
    ensures Elements(Sink(t, keep, drop, out))
         == multiset{keep} + Elements(t.left) + Elements(t.right) + multiset{drop}
    ensures Count(Sink(t, keep, drop, out)) == Count(t) + 1
    decreases t, 0
  {
    PushElements(t.left, drop, out);
    PushElements(t.right, drop, out);
    Regroup(multiset{keep}, multiset{drop}, Elements(t.left), Elements(t.right));
  }

  // Where in a node an element sits does not matter to the contents.
  lemma Regroup<D>(a: multiset<D>, b: multiset<D>, l: multiset<D>, r: multiset<D>)
    ensures a + (l + b) + r == a + l + r + b
    ensures a + l + (r + b) == a + l + r + b
    ensures a + l + r + b == b + l + r + a
  {
  }

  lemma {:induction false} PushKeepsHeap<D(!new)>(t: Tree<D>, x: D, out: (D, D) -> bool)
    requires Ranking(out)
    requires CheckNodes(t, out)
    ensures var t' := Push(t, x, out);
            && CheckNodes(t', out)
            && t'.size == (if t.Node? then t.size else 0) + 1
            && t'.data == if t.Node? && !out(x, t.data) then t.data else x
    decreases t, 1
  {
    if t.Node? {
      if out(x, t.data) {
        assert t.left.Node? ==> Chain(t.left.data, t.data, x);
        assert t.right.Node? ==> Chain(t.right.data, t.data, x);
        SinkKeepsHeap(t, x, t.data, out);
      } else {
        SinkKeepsHeap(t, t.data, x, out);
      }
    }
  }

  lemma {:induction false} SinkKeepsHeap<D(!new)>(t: Tree<D>, keep: D, drop: D, out: (D, D) -> bool)
    requires Ranking(out)
    requires t.Node? && CheckNodes(t, out)
    requires !out(drop, keep)
    requires t.left.Node? ==> !out(t.left.data, keep)
    requires t.right.Node? ==> !out(t.right.data, keep)
    ensures CheckNodes(Sink(t, keep, drop, out), out)
    ensures Sink(t, keep, drop, out).size == t.size + 1 && Sink(t, keep, drop, out).data == keep
    decreases t, 0
  {
    PushKeepsHeap(t.left, drop, out);
    PushKeepsHeap(t.right, drop, out);
  }

  // A push goes into one subtree only: the left one if it or the right one is missing as the code
  // tests it, or if it is no larger; the other subtree and what is below stays as it is.
  lemma PushGoesToTheSmaller<D>(t: Tree<D>, x: D, out: (D, D) -> bool)
    requires t.Node?
    ensures var t' := Push(t, x, out);
            var left := t.left.Empty? || (t.right.Node? && t.left.size <= t.right.size);
            && t'.size == t.size + 1
            && (if left then t'.right == t.right else t'.left == t.left)
            && Count(t'.left) == Count(t.left) + (if left then 1 else 0)
            && Count(t'.right) == Count(t.right) + (if left then 0 else 1)
            && t'.data == (if out(x, t.data) then x else t.data)
  {
    var keep, drop := if out(x, t.data) then x else t.data, if out(x, t.data) then t.data else x;
    PushElements(t.left, drop, out);
    PushElements(t.right, drop, out);
  }

  // ----- pop -----

  // Which child LocHeapNode::pop promotes.
  predicate PromotesLeft<D>(l: Tree<D>, r: Tree<D>, out: (D, D) -> bool)
    requires l.Node? || r.Node?
  {
    l.Node? && (r.Empty? || out(l.data, r.data))
  }

  // LocHeapNode::pop: what is left once the top's datum has been swapped down to a leaf and
  // that leaf cut off. The popped datum is t.data.
  function Pop<D>(t: Tree<D>, out: (D, D) -> bool): Tree<D>
    requires t.Node?
  {
    var Node(n, d, l, r) := t;
    if l.Empty? && r.Empty? then Empty
    else if PromotesLeft(l, r, out) then Node(n - 1, l.data, Pop(l, out), r)
    else Node(n - 1, r.data, l, Pop(r, out))
  }

  lemma {:induction false} PopElements<D>(t: Tree<D>, out: (D, D) -> bool)
    requires t.Node?
    ensures Elements(Pop(t, out)) + multiset{t.data} == Elements(t)
    ensures Count(Pop(t, out)) + 1 == Count(t)
  {
    var Node(n, d, l, r) := t;
    if l.Empty? && r.Empty? {
    } else if PromotesLeft(l, r, out) {
      PopElements(l, out);
    } else {
      PopElements(r, out);
    }
  }

  lemma {:induction false} PopKeepsHeap<D(!new)>(t: Tree<D>, out: (D, D) -> bool)
    requires Ranking(out)
    requires t.Node? && CheckNodes(t, out)
    ensures var t' := Pop(t, out);
            && CheckNodes(t', out)
            && (if t'.Node? then t'.size else 0) == t.size - 1
            && (t'.Node? ==> !out(t'.data, t.data))
  {
    var Node(n, d, l, r) := t;
    CheckedSize(t, out);
    if l.Empty? && r.Empty? {
    } else if PromotesLeft(l, r, out) {
      PopKeepsHeap(l, out);
    } else {
      PopKeepsHeap(r, out);
    }
  }

  // A pop promotes one child and leaves the other subtree as it is: the left child only if the right
  // one is missing or outranked by it, so the right one on a tie.
  lemma PopPromotesOne<D>(t: Tree<D>, out: (D, D) -> bool)
    requires t.Node? && (t.left.Node? || t.right.Node?)
    ensures var t' := Pop(t, out);
            var left := t.left.Node? && (t.right.Empty? || out(t.left.data, t.right.data));
            && t'.Node? && t'.size == t.size - 1
            && (if left then t'.data == t.left.data && t'.right == t.right && t'.left == Pop(t.left, out)
                else t'.data == t.right.data && t'.left == t.left && t'.right == Pop(t.right, out))
  {
  }

  // ----- remove -----

  datatype Removal<D> = NotFound | Removed(rest: Tree<D>)

  // LocHeapNode::remove: look for x by identity, left before right, skipping every subtree whose
  // top x outranks.
  function Remove<D(==)>(t: Tree<D>, x: D, out: (D, D) -> bool): Removal<D> {
    match t
    case Empty => NotFound
    case Node(n, d, l, r) =>
      if d == x then Removed(Pop(t, out))
      else if out(x, d) then NotFound
      else
        match Remove(l, x, out)
        case Removed(l') => Removed(Node(n - 1, d, l', r))
        case NotFound =>
          match Remove(r, x, out)
          case Removed(r') => Removed(Node(n - 1, d, l, r'))
          case NotFound => NotFound
  }

  // Pruning loses nothing: remove succeeds exactly on the elements, takes out exactly one
  // occurrence, keeps the heap, and disturbs the top only if the top was what it removed.
  lemma {:induction false} RemoveExact<D(!new)>(t: Tree<D>, x: D, out: (D, D) -> bool)
    requires Ranking(out)
    requires CheckNodes(t, out)
    ensures Remove(t, x, out).Removed? <==> x in Elements(t)
    ensures Remove(t, x, out).Removed? ==>
              var rest := Remove(t, x, out).rest;
              && Elements(rest) + multiset{x} == Elements(t)
              && Count(rest) + 1 == Count(t)
  {
    if t.Node? {
      if out(x, t.data) {
        TopDominates(t, out);
      } else if t.data != x {
        RemoveExact(t.left, x, out);
        RemoveExact(t.right, x, out);
      }
    }
    if Remove(t, x, out).Removed? {
      RemoveElements(t, x, out);
    }
  }

  lemma {:induction false} RemoveElements<D>(t: Tree<D>, x: D, out: (D, D) -> bool)
    requires Remove(t, x, out).Removed?
    ensures var rest := Remove(t, x, out).rest;
            && Elements(rest) + multiset{x} == Elements(t)
            && Count(rest) + 1 == Count(t)
  {
    var Node(n, d, l, r) := t;
    if d == x {
      PopElements(t, out);
    } else if Remove(l, x, out).Removed? {
      RemoveElements(l, x, out);
      Regroup(multiset{d}, multiset{x}, Elements(Remove(l, x, out).rest), Elements(r));
    } else {
      RemoveElements(r, x, out);
      Regroup(multiset{d}, multiset{x}, Elements(l), Elements(Remove(r, x, out).rest));
    }
  }

  lemma {:induction false} RemoveKeepsHeap<D(!new)>(t: Tree<D>, x: D, out: (D, D) -> bool)
    requires Ranking(out)
    requires CheckNodes(t, out)
    ensures Remove(t, x, out).Removed? ==>
              var rest := Remove(t, x, out).rest;
              && t.Node?
              && CheckNodes(rest, out)
              && (if rest.Node? then rest.size else 0) == t.size - 1
              && (rest.Node? ==> !out(rest.data, t.data))
              && (t.data != x ==> rest.Node? && rest.data == t.data)
  {
    match t
    case Empty =>
    case Node(n, d, l, r) =>
      assert !out(d, d);
      if d == x {
        PopKeepsHeap(t, out);
      } else {
        RemoveKeepsHeap(l, x, out);
        RemoveKeepsHeap(r, x, out);
        if l.Node? && Remove(l, x, out).Removed? && Remove(l, x, out).rest.Node? {
          assert Chain(Remove(l, x, out).rest.data, l.data, d);
        }
        if r.Node? && Remove(r, x, out).Removed? && Remove(r, x, out).rest.Node? {
          assert Chain(Remove(r, x, out).rest.data, r.data, d);
        }
      }
  }

  // A datum that is not on top is removed from the left subtree if it is there, and then the right
  // one stays as it is, and from the right one otherwise.
  lemma RemoveLooksLeftFirst<D(!new)>(t: Tree<D>, x: D, out: (D, D) -> bool)
    requires Ranking(out) && CheckNodes(t, out) && t.Node? && t.data != x && x in Elements(t)
    ensures Remove(t, x, out).Removed?
    ensures var rest := Remove(t, x, out).rest;
            && rest.Node? && rest.data == t.data && rest.size == t.size - 1
            && (if x in Elements(t.left)
                then rest.right == t.right && Elements(rest.left) + multiset{x} == Elements(t.left)
                else rest.left == t.left && Elements(rest.right) + multiset{x} == Elements(t.right))
  {
    TopDominates(t, out);
    RemoveExact(t, x, out);
    RemoveExact(t.left, x, out);
    RemoveExact(t.right, x, out);
  }

  // And nothing is looked for below a top that it outranks, whatever is there.
  lemma RemoveSkips<D(!new)>(t: Tree<D>, x: D, out: (D, D) -> bool)
    requires t.Node? && t.data != x && out(x, t.data)
    ensures Remove(t, x, out).NotFound?
  {
  }

  // ----- shape of a tree that was only ever pushed into -----

  ghost predicate Braun<D>(t: Tree<D>) {
    match t
    case Empty => true
    case Node(_, _, l, r) => 0 <= Count(l) - Count(r) <= 1 && Braun(l) && Braun(r)
  }

  function PushAll<D>(t: Tree<D>, xs: seq<D>, out: (D, D) -> bool): Tree<D>
    decreases |xs|
  {
    if xs == [] then t else PushAll(Push(t, xs[0], out), xs[1..], out)
  }

  // Calls LocHeapNode::push makes on one push into a non-empty tree.
  function PushCalls<D>(t: Tree<D>): nat {
    match t
    case Empty => 0
    case Node(_, _, l, r) =>
      1 + if l.Empty? || r.Empty? then 0
          else if l.size <= r.size then PushCalls(l) else PushCalls(r)
  }

  function Pow2(n: nat): nat { if n == 0 then 1 else 2 * Pow2(n - 1) }

  lemma {:induction false} PushKeepsBraun<D(!new)>(t: Tree<D>, x: D, out: (D, D) -> bool)
    requires Sized(t) && Braun(t)
    ensures Braun(Push(t, x, out))
    decreases t, 1
  {
    if t.Node? {
      SinkKeepsBraun(t, x, t.data, out);
      SinkKeepsBraun(t, t.data, x, out);
    }
  }

  lemma {:induction false} SinkKeepsBraun<D(!new)>(t: Tree<D>, keep: D, drop: D, out: (D, D) -> bool)
    requires t.Node? && Sized(t) && Braun(t)
    ensures Braun(Sink(t, keep, drop, out))
    decreases t, 0
  {
    PushElements(t.left, drop, out);
    PushElements(t.right, drop, out);
    PushKeepsBraun(t.left, drop, out);
    PushKeepsBraun(t.right, drop, out);
  }

  lemma {:induction false} BraunHeight<D>(t: Tree<D>)
    requires Braun(t) && t.Node?
    ensures Pow2(Height(t) - 1) <= Count(t) < Pow2(Height(t))
  {
    hide Pow2;
    var l, r := t.left, t.right;
    Pow2Facts();
    if l.Node? {
      BraunHeight(l);
      if r.Node? {
        BraunHeight(r);
        BraunHeights(Height(l), Height(r), Count(l), Count(r));
      } else {
        OneNodeHeight(Height(l), Count(l));
      }
    }
  }

  lemma Pow2Facts()
    ensures Pow2(0) == 1 && Pow2(1) == 2 && Pow2(2) == 4
  {
  }

  lemma OneNodeHeight(h: nat, n: nat)
    requires 0 < h && Pow2(h - 1) <= n <= 1
    ensures h == 1 && n == 1
  {
    if h > 1 { Pow2Monotone(1, h - 1); }
  }

  // The two subtrees of a Braun tree: the left one decides the height.
  lemma BraunHeights(hl: nat, hr: nat, nl: nat, nr: nat)
    requires 0 < hl && 0 < hr && 0 <= nl - nr <= 1
    requires Pow2(hl - 1) <= nl < Pow2(hl) && Pow2(hr - 1) <= nr < Pow2(hr)
    ensures var h := if hl < hr then hr else hl;
            Pow2(h) <= 1 + nl + nr < Pow2(h + 1)
  {
    if hl < hr { Pow2Monotone(hl, hr - 1); }
    if hr < hl { Pow2Monotone(hr, hl - 1); }
  }

  lemma {:induction false} Pow2Monotone(a: nat, b: nat)
    requires a <= b
    ensures Pow2(a) <= Pow2(b)
    decreases b
  {
    if a < b { Pow2Monotone(a, b - 1); }
  }

  lemma {:induction false} PushCallsBound<D>(t: Tree<D>)
    ensures PushCalls(t) <= Height(t)
  {
    if t.Node? {
      PushCallsBound(t.left);
      PushCallsBound(t.right);
    }
  }

  // After any pushes into an empty heap: contents, Braun shape, height floor(log2 n) + 1, and
  // the next push recurses no deeper than that.
  lemma {:induction false} PushOnlyIsBraun<D(!new)>(xs: seq<D>, out: (D, D) -> bool)
    requires Ranking(out)
    ensures var t := PushAll(Empty, xs, out);
            && Elements(t) == multiset(xs)
            && IsHeap(t, out) && Braun(t)
            && PushCalls(t) <= Height(t)
            && (xs != [] ==> Height(t) >= 1 && Pow2(Height(t) - 1) <= |xs| < Pow2(Height(t)))
  {
    hide Elements, CheckNodes, Braun, Pow2, Height, PushCalls, IsHeap;
    var t := PushAll(Empty, xs, out);
    EmptyFacts<D>(out);
    PushAllShape(Empty, xs, out);
    CheckNodesIsHeap(t, out);
    PushCallsBound(t);
    if xs != [] {
      BraunHeight(t);
      HeightPositive(t);
      ElementsCount(t);
      assert multiset{} + multiset(xs) == multiset(xs);
      assert |multiset(xs)| == |xs|;
    }
  }

  lemma EmptyFacts<D>(out: (D, D) -> bool)
    ensures CheckNodes(Tree<D>.Empty, out) && Braun(Tree<D>.Empty) && Elements(Tree<D>.Empty) == multiset{}
  {
  }

  lemma HeightPositive<D>(t: Tree<D>)
    requires t.Node?
    ensures Height(t) >= 1
  {
  }

  lemma {:induction false} PushAllShape<D(!new)>(t: Tree<D>, xs: seq<D>, out: (D, D) -> bool)
    requires Ranking(out)
    requires CheckNodes(t, out) && Braun(t)
    ensures CheckNodes(PushAll(t, xs, out), out) && Braun(PushAll(t, xs, out))
    ensures Elements(PushAll(t, xs, out)) == Elements(t) + multiset(xs)
    ensures xs != [] || t.Node? ==> PushAll(t, xs, out).Node?
    decreases |xs|
  {
    if xs != [] {
      var t' := Push(t, xs[0], out);
      PushKeepsHeap(t, xs[0], out);
      PushElements(t, xs[0], out);
      CheckedIsSized(t, out);
      PushKeepsBraun(t, xs[0], out);
      PushAllShape(t', xs[1..], out);
      SplitFirst(xs);
    }
  }

  lemma SplitFirst<D>(xs: seq<D>)
    requires xs != []
    ensures multiset(xs) == multiset{xs[0]} + multiset(xs[1..])
  {
    assert xs == [xs[0]] + xs[1..];
  }

  // ----- whole runs -----

  datatype Op<D> = DoPush(x: D) | DoPop | DoRemove(x: D)

  // A heap with its history: what was pushed into it and what pop and remove handed back.
  datatype Ledger<D> = Ledger(tree: Tree<D>, pushed: multiset<D>, popped: multiset<D>, removed: multiset<D>)

  function Apply<D(==)>(s: Ledger<D>, op: Op<D>, out: (D, D) -> bool): Ledger<D> {
    match op
    case DoPush(x) => s.(tree := Push(s.tree, x, out), pushed := s.pushed + multiset{x})
    case DoPop =>
      if s.tree.Empty? then s
      else s.(tree := Pop(s.tree, out), popped := s.popped + multiset{s.tree.data})
    case DoRemove(x) =>
      match Remove(s.tree, x, out)
      case NotFound => s
      case Removed(rest) => s.(tree := rest, removed := s.removed + multiset{x})
  }

  function Run<D(==)>(s: Ledger<D>, ops: seq<Op<D>>, out: (D, D) -> bool): Ledger<D>
    decreases |ops|
  {
    if ops == [] then s else Run(Apply(s, ops[0], out), ops[1..], out)
  }

  ghost predicate Balanced<D>(s: Ledger<D>, out: (D, D) -> bool) {
    CheckNodes(s.tree, out) && s.pushed == Elements(s.tree) + s.popped + s.removed
  }

  lemma ApplyBalanced<D(!new)>(s: Ledger<D>, op: Op<D>, out: (D, D) -> bool)
    requires Ranking(out)
    requires Balanced(s, out)
    ensures Balanced(Apply(s, op, out), out)
  {
    match op
    case DoPush(x) =>
      PushKeepsHeap(s.tree, x, out);
      PushElements(s.tree, x, out);
      Moved(Elements(s.tree), Elements(Push(s.tree, x, out)), x, s.popped, s.removed);
    case DoPop =>
      if s.tree.Node? {
        PopKeepsHeap(s.tree, out);
        PopElements(s.tree, out);
        Moved(Elements(Pop(s.tree, out)), Elements(s.tree), s.tree.data, s.popped, s.removed);
      }
    case DoRemove(x) =>
      RemoveKeepsHeap(s.tree, x, out);
      if Remove(s.tree, x, out).Removed? {
        RemoveElements(s.tree, x, out);
        Moved(Elements(Remove(s.tree, x, out).rest), Elements(s.tree), x, s.popped, s.removed);
      }
  }

  lemma Moved<D>(less: multiset<D>, more: multiset<D>, x: D, popped: multiset<D>, removed: multiset<D>)
    requires more == less + multiset{x}
    ensures more + popped + removed == less + popped + removed + multiset{x}
    ensures more + popped + removed == less + (popped + multiset{x}) + removed
    ensures more + popped + removed == less + popped + (removed + multiset{x})
  {
  }

  // Over any run: nothing pushed is lost or duplicated, and the tree stays a heap that its own
  // check accepts, with the cached size of the top the number of elements.
  lemma {:induction false} RunConserves<D(!new)>(s: Ledger<D>, ops: seq<Op<D>>, out: (D, D) -> bool)
    requires Ranking(out)
    requires Balanced(s, out)
    ensures var s' := Run(s, ops, out);
            && s'.pushed == Elements(s'.tree) + s'.popped + s'.removed
            && CheckNodes(s'.tree, out) && IsHeap(s'.tree, out)
            && (s'.tree.Node? ==> s'.tree.size == |Elements(s'.tree)|)
    decreases |ops|
  {
    if ops == [] {
      CheckNodesIsHeap(s.tree, out);
      CheckedSize(s.tree, out);
      ElementsCount(s.tree);
    } else {
      ApplyBalanced(s, ops[0], out);
      RunConserves(Apply(s, ops[0], out), ops[1..], out);
    }
  }

  // Popping until the heap is empty.
  function Drain<D>(t: Tree<D>, out: (D, D) -> bool): seq<D>
    decreases Count(t)
  {
    if t.Empty? then [] else
      PopElements(t, out);
      [t.data] + Drain(Pop(t, out), out)
  }


  // Draining yields every element, in non-increasing rank.
  lemma {:induction false} DrainElements<D>(t: Tree<D>, out: (D, D) -> bool)
    ensures multiset(Drain(t, out)) == Elements(t)
    decreases Count(t)
  {
    if t.Node? {
      PopElements(t, out);
      DrainElements(Pop(t, out), out);
    }
  }

  lemma {:induction false} DrainSorts<D(!new)>(t: Tree<D>, out: (D, D) -> bool)
    requires Ranking(out)
    requires CheckNodes(t, out)
    ensures var s := Drain(t, out);
            && multiset(s) == Elements(t)
            && forall i, j :: 0 <= i < j < |s| ==> !out(s[j], s[i])
    decreases Count(t)
  {
    DrainElements(t, out);
    if t.Node? {
      PopKeepsHeap(t, out);
      PopElements(t, out);
      var s, rest := Drain(t, out), Drain(Pop(t, out), out);
      DrainSorts(Pop(t, out), out);
      TopDominates(t, out);
      forall j | 0 < j < |s| ensures !out(s[j], s[0]) {
        assert s[j] in multiset(s);
      }
      assert s[1..] == rest;
      forall i, j | 0 < i < j < |s| ensures !out(s[j], s[i]) {
        assert s[i] == rest[i - 1] && s[j] == rest[j - 1];
      }
    }
  }
}
