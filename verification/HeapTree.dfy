/**
 The value a LocHeap holds: a binary tree whose nodes carry a cached subtree
 size, together with the pure form of every heap operation. The operations take
 the same branches, in the same order, as the pointer code in LocHeap.dfy, which
 is proved to compute them; the laws of the heap are proved here.
 */
module HeapTree {

  /** What LocRankable promises of ranks(): its sign is antisymmetric and "ranks at least" is transitive. */
  ghost predicate IsRanking<T(!new)>(ranks: (T, T) -> int) {
    && (forall a, b :: ranks(a, b) > 0 <==> ranks(b, a) < 0)
    && (forall a, b, c :: ranks(a, b) >= 0 && ranks(b, c) >= 0 ==> ranks(a, c) >= 0)
  }

  predicate OutRanks<T>(ranks: (T, T) -> int, a: T, b: T) {
    ranks(a, b) > 0
  }

  /** size is the cached mSize of the node, not a count of the nodes. */
  datatype Tree<T> = Leaf | Node(size: int, left: Tree<T>, data: T, right: Tree<T>)

  function Single<T>(x: T): Tree<T> {
    Node(1, Leaf, x, Leaf)
  }

  /** The tree with other data at its top: what swapping two nodes' mData does to one of them. */
  function WithData<T>(t: Tree<T>, x: T): (r: Tree<T>)
    requires t.Node?
    ensures r.Node? && Count(r) == Count(t)
    ensures Sized(r) == Sized(t)
  {
    Node(t.size, t.left, x, t.right)
  }

  // ---------- What a tree contains ----------

  /** How many nodes of t carry y. */
  ghost function Occ<T>(t: Tree<T>, y: T): nat {
    match t
    case Leaf => 0
    case Node(_, l, x, r) => Occ(l, y) + (if x == y then 1 else 0) + Occ(r, y)
  }

  ghost function Elements<T>(t: Tree<T>): multiset<T> {
    match t
    case Leaf => multiset{}
    case Node(_, l, x, r) => Elements(l) + multiset{x} + Elements(r)
  }

  lemma {:induction false} ElementsAreOccurrences<T>(t: Tree<T>)
    ensures forall y :: Elements(t)[y] == Occ(t, y)
  {
    if t.Node? {
      ElementsAreOccurrences(t.left);
      ElementsAreOccurrences(t.right);
    }
  }

  function Count<T>(t: Tree<T>): nat {
    match t
    case Leaf => 0
    case Node(_, l, _, r) => Count(l) + 1 + Count(r)
  }

  function Depth<T>(t: Tree<T>): nat {
    match t
    case Leaf => 0
    case Node(_, l, _, r) => 1 + if Depth(l) >= Depth(r) then Depth(l) else Depth(r)
  }

  // ---------- What makes a tree a heap ----------

  /** Every cached size is the number of nodes below and including its node. */
  ghost predicate Sized<T>(t: Tree<T>) {
    t.Node? ==> t.size == Count(t) && Sized(t.left) && Sized(t.right)
  }

  /** No node of t outranks x. */
  ghost predicate Tops<T>(ranks: (T, T) -> int, x: T, t: Tree<T>) {
    t.Node? ==> !OutRanks(ranks, t.data, x) && Tops(ranks, x, t.left) && Tops(ranks, x, t.right)
  }

  /** At every node, nothing stored anywhere below outranks the node. */
  ghost predicate Ordered<T>(ranks: (T, T) -> int, t: Tree<T>) {
    t.Node? ==>
      && Tops(ranks, t.data, t.left) && Ordered(ranks, t.left)
      && Tops(ranks, t.data, t.right) && Ordered(ranks, t.right)
  }

  ghost predicate IsHeap<T>(ranks: (T, T) -> int, t: Tree<T>) {
    Sized(t) && Ordered(ranks, t)
  }

  /** Every node's two subtrees differ in size by at most one. */
  ghost predicate Balanced<T>(t: Tree<T>) {
    t.Node? ==>
      && -1 <= Count(t.left) - Count(t.right) <= 1
      && Balanced(t.left)
      && Balanced(t.right)
  }

  // ---------- The operations ----------

  /** The higher ranking of x and the top stays on top, the other drops below. */
  function Push<T>(ranks: (T, T) -> int, t: Tree<T>, x: T): Tree<T>
    decreases Count(t), 1
  {
    if t.Leaf? then Single(x)
    else if OutRanks(ranks, x, t.data) then Drop(ranks, WithData(t, x), t.data)
    else Drop(ranks, t, x)
  }

  /** x goes to the free place below the top, else into the smaller subtree. */
  function Drop<T>(ranks: (T, T) -> int, t: Tree<T>, x: T): Tree<T>
    requires t.Node?
    decreases Count(t), 0
  {
    if t.left.Leaf? then
      Node(t.size + 1, Single(x), t.data, t.right)
    else if t.right.Leaf? then
      Node(t.size + 1, t.left, t.data, Single(x))
    else if t.left.size <= t.right.size then
      Node(t.size + 1, Push(ranks, t.left, x), t.data, t.right)
    else
      Node(t.size + 1, t.left, t.data, Push(ranks, t.right, x))
  }

  /** Which child gives its data to the top: the only one there is, else the left one if it outranks the right. */
  predicate TakesLeft<T>(ranks: (T, T) -> int, t: Tree<T>)
    requires t.Node? && (t.left.Node? || t.right.Node?)
  {
    t.left.Node? && (t.right.Leaf? || OutRanks(ranks, t.left.data, t.right.data))
  }

  /**
   The tree after popping its top, and the data that the freed leaf then carries.
   The data of the top is handed down node by node, so every subtree on the way is
   visited while its own top is out of order.
   */
  function Pop<T>(ranks: (T, T) -> int, t: Tree<T>): (Tree<T>, T)
    requires t.Node?
    decreases Count(t)
  {
    if t.left.Leaf? && t.right.Leaf? then
      (Leaf, t.data)
    else if TakesLeft(ranks, t) then
      var (sub, freed) := Pop(ranks, WithData(t.left, t.data));
      (Node(t.size - 1, sub, t.left.data, t.right), freed)
    else
      var (sub, freed) := Pop(ranks, WithData(t.right, t.data));
      (Node(t.size - 1, t.left, t.right.data, sub), freed)
  }

  /** The tree after removing x, and whether a node was found to remove. */
  function Remove<T(==)>(ranks: (T, T) -> int, t: Tree<T>, x: T): (Tree<T>, bool) {
    if t.Leaf? then (t, false)
    else if t.data == x then (Pop(ranks, t).0, true)
    else if OutRanks(ranks, x, t.data) then (t, false)
    else
      var (l, inLeft) := Remove(ranks, t.left, x);
      if inLeft then (Node(t.size - 1, l, t.data, t.right), true) else
      var (r, inRight) := Remove(ranks, t.right, x);
      if inRight then (Node(t.size - 1, t.left, t.data, r), true) else (t, false)
  }

  /** checkNodes: one comparison per edge and one subtraction per child. */
  predicate CheckNodes<T>(ranks: (T, T) -> int, t: Tree<T>)
    requires t.Node?
  {
    && (t.left.Node? ==> !OutRanks(ranks, t.left.data, t.data) && CheckNodes(ranks, t.left))
    && (t.right.Node? ==> !OutRanks(ranks, t.right.data, t.data) && CheckNodes(ranks, t.right))
    && t.size - (if t.left.Node? then t.left.size else 0) - (if t.right.Node? then t.right.size else 0) == 1
  }

  // ---------- Rank and order ----------

  /** Tops speaks of every stored element. */
  lemma {:induction false} TopsAll<T>(ranks: (T, T) -> int, x: T, t: Tree<T>, y: T)
    requires Tops(ranks, x, t) && Occ(t, y) > 0
    ensures !OutRanks(ranks, y, x)
  {
    if t.data != y {
      TopsAll(ranks, x, if Occ(t.left, y) > 0 then t.left else t.right, y);
    }
  }

  /** Whatever x is not outranked by, x passes on to all that y tops. */
  lemma {:induction false} TopsTrans<T(!new)>(ranks: (T, T) -> int, x: T, y: T, t: Tree<T>)
    requires IsRanking(ranks) && !OutRanks(ranks, y, x) && Tops(ranks, y, t)
    ensures Tops(ranks, x, t)
  {
    if t.Node? {
      assert ranks(x, y) >= 0 && ranks(y, t.data) >= 0;
      TopsTrans(ranks, x, y, t.left);
      TopsTrans(ranks, x, y, t.right);
    }
  }

  // ---------- Push ----------

  lemma {:induction false} PushCounts<T>(ranks: (T, T) -> int, t: Tree<T>, x: T)
    ensures Push(ranks, t, x).Node? && Count(Push(ranks, t, x)) == Count(t) + 1
    ensures Sized(t) ==> Sized(Push(ranks, t, x))
  {
    if t.Node? && t.left.Node? && t.right.Node? {
      var low := if OutRanks(ranks, x, t.data) then t.data else x;
      PushCounts(ranks, if t.left.size <= t.right.size then t.left else t.right, low);
    }
  }

  lemma {:induction false} PushAdds<T>(ranks: (T, T) -> int, t: Tree<T>, x: T, y: T)
    ensures Occ(Push(ranks, t, x), y) == Occ(t, y) + if x == y then 1 else 0
  {
    if t.Node? && t.left.Node? && t.right.Node? {
      var low := if OutRanks(ranks, x, t.data) then t.data else x;
      PushAdds(ranks, if t.left.size <= t.right.size then t.left else t.right, low, y);
    }
  }

  lemma {:induction false} PushKeepsTops<T>(ranks: (T, T) -> int, t: Tree<T>, x: T, z: T)
    requires Tops(ranks, z, t) && !OutRanks(ranks, x, z)
    ensures Tops(ranks, z, Push(ranks, t, x))
  {
    if t.Node? && t.left.Node? && t.right.Node? {
      var low := if OutRanks(ranks, x, t.data) then t.data else x;
      PushKeepsTops(ranks, if t.left.size <= t.right.size then t.left else t.right, low, z);
    }
  }

  lemma {:induction false} PushKeepsOrder<T(!new)>(ranks: (T, T) -> int, t: Tree<T>, x: T)
    requires IsRanking(ranks) && Ordered(ranks, t)
    ensures Ordered(ranks, Push(ranks, t, x))
  {
    if t.Node? {
      var top := if OutRanks(ranks, x, t.data) then x else t.data;
      var low := if OutRanks(ranks, x, t.data) then t.data else x;
      assert !OutRanks(ranks, t.data, top) && !OutRanks(ranks, low, top) by {
        assert !OutRanks(ranks, t.data, t.data);
      }
      TopsTrans(ranks, top, t.data, t.left);
      TopsTrans(ranks, top, t.data, t.right);
      if t.left.Node? && t.right.Node? {
        var sub := if t.left.size <= t.right.size then t.left else t.right;
        PushKeepsOrder(ranks, sub, low);
        PushKeepsTops(ranks, sub, low, top);
      }
    }
  }

  /** A push enters the smaller subtree, so it never unbalances a tree. */
  lemma {:induction false} PushKeepsBalance<T>(ranks: (T, T) -> int, t: Tree<T>, x: T)
    requires Sized(t) && Balanced(t)
    ensures Balanced(Push(ranks, t, x))
  {
    if t.Node? && t.left.Node? && t.right.Node? {
      var low := if OutRanks(ranks, x, t.data) then t.data else x;
      var sub := if t.left.size <= t.right.size then t.left else t.right;
      PushKeepsBalance(ranks, sub, low);
      PushCounts(ranks, sub, low);
    }
  }

  lemma PushKeepsHeap<T(!new)>(ranks: (T, T) -> int, t: Tree<T>, x: T)
    requires IsRanking(ranks) && IsHeap(ranks, t)
    ensures IsHeap(ranks, Push(ranks, t, x))
  {
    PushCounts(ranks, t, x);
    PushKeepsOrder(ranks, t, x);
  }

  /** Pushing onto a heap gives a heap with exactly x added. */
  lemma PushIsSound<T(!new)>(ranks: (T, T) -> int, t: Tree<T>, x: T)
    requires IsRanking(ranks) && IsHeap(ranks, t)
    ensures IsHeap(ranks, Push(ranks, t, x))
    ensures Elements(Push(ranks, t, x)) == Elements(t) + multiset{x}
  {
    PushKeepsHeap(ranks, t, x);
    ElementsAreOccurrences(t);
    ElementsAreOccurrences(Push(ranks, t, x));
    forall y ensures Elements(Push(ranks, t, x))[y] == (Elements(t) + multiset{x})[y] {
      PushAdds(ranks, t, x, y);
    }
  }

  function Pow2(n: nat): nat {
    if n == 0 then 1 else 2 * Pow2(n - 1)
  }

  /** A balanced tree of n nodes is at most floor(log2 n) + 1 deep: 2^(depth-1) <= n. */
  lemma {:induction false} BalancedIsShallow<T>(t: Tree<T>)
    requires Balanced(t) && t.Node?
    ensures Pow2(Depth(t) - 1) <= Count(t)
  {
    var deeper := if Depth(t.left) >= Depth(t.right) then t.left else t.right;
    if deeper.Node? {
      BalancedIsShallow(deeper);
      assert Depth(t) - 1 == Depth(deeper) && 2 * Count(deeper) <= Count(t);
    }
  }

  /** All of xs pushed in turn onto an empty tree. */
  function PushAll<T>(ranks: (T, T) -> int, xs: seq<T>): Tree<T> {
    if xs == [] then Leaf else Push(ranks, PushAll(ranks, xs[..|xs| - 1]), xs[|xs| - 1])
  }

  lemma SnocMultiset<T>(xs: seq<T>)
    requires xs != []
    ensures multiset(xs) == multiset(xs[..|xs| - 1]) + multiset{xs[|xs| - 1]}
  {
    assert xs == xs[..|xs| - 1] + [xs[|xs| - 1]];
  }

  lemma ConsMultiset<T>(x: T, xs: seq<T>)
    ensures multiset([x] + xs) == multiset{x} + multiset(xs)
    ensures forall y :: y in xs ==> y in multiset([x] + xs)
  {
  }

  /** However many elements are pushed, the tree is a heap of exactly those elements. */
  lemma {:induction false} PushesBuildHeap<T(!new)>(ranks: (T, T) -> int, xs: seq<T>)
    requires IsRanking(ranks)
    ensures IsHeap(ranks, PushAll(ranks, xs)) && Elements(PushAll(ranks, xs)) == multiset(xs)
  {
    if xs != [] {
      var front, last := xs[..|xs| - 1], xs[|xs| - 1];
      SnocMultiset(xs);
      PushesBuildHeap(ranks, front);
      PushIsSound(ranks, PushAll(ranks, front), last);
    }
  }

  /** Pushes alone keep the tree balanced, and therefore shallow. */
  lemma {:induction false} PushesStayBalanced<T>(ranks: (T, T) -> int, xs: seq<T>)
    ensures Count(PushAll(ranks, xs)) == |xs| && Sized(PushAll(ranks, xs)) && Balanced(PushAll(ranks, xs))
    ensures xs != [] ==> Pow2(Depth(PushAll(ranks, xs)) - 1) <= |xs|
  {
    if xs != [] {
      var front, last := xs[..|xs| - 1], xs[|xs| - 1];
      PushesStayBalanced(ranks, front);
      PushKeepsBalance(ranks, PushAll(ranks, front), last);
      PushCounts(ranks, PushAll(ranks, front), last);
      BalancedIsShallow(PushAll(ranks, xs));
    }
  }

  // ---------- Pop ----------

  /** Pop frees a node carrying the old top, and takes nothing else. */
  lemma {:induction false} PopCounts<T>(ranks: (T, T) -> int, t: Tree<T>)
    requires t.Node?
    ensures Pop(ranks, t).1 == t.data
    ensures Count(Pop(ranks, t).0) == Count(t) - 1
    ensures Sized(t) ==> Sized(Pop(ranks, t).0)
    decreases Count(t)
  {
    if t.left.Node? || t.right.Node? {
      var sub := WithData(if TakesLeft(ranks, t) then t.left else t.right, t.data);
      PopCounts(ranks, sub);
    }
  }

  lemma {:induction false} PopTakesTop<T>(ranks: (T, T) -> int, t: Tree<T>, y: T)
    requires t.Node?
    ensures Occ(t, y) == Occ(Pop(ranks, t).0, y) + if t.data == y then 1 else 0
    decreases Count(t)
  {
    if t.left.Node? || t.right.Node? {
      PopTakesTop(ranks, WithData(if TakesLeft(ranks, t) then t.left else t.right, t.data), y);
    }
  }

  lemma {:induction false} PopKeepsTops<T>(ranks: (T, T) -> int, t: Tree<T>, z: T)
    requires t.Node? && Tops(ranks, z, t.left) && Tops(ranks, z, t.right)
    ensures Tops(ranks, z, Pop(ranks, t).0)
    decreases Count(t)
  {
    if t.left.Node? || t.right.Node? {
      PopKeepsTops(ranks, WithData(if TakesLeft(ranks, t) then t.left else t.right, t.data), z);
    }
  }

  /** Order below the top is all pop needs: the data handed down may be out of place in t. */
  lemma {:induction false} PopRestoresOrder<T(!new)>(ranks: (T, T) -> int, t: Tree<T>)
    requires IsRanking(ranks) && t.Node? && Ordered(ranks, t.left) && Ordered(ranks, t.right)
    ensures Ordered(ranks, Pop(ranks, t).0)
    decreases Count(t)
  {
    if t.left.Node? || t.right.Node? {
      var goLeft := TakesLeft(ranks, t);
      var sub := if goLeft then t.left else t.right;
      var other := if goLeft then t.right else t.left;
      PopRestoresOrder(ranks, WithData(sub, t.data));
      PopKeepsTops(ranks, WithData(sub, t.data), sub.data);
      if other.Node? {
        TopsTrans(ranks, sub.data, other.data, other.left);
        TopsTrans(ranks, sub.data, other.data, other.right);
      }
    }
  }

  lemma TopIsHighest<T(!new)>(ranks: (T, T) -> int, t: Tree<T>, y: T)
    requires IsRanking(ranks) && t.Node? && Ordered(ranks, t) && Occ(t, y) > 0
    ensures !OutRanks(ranks, y, t.data)
  {
    assert !OutRanks(ranks, t.data, t.data);
    TopsAll(ranks, t.data, t, y);
  }

  lemma PopKeepsHeap<T(!new)>(ranks: (T, T) -> int, t: Tree<T>)
    requires IsRanking(ranks) && t.Node? && IsHeap(ranks, t)
    ensures IsHeap(ranks, Pop(ranks, t).0)
  {
    PopCounts(ranks, t);
    PopRestoresOrder(ranks, t);
  }

  /** Popping a heap leaves a heap, takes exactly the top, and nothing stored outranks what was taken. */
  lemma PopIsSound<T(!new)>(ranks: (T, T) -> int, t: Tree<T>)
    requires IsRanking(ranks) && t.Node? && IsHeap(ranks, t)
    ensures IsHeap(ranks, Pop(ranks, t).0)
    ensures Elements(t) == Elements(Pop(ranks, t).0) + multiset{Pop(ranks, t).1}
    ensures forall y :: y in Elements(t) ==> !OutRanks(ranks, y, Pop(ranks, t).1)
  {
    PopCounts(ranks, t);
    PopKeepsHeap(ranks, t);
    ElementsAreOccurrences(t);
    ElementsAreOccurrences(Pop(ranks, t).0);
    forall y ensures Elements(t)[y] == (Elements(Pop(ranks, t).0) + multiset{t.data})[y] {
      PopTakesTop(ranks, t, y);
    }
    forall y | y in Elements(t) ensures !OutRanks(ranks, y, t.data) {
      TopIsHighest(ranks, t, y);
    }
  }

  /** Popping until the tree is empty. */
  function Drain<T>(ranks: (T, T) -> int, t: Tree<T>): seq<T>
    decreases Count(t)
  {
    if t.Leaf? then [] else
    var (rest, x) := Pop(ranks, t);
    PopCounts(ranks, t);
    [x] + Drain(ranks, rest)
  }

  ghost predicate RankSorted<T>(ranks: (T, T) -> int, xs: seq<T>) {
    forall i, j :: 0 <= i < j < |xs| ==> !OutRanks(ranks, xs[j], xs[i])
  }

  lemma {:induction false} DrainPermutes<T(!new)>(ranks: (T, T) -> int, t: Tree<T>)
    requires IsRanking(ranks) && IsHeap(ranks, t)
    ensures multiset(Drain(ranks, t)) == Elements(t)
    decreases Count(t)
  {
    if t.Node? {
      var (rest, x) := Pop(ranks, t);
      PopCounts(ranks, t);
      PopIsSound(ranks, t);
      DrainPermutes(ranks, rest);
      ConsMultiset(x, Drain(ranks, rest));
    }
  }

  lemma ConsSorted<T>(ranks: (T, T) -> int, x: T, xs: seq<T>)
    requires RankSorted(ranks, xs) && forall y :: y in xs ==> !OutRanks(ranks, y, x)
    ensures RankSorted(ranks, [x] + xs)
  {
    var ys := [x] + xs;
    forall i, j | 0 <= i < j < |ys| ensures !OutRanks(ranks, ys[j], ys[i]) {
      assert ys[j] == xs[j - 1] && xs[j - 1] in xs;
    }
  }

  /** Draining a heap lists what was stored, highest rank first. */
  lemma {:induction false} DrainSorts<T(!new)>(ranks: (T, T) -> int, t: Tree<T>)
    requires IsRanking(ranks) && IsHeap(ranks, t)
    ensures multiset(Drain(ranks, t)) == Elements(t)
    ensures RankSorted(ranks, Drain(ranks, t))
    decreases Count(t)
  {
    DrainPermutes(ranks, t);
    if t.Node? {
      var (rest, x) := Pop(ranks, t);
      PopCounts(ranks, t);
      PopIsSound(ranks, t);
      DrainSorts(ranks, rest);
      var xs := Drain(ranks, rest);
      ConsMultiset(x, xs);
      ConsSorted(ranks, x, xs);
    }
  }

  /** Pushing any elements and draining them sorts them by rank. */
  lemma HeapSort<T(!new)>(ranks: (T, T) -> int, xs: seq<T>)
    requires IsRanking(ranks)
    ensures multiset(Drain(ranks, PushAll(ranks, xs))) == multiset(xs)
    ensures RankSorted(ranks, Drain(ranks, PushAll(ranks, xs)))
  {
    PushesBuildHeap(ranks, xs);
    DrainSorts(ranks, PushAll(ranks, xs));
  }

  // ---------- Remove ----------

  /** The rank test that prunes a subtree never hides a stored element: x is found exactly when it is stored. */
  lemma {:induction false} RemoveFinds<T(!new)>(ranks: (T, T) -> int, t: Tree<T>, x: T)
    requires IsRanking(ranks) && Ordered(ranks, t)
    ensures Remove(ranks, t, x).1 <==> Occ(t, x) > 0
    ensures !Remove(ranks, t, x).1 ==> Remove(ranks, t, x).0 == t
  {
    if t.Node? && t.data != x {
      if Occ(t, x) > 0 && OutRanks(ranks, x, t.data) {
        TopIsHighest(ranks, t, x);
      }
      RemoveFinds(ranks, t.left, x);
      RemoveFinds(ranks, t.right, x);
    }
  }

  lemma {:induction false} RemoveCounts<T>(ranks: (T, T) -> int, t: Tree<T>, x: T)
    requires Remove(ranks, t, x).1
    ensures Count(Remove(ranks, t, x).0) == Count(t) - 1
    ensures Sized(t) ==> Sized(Remove(ranks, t, x).0)
  {
    if t.data == x {
      PopCounts(ranks, t);
    } else {
      RemoveCounts(ranks, if Remove(ranks, t.left, x).1 then t.left else t.right, x);
    }
  }

  lemma {:induction false} RemoveTakesOne<T>(ranks: (T, T) -> int, t: Tree<T>, x: T, y: T)
    requires Remove(ranks, t, x).1
    ensures Occ(t, y) == Occ(Remove(ranks, t, x).0, y) + if x == y then 1 else 0
  {
    if t.data == x {
      PopTakesTop(ranks, t, y);
    } else {
      RemoveTakesOne(ranks, if Remove(ranks, t.left, x).1 then t.left else t.right, x, y);
    }
  }

  lemma {:induction false} RemoveKeepsTops<T>(ranks: (T, T) -> int, t: Tree<T>, x: T, z: T)
    requires Tops(ranks, z, t)
    ensures Tops(ranks, z, Remove(ranks, t, x).0)
  {
    if t.Node? {
      if t.data == x {
        PopKeepsTops(ranks, t, z);
      } else {
        RemoveKeepsTops(ranks, t.left, x, z);
        RemoveKeepsTops(ranks, t.right, x, z);
      }
    }
  }

  lemma {:induction false} RemoveKeepsOrder<T(!new)>(ranks: (T, T) -> int, t: Tree<T>, x: T)
    requires IsRanking(ranks) && Ordered(ranks, t)
    ensures Ordered(ranks, Remove(ranks, t, x).0)
  {
    if t.Node? {
      if t.data == x {
        PopRestoresOrder(ranks, t);
      } else {
        RemoveKeepsOrder(ranks, t.left, x);
        RemoveKeepsTops(ranks, t.left, x, t.data);
        RemoveKeepsOrder(ranks, t.right, x);
        RemoveKeepsTops(ranks, t.right, x, t.data);
      }
    }
  }

  lemma RemoveKeepsHeap<T(!new)>(ranks: (T, T) -> int, t: Tree<T>, x: T)
    requires IsRanking(ranks) && IsHeap(ranks, t)
    ensures IsHeap(ranks, Remove(ranks, t, x).0)
  {
    RemoveKeepsOrder(ranks, t, x);
    RemoveFinds(ranks, t, x);
    if Remove(ranks, t, x).1 {
      RemoveCounts(ranks, t, x);
    }
  }

  /**
   Removing x from a heap leaves a heap. If x is stored, exactly one occurrence of it
   leaves; if it is not, nothing is found and the tree is untouched.
   */
  lemma RemoveIsExact<T(!new)>(ranks: (T, T) -> int, t: Tree<T>, x: T)
    requires IsRanking(ranks) && IsHeap(ranks, t)
    ensures IsHeap(ranks, Remove(ranks, t, x).0)
    ensures Remove(ranks, t, x).1 <==> x in Elements(t)
    ensures Remove(ranks, t, x).1 ==> Elements(t) == Elements(Remove(ranks, t, x).0) + multiset{x}
    ensures !Remove(ranks, t, x).1 ==> Remove(ranks, t, x).0 == t
  {
    RemoveKeepsHeap(ranks, t, x);
    RemoveFinds(ranks, t, x);
    ElementsAreOccurrences(t);
    ElementsAreOccurrences(Remove(ranks, t, x).0);
    if Remove(ranks, t, x).1 {
      forall y ensures Elements(t)[y] == (Elements(Remove(ranks, t, x).0) + multiset{x})[y] {
        RemoveTakesOne(ranks, t, x, y);
      }
    }
  }

  /** Removing anything but the top leaves the top where it is. */
  lemma RemoveKeepsTop<T>(ranks: (T, T) -> int, t: Tree<T>, x: T)
    requires t.Node? && t.data != x
    ensures Remove(ranks, t, x).0.Node? && Remove(ranks, t, x).0.data == t.data
  {
  }

  // ---------- The built-in check ----------

  /** x tops a subtree already in order exactly when it is not outranked by the subtree's top. */
  lemma TopsOrdered<T(!new)>(ranks: (T, T) -> int, x: T, t: Tree<T>)
    requires IsRanking(ranks) && Ordered(ranks, t)
    ensures Tops(ranks, x, t) <==> t.Leaf? || !OutRanks(ranks, t.data, x)
  {
    if t.Node? && !OutRanks(ranks, t.data, x) {
      TopsTrans(ranks, x, t.data, t.left);
      TopsTrans(ranks, x, t.data, t.right);
    }
  }

  lemma {:induction false} CheckedIsHeap<T(!new)>(ranks: (T, T) -> int, t: Tree<T>)
    requires IsRanking(ranks) && t.Node? && CheckNodes(ranks, t)
    ensures IsHeap(ranks, t)
  {
    if t.left.Node? { CheckedIsHeap(ranks, t.left); }
    if t.right.Node? { CheckedIsHeap(ranks, t.right); }
    TopsOrdered(ranks, t.data, t.left);
    TopsOrdered(ranks, t.data, t.right);
  }

  lemma {:induction false} HeapIsChecked<T(!new)>(ranks: (T, T) -> int, t: Tree<T>)
    requires IsRanking(ranks) && t.Node? && IsHeap(ranks, t)
    ensures CheckNodes(ranks, t)
  {
    if t.left.Node? { HeapIsChecked(ranks, t.left); }
    if t.right.Node? { HeapIsChecked(ranks, t.right); }
    TopsOrdered(ranks, t.data, t.left);
    TopsOrdered(ranks, t.data, t.right);
    SizeIsCount(t.left);
    SizeIsCount(t.right);
  }

  lemma SizeIsCount<T>(t: Tree<T>)
    requires Sized(t)
    ensures Count(t) == if t.Node? then t.size else 0
  {
  }

  /** checkNodes compares neighbours only, yet it holds exactly of the trees that are heaps throughout. */
  lemma CheckNodesIsHeap<T(!new)>(ranks: (T, T) -> int, t: Tree<T>)
    requires IsRanking(ranks) && t.Node?
    ensures CheckNodes(ranks, t) <==> IsHeap(ranks, t)
  {
    if CheckNodes(ranks, t) {
      CheckedIsHeap(ranks, t);
    } else if IsHeap(ranks, t) {
      HeapIsChecked(ranks, t);
    }
  }

  // ---------- Runs ----------

  datatype HeapOp<T> = DoPush(x: T) | DoPop | DoRemove(x: T)

  function Apply<T(==)>(ranks: (T, T) -> int, t: Tree<T>, op: HeapOp<T>): Tree<T> {
    match op
    case DoPush(x) => Push(ranks, t, x)
    case DoPop => if t.Node? then Pop(ranks, t).0 else t
    case DoRemove(x) => Remove(ranks, t, x).0
  }

  function RunOps<T(==)>(ranks: (T, T) -> int, ops: seq<HeapOp<T>>): Tree<T> {
    if ops == [] then Leaf else Apply(ranks, RunOps(ranks, ops[..|ops| - 1]), ops[|ops| - 1])
  }

  /** No run of pushes, pops and removes makes checkNodes false. */
  lemma {:induction false} RunsStayHeaps<T(!new)>(ranks: (T, T) -> int, ops: seq<HeapOp<T>>)
    requires IsRanking(ranks)
    ensures IsHeap(ranks, RunOps(ranks, ops))
    ensures RunOps(ranks, ops).Node? ==> CheckNodes(ranks, RunOps(ranks, ops))
  {
    if ops != [] {
      var t, op := RunOps(ranks, ops[..|ops| - 1]), ops[|ops| - 1];
      RunsStayHeaps(ranks, ops[..|ops| - 1]);
      match op
      case DoPush(x) => PushIsSound(ranks, t, x);
      case DoPop => if t.Node? { PopIsSound(ranks, t); }
      case DoRemove(x) => RemoveIsExact(ranks, t, x);
    }
    if RunOps(ranks, ops).Node? {
      CheckNodesIsHeap(ranks, RunOps(ranks, ops));
    }
  }
}
