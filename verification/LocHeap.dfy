/**
 LocHeap as it is built: nodes linked by pointers, changed in place. Every method
 is proved to compute the operation of the same name in HeapTree.
 */
module LocHeap {
  import opened HeapTree
  import opened Options

  class LocHeapNode<T(==,!new)> {
    var mSize: int
    var mLeft: LocHeapNode?<T>
    var mRight: LocHeapNode?<T>
    var mData: T
    ghost var Repr: set<LocHeapNode<T>>  // the nodes of the subtree at this node
    ghost var Value: Tree<T>             // what the subtree holds

    ghost predicate Valid()
      reads this, Repr
      ensures Valid() ==> this in Repr && Value.Node?
    {
      && this in Repr
      && (mLeft != null ==> mLeft in Repr && mLeft.Repr <= Repr && this !in mLeft.Repr && mLeft.Valid())
      && (mRight != null ==> mRight in Repr && mRight.Repr <= Repr && this !in mRight.Repr && mRight.Valid())
      && (mLeft != null && mRight != null ==> mLeft.Repr !! mRight.Repr)
      && Value == Node(mSize, ValueOf(mLeft), mData, ValueOf(mRight))
    }

    static ghost function ValueOf(n: LocHeapNode?<T>): Tree<T>
      reads n
    {
      if n == null then Leaf else n.Value
    }

    constructor (data: T)
      ensures Valid() && Repr == {this} && Value == Single(data)
    {
      mSize, mLeft, mRight, mData := 1, null, null, data;
      Repr, Value := {this}, Single(data);
    }

    /** Adds node, a node on its own, to the subtree at this node. */
    method Push(ranks: (T, T) -> int, node: LocHeapNode<T>)
      requires Valid() && node.Valid() && node.Repr == {node} && node !in Repr && node.mSize == 1
      modifies Repr, node
      ensures Valid() && Repr == old(Repr) + {node}
      ensures Value == HeapTree.Push(ranks, old(Value), old(node.mData))
      decreases Repr, 1
    {
      if OutRanks(ranks, node.mData, mData) {
        mData, node.mData := node.mData, mData;
        node.Value := Single(node.mData);
        Value := WithData(Value, mData);
      }
      Drop(ranks, node);
    }

    /** Hangs node, which does not outrank this node, somewhere below this node. */
    method Drop(ranks: (T, T) -> int, node: LocHeapNode<T>)
      requires Valid() && node.Valid() && node.Repr == {node} && node !in Repr && node.mSize == 1
      modifies Repr, node
      ensures Valid() && Repr == old(Repr) + {node}
      ensures Value == HeapTree.Drop(ranks, old(Value), old(node.mData))
      decreases Repr, 0
    {
      mSize := mSize + 1;
      Repr := Repr + {node};
      if mLeft == null {
        mLeft := node;
      } else if mRight == null {
        mRight := node;
      } else if mLeft.mSize <= mRight.mSize {
        mLeft.Push(ranks, node);
        assert mRight.Valid();
      } else {
        mRight.Push(ranks, node);
        assert mLeft.Valid();
      }
      Value := Node(mSize, ValueOf(mLeft), mData, ValueOf(mRight));
    }

    /** Exchanges the data of this node and of node, a node below it. */
    method Swap(node: LocHeapNode<T>)
      requires node.Valid() && this !in node.Repr
      modifies this`mData, node`mData, node`Value
      ensures mData == old(node.mData) && node.mData == old(mData)
      ensures node.Valid() && node.Value == WithData(old(node.Value), old(mData))
    {
      mData, node.mData := node.mData, mData;
      node.Value := WithData(node.Value, node.mData);
      assert node.mLeft != null ==> node.mLeft.Valid();
      assert node.mRight != null ==> node.mRight.Valid();
    }

    /**
     Takes the data of top out of the subtree. The caller's link to top becomes
     newTop; the node cut off is always a leaf, and it carries the data popped.
     */
    static method Pop(ranks: (T, T) -> int, top: LocHeapNode<T>)
      returns (newTop: LocHeapNode?<T>, popped: LocHeapNode<T>)
      requires top.Valid()
      modifies top.Repr
      ensures popped in old(top.Repr) && popped.mLeft == null && popped.mRight == null
      ensures popped.mData == HeapTree.Pop(ranks, old(top.Value)).1
      ensures ValueOf(newTop) == HeapTree.Pop(ranks, old(top.Value)).0
      ensures newTop != null ==>
        newTop == top && top.Valid() && top.Repr == old(top.Repr) - {popped}
      decreases top.Repr, 1
    {
      if top.mLeft == null && top.mRight == null {
        top.mSize := top.mSize - 1;
        return null, top;
      }
      newTop := top;
      if top.mLeft != null && (top.mRight == null || OutRanks(ranks, top.mLeft.mData, top.mRight.mData)) {
        popped := top.PopLeft(ranks);
      } else {
        popped := top.PopRight(ranks);
      }
    }

    /** The caller's link to the left subtree after the node gone was cut off somewhere in it. */
    method LinkLeft(sub: LocHeapNode?<T>, ghost gone: LocHeapNode?<T>)
      requires this in Repr && gone != this
      requires mRight != null ==>
        mRight in Repr && mRight.Repr <= Repr && this !in mRight.Repr && mRight.Valid() && gone !in mRight.Repr
      requires sub != null ==>
        sub in Repr && sub.Repr <= Repr - {gone} && this !in sub.Repr && sub.Valid()
      requires sub != null && mRight != null ==> sub.Repr !! mRight.Repr
      modifies this`mLeft, this`Repr, this`Value
      ensures Valid() && Repr == old(Repr) - {gone} && mLeft == sub
      ensures Value == Node(mSize, old(ValueOf(sub)), mData, old(ValueOf(mRight)))
    {
      mLeft := sub;
      Repr := Repr - {gone};
      Value := Node(mSize, ValueOf(mLeft), mData, ValueOf(mRight));
    }

    /** The caller's link to the right subtree after the node gone was cut off somewhere in it. */
    method LinkRight(sub: LocHeapNode?<T>, ghost gone: LocHeapNode?<T>)
      requires this in Repr && gone != this
      requires mLeft != null ==>
        mLeft in Repr && mLeft.Repr <= Repr && this !in mLeft.Repr && mLeft.Valid() && gone !in mLeft.Repr
      requires sub != null ==>
        sub in Repr && sub.Repr <= Repr - {gone} && this !in sub.Repr && sub.Valid()
      requires sub != null && mLeft != null ==> sub.Repr !! mLeft.Repr
      modifies this`mRight, this`Repr, this`Value
      ensures Valid() && Repr == old(Repr) - {gone} && mRight == sub
      ensures Value == Node(mSize, old(ValueOf(mLeft)), mData, old(ValueOf(sub)))
    {
      mRight := sub;
      Repr := Repr - {gone};
      Value := Node(mSize, ValueOf(mLeft), mData, ValueOf(mRight));
    }

    /** Takes over the data of the left child and pops that child's subtree. */
    method PopLeft(ranks: (T, T) -> int) returns (popped: LocHeapNode<T>)
      requires Valid() && mLeft != null
      modifies Repr
      ensures popped in old(Repr) && popped.mLeft == null && popped.mRight == null
      ensures popped.mData == HeapTree.Pop(ranks, old(WithData(mLeft.Value, mData))).1
      ensures Valid() && Repr == old(Repr) - {popped}
      ensures Value == Node(old(mSize) - 1, HeapTree.Pop(ranks, old(WithData(mLeft.Value, mData))).0,
                            old(mLeft.mData), old(Value.right))
      decreases Repr, 0
    {
      mSize := mSize - 1;
      Swap(mLeft);
      assert mRight != null ==> mRight.Valid();
      var sub;
      sub, popped := Pop(ranks, mLeft);
      LinkLeft(sub, popped);
    }

    /** Takes over the data of the right child and pops that child's subtree. */
    method PopRight(ranks: (T, T) -> int) returns (popped: LocHeapNode<T>)
      requires Valid() && mRight != null
      modifies Repr
      ensures popped in old(Repr) && popped.mLeft == null && popped.mRight == null
      ensures popped.mData == HeapTree.Pop(ranks, old(WithData(mRight.Value, mData))).1
      ensures Valid() && Repr == old(Repr) - {popped}
      ensures Value == Node(old(mSize) - 1, old(Value.left), old(mRight.mData),
                            HeapTree.Pop(ranks, old(WithData(mRight.Value, mData))).0)
      decreases Repr, 0
    {
      mSize := mSize - 1;
      Swap(mRight);
      assert mLeft != null ==> mLeft.Valid();
      var sub;
      sub, popped := Pop(ranks, mRight);
      LinkRight(sub, popped);
    }

    /**
     Takes data out of the subtree at top, wherever it is; rank decides which subtrees
     are worth searching. The node cut off is a leaf carrying data, or null.
     */
    static method Remove(ranks: (T, T) -> int, top: LocHeapNode<T>, data: T)
      returns (newTop: LocHeapNode?<T>, removed: LocHeapNode?<T>)
      requires top.Valid()
      modifies top.Repr
      ensures removed != null <==> HeapTree.Remove(ranks, old(top.Value), data).1
      ensures removed != null ==>
        removed in old(top.Repr) && removed.mLeft == null && removed.mRight == null && removed.mData == data
      ensures ValueOf(newTop) == HeapTree.Remove(ranks, old(top.Value), data).0
      ensures newTop != null ==> newTop == top && top.Valid() && top.Repr == old(top.Repr) - {removed}
      decreases top.Repr, 1
    {
      newTop, removed := top, null;
      if top.mData == data {
        PopCounts(ranks, top.Value);
        newTop, removed := Pop(ranks, top);
      } else if !OutRanks(ranks, data, top.mData) {
        removed := top.RemoveLeft(ranks, data);
        if removed == null {
          removed := top.RemoveRight(ranks, data);
        }
      }
    }

    /** Removes data from the left subtree, if there is one and it holds data. */
    method RemoveLeft(ranks: (T, T) -> int, data: T) returns (removed: LocHeapNode?<T>)
      requires Valid()
      modifies Repr
      ensures removed != null <==> HeapTree.Remove(ranks, old(Value.left), data).1
      ensures removed != null ==>
        removed in old(Repr) && removed.mLeft == null && removed.mRight == null && removed.mData == data
      ensures Valid() && Repr == old(Repr) - {removed} && mData == old(mData)
      ensures Value == if removed == null then old(Value)
                       else Node(old(mSize) - 1, HeapTree.Remove(ranks, old(Value.left), data).0, mData,
                         old(Value.right))
      decreases Repr, 0
    {
      removed := null;
      if mLeft != null {
        var sub;
        sub, removed := Remove(ranks, mLeft, data);
        if removed != null {
          mSize := mSize - 1;
        }
        LinkLeft(sub, removed);
      }
    }

    /** Removes data from the right subtree, if there is one and it holds data. */
    method RemoveRight(ranks: (T, T) -> int, data: T) returns (removed: LocHeapNode?<T>)
      requires Valid()
      modifies Repr
      ensures removed != null <==> HeapTree.Remove(ranks, old(Value.right), data).1
      ensures removed != null ==>
        removed in old(Repr) && removed.mLeft == null && removed.mRight == null && removed.mData == data
      ensures Valid() && Repr == old(Repr) - {removed} && mData == old(mData)
      ensures Value == if removed == null then old(Value)
                       else Node(old(mSize) - 1, old(Value.left), mData,
                         HeapTree.Remove(ranks, old(Value.right), data).0)
      decreases Repr, 0
    {
      removed := null;
      if mRight != null {
        var sub;
        sub, removed := Remove(ranks, mRight, data);
        if removed != null {
          mSize := mSize - 1;
        }
        LinkRight(sub, removed);
      }
    }

    /** Compares each node with its children and each size with the children's sizes. */
    method CheckNodes(ranks: (T, T) -> int) returns (ok: bool)
      requires Valid()
      ensures ok == HeapTree.CheckNodes(ranks, Value)
      decreases Repr
    {
      var totalSize := mSize;
      if mLeft != null {
        if OutRanks(ranks, mLeft.mData, mData) {
          return false;
        }
        var leftOk := mLeft.CheckNodes(ranks);
        if !leftOk {
          return false;
        }
        totalSize := totalSize - mLeft.mSize;
      }
      if mRight != null {
        if OutRanks(ranks, mRight.mData, mData) {
          return false;
        }
        var rightOk := mRight.CheckNodes(ranks);
        if !rightOk {
          return false;
        }
        totalSize := totalSize - mRight.mSize;
      }
      return totalSize == 1;
    }
  }

  class LocHeap<T(==,!new)> {
    const ranks: (T, T) -> int
    var mTree: LocHeapNode?<T>

    ghost predicate Valid()
      reads this, mTree, if mTree == null then {} else mTree.Repr
    {
      mTree != null ==> mTree.Valid()
    }

    ghost function Nodes(): set<LocHeapNode<T>>
      reads this, mTree
    {
      if mTree == null then {} else mTree.Repr
    }

    ghost function Contents(): Tree<T>
      reads this, mTree
    {
      LocHeapNode.ValueOf(mTree)
    }

    constructor (ranks: (T, T) -> int)
      ensures Valid() && Contents() == Leaf && Nodes() == {} && this.ranks == ranks
    {
      this.ranks := ranks;
      mTree := null;
    }

    method Push(x: T)
      requires Valid()
      modifies this, Nodes()
      ensures Valid() && fresh(Nodes() - old(Nodes()))
      ensures Contents() == HeapTree.Push(ranks, old(Contents()), x)
    {
      var node := new LocHeapNode(x);
      if mTree == null {
        mTree := node;
      } else {
        mTree.Push(ranks, node);
      }
    }

    method Peek() returns (top: Option<T>)
      requires Valid()
      ensures top == if Contents().Leaf? then None else Some(Contents().data)
    {
      top := if mTree == null then None else Some(mTree.mData);
    }

    method Pop() returns (x: Option<T>)
      requires Valid()
      modifies this, Nodes()
      ensures Valid() && Nodes() <= old(Nodes())
      ensures old(Contents().Leaf?) ==> x == None && Contents() == Leaf
      ensures old(Contents().Node?) ==>
        x == Some(old(Contents().data)) && Contents() == HeapTree.Pop(ranks, old(Contents())).0
    {
      x := None;
      if mTree != null {
        PopCounts(ranks, Contents());
        var newTop, heapNode := LocHeapNode.Pop(ranks, mTree);
        mTree := newTop;
        x := Some(heapNode.mData);
      }
    }

    method Remove(data: T) returns (x: Option<T>)
      requires Valid()
      modifies this, Nodes()
      ensures Valid() && Nodes() <= old(Nodes())
      ensures x == if HeapTree.Remove(ranks, old(Contents()), data).1 then Some(data) else None
      ensures Contents() == HeapTree.Remove(ranks, old(Contents()), data).0
    {
      x := None;
      if mTree != null {
        var newTop, heapNode := LocHeapNode.Remove(ranks, mTree, data);
        mTree := newTop;
        if heapNode != null {
          x := Some(heapNode.mData);
        }
      }
    }

    method CheckTree() returns (ok: bool)
      requires Valid()
      ensures IsRanking(ranks) ==> (ok <==> IsHeap(ranks, Contents()))
    {
      ok := true;
      if mTree != null {
        ok := mTree.CheckNodes(ranks);
        if IsRanking(ranks) {
          CheckNodesIsHeap(ranks, mTree.Value);
        }
      }
    }
  }
}
