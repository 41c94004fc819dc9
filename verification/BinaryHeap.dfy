/**
 The array heap of include/hohnor/common/BinaryHeap.h.

 Elements are moved through a hole: an element is lifted out of the vector, others are moved
 into the gap it leaves, and it is put back at the end. A moved-from slot is modelled as Moved,
 so that reading one would be a failed precondition. The comparator may read mutable objects
 (timers), so it is passed to each operation and describes the order at that moment.
 */
module BinaryHeap {

  datatype Slot<T> = Item(value: T) | Moved

  /** A strict weak ordering on the elements of s. */
  ghost predicate StrictWeakOrdering<T>(lt: (T, T) -> bool, s: set<T>)
  {
    && (forall x, y :: x in s && y in s && lt(x, y) ==> !lt(y, x))
    && (forall x, y, z :: x in s && y in s && z in s && !lt(x, y) && !lt(y, z) ==> !lt(x, z))
  }

  function Parent(i: nat): (p: nat)
    ensures 0 < i ==> p < i
  {
    if i > 0 then (i - 1) / 2 else i
  }

  function LeftChild(i: nat): nat { 2 * i + 1 }
  function RightChild(i: nat): nat { 2 * (i + 1) }

  ghost predicate HeapOrdered<T>(a: seq<T>, lt: (T, T) -> bool)
  {
    forall i :: 0 < i < |a| ==> !lt(a[i], a[Parent(i)])
  }

  ghost function Elements<T>(a: seq<T>): set<T> { set x | x in a }

  /** The vector while the element that belongs at index hole is lifted out. */
  ghost predicate HasHole<T>(vec: seq<Slot<T>>, a: seq<T>, hole: nat)
  {
    && |vec| == |a| && hole < |a| && vec[hole] == Moved
    && forall i :: 0 <= i < |a| && i != hole ==> vec[i] == Item(a[i])
  }

  ghost predicate AllItems<T>(vec: seq<Slot<T>>)
  {
    forall i :: 0 <= i < |vec| ==> vec[i].Item?
  }

  ghost function Values<T>(vec: seq<Slot<T>>): seq<T>
    requires AllItems(vec)
  {
    seq(|vec|, i requires 0 <= i < |vec| && vec[i].Item? => vec[i].value)
  }

  lemma LiftOut<T>(vec: seq<Slot<T>>, i: nat)
    requires AllItems(vec) && i < |vec|
    ensures HasHole(vec[i := Moved], Values(vec), i) && vec[i] == Item(Values(vec)[i])
  {
  }

  lemma HoleMoves<T>(vec: seq<Slot<T>>, a: seq<T>, i: nat, j: nat)
    requires HasHole(vec, a, i) && j < |a| && i != j
    ensures HasHole(vec[i := vec[j]][j := Moved], MoveHole(a, i, j), j)
    ensures MoveHole(a, i, j)[j] == a[i]
  {
  }

  lemma FillHole<T>(vec: seq<Slot<T>>, a: seq<T>, i: nat)
    requires HasHole(vec, a, i)
    ensures AllItems(vec[i := Item(a[i])]) && Values(vec[i := Item(a[i])]) == a
  {
  }

  // ---------- Moving the hole ----------

  /** Moving the element at j into the hole at i. */
  function MoveHole<T>(a: seq<T>, i: nat, j: nat): (r: seq<T>)
    requires i < |a| && j < |a|
    ensures |r| == |a|
  {
    a[i := a[j]][j := a[i]]
  }

  lemma MoveHoleKeeps<T>(a: seq<T>, i: nat, j: nat)
    requires i < |a| && j < |a|
    ensures multiset(MoveHole(a, i, j)) == multiset(a)
    ensures Elements(MoveHole(a, i, j)) == Elements(a)
  {
    SameElements(MoveHole(a, i, j), a);
  }

  lemma SameElements<T>(a: seq<T>, b: seq<T>)
    requires multiset(a) == multiset(b)
    ensures Elements(a) == Elements(b)
  {
    forall x ensures x in Elements(a) <==> x in Elements(b) {
      assert x in a <==> x in multiset(a);
      assert x in b <==> x in multiset(b);
    }
  }

  /** Heap order may fail only between hole and its parent. */
  ghost predicate OrderedAboveHole<T>(a: seq<T>, hole: nat, lt: (T, T) -> bool)
  {
    && (forall i :: 0 < i < |a| && i != hole ==> !lt(a[i], a[Parent(i)]))
    && (forall i :: 0 < i < |a| && Parent(i) == hole && 0 < hole < |a| ==> !lt(a[i], a[Parent(hole)]))
  }

  /** Heap order may fail only between hole and its children. */
  ghost predicate OrderedBelowHole<T>(a: seq<T>, hole: nat, lt: (T, T) -> bool)
  {
    && (forall i :: 0 < i < |a| && Parent(i) != hole ==> !lt(a[i], a[Parent(i)]))
    && (forall i :: 0 < i < |a| && Parent(i) == hole && 0 < hole < |a| ==> !lt(a[i], a[Parent(hole)]))
  }

  lemma UpStep<T>(a: seq<T>, hole: nat, lt: (T, T) -> bool)
    requires 0 < hole < |a| && OrderedAboveHole(a, hole, lt)
    requires StrictWeakOrdering(lt, Elements(a))
    requires !lt(a[Parent(hole)], a[hole])
    ensures OrderedAboveHole(MoveHole(a, hole, Parent(hole)), Parent(hole), lt)
  {
  }

  /** The child m that takes the hole is not above its sibling. */
  lemma DownStep<T>(a: seq<T>, hole: nat, m: nat, lt: (T, T) -> bool)
    requires hole < |a| && m < |a| && (m == LeftChild(hole) || m == RightChild(hole))
    requires OrderedBelowHole(a, hole, lt) && StrictWeakOrdering(lt, Elements(a))
    requires lt(a[m], a[hole])
    requires LeftChild(hole) < |a| ==> !lt(a[LeftChild(hole)], a[m])
    requires RightChild(hole) < |a| ==> !lt(a[RightChild(hole)], a[m])
    ensures OrderedBelowHole(MoveHole(a, hole, m), m, lt)
  {
    ChildrenOf(hole);
    var b := MoveHole(a, hole, m);
    assert forall i :: 0 <= i < |a| ==> a[i] in Elements(a);
    forall i | 0 < i < |b| && Parent(i) != m
      ensures !lt(b[i], b[Parent(i)])
    {
    }
    forall i | 0 < i < |b| && Parent(i) == m
      ensures !lt(b[i], b[Parent(m)])
    {
      assert !lt(a[i], a[m]);
    }
  }

  lemma DownDone<T>(a: seq<T>, hole: nat, lt: (T, T) -> bool)
    requires hole < |a| && OrderedBelowHole(a, hole, lt)
    requires LeftChild(hole) < |a| ==> !lt(a[LeftChild(hole)], a[hole])
    requires RightChild(hole) < |a| ==> !lt(a[RightChild(hole)], a[hole])
    ensures HeapOrdered(a, lt)
  {
  }

  /** No element of a heap is below its top. */
  lemma {:induction false} TopIsLeast<T>(a: seq<T>, lt: (T, T) -> bool, i: nat)
    requires HeapOrdered(a, lt) && StrictWeakOrdering(lt, Elements(a)) && i < |a|
    ensures !lt(a[i], a[0])
  {
    assert forall k :: 0 <= k < |a| ==> a[k] in Elements(a);
    if i > 0 {
      TopIsLeast(a, lt, Parent(i));
    }
  }

  // ---------- The heap ----------

  class BinaryHeap<T> {
    var vec: seq<Slot<T>>

    ghost predicate Valid(lt: (T, T) -> bool)
      reads this
    {
      AllItems(vec) && HeapOrdered(Items(), lt)
    }

    ghost function Items(): seq<T>
      requires AllItems(vec)
      reads this
    {
      Values(vec)
    }

    constructor ()
      ensures vec == []
    {
      vec := [];
    }

    function Size(): nat
      reads this
    {
      |vec|
    }

    method PercolateUp(lt: (T, T) -> bool, ghost a: seq<T>)
      requires |a| > 0 && AllItems(vec) && Values(vec) == a && OrderedAboveHole(a, |a| - 1, lt)
      requires StrictWeakOrdering(lt, Elements(a))
      modifies this
      ensures Valid(lt) && multiset(Items()) == multiset(a)
    {
      var index := |vec| - 1;
      var save := vec[index].value;
      LiftOut(vec, index);
      vec := vec[index := Moved];
      ghost var b := a;
      while Parent(index) != index
        invariant index < |b| && HasHole(vec, b, index) && b[index] == save
        invariant OrderedAboveHole(b, index, lt)
        invariant multiset(b) == multiset(a) && Elements(b) == Elements(a)
      {
        var p := Parent(index);
        assert b[p] in Elements(a) && b[index] in Elements(a);
        if lt(vec[p].value, save) {
          break;
        }
        UpStep(b, index, lt);
        MoveHoleKeeps(b, index, p);
        HoleMoves(vec, b, index, p);
        b := MoveHole(b, index, p);
        vec := vec[index := vec[p]][p := Moved];
        index := p;
      }
      assert HeapOrdered(b, lt);
      FillHole(vec, b, index);
      vec := vec[index := Item(save)];
    }

    /** The child that should take the place of save, or p if save may stay there. */
    method ProperParent(lt: (T, T) -> bool, save: T, p: nat, lc: nat, rc: nat, ghost s: set<T>) returns (r: nat)
      requires p < |vec| && p != lc && p != rc
      requires lc < |vec| ==> vec[lc].Item? && vec[lc].value in s
      requires rc < |vec| ==> vec[rc].Item? && vec[rc].value in s
      requires save in s && StrictWeakOrdering(lt, s)
      ensures r == p || ((r == lc || r == rc) && r < |vec| && lt(vec[r].value, save))
      ensures forall c :: c in {lc, rc} && c < |vec| ==> !lt(vec[c].value, if r == p then save else vec[r].value)
    {
      var lcValid := lc < |vec|;
      var rcValid := rc < |vec|;
      if !lcValid && !rcValid {
        return p;
      } else if lcValid && !rcValid {
        return if lt(vec[lc].value, save) then lc else p;
      } else if !lcValid && rcValid {
        return if lt(vec[rc].value, save) then rc else p;
      } else {
        var least := if lt(vec[rc].value, vec[lc].value) then rc else lc;
        return if lt(vec[least].value, save) then least else p;
      }
    }

    method PercolateDown(lt: (T, T) -> bool, ghost a: seq<T>)
      requires |a| > 0 && AllItems(vec) && Values(vec) == a && OrderedBelowHole(a, 0, lt)
      requires StrictWeakOrdering(lt, Elements(a))
      modifies this
      ensures Valid(lt) && multiset(Items()) == multiset(a)
    {
      var index := 0;
      var save := vec[0].value;
      LiftOut(vec, 0);
      vec := vec[0 := Moved];
      ghost var b := a;
      while true
        invariant index < |b| && HasHole(vec, b, index) && b[index] == save
        invariant OrderedBelowHole(b, index, lt)
        invariant multiset(b) == multiset(a) && Elements(b) == Elements(a)
        decreases |vec| - index
      {
        ChildrenOf(index);
        var lc, rc := LeftChild(index), RightChild(index);
        assert lc < |b| ==> b[lc] in Elements(b);
        assert rc < |b| ==> b[rc] in Elements(b);
        assert b[index] in Elements(b);
        var m := ProperParent(lt, save, index, lc, rc, Elements(a));
        if m == index {
          DownDone(b, index, lt);
          break;
        }
        DownStep(b, index, m, lt);
        MoveHoleKeeps(b, index, m);
        HoleMoves(vec, b, index, m);
        b := MoveHole(b, index, m);
        vec := vec[index := vec[m]][m := Moved];
        index := m;
      }
      FillHole(vec, b, index);
      vec := vec[index := Item(save)];
    }

    method Insert(lt: (T, T) -> bool, item: T) returns (size: nat)
      requires Valid(lt) && StrictWeakOrdering(lt, Elements(Items()) + {item})
      modifies this
      ensures Valid(lt) && size == Size()
      ensures multiset(Items()) == multiset(old(Items())) + multiset{item}
    {
      ghost var a := Items() + [item];
      assert Elements(a) == Elements(Items()) + {item};
      vec := vec + [Item(item)];
      PercolateUp(lt, a);
      size := Size();
      assert |vec| == |Items()| == |multiset(Items())|;
    }

    method Top(lt: (T, T) -> bool) returns (top: T)
      requires Valid(lt) && Size() > 0
      ensures top == Items()[0]
    {
      top := vec[0].value;
    }

    method PopTop(lt: (T, T) -> bool) returns (res: T)
      requires Valid(lt) && Size() > 0 && StrictWeakOrdering(lt, Elements(Items()))
      modifies this
      ensures Valid(lt) && res == old(Items()[0])
      ensures multiset(old(Items())) == multiset(Items()) + multiset{res}
      ensures forall x :: x in old(Items()) ==> !lt(x, res)
    {
      ghost var a := Items();
      forall i | 0 <= i < |a| ensures !lt(a[i], a[0]) { TopIsLeast(a, lt, i); }
      res := vec[0].value;
      var last := vec[|vec| - 1];
      vec := vec[0 := Moved];
      if |vec| > 1 {
        vec := vec[|vec| - 1 := Moved][0 := last];
      }
      vec := vec[..|vec| - 1];
      if |vec| > 0 {
        ghost var b := a[..|a| - 1][0 := a[|a| - 1]];
        PopKeeps(a, b);
        PercolateDown(lt, b);
      } else {
        assert a == [res];
        assert Items() == [];
      }
    }

    /** ~TimerQueue pops until nothing is left: the elements come out in order. */
    method Drain(lt: (T, T) -> bool) returns (out: seq<T>)
      requires Valid(lt) && StrictWeakOrdering(lt, Elements(Items()))
      modifies this
      ensures Size() == 0 && multiset(out) == multiset(old(Items()))
      ensures forall i, j :: 0 <= i < j < |out| ==> !lt(out[j], out[i])
    {
      out := [];
      ghost var all := Items();
      while Size() > 0
        invariant Valid(lt) && multiset(out) + multiset(Items()) == multiset(all)
        invariant Elements(Items()) <= Elements(all)
        invariant forall i, j :: 0 <= i < j < |out| ==> !lt(out[j], out[i])
        invariant forall i, x :: 0 <= i < |out| && x in Items() ==> !lt(x, out[i])
        decreases Size()
      {
        ghost var before := Items();
        var x := PopTop(lt);
        SubElements(Items(), before, x);
        assert forall y :: y in Items() ==> y in before;
        out := out + [x];
      }
      assert Items() == [];
    }
  }

  lemma ChildOf(i: nat, c: nat)
    requires 0 < c
    ensures Parent(c) == i <==> c == LeftChild(i) || c == RightChild(i)
  {
    assert c - 1 == 2 * ((c - 1) / 2) + (c - 1) % 2;
  }

  lemma ChildrenOf(i: nat)
    ensures forall c: nat {:trigger Parent(c)} :: 0 < c ==>
              (Parent(c) == i <==> c == LeftChild(i) || c == RightChild(i))
  {
    forall c: nat {:trigger Parent(c)} | 0 < c
      ensures Parent(c) == i <==> c == LeftChild(i) || c == RightChild(i)
    {
      ChildOf(i, c);
    }
  }

  lemma PopKeeps<T>(a: seq<T>, b: seq<T>)
    requires |a| > 1 && b == a[..|a| - 1][0 := a[|a| - 1]]
    ensures multiset(a) == multiset(b) + multiset{a[0]}
    ensures Elements(b) <= Elements(a)
  {
    assert a == [a[0]] + a[1..|a| - 1] + [a[|a| - 1]];
    assert b == [a[|a| - 1]] + a[1..|a| - 1];
  }

  lemma SubElements<T>(after: seq<T>, before: seq<T>, x: T)
    requires multiset(before) == multiset(after) + multiset{x}
    ensures Elements(after) <= Elements(before) && x in before
    ensures forall y :: y in after ==> y in before
    ensures |after| + 1 == |before|
  {
    forall y | y in after ensures y in before {
      assert y in multiset(after) && y in multiset(before);
    }
    assert x in multiset(before);
    assert |multiset(before)| == |before| && |multiset(after)| == |after|;
  }
}
