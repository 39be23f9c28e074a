/** list.c: a doubly linked list, sorted and reversed in place by relinking its nodes. */
module LinkedList {
  import opened Sequences
  import opened Wrappers

  class Node<T> {
    const data: T
    var next: Node?<T>
    var prev: Node?<T>

    constructor (data: T)
      ensures this.data == data && next == null && prev == null
    {
      this.data, next, prev := data, null, null;
    }
  }

  // ---- Sorting, on sequences ----

  /** What sorting asks of a comparator: at most 0 says that the first argument may go first. */
  ghost predicate Preorder<T(!new)>(cmp: (T, T) -> int)
  {
    && (forall a, b :: cmp(a, b) < 0 <==> cmp(b, a) > 0)
    && (forall a, b, c :: cmp(a, b) <= 0 && cmp(b, c) <= 0 ==> cmp(a, c) <= 0)
  }

  lemma Chain<T(!new)>(cmp: (T, T) -> int, a: T, b: T, c: T)
    requires Preorder(cmp) && cmp(a, b) <= 0 && cmp(b, c) <= 0
    ensures cmp(a, c) <= 0
  {
  }

  lemma Swap<T(!new)>(cmp: (T, T) -> int, a: T, b: T)
    requires Preorder(cmp)
    ensures (cmp(a, b) < 0 <==> cmp(b, a) > 0) && (cmp(a, b) == 0 <==> cmp(b, a) == 0)
  {
  }

  /** The merge of two sequences that takes from the left one on a tie. */
  ghost function Merged<T>(l: seq<Node<T>>, r: seq<Node<T>>, cmp: (T, T) -> int): (m: seq<Node<T>>)
    ensures |m| == |l| + |r|
  {
    if l == [] then r
    else if r == [] then l
    else if cmp(l[0].data, r[0].data) <= 0 then [l[0]] + Merged(l[1..], r, cmp)
    else [r[0]] + Merged(l, r[1..], cmp)
  }

  ghost function Sort<T>(s: seq<Node<T>>, cmp: (T, T) -> int): (t: seq<Node<T>>)
    ensures |t| == |s|
    decreases |s|
  {
    if |s| < 2 then s
    else Merged(Sort(s[..|s| / 2], cmp), Sort(s[|s| / 2..], cmp), cmp)
  }

  ghost predicate Sorted<T>(s: seq<Node<T>>, cmp: (T, T) -> int)
  {
    forall i, j :: 0 <= i < j < |s| ==> cmp(s[i].data, s[j].data) <= 0
  }

  /** The nodes that compare equal to `x`, in order. */
  ghost function Ties<T>(s: seq<Node<T>>, x: T, cmp: (T, T) -> int): seq<Node<T>>
  {
    if s == [] then []
    else if cmp(s[0].data, x) == 0 then [s[0]] + Ties(s[1..], x, cmp)
    else Ties(s[1..], x, cmp)
  }

  lemma {:induction false} MergedMembers<T>(l: seq<Node<T>>, r: seq<Node<T>>, cmp: (T, T) -> int)
    ensures multiset(Merged(l, r, cmp)) == multiset(l) + multiset(r)
  {
    if l != [] && r != [] {
      assert l == [l[0]] + l[1..] && r == [r[0]] + r[1..];
      if cmp(l[0].data, r[0].data) <= 0 {
        MergedMembers(l[1..], r, cmp);
      } else {
        MergedMembers(l, r[1..], cmp);
      }
    }
  }

  lemma {:induction false} MergedSorted<T(!new)>(l: seq<Node<T>>, r: seq<Node<T>>, cmp: (T, T) -> int)
    requires Preorder(cmp) && Sorted(l, cmp) && Sorted(r, cmp)
    ensures Sorted(Merged(l, r, cmp), cmp)
  {
    hide Preorder;
    if l != [] && r != [] {
      Swap(cmp, l[0].data, r[0].data);
      if cmp(l[0].data, r[0].data) <= 0 {
        MergedSorted(l[1..], r, cmp);
        FirstLeast(l[0], l[1..], r, cmp);
      } else {
        MergedSorted(l, r[1..], cmp);
        FirstLeast(r[0], l, r[1..], cmp);
      }
    }
  }

  /** An element that may go before both heads may go first. */
  lemma FirstLeast<T(!new)>(first: Node<T>, l: seq<Node<T>>, r: seq<Node<T>>, cmp: (T, T) -> int)
    requires Preorder(cmp) && Sorted(l, cmp) && Sorted(r, cmp) && Sorted(Merged(l, r, cmp), cmp)
    requires (l != [] ==> cmp(first.data, l[0].data) <= 0) && (r != [] ==> cmp(first.data, r[0].data) <= 0)
    ensures Sorted([first] + Merged(l, r, cmp), cmp)
  {
    hide Preorder, Merged;
    MergedMembers(l, r, cmp);
    Least(first, l, cmp);
    Least(first, r, cmp);
    SortedCons(first, Merged(l, r, cmp), cmp);
  }

  lemma Least<T(!new)>(first: Node<T>, s: seq<Node<T>>, cmp: (T, T) -> int)
    requires Preorder(cmp) && Sorted(s, cmp) && (s != [] ==> cmp(first.data, s[0].data) <= 0)
    ensures forall n :: n in s ==> cmp(first.data, n.data) <= 0
  {
    hide Preorder;
    forall i | 0 <= i < |s| ensures cmp(first.data, s[i].data) <= 0 {
      if i > 0 {
        Chain(cmp, first.data, s[0].data, s[i].data);
      }
    }
  }

  lemma SortedCons<T>(first: Node<T>, rest: seq<Node<T>>, cmp: (T, T) -> int)
    requires Sorted(rest, cmp) && forall n :: n in multiset(rest) ==> cmp(first.data, n.data) <= 0
    ensures Sorted([first] + rest, cmp)
  {
    assert forall j :: 0 <= j < |rest| ==> rest[j] in multiset(rest);
  }

  lemma {:induction false} TiesConcat<T>(s: seq<Node<T>>, t: seq<Node<T>>, x: T, cmp: (T, T) -> int)
    ensures Ties(s + t, x, cmp) == Ties(s, x, cmp) + Ties(t, x, cmp)
  {
    if s == [] {
      assert s + t == t;
    } else {
      assert (s + t)[0] == s[0] && (s + t)[1..] == s[1..] + t;
      TiesConcat(s[1..], t, x, cmp);
    }
  }

  lemma {:induction false} MergedTies<T(!new)>(l: seq<Node<T>>, r: seq<Node<T>>, x: T, cmp: (T, T) -> int)
    requires Preorder(cmp) && Sorted(l, cmp)
    ensures Ties(Merged(l, r, cmp), x, cmp) == Ties(l, x, cmp) + Ties(r, x, cmp)
  {
    hide Preorder;
    if l != [] && r != [] {
      var m := Merged(l, r, cmp);
      if cmp(l[0].data, r[0].data) <= 0 {
        MergedTies(l[1..], r, x, cmp);
        assert m[1..] == Merged(l[1..], r, cmp);
      } else {
        MergedTies(l, r[1..], x, cmp);
        assert m[1..] == Merged(l, r[1..], cmp);
        if cmp(r[0].data, x) == 0 {
          AllLater(l, r[0], x, cmp);
          NoTies(l, x, cmp);
        }
      }
    }
  }

  lemma AllLater<T(!new)>(l: seq<Node<T>>, first: Node<T>, x: T, cmp: (T, T) -> int)
    requires Preorder(cmp) && Sorted(l, cmp) && l != [] && cmp(l[0].data, first.data) > 0 && cmp(first.data, x) == 0
    ensures forall n :: n in l ==> cmp(n.data, x) != 0
  {
    hide Preorder;
    Swap(cmp, first.data, x);
    forall i | 0 <= i < |l| ensures cmp(l[i].data, x) != 0 {
      if cmp(l[i].data, x) == 0 {
        Chain(cmp, l[i].data, x, first.data);
        if i > 0 {
          Chain(cmp, l[0].data, l[i].data, first.data);
        }
      }
    }
  }

  lemma {:induction false} NoTies<T(!new)>(l: seq<Node<T>>, x: T, cmp: (T, T) -> int)
    requires forall n :: n in l ==> cmp(n.data, x) != 0
    ensures Ties(l, x, cmp) == []
  {
    if l != [] {
      NoTies(l[1..], x, cmp);
    }
  }

  /** Sorting permutes the nodes into order and is stable: nodes that compare equal stay in order. */
  lemma {:induction false} SortCorrect<T(!new)>(s: seq<Node<T>>, cmp: (T, T) -> int)
    requires Preorder(cmp)
    ensures Sorted(Sort(s, cmp), cmp) && multiset(Sort(s, cmp)) == multiset(s)
    ensures forall x :: Ties(Sort(s, cmp), x, cmp) == Ties(s, x, cmp)
    decreases |s|
  {
    hide Preorder, Merged, Ties;
    if |s| >= 2 {
      var l, r := s[..|s| / 2], s[|s| / 2..];
      SortCorrect(l, cmp);
      SortCorrect(r, cmp);
      MergedSorted(Sort(l, cmp), Sort(r, cmp), cmp);
      MergedMembers(Sort(l, cmp), Sort(r, cmp), cmp);
      assert s == l + r;
      forall x ensures Ties(Sort(s, cmp), x, cmp) == Ties(s, x, cmp) {
        MergedTies(Sort(l, cmp), Sort(r, cmp), x, cmp);
        TiesConcat(l, r, x, cmp);
      }
    }
  }

  // ---- Linking ----

  function Nth<T>(s: seq<Node<T>>, i: int): Node?<T>
  {
    if 0 <= i < |s| then s[i] else null
  }

  /** The nodes are linked in this order, both ways. */
  ghost predicate Linked<T>(s: seq<Node<T>>)
    reads s
  {
    NoDup(s) && forall i :: 0 <= i < |s| ==> s[i].next == Nth(s, i + 1) && s[i].prev == Nth(s, i - 1)
  }

  ghost function With<T>(s: seq<T>, p: nat, x: T): (t: seq<T>)
    requires p <= |s|
    ensures |t| == |s| + 1 && forall k :: 0 <= k < |t| ==> t[k] == if k == p then x else s[if k < p then k else k - 1]
  {
    s[..p] + [x] + s[p..]
  }

  /** link_behind, on a node further along in the same list */
  method LinkBehind<T>(base: Node<T>, ins: Node<T>, ghost s: seq<Node<T>>, ghost p: nat, ghost q: nat)
    requires Linked(s) && p < q < |s| && base == s[p] && ins == s[q]
    modifies s
    ensures Linked(Shifted(s, p, q))
  {
    hide Linked, Without, With;
    LinkGap(ins, s, q);
    WithoutNoDup(s, q);
    LinkIn(base, ins, Without(s, q), p);
    assert Shifted(s, p, q) == With(Without(s, q), p, ins);
  }

  lemma WithoutNoDup<T>(s: seq<Node<T>>, q: nat)
    requires NoDup(s) && q < |s|
    ensures s[q] !in Without(s, q) && forall n :: n in Without(s, q) ==> n in s
  {
  }

  /** The neighbours of the node are linked with each other. */
  method LinkGap<T>(ins: Node<T>, ghost s: seq<Node<T>>, ghost q: nat)
    requires Linked(s) && q < |s| && ins == s[q]
    modifies s
    ensures Linked(Without(s, q)) && NoDup(s)
  {
    hide Nth;
    NthIs(s, q - 1);
    NthIs(s, q + 1);
    GapFields(ins, s);
    ghost var t := Without(s, q);
    forall i | 0 <= i < |t| ensures t[i].next == Nth(t, i + 1) && t[i].prev == Nth(t, i - 1) {
      NthIs(t, i + 1);
      NthIs(t, i - 1);
      ghost var j := if i < q then i else i + 1;
      assert t[i] == s[j] && s[j] in s;
      NthIs(s, j + 1);
      NthIs(s, j - 1);
    }
  }

  method GapFields<T>(ins: Node<T>, ghost s: seq<Node<T>>)
    requires (ins.prev != null ==> ins.prev in s && ins.prev != ins) && (ins.next != null ==> ins.next in s && ins.next != ins)
    requires ins in s && (ins.next != null ==> ins.next != ins.prev)
    modifies s
    ensures ins.next == old(ins.next) && ins.prev == old(ins.prev)
    ensures forall n :: n in s ==> n.next == if n == ins.prev then ins.next else old(n.next)
    ensures forall n :: n in s ==> n.prev == if n == ins.next then ins.prev else old(n.prev)
  {
    if ins.next != null {
      ins.next.prev := ins.prev;
    }
    if ins.prev != null {
      ins.prev.next := ins.next;
    }
  }

  /** The node is linked in before `base`. */
  method LinkIn<T>(base: Node<T>, ins: Node<T>, ghost s: seq<Node<T>>, ghost p: nat)
    requires Linked(s) && p < |s| && base == s[p] && ins !in s
    modifies s, ins
    ensures Linked(With(s, p, ins))
  {
    hide Nth;
    NthIs(s, p - 1);
    LinkFields(base, ins, s);
    ghost var t := With(s, p, ins);
    forall i | 0 <= i < |t| ensures t[i].next == Nth(t, i + 1) && t[i].prev == Nth(t, i - 1) {
      NthIs(t, i + 1);
      NthIs(t, i - 1);
      if i != p {
        ghost var j := if i < p then i else i - 1;
        assert t[i] == s[j] && s[j] in s;
        NthIs(s, j + 1);
        NthIs(s, j - 1);
      }
    }
  }

  lemma NthIs<T>(s: seq<Node<T>>, i: int)
    ensures Nth(s, i) == if 0 <= i < |s| then s[i] else null
  {
  }

  method LinkFields<T>(base: Node<T>, ins: Node<T>, ghost s: seq<Node<T>>)
    requires base in s && ins !in s && (base.prev != null ==> base.prev in s)
    modifies s, ins
    ensures ins.next == base && ins.prev == old(base.prev)
    ensures forall n :: n in s ==> n.next == if n == old(base.prev) then ins else old(n.next)
    ensures forall n :: n in s ==> n.prev == if n == base then ins else old(n.prev)
  {
    if base.prev == null {
      ins.prev := null;
      ins.next := base;
      base.prev := ins;
    } else {
      ins.prev := base.prev;
      ins.prev.next := ins;
      ins.next := base;
      base.prev := ins;
    }
  }

  // ---- Merging in place ----

  /** The list while two of its sections are merged: what comes before them, what has been
      merged, what is left of either, and what comes after. */
  datatype Row<!T> = Row(pre: seq<Node<T>>, done: seq<Node<T>>, l: seq<Node<T>>, r: seq<Node<T>>, post: seq<Node<T>>) {
    ghost function All(): seq<Node<T>> { pre + done + l + r + post }
    ghost function Left(): nat { |pre| + |done| }
    ghost function Right(): nat { |pre| + |done| + |l| }

    lemma Positions()
      ensures forall k :: 0 <= k < |l| ==> All()[Left() + k] == l[k]
      ensures forall k :: 0 <= k < |r| ==> All()[Right() + k] == r[k]
      ensures |All()| == Right() + |r| + |post|
    {
    }

    /** The first node of the left section stays where it is. */
    ghost function TakeLeft(): (row: Row<T>)
      requires l != []
      ensures row.All() == All()
    {
      assert l == [l[0]] + l[1..];
      this.(done := done + [l[0]], l := l[1..])
    }

    /** The first node of the right section moves before the left section. */
    ghost function TakeRight(): (row: Row<T>)
      requires l != [] && r != []
      ensures row.All() == Shifted(All(), Left(), Right())
    {
      MoveOver(pre + done, l, r, post);
      assert pre + (done + [r[0]]) == pre + done + [r[0]];
      this.(done := done + [r[0]], r := r[1..])
    }
  }

  lemma MoveOver<T>(a: seq<T>, l: seq<T>, r: seq<T>, z: seq<T>)
    requires l != [] && r != []
    ensures Shifted(a + l + r + z, |a|, |a| + |l|) == a + [r[0]] + l + r[1..] + z
  {
    var s, q := a + l + r + z, |a| + |l|;
    assert s[..|a|] == a && s[q] == r[0] && s[|a|..q] == l;
    assert s[q + 1..] == r[1..] + z;
    assert a + [r[0]] + l + (r[1..] + z) == a + [r[0]] + l + r[1..] + z;
  }

  lemma NextIs<T>(s: seq<Node<T>>, k: nat)
    requires Linked(s) && k < |s|
    ensures s[k].next == Nth(s, k + 1)
  {
  }

  /** `steps` nodes further on */
  method Advance<T>(part: Node<T>, steps: nat, ghost s: seq<Node<T>>, ghost k: nat) returns (node: Node<T>)
    requires Linked(s) && k + steps < |s| && part == s[k]
    ensures node == s[k + steps] && Linked(s)
  {
    node := part;
    for i := 0 to steps
      invariant node == s[k + i]
    {
      node := node.next;
    }
  }

  /** What is known of the row whenever two nodes are compared. */
  ghost predicate Merging<T>(row: Row<T>, row0: Row<T>, cmp: (T, T) -> int)
  {
    && row.pre == row0.pre && row.post == row0.post && row.r != []
    && row.done + Merged(row.l, row.r, cmp) == Merged(row0.l, row0.r, cmp)
    && |row.l| <= |row0.l| && |row.r| <= |row0.r| && |row.done| == |row0.l| - |row.l| + |row0.r| - |row.r|
  }

  lemma MergingLeft<T>(row: Row<T>, row0: Row<T>, cmp: (T, T) -> int)
    requires Merging(row, row0, cmp) && row.l != [] && cmp(row.l[0].data, row.r[0].data) <= 0
    ensures Merging(row.TakeLeft(), row0, cmp)
  {
    assert row.done + Merged(row.l, row.r, cmp) == row.done + [row.l[0]] + Merged(row.l[1..], row.r, cmp);
  }

  lemma MergingRight<T>(row: Row<T>, row0: Row<T>, cmp: (T, T) -> int)
    requires Merging(row, row0, cmp) && row.l != [] && cmp(row.l[0].data, row.r[0].data) > 0
    ensures row.pre == row0.pre && row.post == row0.post
    ensures var next := row.TakeRight();
      if |row.r| == 1 then next.done + next.l + next.r == Merged(row0.l, row0.r, cmp) else Merging(next, row0, cmp)
  {
    assert row.done + Merged(row.l, row.r, cmp) == row.done + [row.r[0]] + Merged(row.l, row.r[1..], cmp);
  }

  lemma MergingFirst<T>(row0: Row<T>, cmp: (T, T) -> int)
    requires row0.done == [] && row0.r != []
    ensures Merging(row0, row0, cmp)
  {
  }

  /** Nothing is left to compare. */
  lemma MergingLast<T>(row: Row<T>, row0: Row<T>, cmp: (T, T) -> int)
    requires Merging(row, row0, cmp) && (row.l == [] || (|row.l| == |row.r| == 1 && cmp(row.l[0].data, row.r[0].data) <= 0))
    ensures row.pre == row0.pre && row.post == row0.post
    ensures row.done + row.l + row.r == Merged(row0.l, row0.r, cmp)
  {
    if row.l != [] {
      assert row.l == [row.l[0]] && Merged(row.l[1..], row.r, cmp) == row.r;
      assert row.done + row.l + row.r == row.done + (row.l + row.r);
    }
  }

  /** The list `t` holds the merged nodes in the place of the two sections; `left` and `right` are its ends. */
  ghost predicate MergedInto<T>(row0: Row<T>, m: seq<Node<T>>, t: seq<Node<T>>, left: Node<T>, right: Node<T>)
    reads t
  {
    t == row0.pre + m + row0.post && Linked(t) && m != [] && left == m[0] && right == m[|m| - 1]
  }

  lemma RowDone<T>(row: Row<T>, row0: Row<T>, m: seq<Node<T>>, left: Node<T>, right: Node<T>)
    requires row.pre == row0.pre && row.post == row0.post && row.done + row.l + row.r == m && Linked(row.All())
    requires row.done + row.l != [] && row.l + row.r != []
    requires left == (row.done + row.l)[0] && right == if row.r == [] then row.l[|row.l| - 1] else row.r[|row.r| - 1]
    ensures MergedInto(row0, m, row.All(), left, right)
  {
    hide Linked;
  }

  lemma SameNode<T(!new)>(n: Node<T>, cmp: (T, T) -> int)
    requires Preorder(cmp)
    ensures cmp(n.data, n.data) == 0
  {
    Swap(cmp, n.data, n.data);
  }

  lemma RightNext<T>(row: Row<T>)
    requires Linked(row.All()) && |row.r| > 1
    ensures row.r[0].next == row.r[1]
  {
    row.Positions();
    NextIs(row.All(), row.Right());
  }

  /** link_behind of the heads of the two sections */
  method LinkRight<T>(lPart: Node<T>, rPart: Node<T>, ghost row: Row<T>, ghost ns: set<Node<T>>)
    requires row.l != [] && row.r != [] && lPart == row.l[0] && rPart == row.r[0]
    requires Linked(row.All()) && forall n :: n in row.All() ==> n in ns
    modifies row.All()
    ensures Linked(row.TakeRight().All()) && forall n :: n in row.TakeRight().All() ==> n in ns
  {
    hide Linked, Shifted;
    row.Positions();
    ShiftedSame(row.All(), row.Left(), row.Right());
    LinkBehind(lPart, rPart, row.All(), row.Left(), row.Right());
  }

  /** merge */
  method Merge<T(!new)>(left0: Node<T>, right0: Node<T>, lSize: nat, rSize: nat, cmp: (T, T) -> int, ghost row0: Row<T>, ghost ns: set<Node<T>>)
    returns (left: Node<T>, right: Node<T>, ghost t: seq<Node<T>>)
    requires Preorder(cmp) && Linked(row0.All()) && forall n :: n in row0.All() ==> n in ns
    requires row0.done == [] && |row0.l| == lSize > 0 && |row0.r| == rSize && (rSize == lSize || rSize == lSize + 1)
    requires left0 == row0.l[0] && right0 == row0.r[0]
    modifies ns
    ensures MergedInto(row0, Merged(row0.l, row0.r, cmp), t, left, right)
  {
    hide Linked, Merged, Shifted, Preorder, Merging, MergedInto, Row.All;
    left, right := left0, right0;
    var size := rSize + lSize;
    var l, r := 0, 0;
    var lPart, rPart := left, right;
    ghost var row := row0;
    MergingFirst(row0, cmp);
    var i := 0;
    while i < size
      invariant Merging(row, row0, cmp) && Linked(row.All()) && forall n :: n in row.All() ==> n in ns
      invariant i == l + r == |row.done| && l == lSize - |row.l| && r == rSize - |row.r| && row.r != []
      invariant lPart == (row.l + row.r)[0] && rPart == row.r[0] && left == (row.done + row.l)[0]
      invariant right == right0 && (i == 0 ==> rPart == right)
    {
      row.Positions();
      var c := cmp(lPart.data, rPart.data);
      if c < 0 || c == 0 {
        if i == 0 && size == 2 {
          MergingLast(row, row0, cmp);
          t := row.All();
          RowDone(row, row0, Merged(row0.l, row0.r, cmp), left, right);
          return;
        }
        if l == lSize {
          MergingLast(row, row0, cmp);
          t := row.All();
          right := Advance(rPart, rSize - 1 - r, t, row.Right());
          RowDone(row, row0, Merged(row0.l, row0.r, cmp), left, right);
          return;
        }
        MergingLeft(row, row0, cmp);
        NextIs(row.All(), row.Left());
        lPart := lPart.next;
        l := l + 1;
        row := row.TakeLeft();
      } else {
        if row.l == [] {
          SameNode(lPart, cmp);
          assert false;
        }
        MergingRight(row, row0, cmp);
        if |row.r| > 1 {
          RightNext(row);
        }
        var tmp := rPart.next;
        LinkRight(lPart, rPart, row, ns);
        row := row.TakeRight();
        if i == 0 && size == 2 {
          t := row.All();
          right := lPart;
          left := rPart;
          RowDone(row, row0, Merged(row0.l, row0.r, cmp), left, right);
          return;
        }
        r := r + 1;
        if r == rSize {
          t := row.All();
          row.Positions();
          right := Advance(lPart, lSize - 1 - l, t, row.Left());
          RowDone(row, row0, Merged(row0.l, row0.r, cmp), left, right);
          return;
        }
        if i == 0 {
          left := rPart;
        }
        rPart := tmp;
      }
      i := i + 1;
    }
    assert false;
  }

  lemma ShiftedSame<T>(s: seq<T>, p: nat, q: nat)
    requires p < q < |s|
    ensures forall x :: x in Shifted(s, p, q) <==> x in s
  {
    assert s == s[..p] + s[p..q] + [s[q]] + s[q + 1..];
  }

  // ---- Swapping ----

  /** A node, or the other one if it is one of the two that are swapped. */
  function Other<T>(x: Node?<T>, n1: Node<T>, n2: Node<T>): Node?<T>
  {
    if x == n1 then n2 else if x == n2 then n1 else x
  }

  ghost function Swapped<T>(s: seq<T>, p: nat, q: nat): (t: seq<T>)
    requires p < q < |s|
    ensures |t| == |s|
  {
    s[p := s[q]][q := s[p]]
  }

  /** swap */
  method SwapNodes<T>(n1: Node<T>, n2: Node<T>, ghost s: seq<Node<T>>, ghost p: nat, ghost q: nat)
    requires Linked(s) && p < q < |s| && n1 == s[p] && n2 == s[q]
    modifies s
    ensures Linked(Swapped(s, p, q))
  {
    hide Nth;
    SwapReady(s, p, q);
    SwapFields(n1, n2, s);
    ghost var t := Swapped(s, p, q);
    forall i | 0 <= i < |t| ensures t[i].next == Nth(t, i + 1) && t[i].prev == Nth(t, i - 1) {
      assert t[i] == Other(s[i], n1, n2) && s[i] == Other(t[i], n1, n2) && t[i] in s && s[i] in s;
      NthSwapped(s, p, q, i + 1);
      NthSwapped(s, p, q, i - 1);
    }
  }

  lemma NthSwapped<T>(s: seq<Node<T>>, p: nat, q: nat, i: int)
    requires NoDup(s) && p < q < |s|
    ensures Nth(Swapped(s, p, q), i) == Other(Nth(s, i), s[p], s[q])
  {
  }

  lemma SwapReady<T>(s: seq<Node<T>>, p: nat, q: nat)
    requires Linked(s) && p < q < |s|
    ensures NoDup(s) && Swappable(s[p], s[q], s)
  {
    assert forall i :: 0 <= i < |s| ==> s[i] in s;
  }

  /** The two nodes and their neighbours are linked with each other. */
  ghost predicate Swappable<T>(n1: Node<T>, n2: Node<T>, s: seq<Node<T>>)
    reads s
  {
    && n1 in s && n2 in s && n1 != n2 && n2.next != n1
    && forall x :: x in s ==>
         x.next != x && (x.next != null ==> x.next in s && x.next.prev == x) && (x.prev != null ==> x.prev in s && x.prev.next == x)
  }

  method SwapFields<T>(n1: Node<T>, n2: Node<T>, ghost s: seq<Node<T>>)
    requires Swappable(n1, n2, s)
    modifies s
    ensures forall x :: x in s ==> x.next == Other(old(Other(x, n1, n2).next), n1, n2)
    ensures forall x :: x in s ==> x.prev == Other(old(Other(x, n1, n2).prev), n1, n2)
  {
    if n1.next == n2 || n2.next == n1 {
      SwapAdjacent(n1, n2, s);
    } else {
      SwapApart(n1, n2, s);
    }
  }

  method SwapApart<T>(n1: Node<T>, n2: Node<T>, ghost s: seq<Node<T>>)
    requires Swappable(n1, n2, s) && n1.next != n2
    modifies s
    ensures forall x :: x in s ==> x.next == Other(old(Other(x, n1, n2).next), n1, n2)
    ensures forall x :: x in s ==> x.prev == Other(old(Other(x, n1, n2).prev), n1, n2)
  {
    var left1, right1, left2, right2 := n1.prev, n1.next, n2.prev, n2.next;
    PutBetween(n2, left1, right1, s);
    PutBetween(n1, left2, right2, s);
  }

  /** The node gets new neighbours, and they get it. */
  method PutBetween<T>(node: Node<T>, left: Node?<T>, right: Node?<T>, ghost s: seq<Node<T>>)
    requires node in s && (left != null ==> left in s) && (right != null ==> right in s) && left != node && right != node
    modifies s
    ensures forall x :: x in s ==> x.next == if x == node then right else if x == left then node else old(x.next)
    ensures forall x :: x in s ==> x.prev == if x == node then left else if x == right then node else old(x.prev)
  {
    if left != null {
      left.next := node;
    }
    node.prev := left;
    if right != null {
      right.prev := node;
    }
    node.next := right;
  }

  /** swap_adjacent, for the first node before the second */
  method SwapAdjacent<T>(n1: Node<T>, n2: Node<T>, ghost s: seq<Node<T>>)
    requires Swappable(n1, n2, s) && n1.next == n2
    modifies s
    ensures forall x :: x in s ==> x.next == Other(old(Other(x, n1, n2).next), n1, n2)
    ensures forall x :: x in s ==> x.prev == Other(old(Other(x, n1, n2).prev), n1, n2)
  {
    if n2.next != null {
      n2.next.prev := n1;
    }
    n1.next := n2.next;
    if n1.prev != null {
      n1.prev.next := n2;
    }
    n2.prev := n1.prev;
    n1.prev := n2;
    n2.next := n1;
  }

  class List<T(!new)> {
    var head: Node?<T>
    var tail: Node?<T>
    var size: nat
    ghost var nodes: seq<Node<T>>

    ghost predicate Valid()
      reads this, nodes
    {
      Linked(nodes) && head == Nth(nodes, 0) && tail == Nth(nodes, |nodes| - 1) && size == |nodes|
    }

    constructor ()
      ensures Valid() && nodes == []
    {
      head, tail, size, nodes := null, null, 0, [];
    }

    /** list_sort_in_place: with SortCorrect, a stable sort of the same nodes. */
    method SortInPlace(cmp: (T, T) -> int)
      requires Valid() && Preorder(cmp)
      modifies this, nodes
      ensures Valid() && nodes == Sort(old(nodes), cmp) && size == old(size)
    {
      hide Linked, Preorder, Sort;
      ghost var all := nodes;
      assert [] + all + [] == all;
      var h := Split(head, size, cmp, [], all, [], set n | n in all);
      nodes := Sort(all, cmp);
      assert [] + nodes + [] == nodes;
      SortShort(all, cmp);
    }

    lemma SortShort(s: seq<Node<T>>, cmp: (T, T) -> int)
      ensures |s| < 2 ==> Sort(s, cmp) == s
    {
    }

    lemma SortHalves(s: seq<Node<T>>, cmp: (T, T) -> int)
      requires |s| >= 2
      ensures Sort(s, cmp) == Merged(Sort(s[..|s| / 2], cmp), Sort(s[|s| / 2..], cmp), cmp)
    {
    }

    lemma SortMembers(s: seq<Node<T>>, cmp: (T, T) -> int)
      requires Preorder(cmp)
      ensures forall ns: set<Node<T>> :: Within(s, ns) ==> Within(Sort(s, cmp), ns)
    {
      SortCorrect(s, cmp);
      assert forall n :: n in Sort(s, cmp) <==> n in multiset(Sort(s, cmp));
    }

    static ghost predicate Within(s: seq<Node<T>>, ns: set<Node<T>>)
    {
      forall n :: n in s ==> n in ns
    }

    static lemma WithinConcat(s: seq<Node<T>>, t: seq<Node<T>>, ns: set<Node<T>>)
      ensures Within(s + t, ns) <==> Within(s, ns) && Within(t, ns)
    {
      assert forall n :: n in s + t <==> n in s || n in t;
    }

    /** split, on the section `sec` of the list */
    method Split(b: Node?<T>, size: nat, cmp: (T, T) -> int,
        ghost pre: seq<Node<T>>, ghost sec: seq<Node<T>>, ghost post: seq<Node<T>>, ghost ns: set<Node<T>>) returns (h: Node?<T>)
      requires Preorder(cmp) && Linked(pre + sec + post) && Within(pre, ns) && Within(sec, ns) && Within(post, ns)
      requires size == |sec| && b == Nth(sec, 0)
      modifies `head, `tail, ns
      ensures Linked(pre + Sort(sec, cmp) + post) && h == Nth(Sort(sec, cmp), 0)
      ensures if size < 2 then head == old(head) && tail == old(tail) else head == Nth(Sort(sec, cmp), 0) && tail == Nth(Sort(sec, cmp), size - 1)
      decreases size
    {
      hide Linked, Preorder, Sort, MergedInto, Within, Merged, Nth;
      SortShort(sec, cmp);
      NthIs(sec, 0);
      if size < 2 {
        return b;
      }
      var lSize := size / 2;
      var rSize := size / 2 + size % 2;
      ghost var l, r := sec[..lSize], sec[lSize..];
      assert sec == l + r;
      NthIs(l, 0);
      NthIs(r, 0);
      assert pre + sec + post == pre + l + (r + post);
      WithinConcat(l, r, ns);
      WithinConcat(r, post, ns);
      var center := Advance(b, lSize, pre + sec + post, |pre|);
      var lHead := Split(b, lSize, cmp, pre, l, r + post, ns);
      SortMembers(l, cmp);
      ghost var l', r' := Sort(l, cmp), Sort(r, cmp);
      NthIs(l', 0);
      NthIs(r', 0);
      assert pre + l' + (r + post) == (pre + l') + r + post;
      WithinConcat(pre, l', ns);
      var rHead := Split(center, rSize, cmp, pre + l', r, post, ns);
      SortMembers(r, cmp);
      ghost var row := Row(pre, [], l', r', post);
      assert row.All() == (pre + l') + r' + post;
      WithinConcat(pre + l', r', ns);
      WithinConcat(pre + l' + r', post, ns);
      WithinAll(row.All(), ns);
      ghost var t;
      SortHalves(sec, cmp);
      lHead, rHead, t := Merge(lHead, rHead, lSize, rSize, cmp, row, ns);
      MergedIs(row, Sort(sec, cmp), t, lHead, rHead);
      head := lHead;
      tail := rHead;
      return lHead;
    }

    lemma WithinAll(s: seq<Node<T>>, ns: set<Node<T>>)
      requires Within(s, ns)
      ensures forall n :: n in s ==> n in ns
    {
    }

    lemma MergedIs(row0: Row<T>, m: seq<Node<T>>, t: seq<Node<T>>, left: Node<T>, right: Node<T>)
      requires MergedInto(row0, m, t, left, right)
      ensures Linked(row0.pre + m + row0.post) && left == Nth(m, 0) && right == Nth(m, |m| - 1)
    {
    }

    // ---- Reversing ----

    /** list_reverse */
    method Reverse()
      requires Valid()
      modifies this, nodes
      ensures Valid() && nodes == Turned(old(nodes), old(size)) && size == old(size)
    {
      hide Linked, Turned, Nth, NoDup;
      TurnedShort(nodes);
      if size == 0 || size == 1 {
        return;
      }
      ghost var s := nodes;
      NthIs(s, 0);
      NthIs(s, size - 1);
      var headOld, tailOld := head, tail;
      TurnAll(headOld, tailOld, size, s, set x | x in s);
      nodes := Turned(s, size / 2);
      TurnedAll(s);
      head, tail := tailOld, headOld;
    }

    /** The loop of list_reverse. */
    static method TurnAll(head: Node<T>, tail: Node<T>, size: nat, ghost s: seq<Node<T>>, ghost ns: set<Node<T>>)
      requires size == |s| >= 2 && Linked(s) && head == s[0] && tail == s[size - 1] && forall x :: x in s ==> x in ns
      modifies ns
      ensures Linked(Turned(s, size / 2))
    {
      hide Linked, Turned, Nth, NoDup;
      TurnedNone(s);
      var left: Node?<T>, right: Node?<T> := head, tail;
      for i := 0 to size / 2
        invariant Linked(Turned(s, i)) && (forall x :: x in Turned(s, i) ==> x in ns)
        invariant i < size / 2 ==> left == Turned(s, i)[i] && right == Turned(s, i)[size - 1 - i]
      {
        left, right := ReverseRound(left, right, s, i);
      }
    }

    static method ReverseRound(left: Node<T>, right: Node<T>, ghost s: seq<Node<T>>, ghost i: nat) returns (left': Node?<T>, right': Node?<T>)
      requires i < |s| / 2 && Linked(Turned(s, i)) && left == Turned(s, i)[i] && right == Turned(s, i)[|s| - 1 - i]
      modifies Turned(s, i)
      ensures Linked(Turned(s, i + 1)) && forall x :: x in Turned(s, i + 1) ==> x in s
      ensures i + 1 < |s| / 2 ==> left' == Turned(s, i + 1)[i + 1] && right' == Turned(s, i + 1)[|s| - 2 - i]
    {
      hide Linked, Turned, Nth, NoDup;
      ghost var cur := Turned(s, i);
      NextIs(cur, i);
      PrevIs(cur, |s| - 1 - i);
      NthIs(cur, i + 1);
      NthIs(cur, |s| - 2 - i);
      TurnedNext(s, i);
      var tmpl, tmpr := left.next, right.prev;
      SwapNodes(left, right, cur, i, |s| - 1 - i);
      left', right' := tmpl, tmpr;
    }

    /** The first and the last `i` elements have changed places. */
    static ghost function Turned(s: seq<Node<T>>, i: nat): (t: seq<Node<T>>)
      ensures |t| == |s|
    {
      seq(|s|, k requires 0 <= k < |s| => s[if k < i || |s| - 1 - k < i then |s| - 1 - k else k])
    }

    lemma TurnedShort(s: seq<Node<T>>)
      ensures |s| < 2 ==> Turned(s, |s|) == s
    {
    }

    static lemma TurnedNone(s: seq<Node<T>>)
      ensures Turned(s, 0) == s
    {
    }

    lemma TurnedAll(s: seq<Node<T>>)
      ensures Turned(s, |s| / 2) == Turned(s, |s|)
      ensures s != [] ==> Nth(Turned(s, |s|), 0) == s[|s| - 1] && Nth(Turned(s, |s|), |s| - 1) == s[0]
    {
    }

    static lemma TurnedNext(s: seq<Node<T>>, i: nat)
      requires i < |s| / 2
      ensures Swapped(Turned(s, i), i, |s| - 1 - i) == Turned(s, i + 1)
      ensures forall x :: x in Turned(s, i + 1) ==> x in s
      ensures i + 1 < |s| / 2 ==> Turned(s, i + 1)[i + 1] == Turned(s, i)[i + 1] && Turned(s, i + 1)[|s| - 2 - i] == Turned(s, i)[|s| - 2 - i]
    {
    }

    static lemma PrevIs(s: seq<Node<T>>, k: nat)
      requires Linked(s) && k < |s|
      ensures s[k].prev == Nth(s, k - 1)
    {
    }

    // ---- Ends ----

    /** list_add_last */
    method AddLast(element: T)
      requires Valid()
      modifies this, nodes
      ensures Valid() && |nodes| == |old(nodes)| + 1 && nodes[..|old(nodes)|] == old(nodes)
      ensures nodes[|old(nodes)|].data == element && fresh(nodes[|old(nodes)|])
    {
      hide Nth;
      NthIs(nodes, 0);
      NthIs(nodes, |nodes| - 1);
      var node := new Node(element);
      ghost var t := nodes + [node];
      if size == 0 {
        head, tail := node, node;
      } else {
        node.prev := tail;
        tail.next := node;
        tail := node;
      }
      forall i | 0 <= i < |t| ensures t[i].next == Nth(t, i + 1) && t[i].prev == Nth(t, i - 1) {
        NthIs(t, i + 1);
        NthIs(t, i - 1);
        NthIs(nodes, i + 1);
        NthIs(nodes, i - 1);
      }
      NthIs(t, 0);
      NthIs(t, |t| - 1);
      size := size + 1;
      nodes := t;
    }

    /** unlink */
    method Unlink(node: Node<T>, ghost k: nat) returns (data: T)
      requires Valid() && k < |nodes| && node == nodes[k]
      modifies this, nodes
      ensures Valid() && nodes == Without(old(nodes), k) && data == node.data
    {
      hide Linked, Without;
      data := node.data;
      UnlinkEnds(nodes, k);
      var prev, next := node.prev, node.next;
      LinkGap(node, nodes, k);
      if prev == null {
        head := next;
      }
      if next == null {
        tail := prev;
      }
      size := size - 1;
      nodes := Without(nodes, k);
    }

    lemma UnlinkEnds(s: seq<Node<T>>, k: nat)
      requires Linked(s) && k < |s|
      ensures s[k].next == Nth(s, k + 1) && s[k].prev == Nth(s, k - 1)
      ensures Nth(Without(s, k), 0) == Nth(s, if k == 0 then 1 else 0)
      ensures Nth(Without(s, k), |s| - 2) == Nth(s, if k == |s| - 1 then k - 1 else |s| - 1)
    {
    }

    /** list_remove_first; the result is None if the list is empty. */
    method RemoveFirst() returns (data: Option<T>)
      requires Valid()
      modifies this, nodes
      ensures Valid()
      ensures if old(nodes) == [] then nodes == [] && data == None else nodes == old(nodes)[1..] && data == Some(old(nodes)[0].data)
    {
      if size == 0 {
        return None;
      }
      var e := Unlink(head, 0);
      return Some(e);
    }

    /** list_remove_last; the result is None if the list is empty. */
    method RemoveLast() returns (data: Option<T>)
      requires Valid()
      modifies this, nodes
      ensures Valid()
      ensures if old(nodes) == [] then nodes == [] && data == None
              else nodes == old(nodes)[..|old(nodes)| - 1] && data == Some(old(nodes)[|old(nodes)| - 1].data)
    {
      if size == 0 {
        return None;
      }
      var e := Unlink(tail, |nodes| - 1);
      return Some(e);
    }
  }
}
