/** The singly linked list under every queue and under the event diary: nodes, the list with its
    first and last pointers, the iterator that trails one node behind, and ordered insertion.
    Every operation is specified against `contents`, the sequence the list stands for. */
module PointerList {

  /** What `remove` does with an object: unlink it, or, when the object is not in the list, read
      through the null pointer the search stopped at. */
  datatype Removal = Removed | NullDereference

  class ListNode<T> {
    var data: T
    var next: ListNode?<T>

    constructor (o: T, nextNode: ListNode?<T>)
      ensures data == o && next == nextNode
    {
      data, next := o, nextNode;
    }
  }

  // ---- sequences the pointer operations are compared with ----

  /** The first position whose element does not come before `o`. */
  function InsertionPoint<T>(before: (T, T) -> bool, s: seq<T>, o: T): (k: nat)
    ensures k <= |s|
    ensures forall i :: 0 <= i < k ==> before(s[i], o)
    ensures k < |s| ==> !before(s[k], o)
  {
    if s == [] || !before(s[0], o) then 0 else 1 + InsertionPoint(before, s[1..], o)
  }

  lemma {:induction false} PointOfInsertion<T>(before: (T, T) -> bool, s: seq<T>, o: T, k: nat)
    requires k <= |s| && (forall i :: 0 <= i < k ==> before(s[i], o)) && (k < |s| ==> !before(s[k], o))
    ensures InsertionPoint(before, s, o) == k
  {
    if k > 0 { PointOfInsertion(before, s[1..], o, k - 1); }
  }

  function Inserted<T>(before: (T, T) -> bool, s: seq<T>, o: T): (r: seq<T>)
  {
    var k := InsertionPoint(before, s, o);
    s[..k] + [o] + s[k..]
  }

  lemma InsertedAt<T>(before: (T, T) -> bool, s: seq<T>, o: T) returns (k: nat)
    ensures k <= |s| && Inserted(before, s, o) == s[..k] + [o] + s[k..]
    ensures forall i :: 0 <= i < k ==> before(s[i], o)
    ensures k < |s| ==> !before(s[k], o)
  {
    k := InsertionPoint(before, s, o);
  }

  ghost predicate Sorted<T>(before: (T, T) -> bool, s: seq<T>) {
    forall i, j :: 0 <= i < j < |s| ==> before(s[i], s[j])
  }

  ghost predicate TotalPreorder<T(!new)>(before: (T, T) -> bool) {
    && (forall x, y :: before(x, y) || before(y, x))
    && (forall x, y, z :: before(x, y) && before(y, z) ==> before(x, z))
  }

  /** In a sorted sequence the elements that come before `o` or tie with it form a prefix. */
  lemma InsertionPointSplits<T(!new)>(before: (T, T) -> bool, s: seq<T>, o: T, i: nat)
    requires TotalPreorder(before) && Sorted(before, s) && i < |s|
    ensures i < InsertionPoint(before, s, o) <==> before(s[i], o)
  {
    var k := InsertionPoint(before, s, o);
    if k < i { assert before(s[k], s[i]); }
  }

  /** Ordered insertion into a sorted sequence is stable: the result is sorted, the new object stands
      after everything that comes before it or ties with it and ahead of everything strictly later,
      and the others keep their order. */
  lemma InsertedIsStable<T(!new)>(before: (T, T) -> bool, s: seq<T>, o: T)
    requires TotalPreorder(before) && Sorted(before, s)
    ensures Sorted(before, Inserted(before, s, o))
    ensures exists k :: 0 <= k <= |s| && Inserted(before, s, o) == s[..k] + [o] + s[k..]
                        && (forall i :: 0 <= i < |s| ==> (i < k <==> before(s[i], o)))
  {
    var k := InsertionPoint(before, s, o);
    var r := Inserted(before, s, o);
    forall i | 0 <= i < |s| ensures i < k <==> before(s[i], o) {
      InsertionPointSplits(before, s, o, i);
    }
    forall i, j | 0 <= i < j < |r| ensures before(r[i], r[j]) {
      if i == k {
        assert r[j] == s[j - 1];
      } else if j == k {
        assert r[i] == s[i];
      } else {
        assert before(s[if i < k then i else i - 1], s[if j < k then j else j - 1]);
      }
    }
  }

  lemma InsertedKeepsElements<T>(before: (T, T) -> bool, s: seq<T>, o: T)
    ensures multiset(Inserted(before, s, o)) == multiset(s) + multiset{o}
  {
    var k := InsertionPoint(before, s, o);
    assert s == s[..k] + s[k..];
  }

  /** Position of the first occurrence of `o`, or the length. */
  function FirstOccurrence<T(==)>(s: seq<T>, o: T): (k: nat)
    ensures k <= |s|
    ensures o !in s[..k]
    ensures k < |s| <==> o in s
    ensures k < |s| ==> s[k] == o
  {
    if s == [] || s[0] == o then 0
    else
      var k := 1 + FirstOccurrence(s[1..], o);
      assert s[..k] == [s[0]] + s[1..][..k - 1];
      k
  }

  // ---- the list itself ----

  class List<T(==)> {
    var firstNode: ListNode?<T>
    var lastNode: ListNode?<T>
    ghost var nodes: seq<ListNode<T>>
    ghost var contents: seq<T>
    ghost var Repr: set<object>

    /** The nodes reached from `firstNode` are pairwise different (no cycle), end at `lastNode`, and
        hold `contents` in order. */
    ghost predicate Valid()
      reads this, Repr
      ensures Valid() ==> this in Repr
    {
      && this in Repr
      && |contents| == |nodes|
      && (forall i :: 0 <= i < |nodes| ==> nodes[i] in Repr && nodes[i].data == contents[i])
      && (forall i, j :: 0 <= i < j < |nodes| ==> nodes[i] != nodes[j])
      && (forall i {:trigger nodes[i].next} :: 0 <= i < |nodes| ==>
            nodes[i].next == if i + 1 < |nodes| then nodes[i + 1] else null)
      && firstNode == (if nodes == [] then null else nodes[0])
      && lastNode == (if nodes == [] then null else nodes[|nodes| - 1])
    }

    constructor ()
      ensures Valid() && fresh(Repr) && contents == []
    {
      firstNode, lastNode := null, null;
      nodes, contents, Repr := [], [], {this};
    }

    predicate IsEmpty()
      reads this
    {
      firstNode == null
    }

    method First() returns (o: T)
      requires Valid() && contents != []
      ensures o == contents[0]
    {
      o := firstNode.data;
    }

    method Last() returns (o: T)
      requires Valid() && contents != []
      ensures o == contents[|contents| - 1]
    {
      o := lastNode.data;
    }

    method InsertAtFront(o: T)
      requires Valid()
      modifies Repr
      ensures Valid() && fresh(Repr - old(Repr))
      ensures contents == [o] + old(contents)
    {
      var n := new ListNode(o, firstNode);
      firstNode := n;
      if lastNode == null { lastNode := n; }
      nodes, contents, Repr := [n] + nodes, [o] + contents, Repr + {n};
    }

    method InsertAtBack(o: T)
      requires Valid()
      modifies Repr
      ensures Valid() && fresh(Repr - old(Repr))
      ensures contents == old(contents) + [o]
    {
      var n := new ListNode(o, null);
      if firstNode == null {
        firstNode := n;
      } else {
        lastNode.next := n;
      }
      lastNode := n;
      nodes, contents, Repr := nodes + [n], contents + [o], Repr + {n};
    }

    /** The source asserts that the list is not empty. */
    method RemoveFromFront() returns (o: T)
      requires Valid() && contents != []
      modifies Repr
      ensures Valid() && Repr == old(Repr)
      ensures o == old(contents)[0] && contents == old(contents)[1..]
    {
      o := firstNode.data;
      if firstNode == lastNode {
        firstNode, lastNode := null, null;
      } else {
        firstNode := firstNode.next;
      }
      nodes, contents := nodes[1..], contents[1..];
    }

    /** Walks from the front to the node before the last one. */
    method RemoveFromBack() returns (o: T)
      requires Valid() && contents != []
      modifies Repr
      ensures Valid() && Repr == old(Repr)
      ensures o == old(contents)[|old(contents)| - 1]
      ensures contents == old(contents)[..|old(contents)| - 1]
    {
      o := lastNode.data;
      if firstNode == lastNode {
        firstNode, lastNode := null, null;
      } else {
        var current := firstNode;
        ghost var k := 0;
        while current.next != lastNode
          invariant 0 <= k < |nodes| - 1 && current == nodes[k]
          decreases |nodes| - k
        {
          current := current.next;
          k := k + 1;
        }
        lastNode := current;
        current.next := null;
      }
      nodes, contents := nodes[..|nodes| - 1], contents[..|contents| - 1];
    }

    /** Removes the first occurrence. The search stops at a null position exactly when `o` is absent,
        and the test that follows the search then dereferences it: the "non-existent object" message
        of the source cannot be reached. */
    method Remove(o: T) returns (outcome: Removal)
      requires Valid()
      modifies Repr
      ensures Valid() && Repr == old(Repr)
      ensures outcome.NullDereference? <==> o !in old(contents)
      ensures outcome.NullDereference? ==> contents == old(contents)
      ensures outcome.Removed? ==>
        var k := FirstOccurrence(old(contents), o);
        contents == old(contents)[..k] + old(contents)[k + 1..]
    {
      var it := new ListIterator(this);
      while it.CanAdvance() && it.GetValue() != o
        invariant it.Valid() && it.l == this && fresh(it)
        invariant o !in contents[..it.pos]
        modifies it
        decreases |contents| - it.pos
      {
        it.Advance();
      }
      if !it.CanAdvance() {
        assert contents[..it.pos] == contents;
        return NullDereference;
      }
      assert it.pos == FirstOccurrence(contents, o);
      it.Remove();
      outcome := Removed;
    }

    /** Records that node `n` has been linked in at position `k`. */
    ghost method Splice(k: nat, n: ListNode<T>)
      requires this in Repr && |contents| == |nodes| && k <= |nodes| && n !in nodes
      requires forall i :: 0 <= i < |nodes| ==> nodes[i] in Repr && nodes[i].data == contents[i]
      requires forall i, j :: 0 <= i < j < |nodes| ==> nodes[i] != nodes[j]
      requires forall i {:trigger nodes[i].next} :: 0 <= i < |nodes| ==>
                 nodes[i].next == if i + 1 == k then n else if i + 1 < |nodes| then nodes[i + 1] else null
      requires n.next == if k < |nodes| then nodes[k] else null
      requires firstNode == (if k == 0 then n else nodes[0])
      requires lastNode == (if k == |nodes| then n else nodes[|nodes| - 1])
      modifies this`nodes, this`contents, this`Repr
      ensures Valid() && Repr == old(Repr) + {n}
      ensures nodes == old(nodes)[..k] + [n] + old(nodes)[k..]
      ensures contents == old(contents)[..k] + [n.data] + old(contents)[k..]
    {
      nodes := nodes[..k] + [n] + nodes[k..];
      contents := contents[..k] + [n.data] + contents[k..];
      Repr := Repr + {n};
    }

    /** Records that the node at position `k` has been unlinked. */
    ghost method Unsplice(k: nat)
      requires this in Repr && |contents| == |nodes| && k < |nodes|
      requires forall i :: 0 <= i < |nodes| ==> nodes[i] in Repr && nodes[i].data == contents[i]
      requires forall i, j :: 0 <= i < j < |nodes| ==> nodes[i] != nodes[j]
      requires forall i {:trigger nodes[i].next} :: 0 <= i < |nodes| && i != k ==>
                 nodes[i].next == var j := if i + 1 == k then k + 1 else i + 1;
                                  if j < |nodes| then nodes[j] else null
      requires firstNode == var j := if k == 0 then 1 else 0; if j < |nodes| then nodes[j] else null
      requires lastNode == if k + 1 < |nodes| then nodes[|nodes| - 1] else if k > 0 then nodes[k - 1] else null
      modifies this`nodes, this`contents
      ensures Valid()
      ensures nodes == old(nodes)[..k] + old(nodes)[k + 1..]
      ensures contents == old(contents)[..k] + old(contents)[k + 1..]
    {
      nodes := nodes[..k] + nodes[k + 1..];
      contents := contents[..k] + contents[k + 1..];
    }

    /** The loop shared by the diary and the ordered queue: advance past everything that comes before
        `o` or ties with it, then add at the iterator. */
    method InsertInOrder(before: (T, T) -> bool, o: T)
      requires Valid()
      modifies Repr
      ensures Valid() && fresh(Repr - old(Repr))
      ensures contents == Inserted(before, old(contents), o)
    {
      var it := new ListIterator(this);
      while it.CanAdvance() && before(it.GetValue(), o)
        invariant it.Valid() && it.l == this && fresh(it)
        invariant forall i :: 0 <= i < it.pos ==> before(contents[i], o)
        modifies it
        decreases |contents| - it.pos
      {
        it.Advance();
      }
      assert it.pos == InsertionPoint(before, contents, o);
      it.Add(o);
    }
  }

  /** `q` is the current node and `p` the one before it. */
  class ListIterator<T(==)> {
    var p: ListNode?<T>
    var q: ListNode?<T>
    const l: List<T>
    ghost var pos: nat

    ghost predicate Valid()
      reads this, l, l.Repr
    {
      && l.Valid() && this !in l.Repr
      && pos <= |l.nodes|
      && q == (if pos < |l.nodes| then l.nodes[pos] else null)
      && p == (if pos > 0 then l.nodes[pos - 1] else null)
    }

    constructor (l: List<T>)
      requires l.Valid()
      ensures Valid() && this.l == l && pos == 0
    {
      p, q := null, l.firstNode;
      this.l, pos := l, 0;
    }

    predicate CanAdvance()
      reads this
    {
      q != null
    }

    function GetValue(): T
      requires CanAdvance()
      reads this, q
    {
      q.data
    }

    method Advance()
      requires Valid() && CanAdvance()
      modifies this
      ensures Valid() && pos == old(pos) + 1
    {
      p, q := q, q.next;
      pos := pos + 1;
    }

    method ReplaceValue(d: T)
      requires Valid() && CanAdvance()
      modifies l.Repr
      ensures Valid() && pos == old(pos) && l.Repr == old(l.Repr)
      ensures l.contents == old(l.contents)[pos := d]
    {
      q.data := d;
      l.contents := l.contents[pos := d];
    }

    /** Adds before the current node. The iterator ends up behind the new node, except in an empty
        list, where the new node becomes the current one. */
    method Add(o: T)
      requires Valid()
      modifies this, l.Repr
      ensures Valid() && fresh(l.Repr - old(l.Repr))
      ensures l.contents == old(l.contents)[..old(pos)] + [o] + old(l.contents)[old(pos)..]
      ensures pos == if old(l.contents) == [] then 0 else old(pos) + 1
    {
      var newNode := new ListNode(o, q);
      if p == null && q == null {
        l.firstNode, l.lastNode := newNode, newNode;
        q := newNode;
      } else {
        if p == null {
          l.firstNode := newNode;
        } else {
          p.next := newNode;
          if q == null { l.lastNode := newNode; }
        }
        p := newNode;
      }
      l.Splice(pos, newNode);
      pos := if |l.nodes| == 1 then 0 else pos + 1;
    }

    method Remove()
      requires Valid() && CanAdvance()
      modifies this, l.Repr
      ensures Valid() && l.Repr == old(l.Repr) && pos == old(pos)
      ensures l.contents == old(l.contents)[..pos] + old(l.contents)[pos + 1..]
    {
      if p == null {
        l.firstNode := q.next;
      } else {
        p.next := q.next;
      }
      q := q.next;
      if q == null { l.lastNode := p; }
      l.Unsplice(pos);
    }
  }
}
