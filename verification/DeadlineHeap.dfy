/** The order of the deadline queue (service/engine/core/negative_queue.go): a binary min-heap by
    deadline, kept in a slice by the sift operations of Go's container/heap. */
module DeadlineHeap {
  import opened Patterns

  function Parent(k: int): int { (k - 1) / 2 }

  function Swap(h: seq<Entry>, i: nat, j: nat): (r: seq<Entry>)
    requires i < |h| && j < |h|
    ensures |r| == |h| && multiset(r) == multiset(h)
    ensures r[i] == h[j] && r[j] == h[i] && forall k :: 0 <= k < |h| && k != i && k != j ==> r[k] == h[k]
  {
    h[i := h[j]][j := h[i]]
  }

  /** Below position n every element with a parent at or after `lo`, other than `skip`, is no earlier than it. */
  ghost predicate Ordered(h: seq<Entry>, n: nat, lo: int, skip: int)
    requires n <= |h|
  {
    forall k :: 0 < k < n && Parent(k) >= lo && Parent(k) != skip ==> h[Parent(k)].deadline <= h[k].deadline
  }

  ghost predicate IsHeap(h: seq<Entry>) { Ordered(h, |h|, 0, -1) }

  lemma {:induction false} RootIsLeast(h: seq<Entry>, i: nat)
    requires IsHeap(h) && i < |h|
    ensures h[0].deadline <= h[i].deadline
  {
    if i > 0 { RootIsLeast(h, Parent(i)); }
  }

  /** A heap but for position j, whose children are already no earlier than its parent. */
  ghost predicate Rising(h: seq<Entry>, j: nat) {
    && j < |h|
    && (forall k :: 0 < k < |h| && k != j ==> h[Parent(k)].deadline <= h[k].deadline)
    && (forall k :: 0 < k < |h| && Parent(k) == j && j > 0 ==> h[Parent(j)].deadline <= h[k].deadline)
  }

  lemma RiseStep(h: seq<Entry>, j: nat)
    requires Rising(h, j) && j > 0 && h[j].deadline < h[Parent(j)].deadline
    ensures Rising(Swap(h, Parent(j), j), Parent(j))
  {
    var p := Parent(j);
    var r := Swap(h, p, j);
    hide Swap;
    forall k | 0 < k < |r| && k != p ensures r[Parent(k)].deadline <= r[k].deadline {
      if k != j && Parent(k) != j {
        assert r[k] == h[k] && h[Parent(k)].deadline <= h[k].deadline;
      }
    }
    forall k | 0 < k < |r| && Parent(k) == p && p > 0 ensures r[Parent(p)].deadline <= r[k].deadline {
      assert r[Parent(p)] == h[Parent(p)] && h[Parent(p)].deadline <= h[p].deadline;
    }
  }

  method Up(h: seq<Entry>, last: nat) returns (r: seq<Entry>)
    requires Rising(h, last)
    ensures IsHeap(r) && multiset(r) == multiset(h)
  {
    hide Swap;
    var j := last;
    r := h;
    while j > 0 && r[j].deadline < r[Parent(j)].deadline
      invariant 0 <= j && Rising(r, j) && multiset(r) == multiset(h)
    {
      RiseStep(r, j);
      r := Swap(r, Parent(j), j);
      j := Parent(j);
    }
  }

  /** Below n and from `lo` on, a heap but for position i, whose parent is no later than its children. */
  ghost predicate Sinking(h: seq<Entry>, n: nat, lo: nat, i: nat) {
    && lo <= i < n <= |h| && Ordered(h, n, lo, i)
    && forall k :: 0 < k < n && Parent(k) == i && i > 0 && Parent(i) >= lo ==> h[Parent(i)].deadline <= h[k].deadline
  }

  /** j is the earlier child of i. */
  ghost predicate EarlierChild(h: seq<Entry>, n: nat, i: nat, j: nat) {
    0 < j < n <= |h| && Parent(j) == i && forall k :: 0 < k < n && Parent(k) == i ==> h[j].deadline <= h[k].deadline
  }

  lemma SinkStep(h: seq<Entry>, n: nat, lo: nat, i: nat, j: nat)
    requires Sinking(h, n, lo, i) && EarlierChild(h, n, i, j) && h[j].deadline < h[i].deadline
    ensures Sinking(Swap(h, i, j), n, lo, j)
  {
    var r := Swap(h, i, j);
    hide Swap;
    forall k | 0 < k < n && Parent(k) >= lo && Parent(k) != j ensures r[Parent(k)].deadline <= r[k].deadline {
      if k != i && Parent(k) != i {
        assert r[k] == h[k] && h[Parent(k)].deadline <= h[k].deadline;
      }
    }
    forall k | 0 < k < n && Parent(k) == j ensures r[i].deadline <= r[k].deadline {
      assert r[k] == h[k] && h[j].deadline <= h[k].deadline;
    }
  }

  /** The children of i are 2i+1 and 2i+2. */
  lemma ChildrenOf(n: nat, i: nat)
    ensures forall k :: 0 < k < n && Parent(k) == i <==> 0 < k < n && (k == 2 * i + 1 || k == 2 * i + 2)
  {
  }

  /** Nothing left to sink: no child is earlier. */
  lemma Settled(h: seq<Entry>, n: nat, lo: nat, i: nat)
    requires Sinking(h, n, lo, i)
    requires forall k :: 0 < k < n && Parent(k) == i ==> h[i].deadline <= h[k].deadline
    ensures Ordered(h, n, lo, -1)
  {
  }

  method Down(h: seq<Entry>, from: nat, n: nat, ghost lo: nat) returns (r: seq<Entry>)
    requires Sinking(h, n, lo, from)
    ensures |r| == |h| && r[n..] == h[n..] && multiset(r) == multiset(h) && Ordered(r, n, lo, -1)
  {
    assert from < n <= |h|;
    hide Swap, Ordered, Parent, Sinking;
    var i := from;
    r := h;
    while 2 * i + 1 < n
      invariant i < n <= |r| == |h| && Sinking(r, n, lo, i) && multiset(r) == multiset(h)
      invariant forall k :: n <= k < |h| ==> r[k] == h[k]
      decreases n - i
    {
      ChildrenOf(n, i);
      var j := 2 * i + 1;
      if j + 1 < n && r[j + 1].deadline < r[j].deadline {
        j := j + 1;
      }
      if r[j].deadline >= r[i].deadline {
        Settled(r, n, lo, i);
        return;
      }
      SinkStep(r, n, lo, i, j);
      r := Swap(r, i, j);
      i := j;
    }
    ChildrenOf(n, i);
    Settled(r, n, lo, i);
  }

  /** heap.Push */
  method Push(h: seq<Entry>, x: Entry) returns (r: seq<Entry>)
    requires IsHeap(h)
    ensures IsHeap(r) && multiset(r) == multiset(h) + multiset{x}
  {
    r := Up(h + [x], |h|);
  }

  /** heap.Pop: the element at the root leaves, and it is the earliest. */
  method Pop(h: seq<Entry>) returns (r: seq<Entry>, x: Entry)
    requires IsHeap(h) && h != []
    ensures IsHeap(r) && x == h[0] && multiset(h) == multiset(r) + multiset{x}
    ensures forall y :: y in h ==> x.deadline <= y.deadline
  {
    forall y | y in h ensures h[0].deadline <= y.deadline {
      var i :| 0 <= i < |h| && h[i] == y;
      RootIsLeast(h, i);
    }
    hide Swap;
    var n := |h| - 1;
    var s := Swap(h, 0, n);
    if n > 0 {
      assert Sinking(s, n, 0, 0);
      s := Down(s, 0, n, 0);
    }
    assert s[n..] == [h[0]] && s == s[..n] + s[n..];
    r, x := s[..n], s[n];
  }

  /** heap.Init */
  method Init(h: seq<Entry>) returns (r: seq<Entry>)
    ensures IsHeap(r) && multiset(r) == multiset(h)
  {
    r := h;
    var i := |h| / 2;
    while i > 0
      invariant 0 <= i <= |h| == |r| && multiset(r) == multiset(h) && Ordered(r, |r|, i, -1)
    {
      i := i - 1;
      r := Down(r, i, |r|, i);
    }
  }
}
