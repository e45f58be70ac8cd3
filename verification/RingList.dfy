/** The circular doubly linked list of linux_user/include/os/osal_list.h. The abstract value of the
    ring through a head is the sequence of its other nodes. */
module RingList {

  class ListHead {
    var next: ListHead
    var last: ListHead

    /** OS_LIST_HEAD and OS_INIT_LIST_HEAD: a ring of its own. */
    constructor ()
      ensures next == this && last == this
    {
      next := this;
      last := this;
    }
  }

  /** Place i on the way round: the head at both ends, the nodes between. */
  function At(head: ListHead, s: seq<ListHead>, i: int): ListHead
    requires 0 <= i <= |s| + 1
  {
    if i == 0 || i == |s| + 1 then head else s[i - 1]
  }

  predicate Distinct(head: ListHead, s: seq<ListHead>)
  {
    head !in s && forall i, j :: 0 <= i < j < |s| ==> s[i] != s[j]
  }

  /** `next` and `last` are mutual inverses on one ring through the head that visits exactly `s`. */
  ghost predicate Ring(head: ListHead, s: seq<ListHead>)
    reads head, s
  {
    && Distinct(head, s)
    && (forall i :: 0 <= i <= |s| ==> At(head, s, i).next == At(head, s, i + 1))
    && (forall i :: 0 <= i <= |s| ==> At(head, s, i + 1).last == At(head, s, i))
  }

  /** The heap determines the sequence: a ring refines exactly one. */
  lemma RingIsFunctional(head: ListHead, s: seq<ListHead>, t: seq<ListHead>)
    requires Ring(head, s) && Ring(head, t)
    ensures s == t
  {
    if |s| <= |t| {
      NoLongerRing(head, s, t);
    } else {
      NoLongerRing(head, t, s);
    }
  }

  lemma NoLongerRing(head: ListHead, s: seq<ListHead>, t: seq<ListHead>)
    requires Ring(head, s) && Ring(head, t) && |s| <= |t|
    ensures s == t
  {
    RingPrefix(head, s, t, |s|);
    assert s == t[..|s|];
    assert At(head, s, |s|) == At(head, t, |s|);
    assert At(head, s, |s|).next == At(head, s, |s| + 1);
    assert At(head, t, |s|).next == At(head, t, |s| + 1);
  }

  lemma {:induction false} RingPrefix(head: ListHead, s: seq<ListHead>, t: seq<ListHead>, n: nat)
    requires Ring(head, s) && Ring(head, t) && n <= |s| <= |t|
    ensures s[..n] == t[..n]
  {
    if n > 0 {
      RingPrefix(head, s, t, n - 1);
      assert At(head, s, n - 1) == At(head, t, n - 1) by {
        if n >= 2 {
          assert s[..n - 1][n - 2] == t[..n - 1][n - 2];
        }
      }
      assert At(head, s, n - 1).next == At(head, s, n) == s[n - 1];
      assert At(head, t, n - 1).next == At(head, t, n) == t[n - 1];
      assert s[..n] == s[..n - 1] + [s[n - 1]];
      assert t[..n] == t[..n - 1] + [t[n - 1]];
    }
  }

  /** The nodes of a sequence, as a frame. */
  function Nodes(s: seq<ListHead>): set<ListHead>
  {
    set n | n in s
  }

  function Without<T>(s: seq<T>, k: nat): seq<T>
    requires k < |s|
  {
    s[..k] + s[k + 1..]
  }

  /** OS_LIST_ADD_TAIL of a node that is not on the ring. */
  method AddTail(node: ListHead, head: ListHead, ghost s: seq<ListHead>)
    requires Ring(head, s) && node != head && node !in s
    modifies node, head, head.last
    ensures Ring(head, s + [node])
  {
    ghost var t := s + [node];
    assert head.last == At(head, s, |s|) by {
      assert At(head, s, |s| + 1) == head;
    }
    node.last := head.last;
    node.next := head;
    head.last := node;
    node.last.next := node;
    forall i | 0 <= i <= |t|
      ensures At(head, t, i).next == At(head, t, i + 1) && At(head, t, i + 1).last == At(head, t, i)
    {
      if i < |s| {
        assert At(head, t, i) == At(head, s, i) && At(head, t, i + 1) == At(head, s, i + 1);
        assert old(At(head, s, i).next) == At(head, s, i + 1);
        assert old(At(head, s, i + 1).last) == At(head, s, i);
      }
    }
  }

  /** OS_LIST_DEL of the k-th node; the node's own links stay as they were. */
  method Del(a: ListHead, ghost head: ListHead, ghost s: seq<ListHead>, ghost k: nat)
    requires Ring(head, s) && k < |s| && a == s[k]
    modifies a.last, a.next
    ensures Ring(head, Without(s, k))
    ensures a.next == old(a.next) && a.last == old(a.last)
  {
    ghost var t := Without(s, k);
    assert a.last == At(head, s, k) && a.next == At(head, s, k + 2) by {
      assert At(head, s, k + 1) == a;
    }
    a.last.next := a.next;
    a.next.last := a.last;
    assert Distinct(head, t);
    forall i | 0 <= i <= |t|
      ensures At(head, t, i).next == At(head, t, i + 1) && At(head, t, i + 1).last == At(head, t, i)
    {
      if i < k {
        assert At(head, t, i) == At(head, s, i) && At(head, t, i + 1) == At(head, s, i + 1);
        assert old(At(head, s, i).next) == At(head, s, i + 1);
      } else if i > k {
        assert At(head, t, i) == At(head, s, i + 1) && At(head, t, i + 1) == At(head, s, i + 2);
        assert old(At(head, s, i + 1).next) == At(head, s, i + 2);
      } else {
        assert At(head, t, k) == At(head, s, k) && At(head, t, k + 1) == At(head, s, k + 2);
      }
    }
  }

  /** OS_LIST_EMPTY. */
  method IsEmpty(head: ListHead, ghost s: seq<ListHead>) returns (empty: bool)
    requires Ring(head, s)
    ensures empty <==> s == []
  {
    assert head == At(head, s, 0);
    assert At(head, s, 0).next == At(head, s, 1);
    empty := head.next == head;
  }

  /** OS_LIST_FOR_EACH collecting what it visits. */
  method Forward(head: ListHead, ghost s: seq<ListHead>) returns (visited: seq<ListHead>)
    requires Ring(head, s)
    ensures visited == s
  {
    visited := [];
    var entry := head.next;
    assert At(head, s, 0).next == At(head, s, 1);
    while entry != head
      invariant |visited| <= |s| && visited == s[..|visited|]
      invariant entry == At(head, s, |visited| + 1)
      decreases |s| - |visited|
    {
      visited := visited + [entry];
      assert At(head, s, |visited|).next == At(head, s, |visited| + 1);
      entry := entry.next;
    }
  }

  function Reverse<T>(s: seq<T>): seq<T>
  {
    seq(|s|, i requires 0 <= i < |s| => s[|s| - 1 - i])
  }

  /** The same walk along OS_LIST_PREV. */
  method Backward(head: ListHead, ghost s: seq<ListHead>) returns (visited: seq<ListHead>)
    requires Ring(head, s)
    ensures visited == Reverse(s)
  {
    visited := [];
    var entry := head.last;
    assert At(head, s, |s| + 1).last == At(head, s, |s|);
    while entry != head
      invariant |visited| <= |s| && visited == Reverse(s)[..|visited|]
      invariant entry == At(head, s, |s| - |visited|)
      decreases |s| - |visited|
    {
      visited := visited + [entry];
      assert At(head, s, |s| - |visited| + 1).last == At(head, s, |s| - |visited|);
      entry := entry.last;
    }
  }

  /** The nodes of `s` that are not in `doomed`, in their order. */
  function Kept(s: seq<ListHead>, doomed: set<ListHead>): (r: seq<ListHead>)
    ensures forall n | n in r :: n in s && n !in doomed
    ensures forall n | n in s :: n in doomed || n in r
  {
    if s == [] then []
    else if s[0] in doomed then Kept(s[1..], doomed)
    else [s[0]] + Kept(s[1..], doomed)
  }

  lemma {:induction false} KeptSnoc(s: seq<ListHead>, n: ListHead, doomed: set<ListHead>)
    ensures Kept(s + [n], doomed) == Kept(s, doomed) + if n in doomed then [] else [n]
  {
    if s == [] {
      assert s + [n] == [n];
    } else {
      assert (s + [n])[0] == s[0] && (s + [n])[1..] == s[1..] + [n];
      KeptSnoc(s[1..], n, doomed);
    }
  }

  /** A loop body that deletes its entry and then overwrites the links of the deleted node, as reuse of
      its memory would. */
  method DeleteAndScrap(entry: ListHead, head: ListHead, scrap: ListHead, ghost s: seq<ListHead>, ghost k: nat)
    requires Ring(head, s) && k < |s| && entry == s[k]
    modifies {head} + Nodes(s)
    ensures Ring(head, Without(s, k))
  {
    assert entry.last == At(head, s, k) && entry.next == At(head, s, k + 2) by {
      assert At(head, s, k + 1) == entry;
    }
    Del(entry, head, s, k);
    entry.next := scrap;
    entry.last := scrap;
    assert entry !in Without(s, k) && entry != head;
  }

  lemma NextOnRing(head: ListHead, s: seq<ListHead>, k: nat)
    requires Ring(head, s) && k < |s|
    ensures s[k].next == At(head, s, k + 2)
  {
    assert At(head, s, k + 1).next == At(head, s, k + 2);
  }

  /** One pass of the loop body: `done` are the kept nodes behind the entry, `rest` begins with it. */
  method VisitEntry(entry: ListHead, head: ListHead, doomed: set<ListHead>, scrap: ListHead,
                    ghost done: seq<ListHead>, ghost rest: seq<ListHead>)
    returns (ghost kept: seq<ListHead>)
    requires Ring(head, done + rest) && rest != [] && entry == rest[0]
    modifies {head} + Nodes(done + rest)
    ensures kept == done + if entry in doomed then [] else [entry]
    ensures Ring(head, kept + rest[1..])
    ensures At(head, rest[1..], 1) == At(head, rest, 2)
    ensures |rest| > 1 ==> rest[1].next == At(head, rest[1..], 2)
  {
    ghost var ring := done + rest;
    assert entry == ring[|done|];
    if entry in doomed {
      DeleteAndScrap(entry, head, scrap, ring, |done|);
      kept := done;
      assert Without(ring, |done|) == kept + rest[1..];
    } else {
      kept := done + [entry];
      assert kept + rest[1..] == ring;
    }
    if |rest| > 1 {
      NextOnRing(head, kept + rest[1..], |kept|);
    }
  }

  lemma PartsInWhole(visited: seq<ListHead>, rest: seq<ListHead>, doomed: set<ListHead>)
    ensures Nodes(Kept(visited, doomed) + rest) <= Nodes(visited + rest)
  {
  }

  lemma ShiftFirst(visited: seq<ListHead>, rest: seq<ListHead>)
    requires rest != []
    ensures (visited + [rest[0]]) + rest[1..] == visited + rest
  {
  }

  /** OS_LIST_FOR_EACH_SAFE over such a body. Every original node is visited once, in order, and the
      ring ends up holding exactly the nodes that were not deleted, in their order. */
  method RemoveDoomed(head: ListHead, doomed: set<ListHead>, scrap: ListHead, ghost s: seq<ListHead>)
    returns (visited: seq<ListHead>)
    requires Ring(head, s)
    modifies {head} + Nodes(s)
    ensures visited == s
    ensures Ring(head, Kept(s, doomed))
  {
    visited := [];
    ghost var done: seq<ListHead> := [];
    ghost var rest := s;
    assert done + rest == s;
    var entry := head.next;
    assert At(head, s, 0).next == At(head, s, 1);
    var n := entry.next;
    if s != [] {
      NextOnRing(head, s, 0);
    }
    while entry != head
      invariant visited + rest == s
      invariant done == Kept(visited, doomed)
      invariant Ring(head, done + rest) && head !in rest
      invariant entry == At(head, rest, 1)
      invariant rest != [] ==> n == At(head, rest, 2)
      decreases |rest|
    {
      PartsInWhole(visited, rest, doomed);
      ShiftFirst(visited, rest);
      KeptSnoc(visited, entry, doomed);
      visited := visited + [entry];
      done := VisitEntry(entry, head, doomed, scrap, done, rest);
      rest := rest[1..];
      entry := n;
      n := entry.next;
    }
    assert done + rest == done && visited + rest == visited;
  }

  // ----- any sequence of insertions and deletions -----

  datatype Op = Add(node: ListHead) | Remove(node: ListHead)

  /** Added nodes are off the ring, removed nodes on it. */
  predicate Legal(head: ListHead, s: seq<ListHead>, op: Op)
  {
    match op
    case Add(node) => node != head && node !in s
    case Remove(node) => node in s
  }

  function After(s: seq<ListHead>, op: Op): seq<ListHead>
  {
    match op
    case Add(node) => s + [node]
    case Remove(node) => Kept(s, {node})
  }

  predicate AllLegal(head: ListHead, s: seq<ListHead>, ops: seq<Op>)
    decreases |ops|
  {
    ops == [] || (Legal(head, s, ops[0]) && AllLegal(head, After(s, ops[0]), ops[1..]))
  }

  function AfterAll(s: seq<ListHead>, ops: seq<Op>): seq<ListHead>
    decreases |ops|
  {
    if ops == [] then s else AfterAll(After(s, ops[0]), ops[1..])
  }

  function Touched(s: seq<ListHead>, ops: seq<Op>): set<ListHead>
  {
    Nodes(s) + set i | 0 <= i < |ops| :: ops[i].node
  }

  lemma {:induction false} KeptNone(s: seq<ListHead>, n: ListHead)
    requires n !in s
    ensures Kept(s, {n}) == s
  {
    if s != [] {
      KeptNone(s[1..], n);
    }
  }

  lemma {:induction false} KeptIsWithout(s: seq<ListHead>, k: nat)
    requires k < |s| && forall i, j :: 0 <= i < j < |s| ==> s[i] != s[j]
    ensures Kept(s, {s[k]}) == Without(s, k)
  {
    if k == 0 {
      KeptNone(s[1..], s[0]);
      assert Without(s, 0) == s[1..];
    } else {
      KeptIsWithout(s[1..], k - 1);
      assert Without(s, k) == [s[0]] + Without(s[1..], k - 1);
    }
  }

  /** Deleting a node just added leaves the ring as it was. */
  lemma RemoveUndoesAdd(s: seq<ListHead>, n: ListHead)
    requires n !in s
    ensures After(After(s, Add(n)), Remove(n)) == s
  {
    KeptSnoc(s, n, {n});
    KeptNone(s, n);
  }

  method PerformOne(head: ListHead, op: Op, ghost s: seq<ListHead>)
    requires Ring(head, s) && Legal(head, s, op)
    modifies {head} + Touched(s, [op])
    ensures Ring(head, After(s, op))
  {
    assert [op][0].node in Touched(s, [op]);
    assert At(head, s, |s| + 1).last == At(head, s, |s|);
    match op
    case Add(node) => AddTail(node, head, s);
    case Remove(node) =>
      ghost var k :| 0 <= k < |s| && s[k] == node;
      assert At(head, s, k + 1) == node;
      assert node.last == At(head, s, k) && node.next == At(head, s, k + 2);
      Del(node, head, s, k);
      KeptIsWithout(s, k);
  }

  lemma TouchedShrinks(s: seq<ListHead>, ops: seq<Op>)
    requires ops != []
    ensures Touched(s, [ops[0]]) <= Touched(s, ops) && Touched(After(s, ops[0]), ops[1..]) <= Touched(s, ops)
  {
  }

  /** After any legal sequence of insertions and deletions the ring holds exactly the abstract sequence. */
  method Perform(head: ListHead, ops: seq<Op>, ghost s: seq<ListHead>)
    requires Ring(head, s) && AllLegal(head, s, ops)
    modifies {head} + Touched(s, ops)
    ensures Ring(head, AfterAll(s, ops))
    decreases |ops|
  {
    if ops != [] {
      TouchedShrinks(s, ops);
      PerformOne(head, ops[0], s);
      Perform(head, ops[1..], After(s, ops[0]));
    }
  }
}
