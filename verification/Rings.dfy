/** The intrusive lists of src/dlist.h and src/list.h.  Each operation acts on the ring of pointers
    as the corresponding operation acts on the sequence of its fibers. */
module Rings {
  import opened Memory
  import opened Objects

  // ---- Circular links, as values ------------------------------------------------------------

  function Succ(i: nat, n: nat): (r: nat)
    requires i < n
    ensures r < n
  {
    if i + 1 < n then i + 1 else 0
  }

  function Pred(i: nat, n: nat): (r: nat)
    requires i < n
    ensures r < n
  {
    if i > 0 then i - 1 else n - 1
  }

  /** `links` leads from each element of `s` to the next one, and from the last to the first. */
  ghost predicate Forward(s: seq<Fiber>, links: seq<Fiber?>) {
    |links| == |s| && forall i {:trigger links[i]} :: 0 <= i < |s| ==> links[i] == s[Succ(i, |s|)]
  }

  ghost predicate Backward(s: seq<Fiber>, links: seq<Fiber?>) {
    |links| == |s| && forall i {:trigger links[i]} :: 0 <= i < |s| ==> links[i] == s[Pred(i, |s|)]
  }

  ghost predicate Inserted(s: seq<Fiber>, k: nat, x: Fiber, s': seq<Fiber>)
    requires k <= |s|
  {
    && |s'| == |s| + 1 && s'[k] == x
    && (forall i {:trigger s'[i]} :: 0 <= i < k ==> s'[i] == s[i])
    && (forall i {:trigger s'[i]} :: k < i < |s'| ==> s'[i] == s[i - 1])
  }

  /** Going forward, the inserted fiber is reached from the fiber before it. */
  lemma ForwardInserted(s: seq<Fiber>, k: nat, x: Fiber, links: seq<Fiber?>, s': seq<Fiber>, links': seq<Fiber?>)
    requires k <= |s| && s != [] && Forward(s, links) && Inserted(s, k, x, s') && |links'| == |s'|
    requires links'[k] == (if k < |s| then s[k] else s[0])
    requires
      forall i {:trigger links'[i]} :: 0 <= i < |s'| && i != k ==>
        var j := if i < k then i else i - 1;
        links'[i] == if j == (if k > 0 then k - 1 else |s| - 1) then x else links[j]
    ensures Forward(s', links')
  {
  }

  lemma BackwardInserted(s: seq<Fiber>, k: nat, x: Fiber, links: seq<Fiber?>, s': seq<Fiber>, links': seq<Fiber?>)
    requires k <= |s| && s != [] && Backward(s, links) && Inserted(s, k, x, s') && |links'| == |s'|
    requires links'[k] == s[if k > 0 then k - 1 else |s| - 1]
    requires
      forall i {:trigger links'[i]} :: 0 <= i < |s'| && i != k ==>
        var j := if i < k then i else i - 1;
        links'[i] == if j == (if k < |s| then k else 0) then x else links[j]
    ensures Backward(s', links')
  {
  }

  ghost predicate Removed(s: seq<Fiber>, k: nat, s': seq<Fiber>)
    requires k < |s|
  {
    && |s'| == |s| - 1
    && (forall i {:trigger s'[i]} :: 0 <= i < k ==> s'[i] == s[i])
    && (forall i {:trigger s'[i]} :: k <= i < |s'| ==> s'[i] == s[i + 1])
  }

  /** Going forward, the fiber before the removed one leads to the fiber after it. */
  lemma ForwardRemoved(s: seq<Fiber>, k: nat, links: seq<Fiber?>, s': seq<Fiber>, links': seq<Fiber?>)
    requires k < |s| && |s| > 1 && Forward(s, links) && Removed(s, k, s') && |links'| == |s'|
    requires
      forall i {:trigger links'[i]} :: 0 <= i < |s'| ==>
        var j := if i < k then i else i + 1;
        links'[i] == if j == Pred(k, |s|) then links[k] else links[j]
    ensures Forward(s', links')
  {
    assert links[k] == s[Succ(k, |s|)];
  }

  lemma BackwardRemoved(s: seq<Fiber>, k: nat, links: seq<Fiber?>, s': seq<Fiber>, links': seq<Fiber?>)
    requires k < |s| && |s| > 1 && Backward(s, links) && Removed(s, k, s') && |links'| == |s'|
    requires
      forall i {:trigger links'[i]} :: 0 <= i < |s'| ==>
        var j := if i < k then i else i + 1;
        links'[i] == if j == Succ(k, |s|) then links[k] else links[j]
    ensures Backward(s', links')
  {
    assert links[k] == s[Pred(k, |s|)];
  }

  // ---- Rings in the heap --------------------------------------------------------------------

  ghost function Members(s: seq<Fiber>): set<Fiber> {
    set n | n in s
  }

  ghost function Nodes(s: seq<Fiber>, item: Fiber): set<Fiber> {
    Members(s) + {item}
  }

  /** `nodes`, if `p` is the pair of links `q`. */
  ghost function If(p: Prefix, q: Prefix, nodes: set<Fiber>): set<Fiber> {
    if p == q then nodes else {}
  }

  ghost function Nexts(s: seq<Fiber>, p: Prefix): (r: seq<Fiber?>)
    reads If(p, Plain, Members(s))`next, If(p, TimerLinks, Members(s))`timerNext
    ensures |r| == |s| && forall i :: 0 <= i < |s| ==> r[i] == s[i].Next(p)
  {
    if s == [] then [] else [s[0].Next(p)] + Nexts(s[1..], p)
  }

  ghost function Prevs(s: seq<Fiber>, p: Prefix): (r: seq<Fiber?>)
    reads If(p, Plain, Members(s))`prev, If(p, TimerLinks, Members(s))`timerPrev
    ensures |r| == |s| && forall i :: 0 <= i < |s| ==> r[i] == s[i].Prev(p)
  {
    if s == [] then [] else [s[0].Prev(p)] + Prevs(s[1..], p)
  }

  ghost function Head(s: seq<Fiber>): Fiber? {
    if s == [] then null else s[0]
  }

  /** `list` is the head of the circular doubly linked list of `s`. */
  ghost predicate Ring(list: Fiber?, s: seq<Fiber>, p: Prefix)
    reads If(p, Plain, Members(s))`next, If(p, Plain, Members(s))`prev
    reads If(p, TimerLinks, Members(s))`timerNext, If(p, TimerLinks, Members(s))`timerPrev
  {
    Distinct(s) && list == Head(s) && Forward(s, Nexts(s, p)) && Backward(s, Prevs(s, p))
  }

  // ---- src/dlist.h --------------------------------------------------------------------------

  /** The four assignments that link `item` between two neighbours, which may be the same fiber. */
  method LinkBetween(item: Fiber, before: Fiber, after: Fiber, p: Prefix)
    requires item != before && item != after
    modifies If(p, Plain, {item, before, after})`next, If(p, Plain, {item, before, after})`prev
    modifies If(p, TimerLinks, {item, before, after})`timerNext, If(p, TimerLinks, {item, before, after})`timerPrev
    ensures item.Next(p) == after && item.Prev(p) == before && before.Next(p) == item && after.Prev(p) == item
    ensures before != after ==> after.Next(p) == old(after.Next(p)) && before.Prev(p) == old(before.Prev(p))
  {
    item.SetNext(p, after);
    item.SetPrev(p, before);
    item.Next(p).SetPrev(p, item);
    item.Prev(p).SetNext(p, item);
  }

  /** Linked between its neighbours, `item` is at position `k` of the ring. */
  method LinkAt(item: Fiber, before: Fiber, after: Fiber, p: Prefix, ghost s: seq<Fiber>, ghost k: nat)
    requires s != [] && Ring(s[0], s, p) && item !in s && k <= |s|
    requires before == s[if k > 0 then k - 1 else |s| - 1] && after == s[if k < |s| then k else 0]
    modifies If(p, Plain, Nodes(s, item))`next, If(p, Plain, Nodes(s, item))`prev
    modifies If(p, TimerLinks, Nodes(s, item))`timerNext, If(p, TimerLinks, Nodes(s, item))`timerPrev
    ensures var s' := InsertAt(s, k, item); Ring(s'[0], s', p)
  {
    hide Nexts, Prevs, Distinct, Forward, Backward, InsertAt;
    ghost var nexts, prevs, n := Nexts(s, p), Prevs(s, p), |s|;
    ghost var b, a := if k > 0 then k - 1 else n - 1, if k < n then k else 0;
    LinkBetween(item, before, after, p);
    forall i | 0 <= i < n && i != b ensures s[i].Next(p) == nexts[i] { Apart(s, i, b); Apart(s, i, a); }
    forall i | 0 <= i < n && i != a ensures s[i].Prev(p) == prevs[i] { Apart(s, i, b); Apart(s, i, a); }
    Linked(s, k, item, p, nexts, prevs);
  }

  lemma Linked(s: seq<Fiber>, k: nat, item: Fiber, p: Prefix, nexts: seq<Fiber?>, prevs: seq<Fiber?>)
    requires s != [] && item !in s && k <= |s| && Distinct(s) && Forward(s, nexts) && Backward(s, prevs)
    requires
      var n := |s|;
      var b, a := if k > 0 then k - 1 else n - 1, if k < n then k else 0;
      && item.Next(p) == s[a] && item.Prev(p) == s[b] && s[b].Next(p) == item && s[a].Prev(p) == item
      && (forall i :: 0 <= i < n && i != b ==> s[i].Next(p) == nexts[i])
      && (forall i :: 0 <= i < n && i != a ==> s[i].Prev(p) == prevs[i])
    ensures var s' := InsertAt(s, k, item); Ring(s'[0], s', p)
  {
    hide Nexts, Prevs, Distinct, Forward, Backward;
    var s' := InsertAt(s, k, item);
    InsertAtFacts(s, k, item);
    ForwardInserted(s, k, item, nexts, s', Nexts(s', p));
    BackwardInserted(s, k, item, prevs, s', Prevs(s', p));
  }

  lemma Alone(item: Fiber, p: Prefix)
    requires item.Next(p) == item && item.Prev(p) == item
    ensures Ring(item, [item], p)
  {
  }

  lemma Apart(s: seq<Fiber>, i: nat, j: nat)
    requires Distinct(s) && i < |s| && j < |s|
    ensures i != j ==> s[i] != s[j]
  {
  }

  /** In a ring, `next` and `prev` are inverses of each other. */
  lemma Inverse(list: Fiber?, s: seq<Fiber>, p: Prefix, n: Fiber)
    requires Ring(list, s, p) && n in s
    ensures n.Next(p) != null && n.Next(p) in s && n.Next(p).Prev(p) == n
    ensures n.Prev(p) != null && n.Prev(p) in s && n.Prev(p).Next(p) == n
  {
    hide Ring;
    var i :| 0 <= i < |s| && s[i] == n;
    Neighbours(list, s, i, p);
    Neighbours(list, s, Succ(i, |s|), p);
    Neighbours(list, s, Pred(i, |s|), p);
  }

  lemma Neighbours(list: Fiber?, s: seq<Fiber>, i: nat, p: Prefix)
    requires Ring(list, s, p) && i < |s|
    ensures s[i].Next(p) == s[Succ(i, |s|)] && s[i].Prev(p) == s[Pred(i, |s|)]
  {
    assert Nexts(s, p)[i] == s[i].Next(p) && Prevs(s, p)[i] == s[i].Prev(p);
  }

  /** melon_dlist_push appends. */
  method Push(list: Fiber?, item: Fiber, p: Prefix, ghost s: seq<Fiber>) returns (list': Fiber)
    requires Ring(list, s, p) && item !in s
    modifies If(p, Plain, Nodes(s, item))`next, If(p, Plain, Nodes(s, item))`prev
    modifies If(p, TimerLinks, Nodes(s, item))`timerNext, If(p, TimerLinks, Nodes(s, item))`timerPrev
    ensures Ring(list', s + [item], p)
  {
    hide Nexts, Prevs, Distinct, Forward, Backward;
    if list == null {
      list' := item;
      item.SetNext(p, item);
      item.SetPrev(p, item);
      Alone(item, p);
      assert s + [item] == [item];
    } else {
      list' := list;
      Neighbours(list, s, 0, p);
      LinkAt(item, list.Prev(p), list, p, s, |s|);
      assert InsertAt(s, |s|, item) == s + [item];
    }
  }

  /** melon_dlist_insert inserts after `prev`, which is at position `k - 1`, or in front. */
  method Insert(list: Fiber?, prev: Fiber?, item: Fiber, p: Prefix, ghost s: seq<Fiber>, ghost k: nat)
    returns (list': Fiber)
    requires Ring(list, s, p) && item !in s && k <= |s|
    requires prev == if k == 0 then null else s[k - 1]
    modifies If(p, Plain, Nodes(s, item))`next, If(p, Plain, Nodes(s, item))`prev
    modifies If(p, TimerLinks, Nodes(s, item))`timerNext, If(p, TimerLinks, Nodes(s, item))`timerPrev
    ensures Ring(list', InsertAt(s, k, item), p)
  {
    if list == null {
      list' := item;
      item.SetNext(p, item);
      item.SetPrev(p, item);
      Alone(item, p);
      assert InsertAt(s, k, item) == [item];
    } else if prev == null {
      Neighbours(list, s, 0, p);
      LinkAt(item, list.Prev(p), list, p, s, 0);
      list' := item;
    } else {
      list' := list;
      Neighbours(list, s, k - 1, p);
      LinkAt(item, prev, prev.Next(p), p, s, k);
    }
  }

  lemma Unlinked(s: seq<Fiber>, k: nat, p: Prefix, nexts: seq<Fiber?>, prevs: seq<Fiber?>)
    requires k < |s| && |s| > 1 && Distinct(s) && Forward(s, nexts) && Backward(s, prevs)
    requires s[Pred(k, |s|)].Next(p) == s[Succ(k, |s|)] && s[Succ(k, |s|)].Prev(p) == s[Pred(k, |s|)]
    requires forall i :: 0 <= i < |s| && i != k && i != Pred(k, |s|) ==> s[i].Next(p) == nexts[i]
    requires forall i :: 0 <= i < |s| && i != k && i != Succ(k, |s|) ==> s[i].Prev(p) == prevs[i]
    ensures var s' := Without(s, s[k]); Ring(Head(s'), s', p)
  {
    hide Nexts, Prevs, Distinct, Forward, Backward, Without;
    WithoutAt(s, k);
    WithoutFacts(s, s[k]);
    UnlinkedForward(s, k, p, nexts, Without(s, s[k]));
    UnlinkedBackward(s, k, p, prevs, Without(s, s[k]));
  }

  lemma UnlinkedForward(s: seq<Fiber>, k: nat, p: Prefix, nexts: seq<Fiber?>, s': seq<Fiber>)
    requires k < |s| && |s| > 1 && Forward(s, nexts) && s' == s[..k] + s[k + 1..]
    requires s[Pred(k, |s|)].Next(p) == s[Succ(k, |s|)]
    requires forall i :: 0 <= i < |s| && i != k && i != Pred(k, |s|) ==> s[i].Next(p) == nexts[i]
    ensures Forward(s', Nexts(s', p))
  {
    hide Nexts, Forward;
    NextAt(s, k, nexts);
    ForwardRemoved(s, k, nexts, s', Nexts(s', p));
  }

  lemma UnlinkedBackward(s: seq<Fiber>, k: nat, p: Prefix, prevs: seq<Fiber?>, s': seq<Fiber>)
    requires k < |s| && |s| > 1 && Backward(s, prevs) && s' == s[..k] + s[k + 1..]
    requires s[Succ(k, |s|)].Prev(p) == s[Pred(k, |s|)]
    requires forall i :: 0 <= i < |s| && i != k && i != Succ(k, |s|) ==> s[i].Prev(p) == prevs[i]
    ensures Backward(s', Prevs(s', p))
  {
    hide Prevs, Backward;
    PrevAt(s, k, prevs);
    BackwardRemoved(s, k, prevs, s', Prevs(s', p));
  }

  lemma NextAt(s: seq<Fiber>, k: nat, nexts: seq<Fiber?>)
    requires k < |s| && Forward(s, nexts)
    ensures |nexts| == |s| && nexts[k] == s[Succ(k, |s|)]
  {
  }

  lemma PrevAt(s: seq<Fiber>, k: nat, prevs: seq<Fiber?>)
    requires k < |s| && Backward(s, prevs)
    ensures |prevs| == |s| && prevs[k] == s[Pred(k, |s|)]
  {
  }

  /** The part of melon_dlist_unlink for a ring of many elements. */
  method Bypass(item: Fiber, p: Prefix, ghost s: seq<Fiber>, ghost k: nat)
    requires k < |s| && |s| > 1 && item == s[k] && Ring(s[0], s, p)
    modifies If(p, Plain, Nodes(s, item))`next, If(p, Plain, Nodes(s, item))`prev
    modifies If(p, TimerLinks, Nodes(s, item))`timerNext, If(p, TimerLinks, Nodes(s, item))`timerPrev
    ensures var s' := Without(s, item); Ring(Head(s'), s', p)
    ensures item.Next(p) == null && item.Prev(p) == null
  {
    hide Nexts, Prevs, Distinct, Forward, Backward;
    ghost var nexts, prevs, n := Nexts(s, p), Prevs(s, p), |s|;
    ghost var b, a := Pred(k, n), Succ(k, n);
    Neighbours(s[0], s, k, p);
    Apart(s, k, a);
    Apart(s, k, b);
    item.Next(p).SetPrev(p, item.Prev(p));
    item.Prev(p).SetNext(p, item.Next(p));
    item.SetNext(p, null);
    item.SetPrev(p, null);
    forall i | 0 <= i < n && i != k && i != b ensures s[i].Next(p) == nexts[i] { Apart(s, i, b); Apart(s, i, k); }
    forall i | 0 <= i < n && i != k && i != a ensures s[i].Prev(p) == prevs[i] { Apart(s, i, a); Apart(s, i, k); }
    Unlinked(s, k, p, nexts, prevs);
  }

  /** melon_dlist_unlink removes the fiber wherever it stands, and clears its links. */
  method Unlink(list: Fiber, item: Fiber, p: Prefix, ghost s: seq<Fiber>) returns (list': Fiber?)
    requires Ring(list, s, p) && item in s
    modifies If(p, Plain, Nodes(s, item))`next, If(p, Plain, Nodes(s, item))`prev
    modifies If(p, TimerLinks, Nodes(s, item))`timerNext, If(p, TimerLinks, Nodes(s, item))`timerPrev
    ensures Ring(list', Without(s, item), p)
    ensures item.Next(p) == null && item.Prev(p) == null
  {
    ghost var k :| 0 <= k < |s| && s[k] == item;
    Neighbours(list, s, 0, p);
    if list == list.Next(p) {
      Apart(s, 0, Succ(0, |s|));
      item.SetNext(p, null);
      item.SetPrev(p, null);
      list' := null;
    } else {
      list' := list;
      if list == item {
        list' := item.Next(p);
      }
      WithoutAt(s, k);
      Bypass(item, p, s, k);
    }
  }

  /** melon_dlist_pop takes the head, if there is one. */
  method Pop(list: Fiber?, p: Prefix, ghost s: seq<Fiber>) returns (list': Fiber?, item: Fiber?)
    requires Ring(list, s, p)
    modifies If(p, Plain, Members(s))`next, If(p, Plain, Members(s))`prev, If(p, TimerLinks, Members(s))`timerNext
    modifies If(p, TimerLinks, Members(s))`timerPrev
    ensures item == Head(s)
    ensures Ring(list', if s == [] then [] else s[1..], p)
    ensures item != null ==> item.Next(p) == null && item.Prev(p) == null
  {
    list', item := list, list;
    if item != null {
      assert Nodes(s, item) == Members(s);
      WithoutAt(s, 0);
      list' := Unlink(list, item, p, s);
    }
  }

  // ---- src/list.h ---------------------------------------------------------------------------

  ghost function Last(s: seq<Fiber>): Fiber? {
    if s == [] then null else s[|s| - 1]
  }

  /** `list` is the last fiber of the circular singly linked list of `s`. */
  ghost predicate TailRing(list: Fiber?, s: seq<Fiber>)
    reads Members(s)`next
  {
    Distinct(s) && list == Last(s) && Forward(s, Nexts(s, Plain))
  }

  /** A fiber that is in no list, handed over as a list of one. */
  ghost predicate Single(list: Fiber, s: seq<Fiber>)
    reads list`next
  {
    s == [list] && list.next == null
  }

  lemma TailNeighbours(list: Fiber?, s: seq<Fiber>, i: nat)
    requires TailRing(list, s) && i < |s|
    ensures s[i].next == s[Succ(i, |s|)]
  {
    assert Nexts(s, Plain)[i] == s[i].Next(Plain);
  }

  /** melon_list_push appends. */
  method ListPush(list: Fiber?, item: Fiber, ghost s: seq<Fiber>) returns (list': Fiber)
    requires TailRing(list, s) && item !in s
    modifies Nodes(s, item)`next
    ensures TailRing(list', s + [item])
  {
    hide Nexts, Distinct, Forward;
    ghost var nexts, n := Nexts(s, Plain), |s|;
    if list == null {
      item.next := item;
      ListAlone(item);
      assert s + [item] == [item];
    } else {
      TailNeighbours(list, s, n - 1);
      item.next := list.next;
      list.next := item;
      forall i | 0 <= i < n - 1 ensures s[i].Next(Plain) == nexts[i] { Apart(s, i, n - 1); }
      ListLinked(s, item, nexts);
    }
    list' := item;
  }

  lemma ListAlone(item: Fiber)
    requires item.next == item
    ensures TailRing(item, [item])
  {
  }

  lemma ListLinked(s: seq<Fiber>, item: Fiber, nexts: seq<Fiber?>)
    requires s != [] && item !in s && Distinct(s) && Forward(s, nexts)
    requires item.next == s[0] && s[|s| - 1].next == item
    requires forall i :: 0 <= i < |s| - 1 ==> s[i].Next(Plain) == nexts[i]
    ensures TailRing(item, s + [item])
  {
    hide Nexts, Distinct, Forward;
    assert InsertAt(s, |s|, item) == s + [item];
    InsertAtFacts(s, |s|, item);
    ForwardInserted(s, |s|, item, nexts, s + [item], Nexts(s + [item], Plain));
  }

  /** melon_list_pop takes the first fiber, from a list or from a single fiber, and clears its link. */
  method ListPop(list: Fiber?, ghost s: seq<Fiber>) returns (list': Fiber?, item: Fiber?)
    requires TailRing(list, s) || (list != null && Single(list, s))
    modifies Members(s)`next
    ensures item == Head(s)
    ensures TailRing(list', if s == [] then [] else s[1..])
    ensures item != null ==> item.next == null
  {
    hide Nexts, Distinct, Forward;
    ghost var nexts, n := Nexts(s, Plain), |s|;
    if list == null {
      list', item := null, null;
      assert s == [];
    } else if list == list.next || list.next == null {
      OneElement(list, s);
      item := list;
      item.next := null;
      list' := null;
      NoElement();
      assert s[1..] == [];
    } else {
      list' := list;
      TailNeighbours(list, s, n - 1);
      TailNeighbours(list, s, 0);
      item := list.next;
      list.next := item.next;
      Apart(s, 0, n - 1);
      item.next := null;
      forall i | 0 < i < n - 1 ensures s[i].Next(Plain) == nexts[i] { Apart(s, i, n - 1); Apart(s, 0, i); }
      ListUnlinked(s, nexts);
    }
  }

  lemma NoElement()
    ensures TailRing(null, [])
  {
  }

  lemma OneElement(list: Fiber, s: seq<Fiber>)
    requires TailRing(list, s) || Single(list, s)
    requires list == list.next || list.next == null
    ensures s == [list]
  {
    if TailRing(list, s) {
      TailNeighbours(list, s, |s| - 1);
      Apart(s, 0, |s| - 1);
    }
  }

  lemma ListUnlinked(s: seq<Fiber>, nexts: seq<Fiber?>)
    requires |s| > 1 && Distinct(s) && Forward(s, nexts)
    requires s[|s| - 1].next == s[1]
    requires forall i :: 0 < i < |s| - 1 ==> s[i].Next(Plain) == nexts[i]
    ensures TailRing(s[|s| - 1], s[1..])
  {
    assert nexts[0] == s[Succ(0, |s|)];
    assert Distinct(s[1..]);
    var s' := s[1..];
    hide Nexts, Forward;
    assert Last(s') == s[|s| - 1];
    forall i | 0 <= i < |s'|
      ensures Nexts(s', Plain)[i] == (if i + 1 == |s| - 1 then nexts[0] else nexts[i + 1])
    {
      assert s'[i] == s[i + 1];
    }
    ForwardRemoved(s, 0, nexts, s', Nexts(s', Plain));
  }

  // ---- melon_sched_ready_locked -------------------------------------------------------------

  /** A list, or a fiber alone. */
  ghost predicate Listed(list: Fiber?, s: seq<Fiber>)
    reads Members(s)`next
  {
    Distinct(s) && (TailRing(list, s) || (s != [] && list == s[0] && Single(s[0], s)))
  }

  lemma ListedHead(list: Fiber?, s: seq<Fiber>)
    requires Listed(list, s)
    ensures list == null <==> s == []
    ensures Distinct(s) && (TailRing(list, s) || (list != null && Single(list, s)))
  {
  }

  /** One round of the loop: the first fiber of `list` goes to the end of the ready queue. */
  method MoveOne(ready: Fiber?, list: Fiber?, ghost r: seq<Fiber>, ghost s: seq<Fiber>)
    returns (ready': Fiber, list': Fiber?)
    requires TailRing(ready, r) && Listed(list, s) && Members(r) !! Members(s) && s != []
    modifies Members(r)`next, Members(s)`next, {s[0]}`waitedEvent
    ensures TailRing(ready', r + [s[0]]) && Listed(list', s[1..])
    ensures s[0].waitedEvent == NO_EVENT
    ensures forall n :: n in Members(s[1..]) ==> n in s && n != s[0]
  {
    hide TailRing, Single;
    ListedHead(list, s);
    assert Members(s[1..]) <= Members(s) && s[0] !in s[1..];
    hide Listed, Distinct;
    var fiber;
    list', fiber := ListPop(list, s);
    fiber.waitedEvent := NO_EVENT;
    ready' := ListPush(ready, fiber, r);
    RestListed(list', s);
  }

  lemma RestListed(list: Fiber?, s: seq<Fiber>)
    requires s != [] && TailRing(list, s[1..])
    ensures Listed(list, s[1..])
  {
  }

  lemma SplitApart(r: seq<Fiber>, s: seq<Fiber>, k: nat)
    requires Distinct(s) && Members(r) !! Members(s) && k < |s|
    ensures Members(r + s[..k]) !! Members(s[k..])
    ensures Members(r + s[..k]) <= Members(r) + Members(s) && Members(s[k..]) <= Members(s)
    ensures s[k] !in s[..k] && s[k] in Members(s)
  {
    forall n | n in Members(r + s[..k]) ensures n in Members(r) + Members(s) && n !in Members(s[k..]) {
      assert n in r || n in s[..k];
      if n in s[..k] { assert n !in s[k..]; }
    }
  }

  /** The loop of melon_sched_ready_locked: the fibers of `list`, whether a list or a lone fiber, go
      to the end of the ready queue in their order.  The result counts them. */
  method MoveAll(ready: Fiber?, list: Fiber?, ghost r: seq<Fiber>, ghost s: seq<Fiber>)
    returns (ready': Fiber?, nb: nat)
    requires TailRing(ready, r) && Listed(list, s) && Members(r) !! Members(s)
    modifies Members(r)`next, Members(s)`next, Members(s)`waitedEvent
    ensures TailRing(ready', r + s) && nb == |s|
    ensures forall n :: n in s ==> n.waitedEvent == NO_EVENT
  {
    hide TailRing, Listed, Members, Distinct;
    ListedHead(list, s);
    ready', nb := ready, 0;
    var rest := list;
    ghost var moved, left := r, s;
    assert s[0..] == s && r + s[..0] == r;
    while rest != null
      invariant nb <= |s| && left == s[nb..] && moved == r + s[..nb]
      invariant TailRing(ready', moved) && Listed(rest, left)
      invariant forall n :: n in s[..nb] ==> n.waitedEvent == NO_EVENT
      decreases |left|
    {
      ListedHead(rest, left);
      SplitApart(r, s, nb);
      ready', rest := MoveOne(ready', rest, moved, left);
      moved, left, nb := moved + [left[0]], left[1..], nb + 1;
    }
    ListedHead(rest, left);
    assert s[..nb] == s;
  }

  // ---- melon_timer_push_locked --------------------------------------------------------------

  ghost function TimersOf(s: seq<Fiber>): (r: seq<int>)
    reads Members(s)`timer
    ensures |r| == |s| && forall i :: 0 <= i < |s| ==> r[i] == s[i].timer
  {
    if s == [] then [] else [s[0].timer] + TimersOf(s[1..])
  }

  lemma {:induction false} InsertPosIs(keys: seq<int>, k: int, p: nat)
    requires p <= |keys| && (forall i :: 0 <= i < p ==> keys[i] < k) && (p < |keys| ==> k <= keys[p])
    ensures InsertPos(keys, k) == p
  {
    if p > 0 {
      InsertPosIs(keys[1..], k, p - 1);
    }
  }

  lemma SortedAfterInsert(keys: seq<int>, k: int)
    requires Sorted(keys)
    ensures Sorted(InsertAt(keys, InsertPos(keys, k), k))
  {
    var p := InsertPos(keys, k);
    var r := InsertAt(keys, p, k);
    forall i, j | 0 <= i < j < |r| ensures r[i] <= r[j] {
      if i < p < j {
        assert keys[i] <= keys[j - 1];
      } else if p == i {
        assert keys[p] <= keys[j - 1];
      }
    }
  }

  /** The walk of melon_timer_push_locked along the timer ring: `prev` is the last fiber whose timer is
      smaller than the new one, null if there is none.  It ends when it is back at the head. */
  method Walk(list: Fiber?, timer: int, ghost s: seq<Fiber>) returns (prev: Fiber?, ghost k: nat)
    requires Ring(list, s, TimerLinks)
    ensures k == InsertPos(TimersOf(s), timer) && Ring(list, s, TimerLinks)
    ensures var p := InsertPos(TimersOf(s), timer); prev == if p == 0 then null else s[p - 1]
  {
    hide Ring, InsertPos, TimersOf;
    RingHead(list, s);
    prev, k := null, 0;
    var curr := list;
    while curr != null
      invariant k <= |s| && prev == (if k == 0 then null else s[k - 1])
      invariant curr == (if k < |s| then s[k] else null) && Ring(list, s, TimerLinks)
      invariant forall i :: 0 <= i < k ==> s[i].timer < timer
      decreases |s| - k
    {
      if timer <= curr.timer {
        break;
      }
      WalkStep(list, s, k);
      prev, curr, k := curr, curr.timerNext, k + 1;
      if curr == list {
        break;
      }
    }
    InsertPosIs(TimersOf(s), timer, k);
  }

  lemma RingHead(list: Fiber?, s: seq<Fiber>)
    requires Ring(list, s, TimerLinks)
    ensures list == Head(s)
  {
  }

  /** The walk is back at the head exactly when it has passed every fiber. */
  lemma WalkStep(list: Fiber?, s: seq<Fiber>, k: nat)
    requires Ring(list, s, TimerLinks) && k < |s|
    ensures s[k].timerNext == if k + 1 < |s| then s[k + 1] else list
    ensures k + 1 < |s| ==> s[k + 1] != list
  {
    Neighbours(list, s, k, TimerLinks);
    if k + 1 < |s| { Apart(s, 0, k + 1); }
  }

  /** melon_timer_push_locked up to the signal; the result says that the fiber is the new head. */
  method InsertSorted(list: Fiber?, fiber: Fiber, ghost s: seq<Fiber>) returns (list': Fiber, front: bool)
    requires Ring(list, s, TimerLinks) && fiber !in s
    modifies Nodes(s, fiber)`timerNext, Nodes(s, fiber)`timerPrev
    ensures var p := InsertPos(TimersOf(s), fiber.timer);
            Ring(list', InsertAt(s, p, fiber), TimerLinks) && (front <==> p == 0)
  {
    hide Distinct, Forward, Backward, InsertAt, Nexts, Prevs;
    fiber.timerNext := null;
    assert Nexts(s, TimerLinks) == old(Nexts(s, TimerLinks));
    assert Ring(list, s, TimerLinks);
    hide Ring;
    var prev, k := Walk(list, fiber.timer, s);
    list' := Insert(list, prev, fiber, TimerLinks, s, k);
    front := prev == null;
  }
}
