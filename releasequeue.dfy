/** The release queue of each core: threads whose scheduling context has run
    out of budget, ordered by the release time of their head refill, doubly
    linked through `tcbSchedNext`/`tcbSchedPrev` from `ksReleaseHead`
    (`tcbReleaseEnqueue`, `tcbReleaseDequeue`, `tcbReleaseRemove`). */
module ReleaseQueue {
  import opened Words
  import opened Structures
  import opened Queues

  // ---------------------------------------------------------------------
  // Where a thread goes

  /** The position the enqueue walk stops at: past every leading thread
      released no later than `t`, at the first one released strictly later. */
  function InsertionPoint(tcbs: seq<Tcb>, scs: seq<Sched>, q: seq<Ptr>, t: Ptr): (n: nat)
    ensures n <= |q|
    ensures forall i :: 0 <= i < n ==> RTime(tcbs, scs, q[i]) <= RTime(tcbs, scs, t)
    ensures n < |q| ==> RTime(tcbs, scs, q[n]) > RTime(tcbs, scs, t)
  {
    if |q| == 0 then 0
    else if RTime(tcbs, scs, q[0]) <= RTime(tcbs, scs, t) then 1 + InsertionPoint(tcbs, scs, q[1..], t)
    else 0
  }

  /** That position is the only one with both properties. */
  lemma {:induction false} InsertionPointUnique(tcbs: seq<Tcb>, scs: seq<Sched>, q: seq<Ptr>, t: Ptr, n: nat)
    requires n <= |q|
    requires forall i :: 0 <= i < n ==> RTime(tcbs, scs, q[i]) <= RTime(tcbs, scs, t)
    requires n < |q| ==> RTime(tcbs, scs, q[n]) > RTime(tcbs, scs, t)
    ensures n == InsertionPoint(tcbs, scs, q, t)
  {
    if n > 0 {
      assert RTime(tcbs, scs, q[0]) <= RTime(tcbs, scs, t);
      InsertionPointUnique(tcbs, scs, q[1..], t, n - 1);
    }
  }

  /** In an ordered queue, the threads before the insertion point are exactly
      those released no later than `t`: ties stay in arrival order. */
  lemma InsertionPointSplits(tcbs: seq<Tcb>, scs: seq<Sched>, q: seq<Ptr>, t: Ptr)
    requires ReleaseSorted(tcbs, scs, q)
    ensures var n := InsertionPoint(tcbs, scs, q, t);
      forall i :: 0 <= i < |q| ==> (i < n <==> RTime(tcbs, scs, q[i]) <= RTime(tcbs, scs, t))
  {
    var n := InsertionPoint(tcbs, scs, q, t);
    forall i | n <= i < |q|
      ensures RTime(tcbs, scs, q[i]) > RTime(tcbs, scs, t)
    {
      assert RTime(tcbs, scs, q[n]) <= RTime(tcbs, scs, q[i]);
    }
  }

  /** Inserting at the insertion point keeps a queue ordered. */
  lemma InsertKeepsSorted(tcbs: seq<Tcb>, scs: seq<Sched>, q: seq<Ptr>, t: Ptr)
    requires ReleaseSorted(tcbs, scs, q)
    ensures var n := InsertionPoint(tcbs, scs, q, t);
      ReleaseSorted(tcbs, scs, q[..n] + [t] + q[n..])
  {
    var n := InsertionPoint(tcbs, scs, q, t);
    var r := q[..n] + [t] + q[n..];
    InsertionPointSplits(tcbs, scs, q, t);
    forall i, j | 0 <= i < j < |r|
      ensures RTime(tcbs, scs, r[i]) <= RTime(tcbs, scs, r[j])
    {
      if i < n && j > n {
        assert r[i] == q[i] && r[j] == q[j - 1];
      } else if i > n {
        assert r[i] == q[i - 1] && r[j] == q[j - 1];
      }
    }
  }

  /** Taking a thread out keeps a queue ordered. */
  lemma {:induction false} WithoutKeepsSorted(tcbs: seq<Tcb>, scs: seq<Sched>, q: seq<Ptr>, t: Ptr)
    requires ReleaseSorted(tcbs, scs, q)
    ensures ReleaseSorted(tcbs, scs, Without(q, t))
  {
    if |q| > 0 {
      WithoutKeepsSorted(tcbs, scs, q[1..], t);
      var w := Without(q[1..], t);
      if q[0] != t {
        forall j | 0 <= j < |w|
          ensures RTime(tcbs, scs, q[0]) <= RTime(tcbs, scs, w[j])
        {
          assert w[j] in q[1..];
        }
      }
    }
  }

  // ---------------------------------------------------------------------
  // Link surgery

  /** The links after inserting `t` between `before` and `after` (either may
      be NULL), and setting its release-queue flag. */
  function LinkIn(tcbs: seq<Tcb>, before: Ptr, t: Ptr, after: Ptr): (r: seq<Tcb>)
    requires ValidTcb(tcbs, t)
    requires before == NULL || ValidTcb(tcbs, before)
    requires after == NULL || ValidTcb(tcbs, after)
    requires before != t && after != t && (before == NULL || before != after)
    ensures |r| == |tcbs|
    ensures r[t] == tcbs[t].(schedNext := after, schedPrev := before, inReleaseQueue := true)
    ensures before != NULL ==> r[before] == tcbs[before].(schedNext := t)
    ensures after != NULL ==> r[after] == tcbs[after].(schedPrev := t)
    ensures forall x :: 0 <= x < |r| && x != t && x != before && x != after ==> r[x] == tcbs[x]
  {
    var s1 := if before == NULL then tcbs else tcbs[before := tcbs[before].(schedNext := t)];
    var s2 := if after == NULL then s1 else s1[after := s1[after].(schedPrev := t)];
    s2[t := s2[t].(schedNext := after, schedPrev := before, inReleaseQueue := true)]
  }

  /** The links after unlinking `t` from its neighbours, clearing its own links
      and its release-queue flag. */
  function LinkOut(tcbs: seq<Tcb>, t: Ptr): (r: seq<Tcb>)
    requires ValidTcb(tcbs, t)
    requires tcbs[t].schedPrev == NULL || ValidTcb(tcbs, tcbs[t].schedPrev)
    requires tcbs[t].schedNext == NULL || ValidTcb(tcbs, tcbs[t].schedNext)
    requires tcbs[t].schedPrev != t && tcbs[t].schedNext != t
    requires tcbs[t].schedPrev == NULL || tcbs[t].schedPrev != tcbs[t].schedNext
    ensures |r| == |tcbs|
    ensures r[t] == tcbs[t].(schedNext := NULL, schedPrev := NULL, inReleaseQueue := false)
    ensures var prev := tcbs[t].schedPrev; prev != NULL ==> r[prev] == tcbs[prev].(schedNext := tcbs[t].schedNext)
    ensures var next := tcbs[t].schedNext; next != NULL ==> r[next] == tcbs[next].(schedPrev := tcbs[t].schedPrev)
    ensures forall x :: 0 <= x < |r| && x != t && x != tcbs[t].schedPrev && x != tcbs[t].schedNext ==> r[x] == tcbs[x]
  {
    var prev, next := tcbs[t].schedPrev, tcbs[t].schedNext;
    var s1 := if prev == NULL then tcbs else tcbs[prev := tcbs[prev].(schedNext := next)];
    var s2 := if next == NULL then s1 else s1[next := s1[next].(schedPrev := prev)];
    s2[t := s2[t].(schedNext := NULL, schedPrev := NULL, inReleaseQueue := false)]
  }

  /** `tcbs'` differs from `tcbs` at most in the release-queue links and flags. */
  ghost predicate OnlyLinksDiffer(tcbs: seq<Tcb>, tcbs': seq<Tcb>)
  {
    |tcbs'| == |tcbs|
    && forall x :: 0 <= x < |tcbs| ==>
         tcbs'[x] == tcbs[x].(schedNext := tcbs'[x].schedNext, schedPrev := tcbs'[x].schedPrev,
                              inReleaseQueue := tcbs'[x].inReleaseQueue)
  }

  lemma LinkOutOnlyLinks(tcbs: seq<Tcb>, t: Ptr)
    requires ValidTcb(tcbs, t)
    requires tcbs[t].schedPrev == NULL || ValidTcb(tcbs, tcbs[t].schedPrev)
    requires tcbs[t].schedNext == NULL || ValidTcb(tcbs, tcbs[t].schedNext)
    requires tcbs[t].schedPrev != t && tcbs[t].schedNext != t
    requires tcbs[t].schedPrev == NULL || tcbs[t].schedPrev != tcbs[t].schedNext
    ensures OnlyLinksDiffer(tcbs, LinkOut(tcbs, t))
  {
  }

  /** The neighbours of position `i` of a queue. */
  function Before(q: seq<Ptr>, i: nat): Ptr
    requires i <= |q|
  {
    if i == 0 then NULL else q[i - 1]
  }

  function After(q: seq<Ptr>, i: nat): Ptr
    requires i <= |q|
  {
    if i < |q| then q[i] else NULL
  }

  /** A list stays linked when none of its members' links change. */
  lemma LinkedFrame(q: seq<Ptr>, head: Ptr, tcbs: seq<Tcb>, tcbs': seq<Tcb>)
    requires Linked(q, head, tcbs) && |tcbs'| == |tcbs|
    requires forall i :: 0 <= i < |q| ==>
               tcbs'[q[i]].schedNext == tcbs[q[i]].schedNext && tcbs'[q[i]].schedPrev == tcbs[q[i]].schedPrev
    ensures Linked(q, head, tcbs')
  {
  }

  /** After linking `t` in at position `i`, the member now at position `j`
      has the right links. */
  lemma LinkedInsertAt(q: seq<Ptr>, head: Ptr, tcbs: seq<Tcb>, i: nat, t: Ptr, j: nat)
    requires Linked(q, head, tcbs) && i <= |q| && ValidTcb(tcbs, t) && t !in q && j <= |q|
    ensures var nq := q[..i] + [t] + q[i..]; var r := LinkIn(tcbs, Before(q, i), t, After(q, i));
      |nq| == |q| + 1
      && r[nq[j]].schedNext == (if j + 1 < |nq| then nq[j + 1] else NULL)
      && r[nq[j]].schedPrev == (if j == 0 then NULL else nq[j - 1])
  {
    var before, after := Before(q, i), After(q, i);
    var r := LinkIn(tcbs, before, t, after);
    var nq := q[..i] + [t] + q[i..];
    assert |nq| == |q| + 1;
    NthOfInsert(q, i, t, nq, j);
    if j + 1 < |nq| {
      NthOfInsert(q, i, t, nq, j + 1);
    }
    if j > 0 {
      NthOfInsert(q, i, t, nq, j - 1);
    }
    if j == i {
      assert nq[j] == t;
    } else {
      var m := if j < i then j else j - 1;
      assert nq[j] == q[m];
      LinkedAt(q, head, tcbs, m);
      if m + 1 == i {
        assert q[m] == before && r[before] == tcbs[before].(schedNext := t);
      } else if m == i {
        assert q[m] == after && r[after] == tcbs[after].(schedPrev := t);
      } else {
        assert q[m] != before by {
          if before != NULL {
            assert before == q[i - 1];
          }
        }
        assert q[m] != after by {
          if after != NULL {
            assert after == q[i];
          }
        }
        assert r[q[m]] == tcbs[q[m]];
      }
    }
  }

  lemma NthOfInsert(q: seq<Ptr>, i: nat, t: Ptr, nq: seq<Ptr>, x: nat)
    requires i <= |q| && nq == q[..i] + [t] + q[i..] && x <= |q|
    ensures |nq| == |q| + 1 && nq[x] == (if x < i then q[x] else if x == i then t else q[x - 1])
  {
  }

  /** Inserting `t` at position `i` of a linked list with `LinkIn` links the longer list. */
  lemma LinkedInsert(q: seq<Ptr>, head: Ptr, tcbs: seq<Tcb>, i: nat, t: Ptr)
    requires Linked(q, head, tcbs) && i <= |q| && ValidTcb(tcbs, t) && t !in q
    ensures Linked(q[..i] + [t] + q[i..], if i == 0 then t else head,
                   LinkIn(tcbs, Before(q, i), t, After(q, i)))
  {
    var before, after := Before(q, i), After(q, i);
    var r := LinkIn(tcbs, before, t, after);
    var nq := q[..i] + [t] + q[i..];
    LinkedInsertLinks(q, head, tcbs, i, t, nq, r);
    LinkedInsertMembers(q, head, tcbs, i, t, nq, r);
    assert (if i == 0 then t else head) == nq[0];
    LinkedFromParts(nq, if i == 0 then t else head, r);
  }

  lemma LinkedInsertLinks(q: seq<Ptr>, head: Ptr, tcbs: seq<Tcb>, i: nat, t: Ptr, nq: seq<Ptr>, r: seq<Tcb>)
    requires Linked(q, head, tcbs) && i <= |q| && ValidTcb(tcbs, t) && t !in q
    requires nq == q[..i] + [t] + q[i..] && r == LinkIn(tcbs, Before(q, i), t, After(q, i))
    ensures forall j :: 0 <= j < |nq| ==> r[nq[j]].schedNext == (if j + 1 < |nq| then nq[j + 1] else NULL)
    ensures forall j :: 0 <= j < |nq| ==> r[nq[j]].schedPrev == (if j == 0 then NULL else nq[j - 1])
  {
    forall j | 0 <= j < |nq|
      ensures r[nq[j]].schedNext == (if j + 1 < |nq| then nq[j + 1] else NULL)
      ensures r[nq[j]].schedPrev == (if j == 0 then NULL else nq[j - 1])
    {
      LinkedInsertAt(q, head, tcbs, i, t, j);
    }
  }

  lemma LinkedInsertMembers(q: seq<Ptr>, head: Ptr, tcbs: seq<Tcb>, i: nat, t: Ptr, nq: seq<Ptr>, r: seq<Tcb>)
    requires Linked(q, head, tcbs) && i <= |q| && ValidTcb(tcbs, t) && t !in q
    requires nq == q[..i] + [t] + q[i..] && |r| == |tcbs|
    ensures forall j :: 0 <= j < |nq| ==> ValidTcb(r, nq[j])
    ensures forall a, b :: 0 <= a < b < |nq| ==> nq[a] != nq[b]
  {
    assert forall x :: 0 <= x < |nq| ==> nq[x] == (if x < i then q[x] else if x == i then t else q[x - 1]);
  }

  /** The links of one member of a linked list, by position. */
  lemma LinkedAt(q: seq<Ptr>, head: Ptr, tcbs: seq<Tcb>, j: nat)
    requires Linked(q, head, tcbs) && j < |q|
    ensures ValidTcb(tcbs, q[j])
    ensures tcbs[q[j]].schedNext == After(q, j + 1) && tcbs[q[j]].schedPrev == Before(q, j)
  {
  }

  /** After unlinking position `i`, the member now at position `j` has the
      right links. */
  lemma LinkedRemoveAt(q: seq<Ptr>, head: Ptr, tcbs: seq<Tcb>, i: nat, j: nat)
    requires Linked(q, head, tcbs) && i < |q| && j + 1 < |q|
    requires tcbs[q[i]].schedPrev == Before(q, i) && tcbs[q[i]].schedNext == After(q, i + 1)
    requires tcbs[q[i]].schedPrev != q[i] && tcbs[q[i]].schedNext != q[i]
    requires tcbs[q[i]].schedPrev == NULL || tcbs[q[i]].schedPrev != tcbs[q[i]].schedNext
    ensures var nq := q[..i] + q[i + 1..]; var r := LinkOut(tcbs, q[i]);
      |nq| == |q| - 1
      && r[nq[j]].schedNext == (if j + 1 < |nq| then nq[j + 1] else NULL)
      && r[nq[j]].schedPrev == (if j == 0 then NULL else nq[j - 1])
  {
    var t := q[i];
    var prev, next := Before(q, i), After(q, i + 1);
    var r := LinkOut(tcbs, t);
    var nq := q[..i] + q[i + 1..];
    assert |nq| == |q| - 1;
    var m := if j < i then j else j + 1;
    assert nq[j] == q[m];
    assert j + 1 < |nq| ==> nq[j + 1] == (if j + 1 < i then q[j + 1] else q[j + 2]);
    assert j > 0 ==> nq[j - 1] == (if j - 1 < i then q[j - 1] else q[j]);
    LinkedAt(q, head, tcbs, m);
    if m + 1 == i {
      assert q[m] == prev && r[prev] == tcbs[prev].(schedNext := next);
    } else if m == i + 1 {
      assert q[m] == next && r[next] == tcbs[next].(schedPrev := prev);
    } else {
      assert q[m] != t;
      assert q[m] != prev by {
        if prev != NULL {
          assert prev == q[i - 1];
        }
      }
      assert q[m] != next by {
        if next != NULL {
          assert next == q[i + 1];
        }
      }
      assert r[q[m]] == tcbs[q[m]];
    }
  }

  /** Every remaining member of the shorter list has the right links. */
  lemma LinkedRemoveLinks(q: seq<Ptr>, head: Ptr, tcbs: seq<Tcb>, i: nat, nq: seq<Ptr>, r: seq<Tcb>)
    requires Linked(q, head, tcbs) && i < |q|
    requires tcbs[q[i]].schedPrev == Before(q, i) && tcbs[q[i]].schedNext == After(q, i + 1)
    requires tcbs[q[i]].schedPrev != q[i] && tcbs[q[i]].schedNext != q[i]
    requires tcbs[q[i]].schedPrev == NULL || tcbs[q[i]].schedPrev != tcbs[q[i]].schedNext
    requires nq == q[..i] + q[i + 1..] && r == LinkOut(tcbs, q[i])
    ensures forall j :: 0 <= j < |nq| ==> r[nq[j]].schedNext == (if j + 1 < |nq| then nq[j + 1] else NULL)
    ensures forall j :: 0 <= j < |nq| ==> r[nq[j]].schedPrev == (if j == 0 then NULL else nq[j - 1])
  {
    forall j | 0 <= j < |nq|
      ensures r[nq[j]].schedNext == (if j + 1 < |nq| then nq[j + 1] else NULL)
      ensures r[nq[j]].schedPrev == (if j == 0 then NULL else nq[j - 1])
    {
      LinkedRemoveAt(q, head, tcbs, i, j);
    }
  }

  /** The shorter list keeps distinct valid members. */
  lemma LinkedRemoveMembers(q: seq<Ptr>, head: Ptr, tcbs: seq<Tcb>, i: nat, r: seq<Tcb>)
    requires Linked(q, head, tcbs) && i < |q| && |r| == |tcbs|
    ensures var nq := q[..i] + q[i + 1..];
      (forall j :: 0 <= j < |nq| ==> ValidTcb(r, nq[j]))
      && (forall a, b :: 0 <= a < b < |nq| ==> nq[a] != nq[b])
  {
    var nq := q[..i] + q[i + 1..];
    forall a, b | 0 <= a < b < |nq|
      ensures nq[a] != nq[b]
    {
      var a' := if a < i then a else a + 1;
      var b' := if b < i then b else b + 1;
      assert nq[a] == q[a'] && nq[b] == q[b'];
    }
    forall j | 0 <= j < |nq|
      ensures ValidTcb(r, nq[j])
    {
      assert nq[j] == q[if j < i then j else j + 1];
    }
  }

  /** Unlinking the member at position `i` with `LinkOut` links the shorter list. */
  lemma LinkedRemove(q: seq<Ptr>, head: Ptr, tcbs: seq<Tcb>, i: nat)
    requires Linked(q, head, tcbs) && i < |q|
    ensures tcbs[q[i]].schedPrev == Before(q, i) && tcbs[q[i]].schedNext == After(q, i + 1)
    ensures Linked(q[..i] + q[i + 1..], if i == 0 then tcbs[q[i]].schedNext else head, LinkOut(tcbs, q[i]))
  {
    var t := q[i];
    var prev, next := Before(q, i), After(q, i + 1);
    LinkedAt(q, head, tcbs, i);
    assert next != t && prev != t && (prev == NULL || prev != next);
    var r := LinkOut(tcbs, t);
    var nq := q[..i] + q[i + 1..];
    LinkedRemoveLinks(q, head, tcbs, i, nq, r);
    LinkedRemoveMembers(q, head, tcbs, i, r);
    assert (if i == 0 then next else head) == (if |nq| == 0 then NULL else nq[0]);
    LinkedFromParts(nq, if i == 0 then next else head, r);
  }

  /** The clauses of `Linked`, assembled. */
  lemma LinkedFromParts(q: seq<Ptr>, head: Ptr, tcbs: seq<Tcb>)
    requires forall a, b :: 0 <= a < b < |q| ==> q[a] != q[b]
    requires head == (if |q| == 0 then NULL else q[0])
    requires forall j :: 0 <= j < |q| ==>
      ValidTcb(tcbs, q[j])
      && tcbs[q[j]].schedNext == (if j + 1 < |q| then q[j + 1] else NULL)
      && tcbs[q[j]].schedPrev == (if j == 0 then NULL else q[j - 1])
    ensures Linked(q, head, tcbs)
  {
  }

  // ---------------------------------------------------------------------
  // Whole-state preservation

  /** Changing only the links of threads on core `c` preserves the queues of
      every other core. */
  lemma OtherCoresLinked(tcbs: seq<Tcb>, tcbs': seq<Tcb>, scs: seq<Sched>, nodes: seq<Node>,
                         nodes': seq<Node>, Q: seq<seq<Ptr>>, Q': seq<seq<Ptr>>, c: nat)
    requires ReleaseQueuesValid(tcbs, scs, nodes, Q) && c < |Q|
    requires |tcbs'| == |tcbs| && |nodes'| == |nodes| && |Q'| == |Q|
    requires forall x :: 0 <= x < |tcbs| && tcbs[x].affinity != c ==> tcbs'[x] == tcbs[x]
    requires forall d :: 0 <= d < |Q| && d != c ==> Q'[d] == Q[d] && nodes'[d].releaseHead == nodes[d].releaseHead
    ensures forall d :: 0 <= d < |Q'| && d != c ==> Linked(Q'[d], nodes'[d].releaseHead, tcbs')
  {
    forall d | 0 <= d < |Q'| && d != c
      ensures Linked(Q'[d], nodes'[d].releaseHead, tcbs')
    {
      assert forall i :: 0 <= i < |Q[d]| ==> tcbs[Q[d][i]].affinity == d;
      LinkedFrame(Q[d], nodes[d].releaseHead, tcbs, tcbs');
    }
  }

  /** One step of `tcbReleaseEnqueue` on the abstract state: `t` linked in at
      position `n` of its core's queue. */
  ghost predicate EnqueueStep(tcbs: seq<Tcb>, scs: seq<Sched>, nodes: seq<Node>, Q: seq<seq<Ptr>>, t: Ptr, n: nat,
                              tcbs': seq<Tcb>, nodes': seq<Node>, Q': seq<seq<Ptr>>)
  {
    ReleaseQueuesValid(tcbs, scs, nodes, Q)
    && ValidTcb(tcbs, t) && !tcbs[t].inReleaseQueue && tcbs[t].affinity < |nodes| && HasRefills(tcbs, scs, t)
    && var c := tcbs[t].affinity; var q := Q[c];
    n <= |q| && t !in q
    && tcbs' == LinkIn(tcbs, Before(q, n), t, After(q, n))
    && nodes' == (if n == 0 then nodes[c := nodes[c].(releaseHead := t, reprogram := true)] else nodes)
    && Q' == Q[c := q[..n] + [t] + q[n..]]
  }

  /** The thread is not yet queued, so the step is defined at every position. */
  lemma EnqueueStepDefined(tcbs: seq<Tcb>, scs: seq<Sched>, nodes: seq<Node>, Q: seq<seq<Ptr>>, t: Ptr, n: nat)
    requires ReleaseQueuesValid(tcbs, scs, nodes, Q)
    requires ValidTcb(tcbs, t) && !tcbs[t].inReleaseQueue && tcbs[t].affinity < |nodes|
    requires n <= |Q[tcbs[t].affinity]|
    ensures var q := Q[tcbs[t].affinity];
      t !in q && Before(q, n) != t && After(q, n) != t && (Before(q, n) == NULL || Before(q, n) != After(q, n))
      && (Before(q, n) == NULL || ValidTcb(tcbs, Before(q, n))) && (After(q, n) == NULL || ValidTcb(tcbs, After(q, n)))
  {
    var q := Q[tcbs[t].affinity];
    assert Linked(q, nodes[tcbs[t].affinity].releaseHead, tcbs);
  }

  lemma EnqueueLinked(tcbs: seq<Tcb>, scs: seq<Sched>, nodes: seq<Node>, Q: seq<seq<Ptr>>, t: Ptr, n: nat,
                      tcbs': seq<Tcb>, nodes': seq<Node>, Q': seq<seq<Ptr>>)
    requires EnqueueStep(tcbs, scs, nodes, Q, t, n, tcbs', nodes', Q')
    ensures forall d :: 0 <= d < |Q'| ==> Linked(Q'[d], nodes'[d].releaseHead, tcbs')
  {
    var c := tcbs[t].affinity;
    var q := Q[c];
    assert forall i :: 0 <= i < |q| ==> tcbs[q[i]].affinity == c;
    LinkedInsert(q, nodes[c].releaseHead, tcbs, n, t);
    OtherCoresLinked(tcbs, tcbs', scs, nodes, nodes', Q, Q', c);
  }

  lemma EnqueueMembers(tcbs: seq<Tcb>, scs: seq<Sched>, nodes: seq<Node>, Q: seq<seq<Ptr>>, t: Ptr, n: nat,
                       tcbs': seq<Tcb>, nodes': seq<Node>, Q': seq<seq<Ptr>>)
    requires EnqueueStep(tcbs, scs, nodes, Q, t, n, tcbs', nodes', Q')
    ensures forall d, i :: 0 <= d < |Q'| && 0 <= i < |Q'[d]| ==>
              tcbs'[Q'[d][i]].affinity == d && HasRefills(tcbs', scs, Q'[d][i])
  {
    var c := tcbs[t].affinity;
    var q := Q[c];
    assert forall x :: 0 <= x < |tcbs| ==> tcbs'[x].affinity == tcbs[x].affinity && tcbs'[x].sc == tcbs[x].sc;
    forall d, i | 0 <= d < |Q'| && 0 <= i < |Q'[d]|
      ensures tcbs'[Q'[d][i]].affinity == d && HasRefills(tcbs', scs, Q'[d][i])
    {
      var x := Q'[d][i];
      if d == c {
        if i < n {
          assert x == q[i];
        } else if i > n {
          assert x == q[i - 1];
        } else {
          assert x == t;
        }
      } else {
        assert x == Q[d][i];
      }
      assert tcbs[x].affinity == d && HasRefills(tcbs, scs, x);
    }
  }

  lemma EnqueueFlags(tcbs: seq<Tcb>, scs: seq<Sched>, nodes: seq<Node>, Q: seq<seq<Ptr>>, t: Ptr, n: nat,
                     tcbs': seq<Tcb>, nodes': seq<Node>, Q': seq<seq<Ptr>>)
    requires EnqueueStep(tcbs, scs, nodes, Q, t, n, tcbs', nodes', Q')
    ensures forall x :: 0 < x < |tcbs'| ==>
              (tcbs'[x].inReleaseQueue <==> tcbs'[x].affinity < |Q'| && x in Q'[tcbs'[x].affinity])
  {
    var c := tcbs[t].affinity;
    var q := Q[c];
    forall x | 0 < x < |tcbs'|
      ensures tcbs'[x].inReleaseQueue <==> tcbs'[x].affinity < |Q'| && x in Q'[tcbs'[x].affinity]
    {
      assert tcbs'[x].affinity == tcbs[x].affinity;
      if tcbs[x].affinity == c {
        assert x in Q'[c] <==> x == t || x in q;
      }
    }
  }

  /** `LinkIn` at a position of core `c`'s queue keeps all release queues valid. */
  lemma EnqueueKeepsValid(tcbs: seq<Tcb>, scs: seq<Sched>, nodes: seq<Node>, Q: seq<seq<Ptr>>, t: Ptr, n: nat,
                          tcbs': seq<Tcb>, nodes': seq<Node>, Q': seq<seq<Ptr>>)
    requires EnqueueStep(tcbs, scs, nodes, Q, t, n, tcbs', nodes', Q')
    ensures ReleaseQueuesValid(tcbs', scs, nodes', Q')
  {
    EnqueueLinked(tcbs, scs, nodes, Q, t, n, tcbs', nodes', Q');
    EnqueueMembers(tcbs, scs, nodes, Q, t, n, tcbs', nodes', Q');
    EnqueueFlags(tcbs, scs, nodes, Q, t, n, tcbs', nodes', Q');
  }

  /** One step of `tcbReleaseRemove` on the abstract state: `t`, flagged as
      queued, unlinked from its core's queue. */
  ghost predicate RemoveStep(tcbs: seq<Tcb>, scs: seq<Sched>, nodes: seq<Node>, Q: seq<seq<Ptr>>, t: Ptr,
                             tcbs': seq<Tcb>, nodes': seq<Node>, Q': seq<seq<Ptr>>)
  {
    ReleaseQueuesValid(tcbs, scs, nodes, Q)
    && ValidTcb(tcbs, t) && tcbs[t].inReleaseQueue
    && var c := tcbs[t].affinity; var q := Q[c];
    c < |Q| && t in q && |q| > 0
    && (tcbs[t].schedPrev == NULL || ValidTcb(tcbs, tcbs[t].schedPrev))
    && (tcbs[t].schedNext == NULL || ValidTcb(tcbs, tcbs[t].schedNext))
    && tcbs[t].schedPrev != t && tcbs[t].schedNext != t
    && (tcbs[t].schedPrev == NULL || tcbs[t].schedPrev != tcbs[t].schedNext)
    && tcbs' == LinkOut(tcbs, t)
    && nodes' == (if q[0] == t then nodes[c := nodes[c].(releaseHead := tcbs[t].schedNext, reprogram := true)] else nodes)
    && Q' == Q[c := Without(q, t)]
  }

  /** A flagged thread sits in its core's queue, and its links name its neighbours
      there; it has no previous thread exactly when it is the head. */
  lemma RemoveStepDefined(tcbs: seq<Tcb>, scs: seq<Sched>, nodes: seq<Node>, Q: seq<seq<Ptr>>, t: Ptr)
    requires ReleaseQueuesValid(tcbs, scs, nodes, Q)
    requires ValidTcb(tcbs, t) && tcbs[t].inReleaseQueue
    ensures var c := tcbs[t].affinity; var q := Q[c];
      c < |Q| && t in q && |q| > 0
      && (tcbs[t].schedPrev == NULL <==> q[0] == t)
      && tcbs[t].schedPrev == Before(q, IndexOf(q, t)) && tcbs[t].schedNext == After(q, IndexOf(q, t) + 1)
      && (tcbs[t].schedPrev == NULL || ValidTcb(tcbs, tcbs[t].schedPrev))
      && (tcbs[t].schedNext == NULL || ValidTcb(tcbs, tcbs[t].schedNext))
      && tcbs[t].schedPrev != t && tcbs[t].schedNext != t
      && (tcbs[t].schedPrev == NULL || tcbs[t].schedPrev != tcbs[t].schedNext)
  {
    var c := tcbs[t].affinity;
    var q := Q[c];
    LinkedRemove(q, nodes[c].releaseHead, tcbs, IndexOf(q, t));
  }

  lemma RemoveLinked(tcbs: seq<Tcb>, scs: seq<Sched>, nodes: seq<Node>, Q: seq<seq<Ptr>>, t: Ptr,
                     tcbs': seq<Tcb>, nodes': seq<Node>, Q': seq<seq<Ptr>>)
    requires RemoveStep(tcbs, scs, nodes, Q, t, tcbs', nodes', Q')
    ensures forall d :: 0 <= d < |Q'| ==> Linked(Q'[d], nodes'[d].releaseHead, tcbs')
  {
    var c := tcbs[t].affinity;
    var q := Q[c];
    var i := IndexOf(q, t);
    LinkedRemove(q, nodes[c].releaseHead, tcbs, i);
    assert Distinct(q);
    WithoutAt(q, i);
    assert i == 0 <==> q[0] == t;
    assert forall j :: 0 <= j < |q| ==> tcbs[q[j]].affinity == c;
    OtherCoresLinked(tcbs, tcbs', scs, nodes, nodes', Q, Q', c);
  }

  lemma RemoveMembers(tcbs: seq<Tcb>, scs: seq<Sched>, nodes: seq<Node>, Q: seq<seq<Ptr>>, t: Ptr,
                      tcbs': seq<Tcb>, nodes': seq<Node>, Q': seq<seq<Ptr>>)
    requires RemoveStep(tcbs, scs, nodes, Q, t, tcbs', nodes', Q')
    ensures forall d, i :: 0 <= d < |Q'| && 0 <= i < |Q'[d]| ==>
              ValidTcb(tcbs', Q'[d][i]) && tcbs'[Q'[d][i]].affinity == d && HasRefills(tcbs', scs, Q'[d][i])
  {
    var c := tcbs[t].affinity;
    var q := Q[c];
    forall d, i | 0 <= d < |Q'| && 0 <= i < |Q'[d]|
      ensures ValidTcb(tcbs', Q'[d][i]) && tcbs'[Q'[d][i]].affinity == d && HasRefills(tcbs', scs, Q'[d][i])
    {
      if d == c {
        assert Q'[d][i] in q;
      }
    }
  }

  lemma RemoveFlags(tcbs: seq<Tcb>, scs: seq<Sched>, nodes: seq<Node>, Q: seq<seq<Ptr>>, t: Ptr,
                    tcbs': seq<Tcb>, nodes': seq<Node>, Q': seq<seq<Ptr>>)
    requires RemoveStep(tcbs, scs, nodes, Q, t, tcbs', nodes', Q')
    ensures forall x :: 0 < x < |tcbs'| ==>
              (tcbs'[x].inReleaseQueue <==> tcbs'[x].affinity < |Q'| && x in Q'[tcbs'[x].affinity])
  {
    var c := tcbs[t].affinity;
    var q := Q[c];
    forall x | 0 < x < |tcbs'|
      ensures tcbs'[x].inReleaseQueue <==> tcbs'[x].affinity < |Q'| && x in Q'[tcbs'[x].affinity]
    {
      assert tcbs'[x].affinity == tcbs[x].affinity;
      if tcbs[x].affinity == c {
        assert x in Q'[c] <==> x != t && x in q;
      }
    }
  }

  /** `LinkOut` of a member of core `c`'s queue keeps all release queues valid. */
  lemma RemoveKeepsValid(tcbs: seq<Tcb>, scs: seq<Sched>, nodes: seq<Node>, Q: seq<seq<Ptr>>, t: Ptr,
                         tcbs': seq<Tcb>, nodes': seq<Node>, Q': seq<seq<Ptr>>)
    requires RemoveStep(tcbs, scs, nodes, Q, t, tcbs', nodes', Q')
    ensures ReleaseQueuesValid(tcbs', scs, nodes', Q')
  {
    RemoveLinked(tcbs, scs, nodes, Q, t, tcbs', nodes', Q');
    RemoveMembers(tcbs, scs, nodes, Q, t, tcbs', nodes', Q');
    RemoveFlags(tcbs, scs, nodes, Q, t, tcbs', nodes', Q');
  }

  // ---------------------------------------------------------------------
  // Order

  /** Release times depend on the bound scheduling contexts only. */
  lemma SameKeys(tcbs: seq<Tcb>, tcbs': seq<Tcb>, scs: seq<Sched>, q: seq<Ptr>)
    requires |tcbs'| == |tcbs| && forall x :: 0 <= x < |tcbs| ==> tcbs'[x].sc == tcbs[x].sc
    ensures ReleaseSorted(tcbs, scs, q) <==> ReleaseSorted(tcbs', scs, q)
    ensures forall x :: RTime(tcbs, scs, x) == RTime(tcbs', scs, x)
  {
  }

  /** Enqueueing at the insertion point keeps every ordered queue ordered. */
  lemma EnqueueKeepsSorted(tcbs: seq<Tcb>, scs: seq<Sched>, nodes: seq<Node>, Q: seq<seq<Ptr>>, t: Ptr, n: nat,
                           tcbs': seq<Tcb>, nodes': seq<Node>, Q': seq<seq<Ptr>>)
    requires EnqueueStep(tcbs, scs, nodes, Q, t, n, tcbs', nodes', Q')
    requires n == InsertionPoint(tcbs, scs, Q[tcbs[t].affinity], t)
    ensures forall d :: 0 <= d < |Q| && ReleaseSorted(tcbs, scs, Q[d]) ==> ReleaseSorted(tcbs', scs, Q'[d])
  {
    var c := tcbs[t].affinity;
    forall d | 0 <= d < |Q| && ReleaseSorted(tcbs, scs, Q[d])
      ensures ReleaseSorted(tcbs', scs, Q'[d])
    {
      if d == c {
        InsertKeepsSorted(tcbs, scs, Q[c], t);
      }
      SameKeys(tcbs, tcbs', scs, Q'[d]);
    }
  }

  /** Removing a thread keeps every ordered queue ordered. */
  lemma RemoveKeepsSorted(tcbs: seq<Tcb>, scs: seq<Sched>, nodes: seq<Node>, Q: seq<seq<Ptr>>, t: Ptr,
                          tcbs': seq<Tcb>, nodes': seq<Node>, Q': seq<seq<Ptr>>)
    requires RemoveStep(tcbs, scs, nodes, Q, t, tcbs', nodes', Q')
    ensures forall d :: 0 <= d < |Q| && ReleaseSorted(tcbs, scs, Q[d]) ==> ReleaseSorted(tcbs', scs, Q'[d])
  {
    var c := tcbs[t].affinity;
    forall d | 0 <= d < |Q| && ReleaseSorted(tcbs, scs, Q[d])
      ensures ReleaseSorted(tcbs', scs, Q'[d])
    {
      if d == c {
        WithoutKeepsSorted(tcbs, scs, Q[c], t);
      }
      SameKeys(tcbs, tcbs', scs, Q'[d]);
    }
  }

  // ---------------------------------------------------------------------
  // The operations

  /** The pointer writes of `tcbReleaseEnqueue` once the walk has stopped
      between `before` and `after`, in source order. */
  method LinkInWrites(k: Kernel, c: nat, before: Ptr, t: Ptr, after: Ptr)
    requires ValidTcb(k.tcbs, t) && c < |k.nodes|
    requires before == NULL || ValidTcb(k.tcbs, before)
    requires after == NULL || ValidTcb(k.tcbs, after)
    requires before != t && after != t && (before == NULL || before != after)
    modifies k`tcbs, k`nodes
    ensures k.tcbs == LinkIn(old(k.tcbs), before, t, after)
    ensures k.nodes == if before == NULL then old(k.nodes)[c := old(k.nodes[c]).(releaseHead := t, reprogram := true)]
                       else old(k.nodes)
  {
    if before == NULL {
      k.nodes := k.nodes[c := k.nodes[c].(releaseHead := t, reprogram := true)];
    } else {
      k.tcbs := k.tcbs[before := k.tcbs[before].(schedNext := t)];
    }
    if after != NULL {
      k.tcbs := k.tcbs[after := k.tcbs[after].(schedPrev := t)];
    }
    k.tcbs := k.tcbs[t := k.tcbs[t].(schedNext := after, schedPrev := before)];
    k.tcbs := k.tcbs[t := k.tcbs[t].(inReleaseQueue := true)];
  }

  /** The pointer writes of `tcbReleaseRemove` for a queued thread, in source
      order: the head moves on when `t` has no previous thread. */
  method LinkOutWrites(k: Kernel, c: nat, t: Ptr)
    requires ValidTcb(k.tcbs, t) && c < |k.nodes|
    requires k.tcbs[t].schedPrev == NULL || ValidTcb(k.tcbs, k.tcbs[t].schedPrev)
    requires k.tcbs[t].schedNext == NULL || ValidTcb(k.tcbs, k.tcbs[t].schedNext)
    requires k.tcbs[t].schedPrev != t && k.tcbs[t].schedNext != t
    requires k.tcbs[t].schedPrev == NULL || k.tcbs[t].schedPrev != k.tcbs[t].schedNext
    modifies k`tcbs, k`nodes
    ensures k.tcbs == LinkOut(old(k.tcbs), t)
    ensures k.nodes == if old(k.tcbs[t].schedPrev) == NULL
                       then old(k.nodes)[c := old(k.nodes[c]).(releaseHead := old(k.tcbs[t].schedNext), reprogram := true)]
                       else old(k.nodes)
  {
    var prev, next := k.tcbs[t].schedPrev, k.tcbs[t].schedNext;
    if prev != NULL {
      k.tcbs := k.tcbs[prev := k.tcbs[prev].(schedNext := next)];
    } else {
      k.nodes := k.nodes[c := k.nodes[c].(releaseHead := next)];
      k.nodes := k.nodes[c := k.nodes[c].(reprogram := true)];
    }
    if next != NULL {
      k.tcbs := k.tcbs[next := k.tcbs[next].(schedPrev := prev)];
    }
    k.tcbs := k.tcbs[t := k.tcbs[t].(schedNext := NULL, schedPrev := NULL)];
    k.tcbs := k.tcbs[t := k.tcbs[t].(inReleaseQueue := false)];
  }

  /** The pointer writes of `tcbReleaseDequeue`, in source order, for a head
      `h` without a previous thread. */
  method UnlinkHeadWrites(k: Kernel, core: nat, h: Ptr)
    requires ValidTcb(k.tcbs, h) && core < |k.nodes| && k.nodes[core].releaseHead == h
    requires k.tcbs[h].schedPrev == NULL
    requires k.tcbs[h].schedNext == NULL || ValidTcb(k.tcbs, k.tcbs[h].schedNext)
    requires k.tcbs[h].schedNext != h
    modifies k`tcbs, k`nodes
    ensures k.tcbs == LinkOut(old(k.tcbs), h)
    ensures k.nodes == old(k.nodes)[core := old(k.nodes[core]).(releaseHead := old(k.tcbs[h].schedNext), reprogram := true)]
  {
    k.nodes := k.nodes[core := k.nodes[core].(releaseHead := k.tcbs[h].schedNext)];
    if k.nodes[core].releaseHead != NULL {
      var next := k.nodes[core].releaseHead;
      k.tcbs := k.tcbs[next := k.tcbs[next].(schedPrev := NULL)];
    }
    if k.tcbs[h].schedNext != NULL {
      var next := k.tcbs[h].schedNext;
      k.tcbs := k.tcbs[next := k.tcbs[next].(schedPrev := NULL)];
      k.tcbs := k.tcbs[h := k.tcbs[h].(schedNext := NULL)];
    }
    k.tcbs := k.tcbs[h := k.tcbs[h].(inReleaseQueue := false)];
    k.nodes := k.nodes[core := k.nodes[core].(reprogram := true)];
  }

  /** The walk of `tcbReleaseEnqueue`: from the head of `t`'s core, step past
      every thread released no later than `t`. It stops between the
      neighbours of the insertion point and changes nothing. */
  method FindReleasePosition(k: Kernel, t: Ptr) returns (before: Ptr, after: Ptr)
    requires ValidTcb(k.tcbs, t) && HasRefills(k.tcbs, k.scs, t)
    requires k.tcbs[t].affinity < |k.nodes|
    requires ReleaseQueuesValid(k.tcbs, k.scs, k.nodes, k.releaseQueues)
    ensures var q := k.releaseQueues[k.tcbs[t].affinity];
      var n := InsertionPoint(k.tcbs, k.scs, q, t);
      before == Before(q, n) && after == After(q, n)
  {
    var c := k.tcbs[t].affinity;
    ghost var q := k.releaseQueues[c];
    assert Linked(q, k.nodes[c].releaseHead, k.tcbs);
    before := NULL;
    after := k.nodes[c].releaseHead;
    ghost var i := 0;
    while after != NULL && k.scs[k.tcbs[t].sc].refills[0].rTime >= k.scs[k.tcbs[after].sc].refills[0].rTime
      invariant 0 <= i <= |q|
      invariant before == Before(q, i) && after == After(q, i)
      invariant forall j :: 0 <= j < i ==> RTime(k.tcbs, k.scs, q[j]) <= RTime(k.tcbs, k.scs, t)
      decreases |q| - i
    {
      LinkedAt(q, k.nodes[c].releaseHead, k.tcbs, i);
      assert RTime(k.tcbs, k.scs, q[i]) <= RTime(k.tcbs, k.scs, t);
      before := after;
      after := k.tcbs[after].schedNext;
      i := i + 1;
    }
    InsertionPointUnique(k.tcbs, k.scs, q, t, i);
  }

  /** `tcbReleaseEnqueue`: link `t` in where the walk stopped. The queue of
      `t`'s core gains `t` at its insertion point (`EnqueueStep`), every queue
      that was ordered stays ordered, and `ksReprogram` is set on that core
      exactly when `t` became the new head. */
  method TcbReleaseEnqueue(k: Kernel, t: Ptr)
    requires ValidTcb(k.tcbs, t) && HasRefills(k.tcbs, k.scs, t)
    requires !k.tcbs[t].inReleaseQueue && !k.tcbs[t].queued
    requires k.tcbs[t].affinity < |k.nodes|
    requires ReleaseQueuesValid(k.tcbs, k.scs, k.nodes, k.releaseQueues)
    modifies k`tcbs, k`nodes, k`releaseQueues
    ensures EnqueueStep(old(k.tcbs), k.scs, old(k.nodes), old(k.releaseQueues), t,
                        InsertionPoint(old(k.tcbs), k.scs, old(k.releaseQueues)[old(k.tcbs[t].affinity)], t),
                        k.tcbs, k.nodes, k.releaseQueues)
    ensures ReleaseQueuesValid(k.tcbs, k.scs, k.nodes, k.releaseQueues)
    ensures forall c :: 0 <= c < |k.nodes| && ReleaseSorted(old(k.tcbs), k.scs, old(k.releaseQueues[c])) ==>
              ReleaseSorted(k.tcbs, k.scs, k.releaseQueues[c])
  {
    ghost var tcbs0, nodes0, Q0 := k.tcbs, k.nodes, k.releaseQueues;
    ghost var i := InsertionPoint(k.tcbs, k.scs, k.releaseQueues[k.tcbs[t].affinity], t);
    ReleaseEnqueueStep(k, t);
    EnqueueKeepsValid(tcbs0, k.scs, nodes0, Q0, t, i, k.tcbs, k.nodes, k.releaseQueues);
    EnqueueKeepsSorted(tcbs0, k.scs, nodes0, Q0, t, i, k.tcbs, k.nodes, k.releaseQueues);
  }

  /** The state change of `tcbReleaseEnqueue` alone (`EnqueueStep`). */
  method ReleaseEnqueueStep(k: Kernel, t: Ptr)
    requires ValidTcb(k.tcbs, t) && HasRefills(k.tcbs, k.scs, t)
    requires !k.tcbs[t].inReleaseQueue && !k.tcbs[t].queued
    requires k.tcbs[t].affinity < |k.nodes|
    requires ReleaseQueuesValid(k.tcbs, k.scs, k.nodes, k.releaseQueues)
    modifies k`tcbs, k`nodes, k`releaseQueues
    ensures EnqueueStep(old(k.tcbs), k.scs, old(k.nodes), old(k.releaseQueues), t,
                        InsertionPoint(old(k.tcbs), k.scs, old(k.releaseQueues)[old(k.tcbs[t].affinity)], t),
                        k.tcbs, k.nodes, k.releaseQueues)
  {
    var c := k.tcbs[t].affinity;
    ghost var q := k.releaseQueues[c];
    ghost var tcbs0, nodes0, Q0 := k.tcbs, k.nodes, k.releaseQueues;
    var before, after := FindReleasePosition(k, t);
    ghost var i := InsertionPoint(k.tcbs, k.scs, q, t);
    EnqueueStepDefined(k.tcbs, k.scs, k.nodes, k.releaseQueues, t, i);

    LinkInWrites(k, c, before, t, after);
    k.releaseQueues := k.releaseQueues[c := q[..i] + [t] + q[i..]];
  }

  /** `tcbReleaseRemove`: a thread whose release-queue flag is clear is left
      alone; otherwise it is unlinked (`RemoveStep`): its core's queue loses
      it and keeps the order of the rest, and `ksReprogram` is set exactly
      when it was the head. */
  method TcbReleaseRemove(k: Kernel, t: Ptr)
    requires ValidTcb(k.tcbs, t)
    requires ReleaseQueuesValid(k.tcbs, k.scs, k.nodes, k.releaseQueues)
    modifies k`tcbs, k`nodes, k`releaseQueues
    ensures !old(k.tcbs[t].inReleaseQueue) ==>
      k.tcbs == old(k.tcbs) && k.nodes == old(k.nodes) && k.releaseQueues == old(k.releaseQueues)
    ensures old(k.tcbs[t].inReleaseQueue) ==>
      RemoveStep(old(k.tcbs), k.scs, old(k.nodes), old(k.releaseQueues), t, k.tcbs, k.nodes, k.releaseQueues)
    ensures ReleaseQueuesValid(k.tcbs, k.scs, k.nodes, k.releaseQueues)
    ensures forall c :: 0 <= c < |k.nodes| && ReleaseSorted(old(k.tcbs), k.scs, old(k.releaseQueues[c])) ==>
              ReleaseSorted(k.tcbs, k.scs, k.releaseQueues[c])
  {
    if k.tcbs[t].inReleaseQueue {
      ghost var tcbs0, nodes0, Q0 := k.tcbs, k.nodes, k.releaseQueues;
      var c := k.tcbs[t].affinity;
      ghost var q := k.releaseQueues[c];
      RemoveStepDefined(k.tcbs, k.scs, k.nodes, k.releaseQueues, t);
      LinkOutWrites(k, c, t);
      k.releaseQueues := k.releaseQueues[c := Without(q, t)];

      assert RemoveStep(tcbs0, k.scs, nodes0, Q0, t, k.tcbs, k.nodes, k.releaseQueues);
      RemoveKeepsValid(tcbs0, k.scs, nodes0, Q0, t, k.tcbs, k.nodes, k.releaseQueues);
      RemoveKeepsSorted(tcbs0, k.scs, nodes0, Q0, t, k.tcbs, k.nodes, k.releaseQueues);
    }
  }

  /** `tcbReleaseDequeue` on core `core`: the head is detached and returned.
      The kernel's own checks hold: the head has no previous thread and has
      this core as affinity. The queue loses its head, the state is exactly
      what `tcbReleaseRemove` of the head leaves, and `ksReprogram` is set. */
  method TcbReleaseDequeue(k: Kernel, core: nat) returns (detached: Ptr)
    requires core < |k.nodes| && k.nodes[core].releaseHead != NULL
    requires ReleaseQueuesValid(k.tcbs, k.scs, k.nodes, k.releaseQueues)
    modifies k`tcbs, k`nodes, k`releaseQueues
    ensures |k.nodes| == |old(k.nodes)| && |k.releaseQueues| == |old(k.releaseQueues)|
    ensures |old(k.releaseQueues[core])| > 0 && detached == old(k.releaseQueues[core][0])
    ensures old(k.tcbs[detached].schedPrev) == NULL && old(k.tcbs[detached].affinity) == core
    ensures k.releaseQueues[core] == old(k.releaseQueues[core][1..])
    ensures k.nodes == old(k.nodes)[core := old(k.nodes[core]).(releaseHead := old(k.tcbs[detached].schedNext), reprogram := true)]
    ensures OnlyLinksDiffer(old(k.tcbs), k.tcbs) && !k.tcbs[detached].inReleaseQueue
    ensures RemoveStep(old(k.tcbs), k.scs, old(k.nodes), old(k.releaseQueues), detached, k.tcbs, k.nodes, k.releaseQueues)
    ensures ReleaseQueuesValid(k.tcbs, k.scs, k.nodes, k.releaseQueues)
    ensures forall c :: 0 <= c < |k.nodes| && ReleaseSorted(old(k.tcbs), k.scs, old(k.releaseQueues[c])) ==>
              ReleaseSorted(k.tcbs, k.scs, k.releaseQueues[c])
  {
    ghost var tcbs0, nodes0, Q0 := k.tcbs, k.nodes, k.releaseQueues;
    ghost var q := k.releaseQueues[core];
    detached := k.nodes[core].releaseHead;
    assert Linked(q, k.nodes[core].releaseHead, k.tcbs);
    assert detached == q[0] && k.tcbs[detached].inReleaseQueue;
    RemoveStepDefined(k.tcbs, k.scs, k.nodes, k.releaseQueues, detached);
    assert Distinct(q);
    WithoutAt(q, 0);
    assert Without(q, detached) == q[1..];

    LinkOutOnlyLinks(k.tcbs, detached);
    UnlinkHeadWrites(k, core, detached);
    k.releaseQueues := k.releaseQueues[core := q[1..]];

    assert RemoveStep(tcbs0, k.scs, nodes0, Q0, detached, k.tcbs, k.nodes, k.releaseQueues);
    RemoveKeepsValid(tcbs0, k.scs, nodes0, Q0, detached, k.tcbs, k.nodes, k.releaseQueues);
    RemoveKeepsSorted(tcbs0, k.scs, nodes0, Q0, detached, k.tcbs, k.nodes, k.releaseQueues);
  }
}
