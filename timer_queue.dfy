/** The pending `setTimeout` callbacks of the page, as a queue ordered by
    deadline. Timers with equal deadlines run in the order they were set.
    That tie-break is a modelling choice: the HTML timer rules order a timer
    only after earlier timers whose timeout is no longer than its own, and
    leave equal deadlines with different timeouts unordered. */
module TimerQueue {
  import opened Lifecycle

  /** A pending callback: at `deadline` it performs update `step` of the
      chain of box `box`. */
  datatype Timer = Timer(deadline: int, box: BoxId, step: Step)

  /** Ordered by deadline: each timer is due no later than the next one. */
  predicate Sorted(q: seq<Timer>)
    decreases |q|
  {
    |q| < 2 || (q[0].deadline <= q[1].deadline && Sorted(q[1..]))
  }

  /** In an ordered queue no timer is due before the head. */
  lemma {:induction false} SortedHeadFirst(q: seq<Timer>, x: Timer)
    requires Sorted(q) && x in q
    ensures q[0].deadline <= x.deadline
    decreases |q|
  {
    if x != q[0] {
      var j :| 0 <= j < |q| && q[j] == x;
      assert q[1..][j - 1] == x;
      SortedHeadFirst(q[1..], x);
    }
  }

  /** The length of the longest prefix of `q` whose timers are due no later than `d`. */
  function DuePrefix(q: seq<Timer>, d: int): (n: nat)
    ensures n <= |q|
    ensures forall j :: 0 <= j < n ==> q[j].deadline <= d
    ensures n < |q| ==> d < q[n].deadline
  {
    if q == [] || d < q[0].deadline then 0 else 1 + DuePrefix(q[1..], d)
  }

  /** Sets timer `t`: it goes behind every timer due no later than it. */
  function Insert(q: seq<Timer>, t: Timer): seq<Timer>
  {
    if q == [] || t.deadline < q[0].deadline then [t] + q
    else [q[0]] + Insert(q[1..], t)
  }

  /** Setting a timer adds exactly that timer to the queue. */
  lemma {:induction false} InsertElements(q: seq<Timer>, t: Timer)
    ensures multiset(Insert(q, t)) == multiset(q) + multiset{t}
    ensures forall x :: x in Insert(q, t) <==> x in q || x == t
  {
    if q == [] || t.deadline < q[0].deadline {
    } else {
      InsertElements(q[1..], t);
      assert q == [q[0]] + q[1..];
    }
  }

  /** Setting a timer keeps the queue ordered by deadline. */
  lemma {:induction false} InsertSorted(q: seq<Timer>, t: Timer)
    requires Sorted(q)
    ensures Sorted(Insert(q, t))
  {
    if q == [] || t.deadline < q[0].deadline {
      if q != [] {
        assert ([t] + q)[1..] == q;
      }
    } else {
      var r' := Insert(q[1..], t);
      InsertSorted(q[1..], t);
      InsertElements(q[1..], t);
      assert r'[0] in r';
      if r'[0] != t {
        var j :| 0 <= j < |q[1..]| && q[1..][j] == r'[0];
        assert q[j + 1] == r'[0];
        SortedHeadFirst(q, r'[0]);
      }
      assert ([q[0]] + r')[1..] == r';
    }
  }

  /** Insertion splices the timer in right after the prefix that is due no
      later than it. */
  lemma {:induction false} InsertSplices(q: seq<Timer>, t: Timer)
    ensures var n := DuePrefix(q, t.deadline); Insert(q, t) == q[..n] + [t] + q[n..]
  {
    if q == [] || t.deadline < q[0].deadline {
    } else {
      InsertSplices(q[1..], t);
      var n := DuePrefix(q[1..], t.deadline);
      assert q[..n + 1] == [q[0]] + q[1..][..n];
      assert q[n + 1..] == q[1..][n..];
    }
  }

  /** The timers of box `id`, in the order they will run. */
  function Pending(q: seq<Timer>, id: BoxId): seq<Timer>
  {
    if q == [] then []
    else (if q[0].box == id then [q[0]] else []) + Pending(q[1..], id)
  }

  /** A box's queue holds exactly the timers of the whole queue that belong to it. */
  lemma {:induction false} PendingElements(q: seq<Timer>, id: BoxId)
    ensures forall x :: x in Pending(q, id) <==> x in q && x.box == id
  {
    if q != [] {
      PendingElements(q[1..], id);
      assert q == [q[0]] + q[1..];
    }
  }

  /** Setting a timer for one box leaves the queue of every other box as it
      was, and to its own box's queue it is added just as to the whole queue. */
  lemma PendingInsert(q: seq<Timer>, t: Timer, id: BoxId)
    requires Sorted(q)
    ensures Pending(Insert(q, t), id) == if t.box == id then Insert(Pending(q, id), t) else Pending(q, id)
  {
    if t.box == id {
      PendingInsertOwn(q, t);
    } else {
      PendingInsertOther(q, t, id);
    }
  }

  lemma {:induction false} PendingInsertOther(q: seq<Timer>, t: Timer, id: BoxId)
    requires t.box != id
    ensures Pending(Insert(q, t), id) == Pending(q, id)
  {
    if q == [] || t.deadline < q[0].deadline {
      PendingCons(t, q, id);
    } else {
      var r := Insert(q[1..], t);
      PendingInsertOther(q[1..], t, id);
      assert Insert(q, t) == [q[0]] + r;
      PendingCons(q[0], r, id);
    }
  }

  lemma {:induction false} PendingInsertOwn(q: seq<Timer>, t: Timer)
    requires Sorted(q)
    ensures Pending(Insert(q, t), t.box) == Insert(Pending(q, t.box), t)
  {
    var id := t.box;
    var p := Pending(q, id);
    if q == [] {
      assert Insert(q, t) == [t];
      PendingCons(t, [], id);
    } else if t.deadline < q[0].deadline {
      PendingCons(t, q, id);
      if p != [] {
        PendingElements(q, id);
        assert p[0] in p;
        SortedHeadFirst(q, p[0]);
      }
    } else {
      var q' := q[1..];
      var r := Insert(q', t);
      assert Sorted(q');
      PendingInsertOwn(q', t);
      assert Insert(q, t) == [q[0]] + r;
      PendingCons(q[0], r, id);
      if q[0].box == id {
        assert p == [q[0]] + Pending(q', id);
        InsertBehindHead(q[0], Pending(q', id), t);
      } else {
        assert p == Pending(q', id);
      }
    }
  }

  lemma PendingCons(x: Timer, r: seq<Timer>, id: BoxId)
    ensures Pending([x] + r, id) == (if x.box == id then [x] else []) + Pending(r, id)
  {
    assert ([x] + r)[1..] == r;
  }

  lemma InsertBehindHead(x: Timer, r: seq<Timer>, t: Timer)
    requires x.deadline <= t.deadline
    ensures Insert([x] + r, t) == [x] + Insert(r, t)
  {
    assert ([x] + r)[1..] == r;
  }

  /** The updates left to perform, over all chains whose next timer is in `q`;
      each firing performs one, so it bounds the work still queued. */
  function Weight(q: seq<Timer>): nat
  {
    if q == [] then 0 else 5 - q[0].step + Weight(q[1..])
  }

  lemma {:induction false} WeightInsert(q: seq<Timer>, t: Timer)
    ensures Weight(Insert(q, t)) == Weight(q) + 5 - t.step
  {
    if q == [] || t.deadline < q[0].deadline {
    } else {
      WeightInsert(q[1..], t);
    }
  }
}
