/** The worker-to-task ranking of `CEconomyManager`: the per-task orderings
    of the workers by travel cost (`wtRelation`), the scan of
    `PrepareBuilder` for the tasks on which the unit ranks best, and the
    tie-break among them. */
module Ranking {
  import opened Common
  import opened Geometry
  import opened Catalog

  /** Squared speed; workers are mobile, so it is positive. */
  type QSpeed = r: real | r > 0.0 witness 1.0

  /** A `WorkerInfo`: the worker, and its position and squared speed at the
      time the cache was built. */
  datatype WorkerInfo = WorkerInfo(unit: UnitId, pos: Point, qspeed: QSpeed)

  /** The key of the comparator: squared distance over squared speed. */
  function Cost(p0: Point, w: WorkerInfo): real {
    QDistR(p0, w.pos) / w.qspeed
  }

  /** The comparator's key as a value, so that the sort below reasons
      about the order of keys only. */
  function CostKey(p0: Point): WorkerInfo -> real {
    w => Cost(p0, w)
  }

  predicate SortedByKey(s: seq<WorkerInfo>, key: WorkerInfo -> real) {
    forall i, j :: 0 <= i < j < |s| ==> key(s[i]) <= key(s[j])
  }

  predicate SortedByCost(s: seq<WorkerInfo>, p0: Point) {
    SortedByKey(s, CostKey(p0))
  }

  /** Inserts `x` before the first element whose key is larger. */
  function InsertByKey(x: WorkerInfo, s: seq<WorkerInfo>, key: WorkerInfo -> real): (r: seq<WorkerInfo>)
    requires SortedByKey(s, key)
    ensures SortedByKey(r, key)
    ensures multiset(r) == multiset(s) + multiset{x}
    ensures |r| == |s| + 1 && (r[0] == x || (s != [] && r[0] == s[0]))
  {
    if s == [] then [x]
    else if key(x) <= key(s[0]) then
      SortedCons(x, s, key);
      [x] + s
    else
      var rest := InsertByKey(x, s[1..], key);
      assert s == [s[0]] + s[1..];
      SortedCons(s[0], rest, key);
      [s[0]] + rest
  }

  lemma SortedCons(a: WorkerInfo, s: seq<WorkerInfo>, key: WorkerInfo -> real)
    requires SortedByKey(s, key) && (s == [] || key(a) <= key(s[0]))
    ensures SortedByKey([a] + s, key)
  {
    forall i, j | 0 <= i < j < |[a] + s| ensures key(([a] + s)[i]) <= key(([a] + s)[j]) {
      if i == 0 && j > 1 {
        assert key(s[0]) <= key(s[j - 1]);
      }
    }
  }

  /** `std::sort` of the worker infos by cost toward `p0`: some ordering of
      the same infos that is non-decreasing in cost. The standard does not
      fix the order of equal keys; this insertion sort is one valid
      outcome. */
  function SortByCost(s: seq<WorkerInfo>, p0: Point): (r: seq<WorkerInfo>)
    ensures SortedByCost(r, p0)
    ensures multiset(r) == multiset(s)
  {
    if s == [] then []
    else
      assert s == [s[0]] + s[1..];
      InsertByKey(s[0], SortByCost(s[1..], p0), CostKey(p0))
  }

  /** `std::find` of an info in a slot: its index, or the slot size. */
  function IndexOf(slot: seq<WorkerInfo>, w: WorkerInfo): (r: nat)
    ensures r <= |slot|
    ensures r < |slot| ==> slot[r] == w
    ensures forall k :: 0 <= k < r ==> slot[k] != w
    ensures r == |slot| <==> w !in slot
  {
    if slot == [] then 0
    else if slot[0] == w then 0
    else
      var r := IndexOf(slot[1..], w);
      assert forall k :: 0 < k < |slot| ==> slot[k] == slot[1..][k - 1];
      1 + r
  }

  /** In a slot sorted by cost, a worker's rank is its cost order: a worker
      that costs strictly less than another appears before it. */
  lemma RankFollowsCost(slot: seq<WorkerInfo>, p0: Point, a: WorkerInfo, b: WorkerInfo)
    requires SortedByCost(slot, p0) && a in slot && b in slot
    requires Cost(p0, a) < Cost(p0, b)
    ensures IndexOf(slot, a) < IndexOf(slot, b)
  {
  }

  // ---------------------------------------------------------------------
  // The candidate scan of `PrepareBuilder`.
  // ---------------------------------------------------------------------

  /** The best rank seen so far and the tasks that have it, in order. */
  datatype Scan = Scan(idx: nat, cands: seq<nat>)

  /** The nested loops over the buckets, walked as the flat task list
      `flat`; task `flat[i]` owns slot `slots[i]`. `idx0` is the size of the
      front slot, the initial bound. */
  function ScanTasks(flat: seq<nat>, slots: seq<seq<WorkerInfo>>, w: WorkerInfo, canAssign: nat -> bool,
                     idx0: nat, n: nat): Scan
    requires n <= |flat| <= |slots|
  {
    if n == 0 then Scan(idx0, [])
    else
      var prev := ScanTasks(flat, slots, w, canAssign, idx0, n - 1);
      var t := flat[n - 1];
      if !canAssign(t) then prev
      else
        var r := IndexOf(slots[n - 1], w);
        if r < prev.idx then Scan(r, [t])
        else if r == prev.idx then Scan(prev.idx, prev.cands + [t])
        else prev
  }

  /** The assignable tasks among the first `n` on whose slot the worker
      has rank `v`, in order. */
  function Tied(flat: seq<nat>, slots: seq<seq<WorkerInfo>>, w: WorkerInfo, canAssign: nat -> bool,
                n: nat, v: nat): seq<nat>
    requires n <= |flat| <= |slots|
  {
    if n == 0 then []
    else
      Tied(flat, slots, w, canAssign, n - 1, v)
      + (if canAssign(flat[n - 1]) && IndexOf(slots[n - 1], w) == v then [flat[n - 1]] else [])
  }

  lemma {:induction false} TiedNone(flat: seq<nat>, slots: seq<seq<WorkerInfo>>, w: WorkerInfo, canAssign: nat -> bool,
                                    n: nat, v: nat)
    requires n <= |flat| <= |slots|
    requires forall i :: 0 <= i < n && canAssign(flat[i]) ==> IndexOf(slots[i], w) > v
    ensures Tied(flat, slots, w, canAssign, n, v) == []
  {
    if n > 0 {
      TiedNone(flat, slots, w, canAssign, n - 1, v);
    }
  }

  /** The scan finds the least rank of the worker over the assignable
      tasks (bounded by `idx0`), and collects exactly the assignable tasks
      of that rank, in bucket order. */
  lemma {:induction false} ScanTasksMeaning(flat: seq<nat>, slots: seq<seq<WorkerInfo>>, w: WorkerInfo,
                                            canAssign: nat -> bool, idx0: nat, n: nat)
    requires n <= |flat| <= |slots|
    ensures var s := ScanTasks(flat, slots, w, canAssign, idx0, n);
            && s.idx <= idx0
            && (forall i :: 0 <= i < n && canAssign(flat[i]) ==> IndexOf(slots[i], w) >= s.idx)
            && (s.idx < idx0 ==> exists i :: 0 <= i < n && canAssign(flat[i]) && IndexOf(slots[i], w) == s.idx)
            && s.cands == Tied(flat, slots, w, canAssign, n, s.idx)
  {
    if n > 0 {
      ScanTasksMeaning(flat, slots, w, canAssign, idx0, n - 1);
      var prev := ScanTasks(flat, slots, w, canAssign, idx0, n - 1);
      var t := flat[n - 1];
      if canAssign(t) {
        var r := IndexOf(slots[n - 1], w);
        if r < prev.idx {
          TiedNone(flat, slots, w, canAssign, n - 1, r);
        }
      }
    }
  }

  /** With every slot holding the worker, the scan collects some task
      exactly when some task is assignable. */
  lemma ScanFindsAssignable(flat: seq<nat>, slots: seq<seq<WorkerInfo>>, w: WorkerInfo,
                            canAssign: nat -> bool, idx0: nat)
    requires |flat| <= |slots|
    requires forall i :: 0 <= i < |flat| ==> IndexOf(slots[i], w) < idx0
    ensures ScanTasks(flat, slots, w, canAssign, idx0, |flat|).cands != []
            <==> exists i :: 0 <= i < |flat| && canAssign(flat[i])
  {
    var s := ScanTasks(flat, slots, w, canAssign, idx0, |flat|);
    ScanTasksMeaning(flat, slots, w, canAssign, idx0, |flat|);
    if exists i :: 0 <= i < |flat| && canAssign(flat[i]) {
      var i :| 0 <= i < |flat| && canAssign(flat[i]);
      assert s.idx < idx0;
      var j :| 0 <= j < |flat| && canAssign(flat[j]) && IndexOf(slots[j], w) == s.idx;
      TiedHas(flat, slots, w, canAssign, |flat|, s.idx, j);
    } else {
      TiedEmpty(flat, slots, w, canAssign, |flat|, s.idx);
    }
  }

  lemma {:induction false} TiedHas(flat: seq<nat>, slots: seq<seq<WorkerInfo>>, w: WorkerInfo, canAssign: nat -> bool,
                                   n: nat, v: nat, j: nat)
    requires n <= |flat| <= |slots| && j < n
    requires canAssign(flat[j]) && IndexOf(slots[j], w) == v
    ensures flat[j] in Tied(flat, slots, w, canAssign, n, v)
  {
    var prev := Tied(flat, slots, w, canAssign, n - 1, v);
    var last := flat[n - 1];
    var step := if canAssign(last) && IndexOf(slots[n - 1], w) == v then [last] else [];
    assert Tied(flat, slots, w, canAssign, n, v) == prev + step;
    if j < n - 1 {
      TiedHas(flat, slots, w, canAssign, n - 1, v, j);
      assert flat[j] in prev;
    } else {
      assert step == [flat[j]];
    }
  }

  lemma {:induction false} TiedEmpty(flat: seq<nat>, slots: seq<seq<WorkerInfo>>, w: WorkerInfo, canAssign: nat -> bool,
                                     n: nat, v: nat)
    requires n <= |flat| <= |slots|
    requires forall i :: 0 <= i < n ==> !canAssign(flat[i])
    ensures Tied(flat, slots, w, canAssign, n, v) == []
  {
    if n > 0 {
      TiedEmpty(flat, slots, w, canAssign, n - 1, v);
    }
  }

  // ---------------------------------------------------------------------
  // The tie-break among the candidates.
  // ---------------------------------------------------------------------

  /** Squared distance from `p` to the position of task `t`. */
  function DistTo(tasks: seq<BuilderTask>, p: Point, t: nat): real {
    if t < |tasks| then QDistR(tasks[t].pos, p) else 0.0
  }

  /** `a` beats `b`: strictly fewer queued units, or as many and strictly
      closer. */
  predicate Better(a: nat, b: nat, quantity: nat -> int, tasks: seq<BuilderTask>, p: Point) {
    quantity(a) < quantity(b) || (quantity(a) == quantity(b) && DistTo(tasks, p, a) < DistTo(tasks, p, b))
  }

  /** The candidate kept after the first `n` candidates were compared,
      starting from the front one. */
  function TieBreak(cands: seq<nat>, quantity: nat -> int, tasks: seq<BuilderTask>, p: Point, n: nat): nat
    requires 0 < |cands| && n <= |cands|
  {
    if n == 0 then cands[0]
    else
      var best := TieBreak(cands, quantity, tasks, p, n - 1);
      if Better(cands[n - 1], best, quantity, tasks, p) then cands[n - 1] else best
  }

  /** The kept candidate is one of the first `n` (or the front one), no
      candidate among them beats it, and it beats every candidate before
      it: the first of the best wins. */
  lemma {:induction false} TieBreakMeaning(cands: seq<nat>, quantity: nat -> int, tasks: seq<BuilderTask>, p: Point, n: nat)
    requires 0 < |cands| && n <= |cands|
    ensures var r := TieBreak(cands, quantity, tasks, p, n);
            && (forall k :: 0 <= k < n ==> !Better(cands[k], r, quantity, tasks, p))
            && exists j :: 0 <= j < |cands| && (j < n || j == 0) && cands[j] == r
                           && forall k :: 0 <= k < j ==> Better(r, cands[k], quantity, tasks, p)
  {
    if n > 0 {
      TieBreakMeaning(cands, quantity, tasks, p, n - 1);
      var best := TieBreak(cands, quantity, tasks, p, n - 1);
      var j :| 0 <= j < |cands| && (j < n - 1 || j == 0) && cands[j] == best
               && forall k :: 0 <= k < j ==> Better(best, cands[k], quantity, tasks, p);
      if Better(cands[n - 1], best, quantity, tasks, p) {
        var r := cands[n - 1];
        forall k | 0 <= k < n - 1 ensures Better(r, cands[k], quantity, tasks, p) {
          assert !Better(cands[k], best, quantity, tasks, p);
        }
        assert !Better(cands[n - 1], r, quantity, tasks, p);
        forall k | 0 <= k < n ensures !Better(cands[k], r, quantity, tasks, p) {
          if k < n - 1 {
            assert Better(r, cands[k], quantity, tasks, p);
          }
        }
        assert 0 <= n - 1 < |cands| && (n - 1 < n) && cands[n - 1] == r
               && forall k :: 0 <= k < n - 1 ==> Better(r, cands[k], quantity, tasks, p);
      } else {
        forall k | 0 <= k < n ensures !Better(cands[k], best, quantity, tasks, p) {
        }
        assert 0 <= j < |cands| && (j < n || j == 0) && cands[j] == best
               && forall k :: 0 <= k < j ==> Better(best, cands[k], quantity, tasks, p);
      }
    } else {
      assert cands[0] == TieBreak(cands, quantity, tasks, p, 0);
    }
  }
}
