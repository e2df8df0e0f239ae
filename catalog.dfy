/** The task catalog of `CEconomyManager`: builder and factory task records
    and the `builderTasks` buckets (a `std::map` from task type to a
    `std::list` of tasks). Tasks are identified by their index in a task
    table; a task record never changes after it is created except for its
    completion mark and its build target. */
module Catalog {
  import opened Common
  import opened Geometry

  /** `CBuilderTask::TaskType`, the values this file uses. */
  datatype TaskType = FACTORY | NANO | EXPAND | SOLAR | FUSION | SINGU | PYLON | DEFENDER | DDM | ANNI | ASSIST | DEFAULT

  /** The order in which `builderTasks` is iterated (by key). The numeric
      values of the enumeration are not part of this model; the cache and
      the task picker walk the buckets in the same order, which is all that
      matters here. */
  const ALL_TYPES: seq<TaskType> := [FACTORY, NANO, EXPAND, SOLAR, FUSION, SINGU, PYLON, DEFENDER, DDM, ANNI, ASSIST, DEFAULT]

  lemma AllTypesListed(t: TaskType)
    ensures t in ALL_TYPES
  {
  }

  lemma AllTypesDistinct()
    ensures NoDup(ALL_TYPES)
  {
  }

  /** `CFactoryTask::TaskType`. */
  datatype FactoryType = F_DEFAULT | BUILDPOWER | FIREPOWER

  /** A `CBuilderTask`: priority, position, type, timeout (0 for none),
      the position chosen for the building, and the unit under
      construction. */
  datatype BuilderTask = BuilderTask(priority: Priority, pos: Point, kind: TaskType, timeout: int,
                                     buildPos: Option<Point>, target: Option<UnitId>)

  /** `new CBuilderTask(priority, pos, type)`: no timeout, no site, no target. */
  function NewBuilderTask(priority: Priority, pos: Point, kind: TaskType): BuilderTask {
    BuilderTask(priority, pos, kind, 0, None, None)
  }

  /** A `CFactoryTask`: priority, position, type, quantity and radius. */
  datatype FactoryTask = FactoryTask(priority: Priority, pos: Point, kind: FactoryType, quantity: int, radius: real)

  /** The task a unit carries (`unit->GetTask()`), by construct type. */
  datatype TaskRef = BuilderRef(b: nat) | FactoryRef(f: nat)

  /** A reference names an existing task. */
  predicate RefOk(r: TaskRef, builders: nat, factories: nat) {
    match r
    case BuilderRef(b) => b < builders
    case FactoryRef(f) => f < factories
  }

  type Buckets = map<TaskType, seq<nat>>

  /** `builderTasks[t]`: a missing key reads as an empty list, as
      `std::map::operator[]` creates one. */
  function Bucket(b: Buckets, t: TaskType): seq<nat> {
    if t in b then b[t] else []
  }

  /** The task lists of `types`, concatenated in that order. */
  function FlatOf(b: Buckets, types: seq<TaskType>): seq<nat> {
    if types == [] then [] else Bucket(b, types[0]) + FlatOf(b, types[1..])
  }

  /** Every builder task in bucket iteration order: the order of the
      nested loops of `PrepareBuilder` and of the cache rebuild. */
  function Flat(b: Buckets): seq<nat> {
    FlatOf(b, ALL_TYPES)
  }

  /** The number of tasks in the buckets. */
  function Total(b: Buckets): nat {
    |Flat(b)|
  }

  /** Replacing one bucket changes the running total by the size difference. */
  lemma {:induction false} FlatOfUpdate(b: Buckets, types: seq<TaskType>, t: TaskType, s: seq<nat>)
    requires NoDup(types)
    ensures |FlatOf(b[t := s], types)| == |FlatOf(b, types)| + (if t in types then |s| - |Bucket(b, t)| else 0)
  {
    if types != [] {
      NoDupTail(types);
      FlatOfUpdate(b, types[1..], t, s);
      assert types[0] !in types[1..] by {
        forall k | 0 <= k < |types| - 1 ensures types[1..][k] != types[0] {
          assert types[k + 1] != types[0];
        }
      }
      assert t in types <==> t == types[0] || t in types[1..];
    }
  }

  lemma TotalUpdate(b: Buckets, t: TaskType, s: seq<nat>)
    ensures Total(b[t := s]) == Total(b) + |s| - |Bucket(b, t)|
  {
    AllTypesDistinct();
    FlatOfUpdate(b, ALL_TYPES, t, s);
  }

  /** Every listed task is in some bucket, and conversely. */
  lemma {:induction false} FlatOfMembers(b: Buckets, types: seq<TaskType>, x: nat)
    ensures x in FlatOf(b, types) <==> exists k :: 0 <= k < |types| && x in Bucket(b, types[k])
  {
    if types != [] {
      FlatOfMembers(b, types[1..], x);
      if x in Bucket(b, types[0]) {
        assert 0 < |types| && x in Bucket(b, types[0]);
      }
      if exists k :: 0 <= k < |types| && x in Bucket(b, types[k]) {
        var k :| 0 <= k < |types| && x in Bucket(b, types[k]);
        if k > 0 {
          assert types[1..][k - 1] == types[k];
        }
      }
      if exists k :: 0 <= k < |types| - 1 && x in Bucket(b, types[1..][k]) {
        var k :| 0 <= k < |types| - 1 && x in Bucket(b, types[1..][k]);
        assert types[k + 1] == types[1..][k];
      }
    }
  }

  lemma FlatMembers(b: Buckets, x: nat)
    ensures x in Flat(b) <==> exists t :: x in Bucket(b, t)
  {
    FlatOfMembers(b, ALL_TYPES, x);
    if exists t :: x in Bucket(b, t) {
      var t :| x in Bucket(b, t);
      AllTypesListed(t);
      var k :| 0 <= k < |ALL_TYPES| && ALL_TYPES[k] == t;
    }
  }

  /** `FlatOf` distributes over concatenation of type lists. */
  lemma {:induction false} FlatOfAppend(b: Buckets, xs: seq<TaskType>, ys: seq<TaskType>)
    ensures FlatOf(b, xs + ys) == FlatOf(b, xs) + FlatOf(b, ys)
  {
    if xs != [] {
      assert (xs + ys)[0] == xs[0];
      assert (xs + ys)[1..] == xs[1..] + ys;
      FlatOfAppend(b, xs[1..], ys);
    } else {
      assert xs + ys == ys;
    }
  }

  /** The buckets walked in order: the tasks of the `k`-th type follow
      those of the types before it. */
  lemma FlatOfSplit(b: Buckets, types: seq<TaskType>, k: nat)
    requires k < |types|
    ensures FlatOf(b, types) == FlatOf(b, types[..k]) + Bucket(b, types[k]) + FlatOf(b, types[k + 1..])
  {
    var pre, rest := types[..k], types[k..];
    assert types == pre + rest;
    FlatOfAppend(b, pre, rest);
    assert rest[0] == types[k] && rest[1..] == types[k + 1..];
    var bucket, post := Bucket(b, types[k]), FlatOf(b, types[k + 1..]);
    assert FlatOf(b, rest) == bucket + post;
    assert FlatOf(b, pre) + (bucket + post) == FlatOf(b, pre) + bucket + post;
  }

  lemma FlatOfSnoc(b: Buckets, types: seq<TaskType>, t: TaskType)
    ensures FlatOf(b, types + [t]) == FlatOf(b, types) + Bucket(b, t)
  {
    FlatOfAppend(b, types, [t]);
    assert FlatOf(b, [t]) == Bucket(b, t) + FlatOf(b, []);
  }

  /** One more type in the prefix adds its bucket at the end. */
  lemma FlatOfPrefix(b: Buckets, types: seq<TaskType>, k: nat)
    requires k < |types|
    ensures FlatOf(b, types[..k + 1]) == FlatOf(b, types[..k]) + Bucket(b, types[k])
  {
    assert types[..k + 1] == types[..k] + [types[k]];
    FlatOfSnoc(b, types[..k], types[k]);
  }

  lemma FlatSplit(b: Buckets, k: nat)
    requires k < |ALL_TYPES|
    ensures Flat(b) == FlatOf(b, ALL_TYPES[..k]) + Bucket(b, ALL_TYPES[k]) + FlatOf(b, ALL_TYPES[k + 1..])
    ensures FlatOf(b, ALL_TYPES[..k + 1]) == FlatOf(b, ALL_TYPES[..k]) + Bucket(b, ALL_TYPES[k])
  {
    FlatOfSplit(b, ALL_TYPES, k);
    FlatOfPrefix(b, ALL_TYPES, k);
  }

  /** The bucket of the `k`-th type sits in the walk over `types` right
      after the buckets of the types before it. */
  lemma BucketInFlat(b: Buckets, types: seq<TaskType>, k: nat)
    requires k < |types|
    ensures var pre := FlatOf(b, types[..k]);
            var bucket := Bucket(b, types[k]);
            && |FlatOf(b, types[..k + 1])| == |pre| + |bucket| <= |FlatOf(b, types)|
            && forall j :: 0 <= j < |bucket| ==> FlatOf(b, types)[|pre| + j] == bucket[j]
  {
    FlatOfSplit(b, types, k);
    FlatOfPrefix(b, types, k);
    var pre, bucket, post := FlatOf(b, types[..k]), Bucket(b, types[k]), FlatOf(b, types[k + 1..]);
    forall j | 0 <= j < |bucket| ensures FlatOf(b, types)[|pre| + j] == bucket[j] {
      assert (pre + bucket + post)[|pre| + j] == bucket[j];
    }
  }

  /** Every listed task is a valid index into a task table of size `n`,
      and no bucket lists a task twice. */
  predicate BucketsOk(b: Buckets, n: nat) {
    && (forall t, k :: 0 <= k < |Bucket(b, t)| ==> Bucket(b, t)[k] < n)
    && (forall t :: NoDup(Bucket(b, t)))
  }

  lemma FlatBelow(b: Buckets, n: nat)
    requires BucketsOk(b, n)
    ensures forall i :: 0 <= i < |Flat(b)| ==> Flat(b)[i] < n
  {
    forall i | 0 <= i < |Flat(b)| ensures Flat(b)[i] < n {
      FlatMembers(b, Flat(b)[i]);
      var t :| Flat(b)[i] in Bucket(b, t);
      var k :| 0 <= k < |Bucket(b, t)| && Bucket(b, t)[k] == Flat(b)[i];
    }
  }

  /** The task table together with the buckets. */
  datatype Board = Board(tasks: seq<BuilderTask>, buckets: Buckets)

  /** `builderTasks[type].push_front(new CBuilderTask(...))`: the task gets
      the next index and goes to the front of its bucket. */
  function Push(bd: Board, t: BuilderTask): Board {
    Board(bd.tasks + [t], bd.buckets[t.kind := [|bd.tasks|] + Bucket(bd.buckets, t.kind)])
  }

  /** Pushing `ts` in order. */
  function PushEach(bd: Board, ts: seq<BuilderTask>): Board {
    if ts == [] then bd else Push(PushEach(bd, ts[..|ts| - 1]), ts[|ts| - 1])
  }

  lemma PushEachSnoc(bd: Board, ts: seq<BuilderTask>, t: BuilderTask)
    ensures PushEach(bd, ts + [t]) == Push(PushEach(bd, ts), t)
  {
    assert (ts + [t])[..|ts|] == ts;
  }

  /** The identifiers `from + n - 1, ..., from`: what `n` pushes to the front
      of one bucket leave ahead of its old contents, newest first. */
  function Pushed(from: nat, n: nat): (r: seq<nat>)
    ensures |r| == n
  {
    if n == 0 then [] else [from + n - 1] + Pushed(from, n - 1)
  }

  /** The `k`-th identifier of `Pushed(from, n)` is `from + n - 1 - k`. */
  lemma {:induction false} PushedValues(from: nat, n: nat)
    ensures forall k :: 0 <= k < n ==> Pushed(from, n)[k] == from + n - 1 - k
  {
    if n > 0 {
      PushedValues(from, n - 1);
      assert Pushed(from, n) == [from + n - 1] + Pushed(from, n - 1);
    }
  }

  /** Pushing appends exactly `ts` to the table and adds one listed task
      per pushed task. */
  lemma {:induction false} PushEachCounts(bd: Board, ts: seq<BuilderTask>)
    ensures PushEach(bd, ts).tasks == bd.tasks + ts
    ensures Total(PushEach(bd, ts).buckets) == Total(bd.buckets) + |ts|
  {
    if ts != [] {
      var init := ts[..|ts| - 1];
      var t := ts[|ts| - 1];
      PushEachCounts(bd, init);
      var m := PushEach(bd, init);
      assert ts == init + [t];
      TotalUpdate(m.buckets, t.kind, [|m.tasks|] + Bucket(m.buckets, t.kind));
    }
  }

  /** Pushing keeps the buckets well formed: the new identifiers are fresh. */
  lemma {:induction false} PushEachOk(bd: Board, ts: seq<BuilderTask>)
    requires BucketsOk(bd.buckets, |bd.tasks|)
    ensures BucketsOk(PushEach(bd, ts).buckets, |PushEach(bd, ts).tasks|)
  {
    if ts != [] {
      var t := ts[|ts| - 1];
      PushEachOk(bd, ts[..|ts| - 1]);
      var m := PushEach(bd, ts[..|ts| - 1]);
      assert |m.tasks| !in Bucket(m.buckets, t.kind);
      NoDupCons(|m.tasks|, Bucket(m.buckets, t.kind));
      var nb := m.buckets[t.kind := [|m.tasks|] + Bucket(m.buckets, t.kind)];
      assert forall u :: Bucket(nb, u) == if u == t.kind then [|m.tasks|] + Bucket(m.buckets, t.kind) else Bucket(m.buckets, u);
    }
  }

  /** Pushing leaves the buckets of the types not pushed alone. */
  lemma {:induction false} PushEachOther(bd: Board, ts: seq<BuilderTask>, u: TaskType)
    requires forall k :: 0 <= k < |ts| ==> ts[k].kind != u
    ensures Bucket(PushEach(bd, ts).buckets, u) == Bucket(bd.buckets, u)
  {
    if ts != [] {
      var init := ts[..|ts| - 1];
      assert forall k :: 0 <= k < |init| ==> init[k].kind != u by {
        forall k | 0 <= k < |init| ensures init[k].kind != u {
          assert init[k] == ts[k];
        }
      }
      PushEachOther(bd, init, u);
    }
  }

  /** Pushing tasks all of one type to its empty bucket leaves exactly
      their identifiers there, newest first. */
  lemma {:induction false} PushEachOneType(bd: Board, ts: seq<BuilderTask>, kind: TaskType)
    requires forall k :: 0 <= k < |ts| ==> ts[k].kind == kind
    ensures Bucket(PushEach(bd, ts).buckets, kind) == Pushed(|bd.tasks|, |ts|) + Bucket(bd.buckets, kind)
    ensures |PushEach(bd, ts).tasks| == |bd.tasks| + |ts|
  {
    if ts != [] {
      var init := ts[..|ts| - 1];
      assert forall k :: 0 <= k < |init| ==> init[k].kind == kind by {
        forall k | 0 <= k < |init| ensures init[k].kind == kind {
          assert init[k] == ts[k];
        }
      }
      PushEachOneType(bd, init, kind);
      var t := ts[|ts| - 1];
      assert PushEach(bd, ts) == Push(PushEach(bd, init), t);
      PushOneMore(PushEach(bd, init), t, |bd.tasks|, |init|, Bucket(bd.buckets, kind));
    }
  }

  /** The step of `PushEachOneType`: one more task of the same type goes
      to the front of the bucket. */
  lemma PushOneMore(m: Board, t: BuilderTask, from: nat, c: nat, rest: seq<nat>)
    requires Bucket(m.buckets, t.kind) == Pushed(from, c) + rest
    requires |m.tasks| == from + c
    ensures Bucket(Push(m, t).buckets, t.kind) == Pushed(from, c + 1) + rest
    ensures |Push(m, t).tasks| == from + c + 1
  {
    var p := Pushed(from, c);
    assert Bucket(Push(m, t).buckets, t.kind) == [from + c] + (p + rest);
    PushedStep(from, c);
    assert [from + c] + (p + rest) == ([from + c] + p) + rest;
  }

  lemma PushedStep(from: nat, n: nat)
    ensures Pushed(from, n + 1) == [from + n] + Pushed(from, n)
  {
    var k := n + 1;
    assert Pushed(from, k) == [from + k - 1] + Pushed(from, k - 1);
  }

  /** One task pushed onto empty buckets is then the only listed task. */
  lemma PushOntoEmpty(bd: Board, t: BuilderTask)
    requires Total(bd.buckets) == 0
    ensures PushEach(bd, [t]).tasks == bd.tasks + [t]
    ensures Bucket(PushEach(bd, [t]).buckets, t.kind) == [|bd.tasks|]
    ensures Flat(PushEach(bd, [t]).buckets) == [|bd.tasks|]
  {
    if Bucket(bd.buckets, t.kind) != [] {
      FlatMembers(bd.buckets, Bucket(bd.buckets, t.kind)[0]);
      assert false;
    }
    PushEachCounts(bd, [t]);
    PushEachOneType(bd, [t], t.kind);
    FlatMembers(PushEach(bd, [t]).buckets, |bd.tasks|);
  }

  /** Pushing tasks all of one type touches only that bucket: it gains
      exactly their identifiers, newest first, and the table gains exactly
      the tasks. */
  lemma PushEachOnly(bd: Board, ts: seq<BuilderTask>, kind: TaskType)
    requires forall k :: 0 <= k < |ts| ==> ts[k].kind == kind
    ensures Bucket(PushEach(bd, ts).buckets, kind) == Pushed(|bd.tasks|, |ts|) + Bucket(bd.buckets, kind)
    ensures forall t :: t != kind ==> Bucket(PushEach(bd, ts).buckets, t) == Bucket(bd.buckets, t)
    ensures PushEach(bd, ts).tasks == bd.tasks + ts
  {
    PushEachCounts(bd, ts);
    PushEachOneType(bd, ts, kind);
    forall t | t != kind ensures Bucket(PushEach(bd, ts).buckets, t) == Bucket(bd.buckets, t) {
      PushEachOther(bd, ts, t);
    }
  }
}
