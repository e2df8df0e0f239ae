/** `CEconomyManager`: the catalog of open builder and factory tasks, the
    demand-driven updates that open new tasks, the watchdog over stuck
    assistants, the task pickers for factories and workers with their
    cost-rank cache, and the unit lifecycle bookkeeping.

    Every engine query (positions, speeds, incomes, metal spots and
    clusters, build-site searches, `rand()`) is a parameter. Tasks are
    indices into task tables that only grow; a deleted task simply stops
    being listed. */
module Economy {
  import opened Common
  import opened Geometry
  import opened Catalog
  import opened Ranking

  /** `ClusterInfo`: the factory and the pylon placed on a metal cluster. */
  datatype ClusterInfo = ClusterInfo(factory: Option<UnitId>, pylon: Option<UnitId>)

  /** The map in squares, the cluster centroids, and the clusters ordered by
      distance from the start position (the order `FindNearestCluster`
      walks). */
  datatype MapInfo = MapInfo(width: nat, height: nat, centroids: seq<Point>, nearClusters: seq<nat>)

  predicate MapOk(m: MapInfo, clusters: nat) {
    forall k :: 0 <= k < |m.nearClusters| ==> m.nearClusters[k] < clusters && m.nearClusters[k] < |m.centroids|
  }

  /** A factory's position, facing and footprint (in squares). */
  datatype Footprint = Footprint(pos: Point, facing: Facing, xSize: int, zSize: int)

  /** Every field of the manager, plus the task each unit carries
      (`CCircuitUnit::GetTask`, `unitTask`), which the manager reads and
      writes through `AssignTo` and `RemoveTask`. */
  datatype State = State(
    btasks: seq<BuilderTask>, ftasks: seq<FactoryTask>,
    builderTasks: Buckets, builderTasksCount: int, factoryTasks: seq<nat>,
    workers: set<UnitId>, factories: map<UnitId, seq<UnitId>>, clusterInfo: seq<ClusterInfo>,
    unfinishedUnits: map<UnitId, Option<TaskRef>>, unfinishedTasks: map<TaskRef, seq<UnitId>>,
    wtRelation: seq<seq<WorkerInfo>>, cachedFrame: int, isCachedChanged: bool,
    builderInfo: map<UnitId, int>, unitTask: map<UnitId, TaskRef>,
    totalBuildpower: real, builderPower: real, factoryPower: real,
    solarCount: int, fusionCount: int)

  // ---------------------------------------------------------------------
  // Invariants.
  // ---------------------------------------------------------------------

  function UnitsOf(slot: seq<WorkerInfo>): set<UnitId> {
    set w | w in slot :: w.unit
  }

  /** A fresh cost-rank cache: one slot per listed builder task, in bucket
      order, each slot the same worker infos sorted by cost toward that
      task, covering every worker. With nothing listed there is no slot. */
  predicate CacheOk(rel: seq<seq<WorkerInfo>>, workers: set<UnitId>, flat: seq<nat>, tasks: seq<BuilderTask>) {
    && |rel| == |flat|
    && (forall i :: 0 <= i < |flat| ==> flat[i] < |tasks| && SortedByCost(rel[i], tasks[flat[i]].pos))
    && (forall i :: 0 <= i < |rel| ==> multiset(rel[i]) == multiset(rel[0]))
    && (rel != [] ==> UnitsOf(rel[0]) == workers)
  }

  /** `wtRelation.front().size()`, the picker's initial bound, with an
      empty cache read as an empty front slot. */
  function FrontSize(rel: seq<seq<WorkerInfo>>): nat {
    if rel == [] then 0 else |rel[0]|
  }

  /** The listed tasks exist; nothing is ever listed as ASSIST. */
  predicate TasksOk(tasks: seq<BuilderTask>, b: Buckets) {
    BucketsOk(b, |tasks|) && Bucket(b, ASSIST) == []
  }

  predicate FactoryListOk(ids: seq<nat>, n: nat) {
    forall k :: 0 <= k < |ids| ==> ids[k] < n
  }

  predicate RefsOk(unitTask: map<UnitId, TaskRef>, unfinished: map<UnitId, Option<TaskRef>>, nb: nat, nf: nat) {
    && (forall u :: u in unitTask ==> RefOk(unitTask[u], nb, nf))
    && (forall u :: u in unfinished && unfinished[u].Some? ==> RefOk(unfinished[u].value, nb, nf))
  }

  predicate StateOk(s: State) {
    && TasksOk(s.btasks, s.builderTasks)
    && FactoryListOk(s.factoryTasks, |s.ftasks|)
    && RefsOk(s.unitTask, s.unfinishedUnits, |s.btasks|, |s.ftasks|)
    && (!s.isCachedChanged ==> CacheOk(s.wtRelation, s.workers, Flat(s.builderTasks), s.btasks))
  }

  /** How far `builderTasksCount` is from the number of listed builder
      tasks. Each site that lists or unlists tasks is meant to keep it. */
  function Drift(s: State): int {
    s.builderTasksCount - Total(s.builderTasks)
  }

  /** `builderTasksCount >= workers.size() * 2`: the signed count is
      compared as a 64-bit `size_t`, so a negative count reads as huge. */
  predicate DemandMet(count: int, workers: nat) {
    (if count < 0 then count + 0x1_0000_0000_0000_0000 else count) >= workers * 2
  }

  lemma RefsGrow(unitTask: map<UnitId, TaskRef>, unfinished: map<UnitId, Option<TaskRef>>, nb: nat, nf: nat, nb2: nat, nf2: nat)
    requires RefsOk(unitTask, unfinished, nb, nf) && nb <= nb2 && nf <= nf2
    ensures RefsOk(unitTask, unfinished, nb2, nf2)
  {
  }

  /** The state after pushing `ts` onto the builder task lists, with the
      count set to `count` and the cache marked stale. */
  function WithPushed(s: State, ts: seq<BuilderTask>, count: int): State {
    var bd := PushEach(Board(s.btasks, s.builderTasks), ts);
    s.(btasks := bd.tasks, builderTasks := bd.buckets, builderTasksCount := count, isCachedChanged := true)
  }

  /** Pushing new non-ASSIST tasks keeps the invariants and lists exactly
      the pushed tasks. */
  lemma PushKeepsOk(s: State, ts: seq<BuilderTask>, count: int)
    requires StateOk(s)
    requires forall k :: 0 <= k < |ts| ==> ts[k].kind != ASSIST
    ensures WithPushed(s, ts, count).btasks == s.btasks + ts
    ensures Total(WithPushed(s, ts, count).builderTasks) == Total(s.builderTasks) + |ts|
    ensures StateOk(WithPushed(s, ts, count))
  {
    var b0 := Board(s.btasks, s.builderTasks);
    PushEachCounts(b0, ts);
    PushEachOk(b0, ts);
    PushEachOther(b0, ts, ASSIST);
    RefsGrow(s.unitTask, s.unfinishedUnits, |s.btasks|, |s.ftasks|, |s.btasks| + |ts|, |s.ftasks|);
  }

  /** Unlisting a task from one bucket (`std::list::remove`) lowers the
      number of listed tasks by one when it was listed there and leaves it
      otherwise; the buckets stay well formed. */
  lemma RemoveFromBucket(b: Buckets, n: nat, kind: TaskType, x: nat)
    requires BucketsOk(b, n)
    ensures BucketsOk(b[kind := RemoveAll(Bucket(b, kind), x)], n)
    ensures Total(b[kind := RemoveAll(Bucket(b, kind), x)]) == Total(b) - (if x in Bucket(b, kind) then 1 else 0)
    ensures forall t :: t != kind ==> Bucket(b[kind := RemoveAll(Bucket(b, kind), x)], t) == Bucket(b, t)
  {
    var old_ := Bucket(b, kind);
    var rest := RemoveAll(old_, x);
    var r := b[kind := rest];
    TotalUpdate(b, kind, rest);
    if x in old_ {
      RemoveAllOnce(old_, x);
      assert |rest| == |old_| - 1;
    } else {
      RemoveAllAbsent(old_, x);
      assert rest == old_;
    }
    assert Bucket(r, kind) == rest;
    BucketsAfterRemove(b, n, kind, rest);
  }

  lemma BucketsAfterRemove(b: Buckets, n: nat, kind: TaskType, rest: seq<nat>)
    requires BucketsOk(b, n) && NoDup(rest)
    requires forall k :: 0 <= k < |rest| ==> rest[k] in Bucket(b, kind)
    ensures BucketsOk(b[kind := rest], n)
    ensures forall t :: t != kind ==> Bucket(b[kind := rest], t) == Bucket(b, t)
  {
    var r := b[kind := rest];
    forall t ensures NoDup(Bucket(r, t)) && forall k :: 0 <= k < |Bucket(r, t)| ==> Bucket(r, t)[k] < n {
      if t == kind {
        assert Bucket(r, t) == rest;
      } else {
        assert Bucket(r, t) == Bucket(b, t);
      }
    }
  }

  /** A change of task records that keeps every position keeps the cache. */
  lemma CacheSamePositions(rel: seq<seq<WorkerInfo>>, workers: set<UnitId>, flat: seq<nat>,
                           t1: seq<BuilderTask>, t2: seq<BuilderTask>)
    requires CacheOk(rel, workers, flat, t1)
    requires |t1| <= |t2| && forall k :: 0 <= k < |t1| ==> t2[k].pos == t1[k].pos
    ensures CacheOk(rel, workers, flat, t2)
  {
  }

  /** A change that leaves the lists, the factory tasks, the cache and the
      assignments alone, keeps every task position and only forgets
      unfinished units keeps the invariants. */
  lemma SameCatalogOk(s: State, r: State)
    requires StateOk(s)
    requires r.builderTasks == s.builderTasks && r.ftasks == s.ftasks && r.factoryTasks == s.factoryTasks
    requires r.wtRelation == s.wtRelation && r.workers == s.workers && r.isCachedChanged == s.isCachedChanged
    requires r.unitTask == s.unitTask
    requires |r.btasks| == |s.btasks| && forall k :: 0 <= k < |s.btasks| ==> r.btasks[k].pos == s.btasks[k].pos
    requires forall u :: u in r.unfinishedUnits ==> u in s.unfinishedUnits && r.unfinishedUnits[u] == s.unfinishedUnits[u]
    ensures StateOk(r)
  {
    if !s.isCachedChanged {
      CacheSamePositions(s.wtRelation, s.workers, Flat(s.builderTasks), s.btasks, r.btasks);
    }
  }

  // ---------------------------------------------------------------------
  // What the updates open.
  // ---------------------------------------------------------------------

  /** A slot is free of a factory (or of a pylon). */
  predicate Free(c: ClusterInfo, pylon: bool) {
    if pylon then c.pylon.None? else c.factory.None?
  }

  /** `FindNearestCluster(startPos, predicate)`: the nearest cluster whose
      slot is free. */
  function FreeCluster(order: seq<nat>, info: seq<ClusterInfo>, pylon: bool): (r: Option<nat>)
    requires forall k :: 0 <= k < |order| ==> order[k] < |info|
    ensures r.None? ==> forall k :: 0 <= k < |order| ==> !Free(info[order[k]], pylon)
    ensures r.Some? ==> exists k :: 0 <= k < |order| && order[k] == r.value && Free(info[r.value], pylon)
                                    && forall j :: 0 <= j < k ==> !Free(info[order[j]], pylon)
  {
    if order == [] then None
    else if Free(info[order[0]], pylon) then Some(order[0])
    else
      var r := FreeCluster(order[1..], info, pylon);
      if r.Some? then
        ghost var k :| 0 <= k < |order| - 1 && order[1..][k] == r.value && Free(info[r.value], pylon)
                       && forall j :: 0 <= j < k ==> !Free(info[order[1..][j]], pylon);
        assert forall j :: 0 <= j < k + 1 ==> !Free(info[order[j]], pylon) by {
          forall j | 0 <= j < k + 1 ensures !Free(info[order[j]], pylon) {
            if j > 0 {
              assert order[j] == order[1..][j - 1];
            }
          }
        }
        assert order[k + 1] == r.value;
        r
      else
        assert forall k :: 1 <= k < |order| ==> order[k] == order[1..][k - 1];
        None
  }

  function ExpandTasks(spots: seq<Point>): seq<BuilderTask> {
    seq(|spots|, k requires 0 <= k < |spots| => BuilderTask(LOW, spots[k], EXPAND, 0, Some(spots[k]), None))
  }

  function SolarTasks(spots: seq<Point>): seq<BuilderTask> {
    seq(|spots|, k requires 0 <= k < |spots| => NewBuilderTask(HIGH, spots[k], SOLAR))
  }

  /** The two solars placed at random when no spot is known; draw `2i` and
      `2i + 1` are the x and z of the `i`-th. */
  function RandomSolars(m: MapInfo, rnd: nat -> nat): (r: seq<BuilderTask>)
    ensures |r| == 2 && forall k :: 0 <= k < 2 ==> r[k].kind == SOLAR && r[k].priority == HIGH
  {
    var tw := m.width * SQUARE_SIZE;
    var th := m.height * SQUARE_SIZE;
    [NewBuilderTask(HIGH, RandomSite(tw, th, rnd(0), rnd(1)), SOLAR), NewBuilderTask(HIGH, RandomSite(tw, th, rnd(2), rnd(3)), SOLAR)]
  }

  /** The pylon opened after a fusion or singularity: at the centroid of the
      nearest cluster without a pylon, if any. */
  function PylonTasks(s: State, m: MapInfo): (r: seq<BuilderTask>)
    requires MapOk(m, |s.clusterInfo|)
    ensures |r| <= 1
    ensures |r| == 1 ==> r[0].kind == PYLON && r[0].priority == LOW
                         && exists c :: c in m.nearClusters && r[0].pos == m.centroids[c] && s.clusterInfo[c].pylon.None?
    ensures |r| == 0 <==> forall k :: 0 <= k < |m.nearClusters| ==> s.clusterInfo[m.nearClusters[k]].pylon.Some?
  {
    match FreeCluster(m.nearClusters, s.clusterInfo, true)
    case Some(c) => [NewBuilderTask(LOW, m.centroids[c], PYLON)]
    case None => []
  }

  /** The tasks `UpdateEnergyTasks` opens, in push order. */
  function EnergyPlan(s: State, metalIncome: real, energyIncome: real, solarSpots: seq<Point>, fusionSpot: Option<Point>,
                      singuSpots: seq<Point>, m: MapInfo, rnd: nat -> nat): seq<BuilderTask>
    requires MapOk(m, |s.clusterInfo|)
  {
    var tw := m.width * SQUARE_SIZE;
    var th := m.height * SQUARE_SIZE;
    if DemandMet(s.builderTasksCount, |s.workers|) then []
    else if metalIncome > energyIncome * 0.8 && s.solarCount < 16 && Bucket(s.builderTasks, SOLAR) == [] then
      if solarSpots != [] then SolarTasks(solarSpots) else RandomSolars(m, rnd)
    else if metalIncome > energyIncome * 0.2 && s.solarCount >= 16 && s.fusionCount < 5 && Bucket(s.builderTasks, FUSION) == [] then
      [NewBuilderTask(LOW, if fusionSpot.Some? then fusionSpot.value else RandomSite(tw, th, rnd(0), rnd(1)), FUSION)]
      + PylonTasks(s, m)
    else if s.fusionCount >= 5 && Bucket(s.builderTasks, SINGU) == [] then
      (if singuSpots != [] then [NewBuilderTask(LOW, singuSpots[rnd(0) % |singuSpots|], SINGU)]
       else [NewBuilderTask(LOW, RandomSite(tw, th, rnd(0), rnd(1)), FUSION)])
      + PylonTasks(s, m)
    else []
  }

  /** Nothing opens once demand is met, and no energy task is an ASSIST
      task. */
  lemma EnergyPlanGate(s: State, metalIncome: real, energyIncome: real, solarSpots: seq<Point>, fusionSpot: Option<Point>,
                       singuSpots: seq<Point>, m: MapInfo, rnd: nat -> nat)
    requires MapOk(m, |s.clusterInfo|)
    ensures var plan := EnergyPlan(s, metalIncome, energyIncome, solarSpots, fusionSpot, singuSpots, m, rnd);
            && (plan != [] ==> !DemandMet(s.builderTasksCount, |s.workers|))
            && (forall k :: 0 <= k < |plan| ==> plan[k].kind != ASSIST)
  {
    var plan := EnergyPlan(s, metalIncome, energyIncome, solarSpots, fusionSpot, singuSpots, m, rnd);
    if plan != [] && plan[0].kind == SOLAR {
      EnergyPlanSolar(s, metalIncome, energyIncome, solarSpots, fusionSpot, singuSpots, m, rnd);
    } else if plan != [] {
      EnergyPlanHeavy(s, metalIncome, energyIncome, solarSpots, fusionSpot, singuSpots, m, rnd);
      var pylons := PylonTasks(s, m);
      assert forall k :: 1 <= k < |plan| ==> plan[k] == pylons[k - 1];
    }
  }

  /** The solar branch fires first, when income leans to metal, fewer than
      16 solars stand and none is listed: one HIGH solar per known spot,
      or two at random sites without spots. */
  lemma EnergyPlanSolar(s: State, metalIncome: real, energyIncome: real, solarSpots: seq<Point>, fusionSpot: Option<Point>,
                        singuSpots: seq<Point>, m: MapInfo, rnd: nat -> nat)
    requires MapOk(m, |s.clusterInfo|)
    ensures var plan := EnergyPlan(s, metalIncome, energyIncome, solarSpots, fusionSpot, singuSpots, m, rnd);
            plan != [] && plan[0].kind == SOLAR ==>
              && metalIncome > energyIncome * 0.8 && s.solarCount < 16 && Bucket(s.builderTasks, SOLAR) == []
              && |plan| == (if solarSpots == [] then 2 else |solarSpots|)
              && forall k :: 0 <= k < |plan| ==> plan[k].kind == SOLAR && plan[k].priority == HIGH
  {
    var plan := EnergyPlan(s, metalIncome, energyIncome, solarSpots, fusionSpot, singuSpots, m, rnd);
    if !DemandMet(s.builderTasksCount, |s.workers|)
       && metalIncome > energyIncome * 0.8 && s.solarCount < 16 && Bucket(s.builderTasks, SOLAR) == [] {
      if solarSpots != [] {
        assert plan == SolarTasks(solarSpots);
      } else {
        assert plan == RandomSolars(m, rnd);
      }
    }
  }

  /** Otherwise one fusion or singularity opens (the singularity fallback
      without a spot is a fusion), followed by at most one pylon at the
      centroid of a cluster that has none. */
  lemma EnergyPlanHeavy(s: State, metalIncome: real, energyIncome: real, solarSpots: seq<Point>, fusionSpot: Option<Point>,
                        singuSpots: seq<Point>, m: MapInfo, rnd: nat -> nat)
    requires MapOk(m, |s.clusterInfo|)
    ensures var plan := EnergyPlan(s, metalIncome, energyIncome, solarSpots, fusionSpot, singuSpots, m, rnd);
            plan != [] && plan[0].kind != SOLAR ==>
              && (plan[0].kind == FUSION || plan[0].kind == SINGU) && plan[0].priority == LOW
              && !(metalIncome > energyIncome * 0.8 && s.solarCount < 16 && Bucket(s.builderTasks, SOLAR) == [])
              && (plan[0].kind == SINGU ==> s.fusionCount >= 5 && Bucket(s.builderTasks, SINGU) == [] && singuSpots != [])
              && (plan[0].kind == FUSION ==>
                    || (metalIncome > energyIncome * 0.2 && s.solarCount >= 16 && s.fusionCount < 5 && Bucket(s.builderTasks, FUSION) == [])
                    || (s.fusionCount >= 5 && Bucket(s.builderTasks, SINGU) == [] && singuSpots == []))
              && plan == [plan[0]] + PylonTasks(s, m)
  {
    var plan := EnergyPlan(s, metalIncome, energyIncome, solarSpots, fusionSpot, singuSpots, m, rnd);
    var tw := m.width * SQUARE_SIZE;
    var th := m.height * SQUARE_SIZE;
    if DemandMet(s.builderTasksCount, |s.workers|) {
    } else if metalIncome > energyIncome * 0.8 && s.solarCount < 16 && Bucket(s.builderTasks, SOLAR) == [] {
      if solarSpots != [] {
        assert plan == SolarTasks(solarSpots);
      } else {
        assert plan == RandomSolars(m, rnd);
      }
    } else if metalIncome > energyIncome * 0.2 && s.solarCount >= 16 && s.fusionCount < 5 && Bucket(s.builderTasks, FUSION) == [] {
      var f := NewBuilderTask(LOW, if fusionSpot.Some? then fusionSpot.value else RandomSite(tw, th, rnd(0), rnd(1)), FUSION);
      assert plan == [f] + PylonTasks(s, m);
    } else if s.fusionCount >= 5 && Bucket(s.builderTasks, SINGU) == [] {
      var f := if singuSpots != [] then NewBuilderTask(LOW, singuSpots[rnd(0) % |singuSpots|], SINGU)
               else NewBuilderTask(LOW, RandomSite(tw, th, rnd(0), rnd(1)), FUSION);
      assert plan == [f] + PylonTasks(s, m);
    }
  }

  // ---------------------------------------------------------------------
  // The task pickers' helpers.
  // ---------------------------------------------------------------------

  /** The first task in `factoryTasks` order that accepts the unit, or the
      list size. */
  function FirstAssignable(ids: seq<nat>, canAssign: nat -> bool): (r: nat)
    ensures r <= |ids|
    ensures r < |ids| ==> canAssign(ids[r])
    ensures forall k :: 0 <= k < r ==> !canAssign(ids[k])
  {
    if ids == [] then 0
    else if canAssign(ids[0]) then 0
    else
      var r := FirstAssignable(ids[1..], canAssign);
      assert forall k :: 1 <= k < |ids| ==> ids[k] == ids[1..][k - 1];
      1 + r
  }

  /** `splice(end, list, iter)`: the element at `i` moves to the back. */
  function MoveToBack(s: seq<nat>, i: nat): seq<nat>
    requires i < |s|
  {
    s[..i] + s[i + 1..] + [s[i]]
  }

  /** Moving to the back keeps the same tasks, ends with the moved one and
      keeps the others in their relative order. */
  lemma MoveToBackMeaning(s: seq<nat>, i: nat)
    requires i < |s|
    ensures multiset(MoveToBack(s, i)) == multiset(s)
    ensures |MoveToBack(s, i)| == |s| && MoveToBack(s, i)[|s| - 1] == s[i]
    ensures forall k :: 0 <= k < i ==> MoveToBack(s, i)[k] == s[k]
    ensures forall k :: i <= k < |s| - 1 ==> MoveToBack(s, i)[k] == s[k + 1]
  {
    assert s == s[..i] + [s[i]] + s[i + 1..];
  }

  /** `new CFactoryTask(LOW, pos, DEFAULT, 2, radius)` with the radius
      four footprints wide, in integer arithmetic. */
  function DefaultFactoryTask(pos: Point, xSize: int, zSize: int): FactoryTask {
    FactoryTask(LOW, pos, F_DEFAULT, 2, ((if xSize > zSize then xSize else zSize) * SQUARE_SIZE * 4) as real)
  }

  /** `PrepareFactory`'s outcome: the first accepting task is assigned and
      moved to the back; with none, a new default task is pushed to the
      front, assigned and moved to the back. */
  function PreparedFactory(s: State, unit: UnitId, canAssign: nat -> bool, pos: Point, xSize: int, zSize: int): (r: (State, nat))
  {
    var i := FirstAssignable(s.factoryTasks, canAssign);
    if i < |s.factoryTasks| then
      (s.(factoryTasks := MoveToBack(s.factoryTasks, i), unitTask := s.unitTask[unit := FactoryRef(s.factoryTasks[i])]),
       s.factoryTasks[i])
    else
      (s.(ftasks := s.ftasks + [DefaultFactoryTask(pos, xSize, zSize)],
          factoryTasks := s.factoryTasks + [|s.ftasks|],
          unitTask := s.unitTask[unit := FactoryRef(|s.ftasks|)]),
       |s.ftasks|)
  }

  /** The factory gets the first task that accepts it, or a fresh one when
      none does; the task list is a rotation of the old one (plus the
      fresh task), with the chosen task last. */
  lemma PreparedFactoryMeaning(s: State, unit: UnitId, canAssign: nat -> bool, pos: Point, xSize: int, zSize: int)
    requires StateOk(s)
    ensures var (r, chosen) := PreparedFactory(s, unit, canAssign, pos, xSize, zSize);
            && StateOk(r)
            && r.unitTask == s.unitTask[unit := FactoryRef(chosen)]
            && |r.factoryTasks| > 0 && r.factoryTasks[|r.factoryTasks| - 1] == chosen
            && (chosen in s.factoryTasks ==> canAssign(chosen) && multiset(r.factoryTasks) == multiset(s.factoryTasks)
                                             && r.ftasks == s.ftasks)
            && (chosen !in s.factoryTasks ==> (forall k :: 0 <= k < |s.factoryTasks| ==> !canAssign(s.factoryTasks[k]))
                                              && r.factoryTasks == s.factoryTasks + [chosen] && chosen == |s.ftasks|)
  {
    var i := FirstAssignable(s.factoryTasks, canAssign);
    if i < |s.factoryTasks| {
      MoveToBackMeaning(s.factoryTasks, i);
      var mv := MoveToBack(s.factoryTasks, i);
      forall k | 0 <= k < |mv| ensures mv[k] < |s.ftasks| {
        assert mv[k] in multiset(s.factoryTasks);
      }
    } else {
      assert |s.ftasks| !in s.factoryTasks;
      RefsGrow(s.unitTask, s.unfinishedUnits, |s.btasks|, |s.ftasks|, |s.btasks|, |s.ftasks| + 1);
    }
  }

  /** The worker info a rebuild creates from the engine's answers. */
  function InfoOf(at: UnitId -> Point, qspeed: UnitId -> QSpeed, w: UnitId): WorkerInfo {
    WorkerInfo(w, at(w), qspeed(w))
  }

  /** Every slot of a rebuilt cache holds one info per worker, and each
      info is the engine's answer for its unit. */
  predicate FromEngine(rel: seq<seq<WorkerInfo>>, workers: set<UnitId>, at: UnitId -> Point, qspeed: UnitId -> QSpeed) {
    && (forall i :: 0 <= i < |rel| ==> |rel[i]| == |workers|)
    && (forall i, x :: 0 <= i < |rel| && x in rel[i] ==> x == InfoOf(at, qspeed, x.unit))
  }

  /** A slot has at most as many units as entries. */
  lemma {:induction false} UnitsOfSize(slot: seq<WorkerInfo>)
    ensures |UnitsOf(slot)| <= |slot|
  {
    if slot != [] {
      UnitsOfSize(slot[1..]);
      assert UnitsOf(slot) == {slot[0].unit} + UnitsOf(slot[1..]);
    }
  }

  /** A slot with as many units as entries names no unit twice. */
  lemma {:induction false} UnitsDistinct(slot: seq<WorkerInfo>)
    requires |UnitsOf(slot)| == |slot|
    ensures forall j, k :: 0 <= j < k < |slot| ==> slot[j].unit != slot[k].unit
  {
    if slot != [] {
      var rest := slot[1..];
      assert UnitsOf(slot) == {slot[0].unit} + UnitsOf(rest);
      UnitsOfSize(rest);
      assert slot[0].unit !in UnitsOf(rest);
      assert UnitsOf(rest) == UnitsOf(slot) - {slot[0].unit};
      UnitsDistinct(rest);
      forall j, k | 0 <= j < k < |slot| ensures slot[j].unit != slot[k].unit {
        if j == 0 {
          assert slot[k] in rest;
        } else {
          assert slot[j] == rest[j - 1] && slot[k] == rest[k - 1];
        }
      }
    }
  }

  /** A fresh cache rebuilt from the engine's answers is fixed up to the
      order among equal costs: every slot holds each worker's engine info
      exactly once and nothing else. */
  lemma EngineSlotsExact(rel: seq<seq<WorkerInfo>>, workers: set<UnitId>, flat: seq<nat>, tasks: seq<BuilderTask>,
                         at: UnitId -> Point, qspeed: UnitId -> QSpeed)
    requires CacheOk(rel, workers, flat, tasks) && FromEngine(rel, workers, at, qspeed)
    ensures forall i, w :: 0 <= i < |rel| && w in workers ==> InfoOf(at, qspeed, w) in rel[i]
    ensures forall i, x :: 0 <= i < |rel| && x in rel[i] ==> x.unit in workers
    ensures forall i, j, k :: 0 <= i < |rel| && 0 <= j < k < |rel[i]| ==> rel[i][j].unit != rel[i][k].unit
  {
    forall i | 0 <= i < |rel| ensures UnitsOf(rel[i]) == workers {
      UnitsOfPerm(rel[i], rel[0]);
    }
    forall i, w | 0 <= i < |rel| && w in workers ensures InfoOf(at, qspeed, w) in rel[i] {
      assert w in UnitsOf(rel[i]);
      var x :| x in rel[i] && x.unit == w;
    }
    forall i, x | 0 <= i < |rel| && x in rel[i] ensures x.unit in workers {
      assert x.unit in UnitsOf(rel[i]);
    }
    forall i | 0 <= i < |rel| ensures forall j, k :: 0 <= j < k < |rel[i]| ==> rel[i][j].unit != rel[i][k].unit {
      UnitsDistinct(rel[i]);
    }
  }

  /** The cache `rel`, stamped `frame`, that `GetWorkerTaskRelations` at
      `lastFrame` leaves over `s`: the old one when it was built under a
      second ago with nothing changed, otherwise one rebuilt at this frame
      from the engine's answers, with the asker's own info. */
  predicate CacheTaken(s: State, rel: seq<seq<WorkerInfo>>, frame: int, lastFrame: int,
                       at: UnitId -> Point, qspeed: UnitId -> QSpeed, unit: UnitId, info: Option<WorkerInfo>) {
    if lastFrame - s.cachedFrame < FRAMES_PER_SEC && !s.isCachedChanged then
      rel == s.wtRelation && frame == s.cachedFrame
    else
      frame == lastFrame && FromEngine(rel, s.workers, at, qspeed) && info == Some(InfoOf(at, qspeed, unit))
  }

  /** The first info of a slot that belongs to `unit`. */
  method FindInfo(slot: seq<WorkerInfo>, unit: UnitId) returns (info: WorkerInfo)
    requires unit in UnitsOf(slot)
    ensures info in slot && info.unit == unit
    ensures exists i :: 0 <= i < |slot| && slot[i] == info && forall k :: 0 <= k < i ==> slot[k].unit != unit
  {
    var i := 0;
    while slot[i].unit != unit
      invariant 0 <= i < |slot|
      invariant exists k :: i <= k < |slot| && slot[k].unit == unit
      invariant forall k :: 0 <= k < i ==> slot[k].unit != unit
      decreases |slot| - i
    {
      i := i + 1;
    }
    info := slot[i];
  }

  /** The worker infos of one rebuild, in the order the workers are walked,
      and the info of `unit` among them. */
  method CollectInfos(order: seq<UnitId>, unit: UnitId, at: UnitId -> Point, qspeed: UnitId -> QSpeed)
    returns (infos: seq<WorkerInfo>, ret: Option<WorkerInfo>)
    ensures |infos| == |order|
    ensures forall k :: 0 <= k < |order| ==> infos[k] == InfoOf(at, qspeed, order[k])
    ensures unit in order <==> ret.Some?
    ensures unit in order ==> ret == Some(InfoOf(at, qspeed, unit))
  {
    infos := [];
    ret := None;
    var i := 0;
    while i < |order|
      invariant 0 <= i <= |order|
      invariant |infos| == i
      invariant forall k :: 0 <= k < i ==> infos[k] == InfoOf(at, qspeed, order[k])
      invariant unit in order[..i] <==> ret.Some?
      invariant ret.Some? ==> ret == Some(InfoOf(at, qspeed, unit))
    {
      var w := order[i];
      var info := WorkerInfo(w, at(w), qspeed(w));
      infos := infos + [info];
      if w == unit {
        ret := Some(info);
      }
      assert order[..i + 1] == order[..i] + [w];
      i := i + 1;
    }
    assert order[..i] == order;
  }

  /** The rebuild's nested loops: for each listed task in the walk over
      `types` (the rebuild passes every type, in key order), the infos are
      sorted by cost toward the task and the result becomes the task's slot. */
  method BuildRelation(b: Buckets, types: seq<TaskType>, tasks: seq<BuilderTask>, infos: seq<WorkerInfo>)
    returns (rel: seq<seq<WorkerInfo>>)
    requires forall i :: 0 <= i < |FlatOf(b, types)| ==> FlatOf(b, types)[i] < |tasks|
    ensures |rel| == |FlatOf(b, types)|
    ensures RelOk(rel, FlatOf(b, types), tasks, infos)
  {
    ghost var flat := FlatOf(b, types);
    rel := [];
    var cur := infos;
    var k := 0;
    while k < |types|
      invariant 0 <= k <= |types|
      invariant |rel| == |FlatOf(b, types[..k])| <= |flat|
      invariant multiset(cur) == multiset(infos)
      invariant RelOk(rel, flat, tasks, infos)
    {
      rel, cur := TypeSlots(b, types, k, tasks, infos, rel, cur);
      k := k + 1;
    }
    assert types[..k] == types;
  }

  /** One round of the outer rebuild loop: the slots of the `k`-th type's
      bucket follow those of the types before it. */
  method TypeSlots(b: Buckets, types: seq<TaskType>, k: nat, tasks: seq<BuilderTask>, infos: seq<WorkerInfo>,
                   rel: seq<seq<WorkerInfo>>, cur: seq<WorkerInfo>) returns (rel': seq<seq<WorkerInfo>>, cur': seq<WorkerInfo>)
    requires forall i :: 0 <= i < |FlatOf(b, types)| ==> FlatOf(b, types)[i] < |tasks|
    requires k < |types| && |rel| == |FlatOf(b, types[..k])|
    requires RelOk(rel, FlatOf(b, types), tasks, infos) && multiset(cur) == multiset(infos)
    ensures |rel'| == |FlatOf(b, types[..k + 1])| <= |FlatOf(b, types)|
    ensures RelOk(rel', FlatOf(b, types), tasks, infos) && multiset(cur') == multiset(infos)
  {
    ghost var flat := FlatOf(b, types);
    var bucket := Bucket(b, types[k]);
    assert |rel| + |bucket| == |FlatOf(b, types[..k + 1])| <= |flat|
           && forall j :: 0 <= j < |bucket| ==> flat[|rel| + j] == bucket[j] && bucket[j] < |tasks| by {
      BucketInFlat(b, types, k);
    }
    rel', cur' := BucketSlots(flat, tasks, infos, bucket, rel, cur);
  }

  /** The inner rebuild loop over one bucket, whose tasks sit at `|rel|`
      onward in the bucket walk: one sorted slot per task. */
  method BucketSlots(ghost flat: seq<nat>, tasks: seq<BuilderTask>, infos: seq<WorkerInfo>, bucket: seq<nat>,
                     rel: seq<seq<WorkerInfo>>, cur: seq<WorkerInfo>) returns (rel': seq<seq<WorkerInfo>>, cur': seq<WorkerInfo>)
    requires |rel| + |bucket| <= |flat|
    requires forall j :: 0 <= j < |bucket| ==> flat[|rel| + j] == bucket[j] && bucket[j] < |tasks|
    requires RelOk(rel, flat, tasks, infos) && multiset(cur) == multiset(infos)
    ensures |rel'| == |rel| + |bucket|
    ensures RelOk(rel', flat, tasks, infos) && multiset(cur') == multiset(infos)
  {
    rel', cur' := rel, cur;
    var j := 0;
    while j < |bucket|
      invariant 0 <= j <= |bucket|
      invariant |rel'| == |rel| + j
      invariant multiset(cur') == multiset(infos)
      invariant RelOk(rel', flat, tasks, infos)
    {
      assert flat[|rel'|] == bucket[j];
      cur' := SortByCost(cur', tasks[bucket[j]].pos);
      RelOkSnoc(rel', flat, tasks, infos, cur');
      rel' := rel' + [cur'];
      j := j + 1;
    }
  }

  /** The first `|rel|` slots of a cache being built: each holds the infos
      sorted by cost toward its task. */
  predicate RelOk(rel: seq<seq<WorkerInfo>>, flat: seq<nat>, tasks: seq<BuilderTask>, infos: seq<WorkerInfo>) {
    && |rel| <= |flat|
    && forall i {:trigger rel[i]} :: 0 <= i < |rel| ==>
         flat[i] < |tasks| && SortedByCost(rel[i], tasks[flat[i]].pos) && multiset(rel[i]) == multiset(infos)
  }

  lemma RelOkSnoc(rel: seq<seq<WorkerInfo>>, flat: seq<nat>, tasks: seq<BuilderTask>, infos: seq<WorkerInfo>, cur: seq<WorkerInfo>)
    requires RelOk(rel, flat, tasks, infos) && |rel| < |flat| && flat[|rel|] < |tasks|
    requires SortedByCost(cur, tasks[flat[|rel|]].pos) && multiset(cur) == multiset(infos)
    ensures RelOk(rel + [cur], flat, tasks, infos)
  {
    var r := rel + [cur];
    forall i | 0 <= i < |r|
      ensures flat[i] < |tasks| && SortedByCost(r[i], tasks[flat[i]].pos) && multiset(r[i]) == multiset(infos)
    {
      if i < |rel| {
        assert r[i] == rel[i];
      } else {
        assert r[i] == cur;
      }
    }
  }

  /** The candidate scan over the buckets of `types` in order (the picker
      passes every type, in key order; `i` counts the listed tasks walked so
      far). */
  method ScanCandidates(b: Buckets, types: seq<TaskType>, slots: seq<seq<WorkerInfo>>, w: WorkerInfo,
                        canAssign: nat -> bool, idx0: nat)
    returns (idx: nat, cands: seq<nat>)
    requires |FlatOf(b, types)| <= |slots|
    ensures Scan(idx, cands) == ScanTasks(FlatOf(b, types), slots, w, canAssign, idx0, |FlatOf(b, types)|)
  {
    idx := idx0;
    cands := [];
    var i := 0;
    var k := 0;
    while k < |types|
      invariant 0 <= k <= |types|
      invariant i == |FlatOf(b, types[..k])| <= |FlatOf(b, types)|
      invariant Scan(idx, cands) == ScanTasks(FlatOf(b, types), slots, w, canAssign, idx0, i)
    {
      idx, cands, i := ScanType(b, types, k, slots, w, canAssign, idx0, i, idx, cands);
      k := k + 1;
    }
    assert types[..k] == types;
  }

  /** One round of the outer scan loop: the `k`-th type's bucket, whose
      tasks follow those of the types before it. */
  method ScanType(b: Buckets, types: seq<TaskType>, k: nat, slots: seq<seq<WorkerInfo>>, w: WorkerInfo,
                  canAssign: nat -> bool, ghost idx0: nat, i: nat, idx: nat, cands: seq<nat>)
    returns (idx': nat, cands': seq<nat>, i': nat)
    requires |FlatOf(b, types)| <= |slots|
    requires k < |types| && i == |FlatOf(b, types[..k])| <= |FlatOf(b, types)|
    requires Scan(idx, cands) == ScanTasks(FlatOf(b, types), slots, w, canAssign, idx0, i)
    ensures i' == |FlatOf(b, types[..k + 1])| <= |FlatOf(b, types)|
    ensures Scan(idx', cands') == ScanTasks(FlatOf(b, types), slots, w, canAssign, idx0, i')
  {
    ghost var flat := FlatOf(b, types);
    var tasks := Bucket(b, types[k]);
    assert i + |tasks| == |FlatOf(b, types[..k + 1])| <= |flat|
           && forall j :: 0 <= j < |tasks| ==> flat[i + j] == tasks[j] by {
      BucketInFlat(b, types, k);
    }
    idx', cands' := ScanBucket(flat, slots, w, canAssign, idx0, i, tasks, idx, cands);
    i' := i + |tasks|;
  }

  /** The inner scan loop over one bucket, whose tasks sit at `i0` onward
      in the bucket walk. */
  method ScanBucket(ghost flat: seq<nat>, slots: seq<seq<WorkerInfo>>, w: WorkerInfo, canAssign: nat -> bool,
                    ghost idx0: nat, i0: nat, tasks: seq<nat>, idx: nat, cands: seq<nat>) returns (idx': nat, cands': seq<nat>)
    requires i0 + |tasks| <= |flat| <= |slots|
    requires forall j :: 0 <= j < |tasks| ==> flat[i0 + j] == tasks[j]
    requires Scan(idx, cands) == ScanTasks(flat, slots, w, canAssign, idx0, i0)
    ensures Scan(idx', cands') == ScanTasks(flat, slots, w, canAssign, idx0, i0 + |tasks|)
  {
    idx', cands' := idx, cands;
    var j := 0;
    while j < |tasks|
      invariant 0 <= j <= |tasks|
      invariant Scan(idx', cands') == ScanTasks(flat, slots, w, canAssign, idx0, i0 + j)
    {
      idx', cands' := ScanOne(flat, slots, w, canAssign, idx0, i0 + j, tasks[j], idx', cands');
      j := j + 1;
    }
  }

  /** One pass of the inner scan loop body: task `flat[i]` is weighed
      against the best rank so far. */
  method ScanOne(ghost flat: seq<nat>, slots: seq<seq<WorkerInfo>>, w: WorkerInfo, canAssign: nat -> bool,
                 ghost idx0: nat, i: nat, task: nat, idx: nat, cands: seq<nat>) returns (idx': nat, cands': seq<nat>)
    requires i < |flat| <= |slots| && flat[i] == task
    requires Scan(idx, cands) == ScanTasks(flat, slots, w, canAssign, idx0, i)
    ensures Scan(idx', cands') == ScanTasks(flat, slots, w, canAssign, idx0, i + 1)
  {
    idx', cands' := idx, cands;
    if canAssign(task) {
      var icand := IndexOf(slots[i], w);
      if icand < idx {
        idx', cands' := icand, [task];
      } else if icand == idx {
        cands' := cands + [task];
      }
    }
  }

  /** The tie-break loop over the candidates. */
  method PickTask(cands: seq<nat>, quantity: nat -> int, tasks: seq<BuilderTask>, p: Point) returns (task: nat)
    requires cands != []
    ensures task == TieBreak(cands, quantity, tasks, p, |cands|)
  {
    task := cands[0];
    var dist := DistTo(tasks, p, task);
    var q0 := quantity(task);
    var k := 0;
    while k < |cands|
      invariant 0 <= k <= |cands|
      invariant task == TieBreak(cands, quantity, tasks, p, k)
      invariant dist == DistTo(tasks, p, task) && q0 == quantity(task)
    {
      var t := cands[k];
      var d := DistTo(tasks, p, t);
      var q := quantity(t);
      if q < q0 || (q == q0 && d < dist) {
        q0 := q;
        dist := d;
        task := t;
      }
      k := k + 1;
    }
  }

  /** In a fresh cache every slot holds the worker's info, so its rank in
      any slot is below the size of the front slot. */
  lemma CacheRanks(rel: seq<seq<WorkerInfo>>, workers: set<UnitId>, flat: seq<nat>, tasks: seq<BuilderTask>, w: WorkerInfo)
    requires CacheOk(rel, workers, flat, tasks) && rel != [] && w in rel[0]
    ensures forall i :: 0 <= i < |flat| ==> IndexOf(rel[i], w) < |rel[0]|
  {
    forall i | 0 <= i < |flat| ensures IndexOf(rel[i], w) < |rel[0]| {
      assert w in multiset(rel[i]);
      assert |rel[i]| == |multiset(rel[i])| == |multiset(rel[0])| == |rel[0]|;
    }
  }

  lemma UnitsOfPerm(a: seq<WorkerInfo>, b: seq<WorkerInfo>)
    requires multiset(a) == multiset(b)
    ensures UnitsOf(a) == UnitsOf(b)
  {
    forall u ensures u in UnitsOf(a) <==> u in UnitsOf(b) {
      if u in UnitsOf(a) {
        var w :| w in a && w.unit == u;
        assert w in multiset(b);
      }
      if u in UnitsOf(b) {
        var w :| w in b && w.unit == u;
        assert w in multiset(a);
      }
    }
  }

  /** `CCircuitUnit::RemoveTask` and the "no slot refers to the unit"
      sweeps of the destroyed handlers. */
  function Cleared(c: ClusterInfo, unit: UnitId, pylon: bool): ClusterInfo {
    if pylon then (if c.pylon == Some(unit) then c.(pylon := None) else c)
    else (if c.factory == Some(unit) then c.(factory := None) else c)
  }

  /** `for (auto& info : clusterInfo) if (info.x == unit) info.x = nullptr;` */
  method ClearSlots(info: seq<ClusterInfo>, unit: UnitId, pylon: bool) returns (r: seq<ClusterInfo>)
    ensures |r| == |info|
    ensures forall k :: 0 <= k < |r| ==> r[k] == Cleared(info[k], unit, pylon)
    ensures forall k :: 0 <= k < |r| ==> (if pylon then r[k].pylon else r[k].factory) != Some(unit)
    ensures forall k :: 0 <= k < |r| ==> (if pylon then r[k].factory == info[k].factory else r[k].pylon == info[k].pylon)
  {
    r := info;
    var k := 0;
    while k < |r|
      invariant 0 <= k <= |r| == |info|
      invariant forall j :: 0 <= j < k ==> r[j] == Cleared(info[j], unit, pylon)
      invariant forall j :: k <= j < |r| ==> r[j] == info[j]
    {
      if pylon && r[k].pylon == Some(unit) {
        r := r[k := r[k].(pylon := None)];
      } else if !pylon && r[k].factory == Some(unit) {
        r := r[k := r[k].(factory := None)];
      }
      k := k + 1;
    }
  }

  /** The armnanotc finished handler's loop: the caretaker joins every
      factory within its build range. */
  method AttachNano(factories: map<UnitId, seq<UnitId>>, nano: UnitId, from: Point, radius: real, at: UnitId -> Point)
    returns (r: map<UnitId, seq<UnitId>>)
    ensures r.Keys == factories.Keys
    ensures forall f :: f in r ==> r[f] == if QDistR(at(f), from) < radius * radius then factories[f] + [nano] else factories[f]
  {
    var qradius := radius * radius;
    r := factories;
    var rest := factories.Keys;
    while rest != {}
      invariant rest <= factories.Keys == r.Keys
      invariant forall f :: f in r ==> r[f] == if f !in rest && QDistR(at(f), from) < qradius then factories[f] + [nano] else factories[f]
      decreases |rest|
    {
      var f :| f in rest;
      if QDistR(at(f), from) < qradius {
        r := r[f := r[f] + [nano]];
      }
      rest := rest - {f};
    }
  }

  /** The armnanotc destroyed handler's loop: the caretaker leaves every
      factory's list. */
  method DetachNano(factories: map<UnitId, seq<UnitId>>, nano: UnitId) returns (r: map<UnitId, seq<UnitId>>)
    ensures r.Keys == factories.Keys
    ensures forall f :: f in r ==> r[f] == RemoveAll(factories[f], nano)
  {
    r := factories;
    var rest := factories.Keys;
    while rest != {}
      invariant rest <= factories.Keys == r.Keys
      invariant forall f :: f in r ==> r[f] == if f !in rest then RemoveAll(factories[f], nano) else factories[f]
      decreases |rest|
    {
      var f :| f in rest;
      r := r[f := RemoveAll(r[f], nano)];
      rest := rest - {f};
    }
  }

  /** The units of a completed factory task lose their task. */
  function Orphan(m: map<UnitId, Option<TaskRef>>, us: seq<UnitId>): map<UnitId, Option<TaskRef>> {
    map u | u in m.Keys + (set x | x in us) :: if u in us then None else m[u]
  }

  method OrphanUnits(m: map<UnitId, Option<TaskRef>>, us: seq<UnitId>) returns (r: map<UnitId, Option<TaskRef>>)
    ensures r == Orphan(m, us)
  {
    r := m;
    var i := 0;
    while i < |us|
      invariant 0 <= i <= |us|
      invariant r == Orphan(m, us[..i])
    {
      assert us[..i + 1] == us[..i] + [us[i]];
      r := r[us[i] := None];
      i := i + 1;
    }
    assert us[..i] == us;
  }

  /** Pushes `ts` one by one, as the update loops do. */
  method PushAll(bd: Board, ts: seq<BuilderTask>) returns (r: Board)
    ensures r == PushEach(bd, ts)
  {
    r := bd;
    var i := 0;
    while i < |ts|
      invariant 0 <= i <= |ts|
      invariant r == PushEach(bd, ts[..i])
    {
      PushEachSnoc(bd, ts[..i], ts[i]);
      assert ts[..i + 1] == ts[..i] + [ts[i]];
      r := Push(r, ts[i]);
      i := i + 1;
    }
    assert ts[..i] == ts;
  }

  // ---------------------------------------------------------------------
  // The periodic updates.
  // ---------------------------------------------------------------------

  /** `UpdateExpandTasks`: with demand open and no expansion listed, one
      LOW expansion per free metal spot, each with its build position set
      to the spot. */
  function ExpandUpdate(s: State, spots: seq<Point>): State {
    if DemandMet(s.builderTasksCount, |s.workers|) || Bucket(s.builderTasks, EXPAND) != [] then s
    else WithPushed(s, ExpandTasks(spots), s.builderTasksCount + |spots|)
  }

  /** The expansion update keeps the invariants and the count in step. */
  lemma ExpandUpdateOk(s: State, spots: seq<Point>)
    requires StateOk(s)
    ensures StateOk(ExpandUpdate(s, spots))
    ensures Drift(ExpandUpdate(s, spots)) == Drift(s)
  {
    if !(DemandMet(s.builderTasksCount, |s.workers|) || Bucket(s.builderTasks, EXPAND) != []) {
      PushKeepsOk(s, ExpandTasks(spots), s.builderTasksCount + |spots|);
    }
  }

  /** Nothing changes when demand is met or an expansion is listed. */
  lemma ExpandUpdateGate(s: State, spots: seq<Point>)
    requires DemandMet(s.builderTasksCount, |s.workers|) || Bucket(s.builderTasks, EXPAND) != []
    ensures ExpandUpdate(s, spots) == s
  {
  }

  /** Otherwise the expansion bucket holds exactly the new tasks, newest
      first, every other bucket is unchanged, the table gains the tasks and
      the cache is stale. */
  lemma ExpandUpdateOpens(s: State, spots: seq<Point>)
    requires !DemandMet(s.builderTasksCount, |s.workers|) && Bucket(s.builderTasks, EXPAND) == []
    ensures Bucket(ExpandUpdate(s, spots).builderTasks, EXPAND) == Pushed(|s.btasks|, |spots|)
    ensures forall t :: t != EXPAND ==> Bucket(ExpandUpdate(s, spots).builderTasks, t) == Bucket(s.builderTasks, t)
    ensures ExpandUpdate(s, spots).btasks == s.btasks + ExpandTasks(spots)
    ensures ExpandUpdate(s, spots).isCachedChanged
  {
    var b0 := Board(s.btasks, s.builderTasks);
    var bd := PushEach(b0, ExpandTasks(spots));
    PushEachOnly(b0, ExpandTasks(spots), EXPAND);
    assert ExpandUpdate(s, spots).builderTasks == bd.buckets && ExpandUpdate(s, spots).btasks == bd.tasks;
  }

  /** `UpdateEnergyTasks`: the tasks of `EnergyPlan` are pushed and counted;
      the cache goes stale exactly when a branch fires. */
  function EnergyUpdate(s: State, metalIncome: real, energyIncome: real, solarSpots: seq<Point>, fusionSpot: Option<Point>,
                        singuSpots: seq<Point>, m: MapInfo, rnd: nat -> nat): State
    requires MapOk(m, |s.clusterInfo|)
  {
    var plan := EnergyPlan(s, metalIncome, energyIncome, solarSpots, fusionSpot, singuSpots, m, rnd);
    if plan == [] then s else WithPushed(s, plan, s.builderTasksCount + |plan|)
  }

  /** The energy update keeps the invariants, raises the count by exactly
      the number of tasks pushed, and appends exactly the plan. */
  lemma EnergyUpdateOk(s: State, metalIncome: real, energyIncome: real, solarSpots: seq<Point>, fusionSpot: Option<Point>,
                       singuSpots: seq<Point>, m: MapInfo, rnd: nat -> nat)
    requires StateOk(s) && MapOk(m, |s.clusterInfo|)
    ensures StateOk(EnergyUpdate(s, metalIncome, energyIncome, solarSpots, fusionSpot, singuSpots, m, rnd))
    ensures Drift(EnergyUpdate(s, metalIncome, energyIncome, solarSpots, fusionSpot, singuSpots, m, rnd)) == Drift(s)
    ensures EnergyUpdate(s, metalIncome, energyIncome, solarSpots, fusionSpot, singuSpots, m, rnd).btasks
            == s.btasks + EnergyPlan(s, metalIncome, energyIncome, solarSpots, fusionSpot, singuSpots, m, rnd)
    ensures EnergyUpdate(s, metalIncome, energyIncome, solarSpots, fusionSpot, singuSpots, m, rnd).builderTasksCount
            == s.builderTasksCount + |EnergyPlan(s, metalIncome, energyIncome, solarSpots, fusionSpot, singuSpots, m, rnd)|
  {
    var plan := EnergyPlan(s, metalIncome, energyIncome, solarSpots, fusionSpot, singuSpots, m, rnd);
    if plan != [] {
      EnergyPlanGate(s, metalIncome, energyIncome, solarSpots, fusionSpot, singuSpots, m, rnd);
      PushKeepsOk(s, plan, s.builderTasksCount + |plan|);
    }
  }

  /** A factory slot with fewer than four caretakers. */
  function SmallFactory(factories: map<UnitId, seq<UnitId>>): nat -> bool {
    f => f in factories && |factories[f]| < 4
  }

  /** Where a new factory goes: the centroid of the nearest cluster
      without a factory, or a random central site. */
  function FactorySite(s: State, m: MapInfo, rnd: nat -> nat): Point
    requires MapOk(m, |s.clusterInfo|)
  {
    match FreeCluster(m.nearClusters, s.clusterInfo, false)
    case Some(c) => m.centroids[c]
    case None => RandomSite(m.width * SQUARE_SIZE, m.height * SQUARE_SIZE, rnd(0), rnd(1))
  }

  /** The task `UpdateBuilderTasks` opens: a caretaker behind the first
      factory (in `order`) with fewer than four, or else a new factory. */
  function BuildPowerTask(s: State, order: seq<UnitId>, m: MapInfo, rnd: nat -> nat, fp: UnitId -> Footprint): BuilderTask
    requires MapOk(m, |s.clusterInfo|)
  {
    var i := FirstAssignable(order, SmallFactory(s.factories));
    if i < |order| then
      var f := fp(order[i]);
      NewBuilderTask(LOW, NanoSite(f.pos, f.facing, f.xSize, f.zSize), NANO)
    else NewBuilderTask(LOW, FactorySite(s, m, rnd), FACTORY)
  }

  /** The condition under which `UpdateBuilderTasks` opens a task. */
  predicate WantsBuildPower(s: State, metalIncome: real) {
    && !DemandMet(s.builderTasksCount, |s.workers|)
    && s.factoryPower < metalIncome
    && Bucket(s.builderTasks, FACTORY) == [] && Bucket(s.builderTasks, NANO) == []
  }

  /** `UpdateBuilderTasks`: `order` is the iteration order of `factories`. */
  function BuilderUpdate(s: State, metalIncome: real, order: seq<UnitId>, m: MapInfo, rnd: nat -> nat, fp: UnitId -> Footprint): State
    requires MapOk(m, |s.clusterInfo|)
  {
    if WantsBuildPower(s, metalIncome) then WithPushed(s, [BuildPowerTask(s, order, m, rnd, fp)], s.builderTasksCount + 1)
    else s
  }

  /** The builder update keeps the invariants and the count in step, and
      opens at most one task. */
  lemma BuilderUpdateOk(s: State, metalIncome: real, order: seq<UnitId>, m: MapInfo, rnd: nat -> nat, fp: UnitId -> Footprint)
    requires StateOk(s) && MapOk(m, |s.clusterInfo|)
    ensures StateOk(BuilderUpdate(s, metalIncome, order, m, rnd, fp))
    ensures Drift(BuilderUpdate(s, metalIncome, order, m, rnd, fp)) == Drift(s)
    ensures BuilderUpdate(s, metalIncome, order, m, rnd, fp).btasks
            == s.btasks + (if WantsBuildPower(s, metalIncome) then [BuildPowerTask(s, order, m, rnd, fp)] else [])
  {
    if WantsBuildPower(s, metalIncome) {
      PushKeepsOk(s, [BuildPowerTask(s, order, m, rnd, fp)], s.builderTasksCount + 1);
    }
  }

  /** A caretaker is asked for exactly when some factory has fewer than
      four, and then for the first such factory, straight behind it;
      otherwise the factory goes to the nearest cluster without one, or to
      the central part of the map when every cluster has one. */
  lemma BuildPowerTaskMeaning(s: State, order: seq<UnitId>, m: MapInfo, rnd: nat -> nat, fp: UnitId -> Footprint)
    requires MapOk(m, |s.clusterInfo|)
    ensures BuildPowerTask(s, order, m, rnd, fp).priority == LOW
    ensures BuildPowerTask(s, order, m, rnd, fp).kind == NANO
            <==> exists k :: 0 <= k < |order| && order[k] in s.factories && |s.factories[order[k]]| < 4
    ensures BuildPowerTask(s, order, m, rnd, fp).kind == NANO ==>
              exists k :: 0 <= k < |order| && order[k] in s.factories && |s.factories[order[k]]| < 4
                          && (forall j :: 0 <= j < k ==> !(order[j] in s.factories && |s.factories[order[j]]| < 4))
                          && BuildPowerTask(s, order, m, rnd, fp).pos
                             == NanoSite(fp(order[k]).pos, fp(order[k]).facing, fp(order[k]).xSize, fp(order[k]).zSize)
    ensures BuildPowerTask(s, order, m, rnd, fp).kind == FACTORY ==>
              if exists k :: 0 <= k < |m.nearClusters| && s.clusterInfo[m.nearClusters[k]].factory.None?
              then exists c :: c in m.nearClusters && s.clusterInfo[c].factory.None? && BuildPowerTask(s, order, m, rnd, fp).pos == m.centroids[c]
              else BuildPowerTask(s, order, m, rnd, fp).pos == RandomSite(m.width * SQUARE_SIZE, m.height * SQUARE_SIZE, rnd(0), rnd(1))
  {
    var i := FirstAssignable(order, SmallFactory(s.factories));
    if i == |order| {
      assert forall k :: 0 <= k < |order| ==> !SmallFactory(s.factories)(order[k]);
      var r := FreeCluster(m.nearClusters, s.clusterInfo, false);
      if r.Some? {
        var k :| 0 <= k < |m.nearClusters| && m.nearClusters[k] == r.value && Free(s.clusterInfo[r.value], false);
      }
    } else {
      assert SmallFactory(s.factories)(order[i]);
    }
  }

  /** Some listed factory task builds build power. */
  predicate HasBuildPower(ftasks: seq<FactoryTask>, ids: seq<nat>)
    requires FactoryListOk(ids, |ftasks|)
  {
    exists k :: 0 <= k < |ids| && ftasks[ids[k]].kind == BUILDPOWER
  }

  /** `std::max(GetWidth(), GetHeight()) * SQUARE_SIZE / 4` in integer
      arithmetic. */
  function BuildPowerRadius(m: MapInfo): real {
    ((if m.width > m.height then m.width else m.height) * SQUARE_SIZE / 4) as real
  }

  /** `UpdateFactoryTasks`: `order` is the iteration order of `factories`
      and `r` the `rand()` draw that picks one. */
  function FactoryUpdate(s: State, metalIncome: real, order: seq<UnitId>, r: nat, at: UnitId -> Point, m: MapInfo): State
    requires FactoryListOk(s.factoryTasks, |s.ftasks|) && |order| == |s.factories|
  {
    if |s.factoryTasks| >= |s.factories| * 2 then s
    else if !(s.builderPower < metalIncome * 1.5 && |s.factories| > 0) then s
    else if HasBuildPower(s.ftasks, s.factoryTasks) then s
    else
      var f := order[r % |order|];
      s.(ftasks := s.ftasks + [FactoryTask(LOW, at(f), BUILDPOWER, 2, BuildPowerRadius(m))],
         factoryTasks := [|s.ftasks|] + s.factoryTasks)
  }

  /** The factory update keeps the invariants, only ever adds a
      build-power task at the front when none is listed (so at most one is
      ever listed), and opens nothing while the factory list is at twice
      the number of factories. */
  lemma FactoryUpdateMeaning(s: State, metalIncome: real, order: seq<UnitId>, r: nat, at: UnitId -> Point, m: MapInfo)
    requires StateOk(s) && |order| == |s.factories|
    ensures StateOk(FactoryUpdate(s, metalIncome, order, r, at, m))
    ensures FactoryUpdate(s, metalIncome, order, r, at, m).builderTasks == s.builderTasks
    ensures FactoryUpdate(s, metalIncome, order, r, at, m).btasks == s.btasks
    ensures |s.factoryTasks| >= |s.factories| * 2 ==> FactoryUpdate(s, metalIncome, order, r, at, m) == s
    ensures HasBuildPower(s.ftasks, s.factoryTasks) ==> FactoryUpdate(s, metalIncome, order, r, at, m) == s
    ensures FactoryUpdate(s, metalIncome, order, r, at, m) != s ==>
              var n := FactoryUpdate(s, metalIncome, order, r, at, m);
              && n.factoryTasks == [|s.ftasks|] + s.factoryTasks
              && n.ftasks[|s.ftasks|].kind == BUILDPOWER && n.ftasks[|s.ftasks|].quantity == 2
              && n.ftasks[|s.ftasks|].pos == at(order[r % |order|])
              && UniqueBuildPower(n.ftasks, n.factoryTasks)
  {
    var n := FactoryUpdate(s, metalIncome, order, r, at, m);
    if n != s {
      RefsGrow(s.unitTask, s.unfinishedUnits, |s.btasks|, |s.ftasks|, |s.btasks|, |s.ftasks| + 1);
      var ids := n.factoryTasks;
      assert forall k :: 1 <= k < |ids| ==> ids[k] == s.factoryTasks[k - 1];
      forall j, k | 0 <= j < k < |ids| && n.ftasks[ids[j]].kind == BUILDPOWER ensures n.ftasks[ids[k]].kind != BUILDPOWER {
        assert n.ftasks[ids[k]] == s.ftasks[s.factoryTasks[k - 1]];
      }
    }
  }

  /** No two listed factory tasks build build power. */
  predicate UniqueBuildPower(ftasks: seq<FactoryTask>, ids: seq<nat>)
    requires FactoryListOk(ids, |ftasks|)
  {
    forall j, k :: 0 <= j < k < |ids| && ftasks[ids[j]].kind == BUILDPOWER ==> ftasks[ids[k]].kind != BUILDPOWER
  }

  /** The scan of `UpdateFactoryTasks` for a listed build-power task. */
  method FindBuildPower(ftasks: seq<FactoryTask>, ids: seq<nat>) returns (found: bool)
    requires FactoryListOk(ids, |ftasks|)
    ensures found == HasBuildPower(ftasks, ids)
  {
    var k := 0;
    while k < |ids|
      invariant 0 <= k <= |ids|
      invariant forall j :: 0 <= j < k ==> ftasks[ids[j]].kind != BUILDPOWER
    {
      if ftasks[ids[k]].kind == BUILDPOWER {
        return true;
      }
      k := k + 1;
    }
    return false;
  }

  /** The first factory in `order` with fewer than four caretakers. */
  method FindSmallFactory(order: seq<UnitId>, factories: map<UnitId, seq<UnitId>>) returns (i: nat)
    ensures i == FirstAssignable(order, SmallFactory(factories))
  {
    i := 0;
    while i < |order| && !(order[i] in factories && |factories[order[i]]| < 4)
      invariant 0 <= i <= |order|
      invariant FirstAssignable(order, SmallFactory(factories)) >= i
      invariant forall k :: 0 <= k < i ==> !SmallFactory(factories)(order[k])
    {
      i := i + 1;
    }
    assert i < |order| ==> SmallFactory(factories)(order[i]);
  }

  /** The first task of `ids` that accepts the unit. */
  method FindAssignable(ids: seq<nat>, canAssign: nat -> bool) returns (i: nat)
    ensures i == FirstAssignable(ids, canAssign)
  {
    i := 0;
    while i < |ids| && !canAssign(ids[i])
      invariant 0 <= i <= |ids|
      invariant FirstAssignable(ids, canAssign) >= i
      invariant forall k :: 0 <= k < i ==> !canAssign(ids[k])
    {
      i := i + 1;
    }
  }

  // ---------------------------------------------------------------------
  // The watchdog.
  // ---------------------------------------------------------------------

  /** The builder task a unit carries, if any. */
  function BuilderTaskOf(s: State, u: UnitId): Option<BuilderTask> {
    if u in s.unitTask && s.unitTask[u].BuilderRef? && s.unitTask[u].b < |s.btasks| then Some(s.btasks[s.unitTask[u].b])
    else None
  }

  /** An assistant stuck beyond its timeout: its task is an ASSIST task
      with a positive timeout, started strictly more than `timeout` frames
      ago. */
  predicate Expired(s: State, u: UnitId, lastFrame: int)
    requires u in s.builderInfo
  {
    var t := BuilderTaskOf(s, u);
    t.Some? && t.value.kind == ASSIST && t.value.timeout > 0 && lastFrame - s.builderInfo[u] > t.value.timeout
  }

  function Swept(s: State, lastFrame: int): map<UnitId, int> {
    map u | u in s.builderInfo && !Expired(s, u, lastFrame) :: s.builderInfo[u]
  }

  /** The tasks the units keep: an expired assistant's task is marked
      completed and deleted, so the unit is left without one. */
  function Released(s: State, lastFrame: int): map<UnitId, TaskRef> {
    map u | u in s.unitTask && !(u in s.builderInfo && Expired(s, u, lastFrame)) :: s.unitTask[u]
  }

  /** `WorkerWatchdog`: every expired assistant loses its start frame and
      its task. The ASSIST bucket it also clears is always empty
      (`TasksOk`). */
  function WatchdogUpdate(s: State, lastFrame: int): State {
    s.(builderInfo := Swept(s, lastFrame), unitTask := Released(s, lastFrame))
  }

  /** The watchdog drops exactly the expired assistants, with their tasks,
      and keeps the start frame and the task of every other unit; nothing
      else changes. */
  lemma WatchdogMeaning(s: State, lastFrame: int, u: UnitId)
    requires StateOk(s)
    ensures StateOk(WatchdogUpdate(s, lastFrame)) && Drift(WatchdogUpdate(s, lastFrame)) == Drift(s)
    ensures u in WatchdogUpdate(s, lastFrame).builderInfo <==> u in s.builderInfo && !Expired(s, u, lastFrame)
    ensures u in WatchdogUpdate(s, lastFrame).builderInfo ==> WatchdogUpdate(s, lastFrame).builderInfo[u] == s.builderInfo[u]
    ensures u in WatchdogUpdate(s, lastFrame).unitTask <==> u in s.unitTask && !(u in s.builderInfo && Expired(s, u, lastFrame))
    ensures u in WatchdogUpdate(s, lastFrame).unitTask ==> WatchdogUpdate(s, lastFrame).unitTask[u] == s.unitTask[u]
    ensures u in s.builderInfo && Expired(s, u, lastFrame) ==> BuilderTaskOf(WatchdogUpdate(s, lastFrame), u).None?
    ensures WatchdogUpdate(s, lastFrame).(builderInfo := s.builderInfo, unitTask := s.unitTask) == s
  {
  }

  /** Running the watchdog again in the same frame removes nothing more. */
  lemma WatchdogIdempotent(s: State, lastFrame: int)
    ensures WatchdogUpdate(WatchdogUpdate(s, lastFrame), lastFrame) == WatchdogUpdate(s, lastFrame)
  {
    var r := WatchdogUpdate(s, lastFrame);
    forall u | u in r.builderInfo ensures !Expired(r, u, lastFrame) {
      assert BuilderTaskOf(r, u) == BuilderTaskOf(s, u);
    }
    assert Swept(r, lastFrame) == r.builderInfo;
    assert Released(r, lastFrame) == r.unitTask;
  }

  /** An entry that survives the watchdog at a frame survives at every
      earlier frame: expiry is monotone in time. */
  lemma WatchdogMonotone(s: State, f1: int, f2: int, u: UnitId)
    requires f1 <= f2 && u in s.builderInfo
    ensures Expired(s, u, f1) ==> Expired(s, u, f2)
    ensures u in Swept(s, f2) ==> u in Swept(s, f1)
  {
  }

  /** The erase loop over `builderInfo`; `ut` is `unitTask` with the
      expired assistants' deleted tasks gone. */
  method SweepInfo(s: State, lastFrame: int) returns (r: map<UnitId, int>, ut: map<UnitId, TaskRef>)
    ensures r == Swept(s, lastFrame) && ut == Released(s, lastFrame)
  {
    r, ut := s.builderInfo, s.unitTask;
    var rest := s.builderInfo.Keys;
    while rest != {}
      invariant rest <= s.builderInfo.Keys
      invariant forall u :: u in r <==> u in s.builderInfo && (u in rest || !Expired(s, u, lastFrame))
      invariant forall u :: u in r ==> r[u] == s.builderInfo[u]
      invariant forall u :: u in ut <==> u in s.unitTask && !(u in s.builderInfo && u !in rest && Expired(s, u, lastFrame))
      invariant forall u :: u in ut ==> ut[u] == s.unitTask[u]
      decreases |rest|
    {
      var u :| u in rest;
      var t := BuilderTaskOf(s, u);
      if t.Some? && t.value.timeout > 0 && lastFrame - s.builderInfo[u] > t.value.timeout && t.value.kind == ASSIST {
        r := r - {u};
        ut := ut - {u};
      }
      rest := rest - {u};
    }
  }


  // ---------------------------------------------------------------------
  // The builder's task picker.
  // ---------------------------------------------------------------------

  /** The rank scan of `PrepareBuilder` over a fresh cache. Without the
      worker's info (an empty cache reused) there is nothing to rank. */
  function ScanOf(s: State, info: Option<WorkerInfo>, canAssign: nat -> bool): (r: Scan)
    requires |Flat(s.builderTasks)| <= |s.wtRelation|
    ensures info.None? ==> r.cands == []
  {
    if info.None? then Scan(FrontSize(s.wtRelation), [])
    else ScanTasks(Flat(s.builderTasks), s.wtRelation, info.value, canAssign, FrontSize(s.wtRelation), |Flat(s.builderTasks)|)
  }

  /** What `PrepareBuilder` does once the cache is fresh: the candidate of
      least rank, broken by quantity and then distance from the worker's
      cached position, is assigned; with no candidate a LOW DEFAULT task is
      opened at the worker's position and assigned. */
  function PreparedBuilder(s: State, unit: UnitId, info: Option<WorkerInfo>, canAssign: nat -> bool, quantity: nat -> int, unitPos: Point): (State, nat)
    requires |Flat(s.builderTasks)| <= |s.wtRelation|
  {
    var sc := ScanOf(s, info, canAssign);
    if sc.cands != [] then
      var t := TieBreak(sc.cands, quantity, s.btasks, info.value.pos, |sc.cands|);
      (s.(unitTask := s.unitTask[unit := BuilderRef(t)]), t)
    else
      var n := WithPushed(s, [NewBuilderTask(LOW, unitPos, DEFAULT)], s.builderTasksCount + 1);
      (n.(unitTask := n.unitTask[unit := BuilderRef(|s.btasks|)]), |s.btasks|)
  }

  /** A fresh cache holding the worker, unless it has no slot at all. */
  predicate FreshFor(s: State, info: Option<WorkerInfo>) {
    StateOk(s) && !s.isCachedChanged && (s.wtRelation != [] ==> info.Some? && info.value in s.wtRelation[0])
  }

  /** A new task is opened exactly when no listed task accepts the
      worker (in particular when nothing is listed); either way the worker
      is given the chosen task, the invariants hold and the count stays in
      step. */
  lemma PreparedBuilderOk(s: State, unit: UnitId, info: Option<WorkerInfo>, canAssign: nat -> bool, quantity: nat -> int, unitPos: Point)
    requires FreshFor(s, info)
    ensures StateOk(PreparedBuilder(s, unit, info, canAssign, quantity, unitPos).0)
    ensures Drift(PreparedBuilder(s, unit, info, canAssign, quantity, unitPos).0) == Drift(s)
    ensures PreparedBuilder(s, unit, info, canAssign, quantity, unitPos).0.unitTask
            == s.unitTask[unit := BuilderRef(PreparedBuilder(s, unit, info, canAssign, quantity, unitPos).1)]
    ensures PreparedBuilder(s, unit, info, canAssign, quantity, unitPos).1 == |s.btasks|
            <==> forall i :: 0 <= i < |Flat(s.builderTasks)| ==> !canAssign(Flat(s.builderTasks)[i])
  {
    var flat := Flat(s.builderTasks);
    if s.wtRelation == [] {
      assert flat == [] && ScanOf(s, info, canAssign).cands == [];
    } else {
      CacheRanks(s.wtRelation, s.workers, flat, s.btasks, info.value);
      ScanFindsAssignable(flat, s.wtRelation, info.value, canAssign, FrontSize(s.wtRelation));
    }
    if ScanOf(s, info, canAssign).cands != [] {
      PreparedExisting(s, unit, info, canAssign, quantity, unitPos);
    } else {
      PreparedNew(s, unit, info, canAssign, quantity, unitPos);
    }
  }

  lemma PreparedExisting(s: State, unit: UnitId, info: Option<WorkerInfo>, canAssign: nat -> bool, quantity: nat -> int, unitPos: Point)
    requires FreshFor(s, info) && ScanOf(s, info, canAssign).cands != []
    ensures StateOk(PreparedBuilder(s, unit, info, canAssign, quantity, unitPos).0)
    ensures Drift(PreparedBuilder(s, unit, info, canAssign, quantity, unitPos).0) == Drift(s)
    ensures PreparedBuilder(s, unit, info, canAssign, quantity, unitPos).0.unitTask
            == s.unitTask[unit := BuilderRef(PreparedBuilder(s, unit, info, canAssign, quantity, unitPos).1)]
    ensures PreparedBuilder(s, unit, info, canAssign, quantity, unitPos).1 in Flat(s.builderTasks)
  {
    var sc := ScanOf(s, info, canAssign);
    var t := TieBreak(sc.cands, quantity, s.btasks, info.value.pos, |sc.cands|);
    ChosenListed(s, info, canAssign, quantity);
    FlatBelow(s.builderTasks, |s.btasks|);
    var r := s.(unitTask := s.unitTask[unit := BuilderRef(t)]);
    assert PreparedBuilder(s, unit, info, canAssign, quantity, unitPos) == (r, t);
    assert t < |s.btasks|;
  }

  lemma PreparedNew(s: State, unit: UnitId, info: Option<WorkerInfo>, canAssign: nat -> bool, quantity: nat -> int, unitPos: Point)
    requires FreshFor(s, info) && ScanOf(s, info, canAssign).cands == []
    ensures StateOk(PreparedBuilder(s, unit, info, canAssign, quantity, unitPos).0)
    ensures Drift(PreparedBuilder(s, unit, info, canAssign, quantity, unitPos).0) == Drift(s)
    ensures PreparedBuilder(s, unit, info, canAssign, quantity, unitPos).0.unitTask
            == s.unitTask[unit := BuilderRef(PreparedBuilder(s, unit, info, canAssign, quantity, unitPos).1)]
    ensures PreparedBuilder(s, unit, info, canAssign, quantity, unitPos).1 == |s.btasks|
  {
    var task := NewBuilderTask(LOW, unitPos, DEFAULT);
    PushKeepsOk(s, [task], s.builderTasksCount + 1);
    var n := WithPushed(s, [task], s.builderTasksCount + 1);
    RefsGrow(n.unitTask, n.unfinishedUnits, |s.btasks|, |s.ftasks|, |n.btasks|, |n.ftasks|);
    var r := n.(unitTask := n.unitTask[unit := BuilderRef(|s.btasks|)]);
    assert PreparedBuilder(s, unit, info, canAssign, quantity, unitPos) == (r, |s.btasks|);
    assert n.unitTask == s.unitTask && |n.btasks| == |s.btasks| + 1;
  }

  /** The chosen task is a listed task that accepts the worker, on whose
      slot the worker has the least rank of all accepting tasks; no other
      task of that rank has strictly fewer units or, as many, is strictly
      closer. */
  lemma ChosenListed(s: State, info: Option<WorkerInfo>, canAssign: nat -> bool, quantity: nat -> int)
    requires FreshFor(s, info)
    requires ScanOf(s, info, canAssign).cands != []
    ensures info.Some?
    ensures var sc := ScanOf(s, info, canAssign);
            var w := info.value;
            var t := TieBreak(sc.cands, quantity, s.btasks, w.pos, |sc.cands|);
            var flat := Flat(s.builderTasks);
            && canAssign(t)
            && (exists i :: 0 <= i < |flat| && flat[i] == t && IndexOf(s.wtRelation[i], w) == sc.idx)
            && (forall j :: 0 <= j < |flat| && canAssign(flat[j]) ==> sc.idx <= IndexOf(s.wtRelation[j], w))
            && (forall c :: c in sc.cands ==> !Better(c, t, quantity, s.btasks, w.pos))
  {
    var flat := Flat(s.builderTasks);
    var sc := ScanOf(s, info, canAssign);
    var w := info.value;
    ScanTasksMeaning(flat, s.wtRelation, w, canAssign, FrontSize(s.wtRelation), |flat|);
    TieBreakMeaning(sc.cands, quantity, s.btasks, w.pos, |sc.cands|);
    var t := TieBreak(sc.cands, quantity, s.btasks, w.pos, |sc.cands|);
    TiedMember(flat, s.wtRelation, w, canAssign, |flat|, sc.idx, t);
  }

  /** With nothing listed (the state of the first idle of a game) the
      picker opens a LOW DEFAULT task at the worker's position, lists it
      as the only DEFAULT task and gives it to the worker. */
  lemma PreparedOnEmptyCatalog(s: State, unit: UnitId, info: Option<WorkerInfo>, canAssign: nat -> bool,
                               quantity: nat -> int, unitPos: Point)
    requires FreshFor(s, info) && Total(s.builderTasks) == 0
    ensures var (r, t) := PreparedBuilder(s, unit, info, canAssign, quantity, unitPos);
            && t == |s.btasks|
            && r.btasks == s.btasks + [NewBuilderTask(LOW, unitPos, DEFAULT)]
            && Flat(r.builderTasks) == [t] && Bucket(r.builderTasks, DEFAULT) == [t]
            && r.unitTask == s.unitTask[unit := BuilderRef(t)]
            && r.builderTasksCount == s.builderTasksCount + 1 && r.isCachedChanged
  {
    var task := NewBuilderTask(LOW, unitPos, DEFAULT);
    var n := WithPushed(s, [task], s.builderTasksCount + 1);
    assert ScanOf(s, info, canAssign).cands == [] by {
      if info.Some? {
        ScanFindsAssignable(Flat(s.builderTasks), s.wtRelation, info.value, canAssign, FrontSize(s.wtRelation));
      }
    }
    assert PreparedBuilder(s, unit, info, canAssign, quantity, unitPos) == (n.(unitTask := n.unitTask[unit := BuilderRef(|s.btasks|)]), |s.btasks|);
    PushOntoEmpty(Board(s.btasks, s.builderTasks), task);
  }



  /** A member of `Tied` is an accepting task of that rank. */
  lemma {:induction false} TiedMember(flat: seq<nat>, slots: seq<seq<WorkerInfo>>, w: WorkerInfo, canAssign: nat -> bool,
                                      n: nat, v: nat, t: nat)
    requires n <= |flat| <= |slots|
    requires t in Tied(flat, slots, w, canAssign, n, v)
    ensures canAssign(t) && exists i :: 0 <= i < n && flat[i] == t && IndexOf(slots[i], w) == v
  {
    if t !in Tied(flat, slots, w, canAssign, n - 1, v) {
      assert flat[n - 1] == t && canAssign(t) && IndexOf(slots[n - 1], w) == v;
    } else {
      TiedMember(flat, slots, w, canAssign, n - 1, v, t);
    }
  }

  // ---------------------------------------------------------------------
  // Unit lifecycle bookkeeping.
  // ---------------------------------------------------------------------

  /** `unfinishedTasks[task]`, with a missing key read as an empty list. */
  function UnitsOn(m: map<TaskRef, seq<UnitId>>, t: TaskRef): seq<UnitId> {
    if t in m then m[t] else []
  }

  /** The type of builder task `b`. */
  function KindOf(tasks: seq<BuilderTask>, b: nat): TaskType {
    if b < |tasks| then tasks[b].kind else DEFAULT
  }

  function WithTarget(tasks: seq<BuilderTask>, b: nat, target: Option<UnitId>): (r: seq<BuilderTask>)
    ensures |r| == |tasks| && forall k :: 0 <= k < |r| ==> r[k].pos == tasks[k].pos && r[k].kind == tasks[k].kind
  {
    if b < |tasks| then tasks[b := tasks[b].(target := target)] else tasks
  }

  /** `UnitCreated`: a unit started by a builder with a task is recorded as
      that task's unfinished unit; a builder task also takes it as target. */
  function Created(s: State, unit: UnitId, beingBuilt: bool, builder: Option<UnitId>): State {
    if beingBuilt && builder.Some? && builder.value in s.unitTask then
      var t := s.unitTask[builder.value];
      s.(btasks := if t.BuilderRef? then WithTarget(s.btasks, t.b, Some(unit)) else s.btasks,
         unfinishedUnits := s.unfinishedUnits[unit := Some(t)],
         unfinishedTasks := s.unfinishedTasks[t := UnitsOn(s.unfinishedTasks, t) + [unit]])
    else s
  }

  /** Recording keeps the invariants, the lists and the cache; the unit is
      then listed under its builder's task, last. */
  lemma CreatedOk(s: State, unit: UnitId, beingBuilt: bool, builder: Option<UnitId>)
    requires StateOk(s)
    ensures StateOk(Created(s, unit, beingBuilt, builder))
    ensures Created(s, unit, beingBuilt, builder).builderTasks == s.builderTasks
    ensures Created(s, unit, beingBuilt, builder).builderTasksCount == s.builderTasksCount
    ensures Created(s, unit, beingBuilt, builder).isCachedChanged == s.isCachedChanged
    ensures beingBuilt && builder.Some? && builder.value in s.unitTask ==>
              var t := s.unitTask[builder.value];
              var r := Created(s, unit, beingBuilt, builder);
              && r.unfinishedUnits[unit] == Some(t)
              && r.unfinishedTasks[t] == UnitsOn(s.unfinishedTasks, t) + [unit]
              && (t.BuilderRef? ==> r.btasks[t.b].target == Some(unit))
    ensures !(beingBuilt && builder.Some? && builder.value in s.unitTask) ==> Created(s, unit, beingBuilt, builder) == s
  {
    var r := Created(s, unit, beingBuilt, builder);
    if !s.isCachedChanged {
      CacheSamePositions(s.wtRelation, s.workers, Flat(s.builderTasks), s.btasks, r.btasks);
    }
  }

  /** `UnitFinished`'s bookkeeping when the unit was unfinished: a factory
      task progresses (`done` is `IsDone()` afterwards) and, when done, is
      unlisted and every unit it started loses it; a builder task is
      completed, unlisted and uncounted. */
  function Finished(s: State, unit: UnitId, done: bool): State {
    if unit !in s.unfinishedUnits then s
    else
      var rest := s.unfinishedUnits - {unit};
      match s.unfinishedUnits[unit]
      case None => s.(unfinishedUnits := rest)
      case Some(t) =>
        match t
        case FactoryRef(f) =>
          if done then
            s.(factoryTasks := RemoveAll(s.factoryTasks, f), isCachedChanged := true,
               unfinishedUnits := Orphan(s.unfinishedUnits, UnitsOn(s.unfinishedTasks, t)) - {unit},
               unfinishedTasks := s.unfinishedTasks - {t})
          else
            s.(unfinishedTasks := s.unfinishedTasks[t := RemoveAll(UnitsOn(s.unfinishedTasks, t), unit)],
               unfinishedUnits := rest)
        case BuilderRef(b) =>
          var k := KindOf(s.btasks, b);
          s.(builderTasks := s.builderTasks[k := RemoveAll(Bucket(s.builderTasks, k), b)], isCachedChanged := true,
             builderTasksCount := s.builderTasksCount - 1, unfinishedUnits := rest)
  }

  /** Finishing keeps the invariants and forgets the unit; unless a
      builder task completes, the count stays in step. */
  lemma FinishedOk(s: State, unit: UnitId, done: bool)
    requires StateOk(s)
    ensures StateOk(Finished(s, unit, done))
    ensures unit !in Finished(s, unit, done).unfinishedUnits
    ensures !(unit in s.unfinishedUnits && s.unfinishedUnits[unit].Some? && s.unfinishedUnits[unit].value.BuilderRef?) ==>
              Drift(Finished(s, unit, done)) == Drift(s)
  {
    if unit in s.unfinishedUnits && s.unfinishedUnits[unit].Some? {
      match s.unfinishedUnits[unit].value
      case BuilderRef(b) => FinishedBuilder(s, unit, done, b);
      case FactoryRef(f) => FinishedFactory(s, unit, done, f);
    }
  }

  /** A completed builder task leaves its bucket; the count stays in step
      exactly when the task was listed there. */
  lemma FinishedBuilder(s: State, unit: UnitId, done: bool, b: nat)
    requires StateOk(s) && unit in s.unfinishedUnits && s.unfinishedUnits[unit] == Some(BuilderRef(b))
    ensures StateOk(Finished(s, unit, done))
    ensures Drift(Finished(s, unit, done)) == Drift(s) <==> b in Bucket(s.builderTasks, KindOf(s.btasks, b))
    ensures b !in Bucket(Finished(s, unit, done).builderTasks, KindOf(s.btasks, b))
    ensures Finished(s, unit, done).isCachedChanged
  {
    RemoveFromBucket(s.builderTasks, |s.btasks|, KindOf(s.btasks, b), b);
  }

  /** A factory task that is done leaves the factory list, and every unit
      it started loses it; one that is not done forgets the finished unit. */
  lemma FinishedFactory(s: State, unit: UnitId, done: bool, f: nat)
    requires StateOk(s) && unit in s.unfinishedUnits && s.unfinishedUnits[unit] == Some(FactoryRef(f))
    ensures StateOk(Finished(s, unit, done))
    ensures Drift(Finished(s, unit, done)) == Drift(s)
    ensures done ==> f !in Finished(s, unit, done).factoryTasks && FactoryRef(f) !in Finished(s, unit, done).unfinishedTasks
    ensures done ==> forall u :: u in UnitsOn(s.unfinishedTasks, FactoryRef(f)) && u != unit ==>
                       Finished(s, unit, done).unfinishedUnits[u] == None
    ensures !done ==> Finished(s, unit, done).unfinishedTasks[FactoryRef(f)] == RemoveAll(UnitsOn(s.unfinishedTasks, FactoryRef(f)), unit)
  {
    var r := Finished(s, unit, done);
    if done {
      forall k | 0 <= k < |r.factoryTasks| ensures r.factoryTasks[k] < |r.ftasks| {
        assert r.factoryTasks[k] in s.factoryTasks;
      }
    }
  }

  /** `UnitDestroyed`'s bookkeeping for a unit that dies unfinished: it
      leaves the factory task's list of started units (an emptied list is
      erased), or its builder task loses the list and the target. */
  function Destroyed(s: State, unit: UnitId, beingBuilt: bool): State {
    if !beingBuilt || unit !in s.unfinishedUnits then s
    else
      var o := s.unfinishedUnits[unit];
      s.(unfinishedTasks := if o.Some? then Dropped(s.unfinishedTasks, unit, o.value) else s.unfinishedTasks,
         btasks := if o.Some? && o.value.BuilderRef? then WithTarget(s.btasks, o.value.b, None) else s.btasks,
         unfinishedUnits := s.unfinishedUnits - {unit})
  }

  /** The started-units lists once `unit`, started for task `t`, is gone. */
  function Dropped(m: map<TaskRef, seq<UnitId>>, unit: UnitId, t: TaskRef): map<TaskRef, seq<UnitId>> {
    if t.BuilderRef? then m - {t}
    else
      var units := RemoveAll(UnitsOn(m, t), unit);
      if units == [] then m - {t} else m[t := units]
  }

  /** Destruction keeps the invariants, the lists, the count and the
      cache, and forgets an unfinished unit; a finished unit changes
      nothing. */
  lemma DestroyedOk(s: State, unit: UnitId, beingBuilt: bool)
    requires StateOk(s)
    ensures StateOk(Destroyed(s, unit, beingBuilt))
    ensures Destroyed(s, unit, beingBuilt).builderTasks == s.builderTasks
    ensures Destroyed(s, unit, beingBuilt).builderTasksCount == s.builderTasksCount
    ensures Destroyed(s, unit, beingBuilt).isCachedChanged == s.isCachedChanged
    ensures beingBuilt ==> unit !in Destroyed(s, unit, beingBuilt).unfinishedUnits
    ensures !beingBuilt ==> Destroyed(s, unit, beingBuilt) == s
  {
    if beingBuilt && unit in s.unfinishedUnits {
      SameCatalogOk(s, Destroyed(s, unit, beingBuilt));
    }
  }

  /** A factory task keeps the units it started other than the dead one,
      and no empty list is left behind. */
  lemma DestroyedFactory(s: State, unit: UnitId, f: nat)
    requires unit in s.unfinishedUnits && s.unfinishedUnits[unit] == Some(FactoryRef(f))
    ensures UnitsOn(Destroyed(s, unit, true).unfinishedTasks, FactoryRef(f))
            == RemoveAll(UnitsOn(s.unfinishedTasks, FactoryRef(f)), unit)
    ensures FactoryRef(f) in Destroyed(s, unit, true).unfinishedTasks ==> Destroyed(s, unit, true).unfinishedTasks[FactoryRef(f)] != []
    ensures forall t :: t != FactoryRef(f) ==> UnitsOn(Destroyed(s, unit, true).unfinishedTasks, t) == UnitsOn(s.unfinishedTasks, t)
  {
  }

  /** A builder task whose building died is left without a target and
      without unfinished units. */
  lemma DestroyedBuilder(s: State, unit: UnitId, b: nat)
    requires unit in s.unfinishedUnits && s.unfinishedUnits[unit] == Some(BuilderRef(b)) && b < |s.btasks|
    ensures BuilderRef(b) !in Destroyed(s, unit, true).unfinishedTasks
    ensures Destroyed(s, unit, true).btasks[b].target.None?
    ensures Destroyed(s, unit, true).btasks == s.btasks[b := s.btasks[b].(target := None)]
  {
  }

  // ---------------------------------------------------------------------
  // Executing a builder task.
  // ---------------------------------------------------------------------

  /** How long an assistant opened by the fallback may stay stuck. */
  const ASSIST_TIMEOUT: int := FRAMES_PER_SEC * 20

  /** The `assistFallback` lambda: the worker's task is unlisted and
      uncounted, and the worker is given a new, unlisted LOW ASSIST task at
      its position with a timeout, started now. */
  function Fallback(s: State, unit: UnitId, b: nat, lastFrame: int, unitPos: Point): State {
    var k := KindOf(s.btasks, b);
    s.(builderTasks := s.builderTasks[k := RemoveAll(Bucket(s.builderTasks, k), b)], isCachedChanged := true,
       builderTasksCount := s.builderTasksCount - 1,
       btasks := s.btasks + [BuilderTask(LOW, unitPos, ASSIST, ASSIST_TIMEOUT, None, None)],
       unitTask := s.unitTask[unit := BuilderRef(|s.btasks|)], builderInfo := s.builderInfo[unit := lastFrame])
  }

  /** The fallback keeps the invariants; the count stays in step exactly
      when the abandoned task was listed, and the new task is not listed. */
  lemma FallbackOk(s: State, unit: UnitId, b: nat, lastFrame: int, unitPos: Point)
    requires StateOk(s)
    ensures StateOk(Fallback(s, unit, b, lastFrame, unitPos))
    ensures Drift(Fallback(s, unit, b, lastFrame, unitPos)) == Drift(s) <==> b in Bucket(s.builderTasks, KindOf(s.btasks, b))
    ensures |s.btasks| !in Flat(Fallback(s, unit, b, lastFrame, unitPos).builderTasks)
  {
    var r := Fallback(s, unit, b, lastFrame, unitPos);
    RemoveFromBucket(s.builderTasks, |s.btasks|, KindOf(s.btasks, b), b);
    assert r.builderTasks == s.builderTasks[KindOf(s.btasks, b) := RemoveAll(Bucket(s.builderTasks, KindOf(s.btasks, b)), b)];
    FlatBelow(r.builderTasks, |s.btasks|);
    RefsGrow(s.unitTask, s.unfinishedUnits, |s.btasks|, |s.ftasks|, |r.btasks|, |r.ftasks|);
  }

  /** The new assistant is one the watchdog releases exactly when more than
      `ASSIST_TIMEOUT` frames have passed since the fallback. */
  lemma FallbackExpires(s: State, unit: UnitId, b: nat, lastFrame: int, unitPos: Point, f: int)
    ensures unit in Fallback(s, unit, b, lastFrame, unitPos).builderInfo
    ensures Expired(Fallback(s, unit, b, lastFrame, unitPos), unit, f) <==> f - lastFrame > ASSIST_TIMEOUT
  {
    var r := Fallback(s, unit, b, lastFrame, unitPos);
    assert BuilderTaskOf(r, unit) == Some(BuilderTask(LOW, unitPos, ASSIST, ASSIST_TIMEOUT, None, None));
  }

  /** `ExecuteBuilder`'s bookkeeping. `buildPosOk` is the engine's verdict
      on the task's build position (and facing), `site` the result of the
      site search near the task and its nearest metal spots. ASSIST and
      DEFAULT tasks (the switch's `default`) record the start frame once; a
      task with a target, or with a site the engine accepts, is carried
      out as it is; otherwise a found site is stored, or the worker falls
      back to assisting. */
  function Executed(s: State, unit: UnitId, buildPosOk: bool, site: Option<Point>, lastFrame: int, unitPos: Point): State
    requires unit in s.unitTask && s.unitTask[unit].BuilderRef? && s.unitTask[unit].b < |s.btasks|
  {
    var b := s.unitTask[unit].b;
    var t := TaskOf(s, unit);
    if t.kind == ASSIST || t.kind == DEFAULT then
      (if unit in s.builderInfo then s else s.(builderInfo := s.builderInfo[unit := lastFrame]))
    else if AsIs(t, buildPosOk) then s
    else if site.Some? then s.(btasks := s.btasks[b := t.(buildPos := site)])
    else Fallback(s, unit, b, lastFrame, unitPos)
  }

  /** The worker's task as `ExecuteBuilder` sees it. */
  function TaskOf(s: State, unit: UnitId): BuilderTask
    requires unit in s.unitTask && s.unitTask[unit].BuilderRef? && s.unitTask[unit].b < |s.btasks|
  {
    s.btasks[s.unitTask[unit].b]
  }

  /** The task is carried out without a change to the catalog. */
  predicate AsIs(t: BuilderTask, buildPosOk: bool) {
    t.kind == ASSIST || t.kind == DEFAULT || t.target.Some? || (t.buildPos.Some? && buildPosOk)
  }

  /** Executing keeps the invariants and leaves the worker with a task. */
  lemma ExecutedOk(s: State, unit: UnitId, buildPosOk: bool, site: Option<Point>, lastFrame: int, unitPos: Point)
    requires StateOk(s)
    requires unit in s.unitTask && s.unitTask[unit].BuilderRef? && s.unitTask[unit].b < |s.btasks|
    ensures StateOk(Executed(s, unit, buildPosOk, site, lastFrame, unitPos))
    ensures BuilderTaskOf(Executed(s, unit, buildPosOk, site, lastFrame, unitPos), unit).Some?
  {
    if TaskOf(s, unit).kind in {ASSIST, DEFAULT} {
      ExecutedAssist(s, unit, buildPosOk, site, lastFrame, unitPos);
    } else if AsIs(TaskOf(s, unit), buildPosOk) {
      ExecutedAsIs(s, unit, buildPosOk, site, lastFrame, unitPos);
    } else if site.Some? {
      ExecutedStores(s, unit, buildPosOk, site, lastFrame, unitPos);
    } else {
      ExecutedFallsBack(s, unit, buildPosOk, site, lastFrame, unitPos);
    }
  }

  /** ASSIST and DEFAULT tasks record the start frame once and never reset
      it; nothing else changes. */
  lemma ExecutedAssist(s: State, unit: UnitId, buildPosOk: bool, site: Option<Point>, lastFrame: int, unitPos: Point)
    requires StateOk(s)
    requires unit in s.unitTask && s.unitTask[unit].BuilderRef? && s.unitTask[unit].b < |s.btasks|
    requires TaskOf(s, unit).kind in {ASSIST, DEFAULT}
    ensures StateOk(Executed(s, unit, buildPosOk, site, lastFrame, unitPos))
    ensures Executed(s, unit, buildPosOk, site, lastFrame, unitPos).(builderInfo := s.builderInfo) == s
    ensures unit in Executed(s, unit, buildPosOk, site, lastFrame, unitPos).builderInfo
    ensures unit in s.builderInfo ==> Executed(s, unit, buildPosOk, site, lastFrame, unitPos).builderInfo == s.builderInfo
  {
    var r := if unit in s.builderInfo then s else s.(builderInfo := s.builderInfo[unit := lastFrame]);
    assert Executed(s, unit, buildPosOk, site, lastFrame, unitPos) == r;
    SameCatalogOk(s, r);
  }

  /** A task with a target, or with a build position the engine accepts,
      is carried out with no change at all. */
  lemma ExecutedAsIs(s: State, unit: UnitId, buildPosOk: bool, site: Option<Point>, lastFrame: int, unitPos: Point)
    requires unit in s.unitTask && s.unitTask[unit].BuilderRef? && s.unitTask[unit].b < |s.btasks|
    requires TaskOf(s, unit).kind !in {ASSIST, DEFAULT} && AsIs(TaskOf(s, unit), buildPosOk)
    ensures Executed(s, unit, buildPosOk, site, lastFrame, unitPos) == s
  {
  }

  lemma ExecutedStores(s: State, unit: UnitId, buildPosOk: bool, site: Option<Point>, lastFrame: int, unitPos: Point)
    requires StateOk(s)
    requires unit in s.unitTask && s.unitTask[unit].BuilderRef? && s.unitTask[unit].b < |s.btasks|
    requires !AsIs(TaskOf(s, unit), buildPosOk) && site.Some?
    ensures StateOk(Executed(s, unit, buildPosOk, site, lastFrame, unitPos))
    ensures BuilderTaskOf(Executed(s, unit, buildPosOk, site, lastFrame, unitPos), unit).Some?
    ensures BuilderTaskOf(Executed(s, unit, buildPosOk, site, lastFrame, unitPos), unit).value == TaskOf(s, unit).(buildPos := site)
    ensures Executed(s, unit, buildPosOk, site, lastFrame, unitPos).builderTasks == s.builderTasks
    ensures Executed(s, unit, buildPosOk, site, lastFrame, unitPos).builderTasksCount == s.builderTasksCount
  {
    var b := s.unitTask[unit].b;
    var r := Executed(s, unit, buildPosOk, site, lastFrame, unitPos);
    assert r == s.(btasks := s.btasks[b := TaskOf(s, unit).(buildPos := site)]);
    SameCatalogOk(s, r);
  }

  lemma ExecutedFallsBack(s: State, unit: UnitId, buildPosOk: bool, site: Option<Point>, lastFrame: int, unitPos: Point)
    requires StateOk(s)
    requires unit in s.unitTask && s.unitTask[unit].BuilderRef? && s.unitTask[unit].b < |s.btasks|
    requires !AsIs(TaskOf(s, unit), buildPosOk) && site.None?
    ensures StateOk(Executed(s, unit, buildPosOk, site, lastFrame, unitPos))
    ensures BuilderTaskOf(Executed(s, unit, buildPosOk, site, lastFrame, unitPos), unit).Some?
    ensures BuilderTaskOf(Executed(s, unit, buildPosOk, site, lastFrame, unitPos), unit).value.kind == ASSIST
    ensures Drift(Executed(s, unit, buildPosOk, site, lastFrame, unitPos)) == Drift(s)
            <==> s.unitTask[unit].b in Bucket(s.builderTasks, TaskOf(s, unit).kind)
  {
    var b := s.unitTask[unit].b;
    var r := Executed(s, unit, buildPosOk, site, lastFrame, unitPos);
    assert r == Fallback(s, unit, b, lastFrame, unitPos);
    FallbackOk(s, unit, b, lastFrame, unitPos);
    assert BuilderTaskOf(r, unit) == Some(BuilderTask(LOW, unitPos, ASSIST, ASSIST_TIMEOUT, None, None));
  }
}
