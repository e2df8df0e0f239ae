/** `CEconomyManager` as an object: the manager's fields, the periodic
    updates, the task pickers, the unit lifecycle events and the per-type
    handlers the constructor registers. Each method is specified by the
    state functions of `Economy` (or by the handler functions below) and
    keeps `StateOk`.

    The engine's dispatch of an event to the handler of the unit's type is
    left to the caller: each handler is a method of its own. */
module Manager {
  import opened Common
  import opened Geometry
  import opened Catalog
  import opened Ranking
  import opened Economy

  /** The manager as it is constructed: no tasks, no units, no power, the
      cache empty, never built and marked stale. */
  function Fresh(): State {
    State([], [], map[], 0, [], {}, map[], [], map[], map[], [[]], -1, true, map[], map[], 0.0, 0.0, 0.0, 0, 0)
  }

  /** The tasks a finished fusion reactor opens: one HIGH DDM task at its
      position. */
  function FusionFinishedState(s: State, pos: Point): State {
    WithPushed(s, [NewBuilderTask(HIGH, pos, DDM)], s.builderTasksCount + 1)
  }

  /** The fusion's DDM task goes to the front of the DDM bucket, nothing
      else is listed, and the count stays in step. */
  lemma FusionFinishedOk(s: State, pos: Point)
    requires StateOk(s)
    ensures StateOk(FusionFinishedState(s, pos)) && Drift(FusionFinishedState(s, pos)) == Drift(s)
    ensures Bucket(FusionFinishedState(s, pos).builderTasks, DDM) == [|s.btasks|] + Bucket(s.builderTasks, DDM)
    ensures forall t :: t != DDM ==> Bucket(FusionFinishedState(s, pos).builderTasks, t) == Bucket(s.builderTasks, t)
    ensures FusionFinishedState(s, pos).btasks == s.btasks + [NewBuilderTask(HIGH, pos, DDM)]
  {
    var ts := [NewBuilderTask(HIGH, pos, DDM)];
    var b0 := Board(s.btasks, s.builderTasks);
    PushKeepsOk(s, ts, s.builderTasksCount + 1);
    PushEachOnly(b0, ts, DDM);
    assert Pushed(|s.btasks|, 1) == [|s.btasks|];
    assert FusionFinishedState(s, pos).builderTasks == PushEach(b0, ts).buckets;
  }

  /** The tasks a finished singularity reactor (`cafus`) opens, in push
      order: two DDM, one ANNI and four NANO tasks, all HIGH, at its
      position. */
  function SinguTasks(pos: Point): (r: seq<BuilderTask>)
    ensures |r| == 7
    ensures forall k :: 0 <= k < |r| ==> r[k].pos == pos && r[k].priority == HIGH && r[k].kind != ASSIST
  {
    [NewBuilderTask(HIGH, pos, DDM), NewBuilderTask(HIGH, pos, DDM), NewBuilderTask(HIGH, pos, ANNI),
     NewBuilderTask(HIGH, pos, NANO), NewBuilderTask(HIGH, pos, NANO), NewBuilderTask(HIGH, pos, NANO),
     NewBuilderTask(HIGH, pos, NANO)]
  }

  /** The `cafus` finished handler as written: seven tasks are pushed but
      the count is raised by eight. */
  function SinguFinishedAsWritten(s: State, pos: Point): State {
    WithPushed(s, SinguTasks(pos), s.builderTasksCount + 8)
  }

  /** Every singularity finished as written leaves the count one above the
      number of listed tasks, so the demand gate `builderTasksCount >=
      workers * 2` closes one task early for each. */
  lemma SinguAsWrittenDrifts(s: State, pos: Point)
    requires StateOk(s)
    ensures Drift(SinguFinishedAsWritten(s, pos)) == Drift(s) + 1
  {
    PushKeepsOk(s, SinguTasks(pos), s.builderTasksCount + 8);
  }

  /** The handler with the count raised by the number of tasks pushed. */
  function SinguFinished(s: State, pos: Point): State {
    WithPushed(s, SinguTasks(pos), s.builderTasksCount + |SinguTasks(pos)|)
  }

  /** The corrected handler keeps the invariants and the count in step. */
  lemma SinguFinishedOk(s: State, pos: Point)
    requires StateOk(s)
    ensures StateOk(SinguFinished(s, pos)) && Drift(SinguFinished(s, pos)) == Drift(s)
    ensures SinguFinished(s, pos).btasks == s.btasks + SinguTasks(pos)
    ensures Total(SinguFinished(s, pos).builderTasks) == Total(s.builderTasks) + 7
  {
    PushKeepsOk(s, SinguTasks(pos), s.builderTasksCount + 7);
  }

  /** `max(xSize, zSize) * SQUARE_SIZE`, in integer arithmetic. */
  function Span(xSize: int, zSize: int): int {
    (if xSize > zSize then xSize else zSize) * SQUARE_SIZE
  }

  /** The half map size in elmos, in integer arithmetic, on each axis. */
  function HalfWidth(m: MapInfo): int { m.width * SQUARE_SIZE / 2 }
  function HalfHeight(m: MapInfo): int { m.height * SQUARE_SIZE / 2 }

  // ---------------------------------------------------------------------
  // The per-type handlers, as state functions.
  // ---------------------------------------------------------------------

  /** `factorycloak` finished, before the task is picked: the power grows by
      the build speed, the factory is recorded with its caretakers and, when
      the engine found its cluster, takes the cluster's factory slot. */
  function FactoryJoined(s: State, unit: UnitId, buildSpeed: real, nanos: seq<UnitId>, cluster: int): State
    requires cluster < |s.clusterInfo|
  {
    s.(totalBuildpower := s.totalBuildpower + buildSpeed, factoryPower := s.factoryPower + buildSpeed,
       factories := s.factories[unit := nanos],
       clusterInfo := if cluster >= 0 then s.clusterInfo[cluster := s.clusterInfo[cluster].(factory := Some(unit))]
                      else s.clusterInfo)
  }

  /** Every slot with the unit cleared (the factory or the pylon slot). */
  function ClearedAll(info: seq<ClusterInfo>, unit: UnitId, pylon: bool): (r: seq<ClusterInfo>)
    ensures |r| == |info|
  {
    seq(|info|, k requires 0 <= k < |info| => Cleared(info[k], unit, pylon))
  }

  /** `factorycloak` destroyed: nothing while it is still being built;
      otherwise the power drops, the factory is forgotten, loses its task
      and leaves every cluster slot. */
  function FactoryLeft(s: State, unit: UnitId, buildSpeed: real, beingBuilt: bool): State {
    if beingBuilt then s
    else s.(totalBuildpower := s.totalBuildpower - buildSpeed, factoryPower := s.factoryPower - buildSpeed,
            factories := s.factories - {unit}, unitTask := s.unitTask - {unit},
            clusterInfo := ClearedAll(s.clusterInfo, unit, false))
  }

  /** The factory handlers keep the invariants and the count; a destroyed
      factory is named nowhere any more, and the pylons stay. */
  lemma FactoryHandlersOk(s: State, unit: UnitId, buildSpeed: real, nanos: seq<UnitId>, cluster: int)
    requires StateOk(s) && cluster < |s.clusterInfo|
    ensures StateOk(FactoryJoined(s, unit, buildSpeed, nanos, cluster))
    ensures Drift(FactoryJoined(s, unit, buildSpeed, nanos, cluster)) == Drift(s)
    ensures FactoryJoined(s, unit, buildSpeed, nanos, cluster).factories[unit] == nanos
    ensures cluster >= 0 ==> FactoryJoined(s, unit, buildSpeed, nanos, cluster).clusterInfo[cluster].factory == Some(unit)
    ensures StateOk(FactoryLeft(s, unit, buildSpeed, false))
    ensures Drift(FactoryLeft(s, unit, buildSpeed, false)) == Drift(s)
    ensures unit !in FactoryLeft(s, unit, buildSpeed, false).factories
    ensures unit !in FactoryLeft(s, unit, buildSpeed, false).unitTask
    ensures forall k :: 0 <= k < |s.clusterInfo| ==>
              FactoryLeft(s, unit, buildSpeed, false).clusterInfo[k].factory != Some(unit)
              && FactoryLeft(s, unit, buildSpeed, false).clusterInfo[k].pylon == s.clusterInfo[k].pylon
  {
    FactoryJoinedOk(s, unit, buildSpeed, nanos, cluster);
    FactoryLeftOk(s, unit, buildSpeed);
  }

  lemma FactoryJoinedOk(s: State, unit: UnitId, buildSpeed: real, nanos: seq<UnitId>, cluster: int)
    requires StateOk(s) && cluster < |s.clusterInfo|
    ensures StateOk(FactoryJoined(s, unit, buildSpeed, nanos, cluster))
    ensures Drift(FactoryJoined(s, unit, buildSpeed, nanos, cluster)) == Drift(s)
  {
  }

  lemma FactoryLeftOk(s: State, unit: UnitId, buildSpeed: real)
    requires StateOk(s)
    ensures StateOk(FactoryLeft(s, unit, buildSpeed, false))
    ensures Drift(FactoryLeft(s, unit, buildSpeed, false)) == Drift(s)
  {
  }

  /** `std::list::remove` of an element just appended, and only there,
      gives the list back. */
  lemma {:induction false} RemoveAppended<T>(xs: seq<T>, x: T)
    requires x !in xs
    ensures RemoveAll(xs + [x], x) == xs
  {
    if xs == [] {
      assert [x][1..] == [];
    } else {
      assert (xs + [x])[1..] == xs[1..] + [x];
      RemoveAppended(xs[1..], x);
      assert xs == [xs[0]] + xs[1..];
    }
  }

  /** The caretaker lists once a caretaker at `from` has joined every
      factory within `radius`. */
  function Attached(factories: map<UnitId, seq<UnitId>>, nano: UnitId, from: Point, radius: real, at: UnitId -> Point)
    : map<UnitId, seq<UnitId>>
  {
    map f | f in factories :: if QDistR(at(f), from) < radius * radius then factories[f] + [nano] else factories[f]
  }

  function Detached(factories: map<UnitId, seq<UnitId>>, nano: UnitId): map<UnitId, seq<UnitId>> {
    map f | f in factories :: RemoveAll(factories[f], nano)
  }

  /** `armnanotc` finished. */
  function NanoJoined(s: State, unit: UnitId, buildSpeed: real, from: Point, radius: real, at: UnitId -> Point): State {
    s.(totalBuildpower := s.totalBuildpower + buildSpeed, factoryPower := s.factoryPower + buildSpeed,
       factories := Attached(s.factories, unit, from, radius, at))
  }

  /** `armnanotc` destroyed. */
  function NanoLeft(s: State, unit: UnitId, buildSpeed: real, beingBuilt: bool): State {
    if beingBuilt then s
    else s.(totalBuildpower := s.totalBuildpower - buildSpeed, factoryPower := s.factoryPower - buildSpeed,
            factories := Detached(s.factories, unit))
  }

  /** A caretaker that was on no list and is destroyed after it finished
      leaves the factories and the power as they were. */
  lemma NanoRoundTrip(s: State, unit: UnitId, buildSpeed: real, from: Point, radius: real, at: UnitId -> Point)
    requires forall f :: f in s.factories ==> unit !in s.factories[f]
    ensures NanoLeft(NanoJoined(s, unit, buildSpeed, from, radius, at), unit, buildSpeed, false) == s
  {
    var a := Attached(s.factories, unit, from, radius, at);
    forall f | f in s.factories ensures RemoveAll(a[f], unit) == s.factories[f] {
      if QDistR(at(f), from) < radius * radius {
        RemoveAppended(s.factories[f], unit);
      } else {
        RemoveAllAbsent(s.factories[f], unit);
      }
    }
    assert Detached(a, unit) == s.factories;
  }

  /** `armrectr` finished: the worker joins and the cache goes stale. */
  function WorkerJoined(s: State, unit: UnitId, buildSpeed: real): State {
    s.(totalBuildpower := s.totalBuildpower + buildSpeed, builderPower := s.builderPower + buildSpeed,
       workers := s.workers + {unit}, isCachedChanged := true)
  }

  /** `armrectr` destroyed: the worker leaves, with its start frame and its
      task, and the cache goes stale. */
  function WorkerLeft(s: State, unit: UnitId, buildSpeed: real, beingBuilt: bool): State {
    if beingBuilt then s
    else s.(totalBuildpower := s.totalBuildpower - buildSpeed, builderPower := s.builderPower - buildSpeed,
            workers := s.workers - {unit}, isCachedChanged := true,
            builderInfo := s.builderInfo - {unit}, unitTask := s.unitTask - {unit})
  }

  /** Both keep the invariants: the cache is marked stale whenever the set
      of workers changes. */
  lemma WorkerHandlersOk(s: State, unit: UnitId, buildSpeed: real)
    requires StateOk(s)
    ensures StateOk(WorkerJoined(s, unit, buildSpeed)) && Drift(WorkerJoined(s, unit, buildSpeed)) == Drift(s)
    ensures StateOk(WorkerLeft(s, unit, buildSpeed, false)) && Drift(WorkerLeft(s, unit, buildSpeed, false)) == Drift(s)
    ensures unit in WorkerJoined(s, unit, buildSpeed).workers
    ensures unit !in WorkerLeft(s, unit, buildSpeed, false).workers && unit !in WorkerLeft(s, unit, buildSpeed, false).unitTask
  {
  }

  /** A worker new to the manager that is destroyed after it finished
      leaves everything but the cache flag as it was. */
  lemma WorkerRoundTrip(s: State, unit: UnitId, buildSpeed: real)
    requires unit !in s.workers && unit !in s.builderInfo && unit !in s.unitTask
    ensures WorkerLeft(WorkerJoined(s, unit, buildSpeed), unit, buildSpeed, false) == s.(isCachedChanged := true)
  {
    var r := WorkerLeft(WorkerJoined(s, unit, buildSpeed), unit, buildSpeed, false);
    assert r.workers == s.workers && r.builderInfo == s.builderInfo && r.unitTask == s.unitTask;
  }

  /** `armestor` created: the pylon takes its cluster's slot when the
      engine found one. */
  function PylonPlaced(s: State, unit: UnitId, cluster: int): State
    requires cluster < |s.clusterInfo|
  {
    if cluster < 0 then s
    else s.(clusterInfo := s.clusterInfo[cluster := s.clusterInfo[cluster].(pylon := Some(unit))])
  }

  /** `armestor` destroyed. */
  function PylonLeft(s: State, unit: UnitId): State {
    s.(clusterInfo := ClearedAll(s.clusterInfo, unit, true))
  }

  /** A pylon placed on a cluster without one and then destroyed leaves
      the clusters as they were; the factory slots never change. */
  lemma PylonRoundTrip(s: State, unit: UnitId, cluster: int)
    requires 0 <= cluster < |s.clusterInfo| && s.clusterInfo[cluster].pylon.None?
    requires forall k :: 0 <= k < |s.clusterInfo| ==> s.clusterInfo[k].pylon != Some(unit)
    ensures PylonLeft(PylonPlaced(s, unit, cluster), unit) == s
    ensures forall k :: 0 <= k < |s.clusterInfo| ==> PylonPlaced(s, unit, cluster).clusterInfo[k].factory == s.clusterInfo[k].factory
  {
    var r := PylonLeft(PylonPlaced(s, unit, cluster), unit);
    assert r.clusterInfo == s.clusterInfo;
  }

  /** The cost-rank cache a rebuild produces is fresh for the state it is
      stored in, and holds the info of the asking worker in every slot
      (there is none when nothing is listed). */
  lemma RebuiltCacheOk(s: State, order: seq<UnitId>, infos: seq<WorkerInfo>, rel: seq<seq<WorkerInfo>>, unit: UnitId,
                       at: UnitId -> Point, qspeed: UnitId -> QSpeed, frame: int)
    requires StateOk(s) && unit in s.workers
    requires |order| == |s.workers| && forall x :: x in order <==> x in s.workers
    requires |infos| == |order| && forall k :: 0 <= k < |order| ==> infos[k] == InfoOf(at, qspeed, order[k])
    requires |rel| == |Flat(s.builderTasks)| && RelOk(rel, Flat(s.builderTasks), s.btasks, infos)
    ensures FreshFor(s.(wtRelation := rel, cachedFrame := frame, isCachedChanged := false), Some(InfoOf(at, qspeed, unit)))
    ensures FromEngine(rel, s.workers, at, qspeed)
    ensures |rel| == Total(s.builderTasks)
  {
    forall i | 0 <= i < |rel| ensures |rel[i]| == |s.workers| {
      assert |multiset(rel[i])| == |multiset(infos)|;
    }
    forall i, x | 0 <= i < |rel| && x in rel[i] ensures x == InfoOf(at, qspeed, x.unit) {
      assert x in multiset(infos);
      var k :| 0 <= k < |infos| && infos[k] == x;
    }
    if rel == [] { return; }
    assert multiset(rel[0]) == multiset(infos);
    UnitsOfPerm(rel[0], infos);
    forall u ensures u in UnitsOf(infos) <==> u in s.workers {
      if u in s.workers {
        var k :| 0 <= k < |order| && order[k] == u;
        assert infos[k].unit == u;
      }
    }
    var k :| 0 <= k < |order| && order[k] == unit;
    assert infos[k] in multiset(rel[0]);
  }

  /** As written, `PrepareBuilder` reads `wtRelation.front()` of the
      cache `GetWorkerTaskRelations` returns. At the first idle of the
      first worker of a game nothing is listed yet, so the rebuilt cache,
      one slot per listed task, has no slot and `front()` reads past an
      empty vector (and a later rebuild frees that missing slot). The
      model reads the missing slot as an empty one (`FrontSize`), which
      leads to the new DEFAULT task of `PreparedOnEmptyCatalog`. */
  lemma FirstIdleHasNoFront(unit: UnitId, buildSpeed: real, rel: seq<seq<WorkerInfo>>)
    requires |rel| == |Flat(WorkerJoined(Fresh(), unit, buildSpeed).builderTasks)|
    ensures var s := WorkerJoined(Fresh(), unit, buildSpeed);
            StateOk(s) && s.isCachedChanged && unit in s.workers && Total(s.builderTasks) == 0
    ensures rel == [] && FrontSize(rel) == 0
  {
    var b: Buckets := map[];
    if Flat(b) != [] {
      FlatMembers(b, Flat(b)[0]);
      assert false;
    }
  }

  /** The state an idle constructor picks its task in: its old task
      removed and the cost-rank cache fresh. */
  function Repicking(s: State, unit: UnitId, rel: seq<seq<WorkerInfo>>, frame: int): State {
    s.(unitTask := s.unitTask - {unit}, wtRelation := rel, cachedFrame := frame, isCachedChanged := false)
  }

  /** The caretaker or factory task `UpdateBuilderTasks` opens. */
  method ChooseBuildPowerTask(s: State, order: seq<UnitId>, m: MapInfo, rnd: nat -> nat, fp: UnitId -> Footprint)
    returns (task: BuilderTask)
    requires MapOk(m, |s.clusterInfo|)
    ensures task == BuildPowerTask(s, order, m, rnd, fp)
  {
    var i := FindSmallFactory(order, s.factories);
    if i < |order| {
      var f := fp(order[i]);
      task := NewBuilderTask(LOW, NanoSite(f.pos, f.facing, f.xSize, f.zSize), NANO);
    } else {
      task := NewBuilderTask(LOW, FactorySite(s, m, rnd), FACTORY);
    }
  }

  /** `UpdateBuilderTasks`' decision: the build-power task pushed and
      counted when more build power is wanted, otherwise nothing. */
  method BuildPowerStep(s: State, metalIncome: real, order: seq<UnitId>, m: MapInfo, rnd: nat -> nat, fp: UnitId -> Footprint)
    returns (bd: Board, count: int, dirty: bool)
    requires MapOk(m, |s.clusterInfo|)
    ensures s.(btasks := bd.tasks, builderTasks := bd.buckets, builderTasksCount := count, isCachedChanged := dirty)
            == BuilderUpdate(s, metalIncome, order, m, rnd, fp)
  {
    bd, count, dirty := Board(s.btasks, s.builderTasks), s.builderTasksCount, s.isCachedChanged;
    if WantsBuildPower(s, metalIncome) {
      var task := ChooseBuildPowerTask(s, order, m, rnd, fp);
      bd := PushAll(bd, [task]);
      count, dirty := s.builderTasksCount + 1, true;
    }
  }

  /** `PrepareFactory`'s search: the first accepting task, moved to the
      back, or a new default task. The new task's push to the front
      followed by its move to the back is an append. */
  method PickFactoryTask(s: State, canAssign: nat -> bool, pos: Point, xSize: int, zSize: int)
    returns (ft: seq<FactoryTask>, ids: seq<nat>, task: nat)
    ensures forall unit :: PreparedFactory(s, unit, canAssign, pos, xSize, zSize)
                           == (s.(ftasks := ft, factoryTasks := ids, unitTask := s.unitTask[unit := FactoryRef(task)]), task)
  {
    var i := FindAssignable(s.factoryTasks, canAssign);
    if i < |s.factoryTasks| {
      task := s.factoryTasks[i];
      ft, ids := s.ftasks, MoveToBack(s.factoryTasks, i);
    } else {
      task := |s.ftasks|;
      ft, ids := s.ftasks + [DefaultFactoryTask(pos, xSize, zSize)], s.factoryTasks + [task];
    }
  }

  /** `PrepareBuilder`'s scan and tie-break over a fresh cache; with no
      candidate, the new DEFAULT task is pushed and counted. */
  method PickBuilderTask(s: State, info: Option<WorkerInfo>, canAssign: nat -> bool, quantity: nat -> int, unitPos: Point)
    returns (bd: Board, count: int, dirty: bool, task: nat)
    requires FreshFor(s, info)
    ensures forall unit :: PreparedBuilder(s, unit, info, canAssign, quantity, unitPos)
                           == (s.(btasks := bd.tasks, builderTasks := bd.buckets, builderTasksCount := count,
                                  isCachedChanged := dirty, unitTask := s.unitTask[unit := BuilderRef(task)]), task)
  {
    var cands := [];
    if info.Some? {
      var idx;
      assert Flat(s.builderTasks) == FlatOf(s.builderTasks, ALL_TYPES);
      idx, cands := ScanCandidates(s.builderTasks, ALL_TYPES, s.wtRelation, info.value, canAssign, FrontSize(s.wtRelation));
    }
    if cands != [] {
      task := PickTask(cands, quantity, s.btasks, info.value.pos);
      bd, count, dirty := Board(s.btasks, s.builderTasks), s.builderTasksCount, s.isCachedChanged;
    } else {
      bd := PushAll(Board(s.btasks, s.builderTasks), [NewBuilderTask(LOW, unitPos, DEFAULT)]);
      task := |s.btasks|;
      count, dirty := s.builderTasksCount + 1, true;
    }
  }

  class EconomyManager {
    var btasks: seq<BuilderTask>
    var ftasks: seq<FactoryTask>
    var builderTasks: Buckets
    var builderTasksCount: int
    var factoryTasks: seq<nat>
    var workers: set<UnitId>
    var factories: map<UnitId, seq<UnitId>>
    var clusterInfo: seq<ClusterInfo>
    var unfinishedUnits: map<UnitId, Option<TaskRef>>
    var unfinishedTasks: map<TaskRef, seq<UnitId>>
    var wtRelation: seq<seq<WorkerInfo>>
    var cachedFrame: int
    var isCachedChanged: bool
    var builderInfo: map<UnitId, int>
    var unitTask: map<UnitId, TaskRef>
    var totalBuildpower: real
    var builderPower: real
    var factoryPower: real
    var solarCount: int
    var fusionCount: int

    /** The manager's fields as one value. */
    function Snap(): State
      reads this
    {
      State(btasks, ftasks, builderTasks, builderTasksCount, factoryTasks, workers, factories, clusterInfo,
            unfinishedUnits, unfinishedTasks, wtRelation, cachedFrame, isCachedChanged, builderInfo, unitTask,
            totalBuildpower, builderPower, factoryPower, solarCount, fusionCount)
    }

    ghost predicate Valid()
      reads this
    {
      StateOk(Snap())
    }

    /** Sets the builder task table, its buckets, the count and the cache
        flag: the fields every update that opens builder tasks writes. */
    method SetTasks(tasks: seq<BuilderTask>, buckets: Buckets, count: int, dirty: bool)
      modifies this
      ensures Snap() == old(Snap()).(btasks := tasks, builderTasks := buckets, builderTasksCount := count, isCachedChanged := dirty)
    {
      SetBoard(tasks, buckets);
      SetCount(count, dirty);
    }

    method SetBoard(tasks: seq<BuilderTask>, buckets: Buckets)
      modifies this
      ensures Snap() == old(Snap()).(btasks := tasks, builderTasks := buckets)
    {
      btasks := tasks;
      builderTasks := buckets;
    }

    method SetCount(count: int, dirty: bool)
      modifies this
      ensures Snap() == old(Snap()).(builderTasksCount := count, isCachedChanged := dirty)
    {
      builderTasksCount := count;
      isCachedChanged := dirty;
    }

    method SetFactoryList(tasks: seq<FactoryTask>, ids: seq<nat>)
      modifies this
      ensures Snap() == old(Snap()).(ftasks := tasks, factoryTasks := ids)
    {
      ftasks := tasks;
      factoryTasks := ids;
    }

    method SetUnitTask(m: map<UnitId, TaskRef>)
      modifies this
      ensures Snap() == old(Snap()).(unitTask := m)
    {
      unitTask := m;
    }

    method SetUnfinished(units: map<UnitId, Option<TaskRef>>, tasks: map<TaskRef, seq<UnitId>>)
      modifies this
      ensures Snap() == old(Snap()).(unfinishedUnits := units, unfinishedTasks := tasks)
    {
      unfinishedUnits := units;
      unfinishedTasks := tasks;
    }

    method SetCache(rel: seq<seq<WorkerInfo>>, frame: int)
      modifies this
      ensures Snap() == old(Snap()).(wtRelation := rel, cachedFrame := frame)
    {
      wtRelation := rel;
      cachedFrame := frame;
    }

    method SetPower(total: real, builder: real, factory: real)
      modifies this
      ensures Snap() == old(Snap()).(totalBuildpower := total, builderPower := builder, factoryPower := factory)
    {
      totalBuildpower := total;
      builderPower := builder;
      factoryPower := factory;
    }

    method SetWorkers(w: set<UnitId>, info: map<UnitId, int>)
      modifies this
      ensures Snap() == old(Snap()).(workers := w, builderInfo := info)
    {
      workers := w;
      builderInfo := info;
    }

    method SetSites(f: map<UnitId, seq<UnitId>>, info: seq<ClusterInfo>)
      modifies this
      ensures Snap() == old(Snap()).(factories := f, clusterInfo := info)
    {
      factories := f;
      clusterInfo := info;
    }

    method SetEnergyCounts(solar: int, fusion: int)
      modifies this
      ensures Snap() == old(Snap()).(solarCount := solar, fusionCount := fusion)
    {
      solarCount := solar;
      fusionCount := fusion;
    }

    constructor ()
      ensures Valid() && Snap() == Fresh()
    {
      btasks, ftasks, builderTasks, builderTasksCount, factoryTasks := [], [], map[], 0, [];
      workers, factories, clusterInfo := {}, map[], [];
      unfinishedUnits, unfinishedTasks := map[], map[];
      wtRelation, cachedFrame, isCachedChanged := [[]], -1, true;
      builderInfo, unitTask := map[], map[];
      totalBuildpower, builderPower, factoryPower := 0.0, 0.0, 0.0;
      solarCount, fusionCount := 0, 0;
    }

    /** `Init`: one empty slot per metal cluster. */
    method Init(clusters: nat)
      requires Valid()
      modifies this
      ensures Valid()
      ensures |clusterInfo| == clusters && forall k :: 0 <= k < clusters ==> clusterInfo[k] == ClusterInfo(None, None)
      ensures Snap().(clusterInfo := old(clusterInfo)) == old(Snap())
    {
      var info: seq<ClusterInfo> := [];
      var i := 0;
      while i < clusters
        invariant 0 <= i <= clusters && |info| == i
        invariant forall k :: 0 <= k < i ==> info[k] == ClusterInfo(None, None)
      {
        info := info + [ClusterInfo(None, None)];
        i := i + 1;
      }
      clusterInfo := info;
    }

    // -------------------------------------------------------------------
    // The periodic updates.
    // -------------------------------------------------------------------

    /** `UpdateExpandTasks`; `spots` are the free metal spots nearest to
        the start position. */
    method UpdateExpandTasks(spots: seq<Point>)
      requires Valid()
      modifies this
      ensures Valid() && Drift(Snap()) == Drift(old(Snap()))
      ensures Snap() == ExpandUpdate(old(Snap()), spots)
    {
      var s := Snap();
      ExpandUpdateOk(s, spots);
      if DemandMet(builderTasksCount, |workers|) || Bucket(builderTasks, EXPAND) != [] {
        return;
      }
      var bd := PushAll(Board(btasks, builderTasks), ExpandTasks(spots));
      SetTasks(bd.tasks, bd.buckets, builderTasksCount + |spots|, true);
      assert Snap() == WithPushed(s, ExpandTasks(spots), s.builderTasksCount + |spots|);
    }

    /** `UpdateEnergyTasks`; the incomes, the spots and `rnd` are the
        engine's answers. */
    method UpdateEnergyTasks(metalIncome: real, energyIncome: real, solarSpots: seq<Point>, fusionSpot: Option<Point>,
                             singuSpots: seq<Point>, m: MapInfo, rnd: nat -> nat)
      requires Valid() && MapOk(m, |clusterInfo|)
      modifies this
      ensures Valid() && Drift(Snap()) == Drift(old(Snap()))
      ensures Snap() == EnergyUpdate(old(Snap()), metalIncome, energyIncome, solarSpots, fusionSpot, singuSpots, m, rnd)
    {
      var s := Snap();
      EnergyUpdateOk(s, metalIncome, energyIncome, solarSpots, fusionSpot, singuSpots, m, rnd);
      var plan := EnergyPlan(s, metalIncome, energyIncome, solarSpots, fusionSpot, singuSpots, m, rnd);
      if plan != [] {
        var bd := PushAll(Board(btasks, builderTasks), plan);
        SetTasks(bd.tasks, bd.buckets, builderTasksCount + |plan|, true);
        assert Snap() == WithPushed(s, plan, s.builderTasksCount + |plan|);
      }
    }

    /** `UpdateBuilderTasks`; `order` is the order in which the factories
        were walked. */
    method UpdateBuilderTasks(metalIncome: real, m: MapInfo, rnd: nat -> nat, fp: UnitId -> Footprint)
      returns (order: seq<UnitId>)
      requires Valid() && MapOk(m, |clusterInfo|)
      modifies this
      ensures Valid() && Drift(Snap()) == Drift(old(Snap()))
      ensures |order| == |old(factories)| && forall f :: f in order <==> f in old(factories)
      ensures Snap() == BuilderUpdate(old(Snap()), metalIncome, order, m, rnd, fp)
    {
      var s := Snap();
      order := Enumerate(factories.Keys);
      BuilderUpdateOk(s, metalIncome, order, m, rnd, fp);
      var bd, count, dirty := BuildPowerStep(s, metalIncome, order, m, rnd, fp);
      SetTasks(bd.tasks, bd.buckets, count, dirty);
    }

    /** `UpdateFactoryTasks`; `order` is the order of `factories` and `r`
        the `rand()` draw that picks one. */
    method UpdateFactoryTasks(metalIncome: real, r: nat, at: UnitId -> Point, m: MapInfo) returns (order: seq<UnitId>)
      requires Valid()
      modifies this
      ensures Valid()
      ensures |order| == |old(factories)| && forall f :: f in order <==> f in old(factories)
      ensures Snap() == FactoryUpdate(old(Snap()), metalIncome, order, r, at, m)
    {
      var s := Snap();
      order := Enumerate(factories.Keys);
      FactoryUpdateMeaning(s, metalIncome, order, r, at, m);
      if |factoryTasks| < |factories| * 2 && builderPower < metalIncome * 1.5 && |factories| > 0 {
        var found := FindBuildPower(ftasks, factoryTasks);
        if !found {
          var f := order[r % |order|];
          PushFactoryTask(FactoryTask(LOW, at(f), BUILDPOWER, 2, BuildPowerRadius(m)));
        }
      }
    }

    /** `factoryTasks.push_front(new CFactoryTask(...))`. */
    method PushFactoryTask(task: FactoryTask)
      modifies this
      ensures Snap() == old(Snap()).(ftasks := old(ftasks) + [task], factoryTasks := [|old(ftasks)|] + old(factoryTasks))
    {
      factoryTasks := [|ftasks|] + factoryTasks;
      ftasks := ftasks + [task];
    }

    // -------------------------------------------------------------------
    // The task pickers.
    // -------------------------------------------------------------------

    /** `PrepareFactory`. */
    method PrepareFactory(unit: UnitId, canAssign: nat -> bool, pos: Point, xSize: int, zSize: int) returns (task: nat)
      requires Valid()
      modifies this
      ensures Valid() && Drift(Snap()) == Drift(old(Snap()))
      ensures (Snap(), task) == PreparedFactory(old(Snap()), unit, canAssign, pos, xSize, zSize)
    {
      var s := Snap();
      PreparedFactoryMeaning(s, unit, canAssign, pos, xSize, zSize);
      var ft, ids;
      ft, ids, task := PickFactoryTask(s, canAssign, pos, xSize, zSize);
      SetFactoryList(ft, ids);
      SetUnitTask(unitTask[unit := FactoryRef(task)]);
    }

    /** `GetWorkerTaskRelations`: the cache is reused when it was built
        less than a second ago and nothing changed since; otherwise it is
        rebuilt from the engine's positions and speeds of the workers, one
        slot per listed task, so with nothing listed the cache is empty.
        An empty cache has no front slot: reusing it finds no info (`None`)
        and rebuilding it frees nothing. */
    method GetWorkerTaskRelations(unit: UnitId, lastFrame: int, at: UnitId -> Point, qspeed: UnitId -> QSpeed)
      returns (info: Option<WorkerInfo>)
      requires Valid() && unit in workers
      modifies this
      ensures FreshFor(Snap(), info) && (info.Some? ==> info.value.unit == unit)
      ensures |wtRelation| == Total(builderTasks)
      ensures Snap() == old(Snap()).(wtRelation := wtRelation, cachedFrame := cachedFrame, isCachedChanged := false)
      ensures old(lastFrame - cachedFrame < FRAMES_PER_SEC && !isCachedChanged) ==> Snap() == old(Snap())
      ensures !old(lastFrame - cachedFrame < FRAMES_PER_SEC && !isCachedChanged) ==>
                cachedFrame == lastFrame && info == Some(InfoOf(at, qspeed, unit))
      ensures CacheTaken(old(Snap()), wtRelation, cachedFrame, lastFrame, at, qspeed, unit, info)
    {
      if lastFrame - cachedFrame < FRAMES_PER_SEC && !isCachedChanged {
        if wtRelation != [] {
          var w := FindInfo(wtRelation[0], unit);
          info := Some(w);
        } else {
          info := None;
        }
        return;
      }
      var s := Snap();
      var order := Enumerate(workers);
      var infos, ret := CollectInfos(order, unit, at, qspeed);
      FlatBelow(builderTasks, |btasks|);
      assert Flat(builderTasks) == FlatOf(builderTasks, ALL_TYPES);
      var rel := BuildRelation(builderTasks, ALL_TYPES, btasks, infos);
      RebuiltCacheOk(s, order, infos, rel, unit, at, qspeed, lastFrame);
      info := ret;
      SetCache(rel, lastFrame);
      SetCount(builderTasksCount, false);
    }

    /** `PrepareBuilder`: over the fresh cache, the accepting task of least
        rank (then quantity, then distance) or a new DEFAULT task. */
    method PrepareBuilder(unit: UnitId, canAssign: nat -> bool, quantity: nat -> int, lastFrame: int,
                          at: UnitId -> Point, qspeed: UnitId -> QSpeed, unitPos: Point)
      returns (task: nat, info: Option<WorkerInfo>)
      requires Valid() && unit in workers
      modifies this
      ensures Valid() && Drift(Snap()) == Drift(old(Snap()))
      ensures FreshFor(old(Snap()).(wtRelation := wtRelation, cachedFrame := cachedFrame, isCachedChanged := false), info)
      ensures (Snap(), task) == PreparedBuilder(old(Snap()).(wtRelation := wtRelation, cachedFrame := cachedFrame, isCachedChanged := false),
                                                unit, info, canAssign, quantity, unitPos)
      ensures task < |btasks| && unitTask == old(unitTask)[unit := BuilderRef(task)]
      ensures CacheTaken(old(Snap()), wtRelation, cachedFrame, lastFrame, at, qspeed, unit, info)
    {
      info := GetWorkerTaskRelations(unit, lastFrame, at, qspeed);
      var c := Snap();
      PreparedBuilderOk(c, unit, info, canAssign, quantity, unitPos);
      var bd, count, dirty;
      bd, count, dirty, task := PickBuilderTask(c, info, canAssign, quantity, unitPos);
      SetBoard(bd.tasks, bd.buckets);
      SetCount(count, dirty);
      SetUnitTask(unitTask[unit := BuilderRef(task)]);
      assert RefOk(unitTask[unit], |btasks|, |ftasks|);
    }

    // -------------------------------------------------------------------
    // The unit lifecycle and the execution of builder tasks.
    // -------------------------------------------------------------------

    /** `UnitCreated`'s bookkeeping; `beingBuilt` is `IsBeingBuilt()` and
        `builder` the unit that started it, if any. */
    method UnitCreated(unit: UnitId, beingBuilt: bool, builder: Option<UnitId>)
      requires Valid()
      modifies this
      ensures Valid() && Drift(Snap()) == Drift(old(Snap()))
      ensures Snap() == Created(old(Snap()), unit, beingBuilt, builder)
    {
      var s := Snap();
      CreatedOk(s, unit, beingBuilt, builder);
      if beingBuilt && builder.Some? && builder.value in unitTask {
        var t := unitTask[builder.value];
        if t.BuilderRef? {
          SetBoard(WithTarget(btasks, t.b, Some(unit)), builderTasks);
        }
        SetUnfinished(unfinishedUnits[unit := Some(t)], unfinishedTasks[t := UnitsOn(unfinishedTasks, t) + [unit]]);
      }
    }

    /** `UnitFinished`'s bookkeeping; `done` is the factory task's
        `IsDone()` after its `Progress()`. */
    method UnitFinished(unit: UnitId, done: bool)
      requires Valid()
      modifies this
      ensures Valid() && unit !in unfinishedUnits
      ensures !(old(unit in unfinishedUnits && unfinishedUnits[unit].Some? && unfinishedUnits[unit].value.BuilderRef?)) ==>
                Drift(Snap()) == Drift(old(Snap()))
      ensures Snap() == Finished(old(Snap()), unit, done)
    {
      var s := Snap();
      FinishedOk(s, unit, done);
      if unit !in unfinishedUnits {
        return;
      }
      match unfinishedUnits[unit]
      case None =>
        SetUnfinished(unfinishedUnits - {unit}, unfinishedTasks);
      case Some(t) =>
        match t
        case FactoryRef(f) => FinishFactoryUnit(unit, done, f);
        case BuilderRef(b) => FinishBuilderUnit(unit, done, b);
    }

    /** A unit of a factory task finished: the task progressed to `done`. */
    method FinishFactoryUnit(unit: UnitId, done: bool, f: nat)
      requires unit in unfinishedUnits && unfinishedUnits[unit] == Some(FactoryRef(f))
      modifies this
      ensures Snap() == Finished(old(Snap()), unit, done)
    {
      var t := FactoryRef(f);
      if done {
        var orphaned := OrphanUnits(unfinishedUnits, UnitsOn(unfinishedTasks, t));
        SetFactoryList(ftasks, RemoveAll(factoryTasks, f));
        SetCount(builderTasksCount, true);
        SetUnfinished(orphaned - {unit}, unfinishedTasks - {t});
      } else {
        SetUnfinished(unfinishedUnits - {unit}, unfinishedTasks[t := RemoveAll(UnitsOn(unfinishedTasks, t), unit)]);
      }
    }

    /** A builder task's building finished: the task is completed. */
    method FinishBuilderUnit(unit: UnitId, done: bool, b: nat)
      requires unit in unfinishedUnits && unfinishedUnits[unit] == Some(BuilderRef(b))
      modifies this
      ensures Snap() == Finished(old(Snap()), unit, done)
    {
      var k := KindOf(btasks, b);
      SetBoard(btasks, builderTasks[k := RemoveAll(Bucket(builderTasks, k), b)]);
      SetCount(builderTasksCount - 1, true);
      SetUnfinished(unfinishedUnits - {unit}, unfinishedTasks);
    }

    /** `UnitDestroyed`'s bookkeeping. */
    method UnitDestroyed(unit: UnitId, beingBuilt: bool)
      requires Valid()
      modifies this
      ensures Valid() && Drift(Snap()) == Drift(old(Snap()))
      ensures Snap() == Destroyed(old(Snap()), unit, beingBuilt)
    {
      var s := Snap();
      DestroyedOk(s, unit, beingBuilt);
      if !beingBuilt || unit !in unfinishedUnits {
        return;
      }
      var o := unfinishedUnits[unit];
      if o.Some? {
        if o.value.BuilderRef? {
          SetBoard(WithTarget(btasks, o.value.b, None), builderTasks);
        }
        SetUnfinished(unfinishedUnits - {unit}, Dropped(unfinishedTasks, unit, o.value));
      } else {
        SetUnfinished(unfinishedUnits - {unit}, unfinishedTasks);
      }
    }

    /** `ExecuteBuilder`'s bookkeeping; `buildPosOk` and `site` are the
        engine's answers about the task's build position. A worker that
        falls back to assisting is sent on patrol ten squares from its
        position toward the map centre. */
    method ExecuteBuilder(unit: UnitId, buildPosOk: bool, site: Option<Point>, lastFrame: int, unitPos: Point, m: MapInfo)
      returns (patrol: Option<Point>)
      requires Valid() && unit in unitTask && unitTask[unit].BuilderRef? && unitTask[unit].b < |btasks|
      modifies this
      ensures Valid() && BuilderTaskOf(Snap(), unit).Some?
      ensures Snap() == Executed(old(Snap()), unit, buildPosOk, site, lastFrame, unitPos)
      ensures patrol.Some? <==> !AsIs(old(TaskOf(Snap(), unit)), buildPosOk) && site.None?
      ensures patrol.Some? ==> patrol.value == NudgePoint(unitPos, HalfWidth(m), HalfHeight(m), (SQUARE_SIZE * 10) as real)
    {
      var s := Snap();
      ExecutedOk(s, unit, buildPosOk, site, lastFrame, unitPos);
      var b := unitTask[unit].b;
      var t := btasks[b];
      patrol := None;
      if t.kind == ASSIST || t.kind == DEFAULT {
        if unit !in builderInfo {
          SetWorkers(workers, builderInfo[unit := lastFrame]);
        }
      } else if AsIs(t, buildPosOk) {
      } else if site.Some? {
        SetBoard(btasks[b := t.(buildPos := site)], builderTasks);
      } else {
        AssistFallback(unit, b, lastFrame, unitPos);
        patrol := Some(NudgePoint(unitPos, HalfWidth(m), HalfHeight(m), (SQUARE_SIZE * 10) as real));
      }
    }

    /** The `assistFallback` lambda. */
    method AssistFallback(unit: UnitId, b: nat, lastFrame: int, unitPos: Point)
      modifies this
      ensures Snap() == Fallback(old(Snap()), unit, b, lastFrame, unitPos)
    {
      var k := KindOf(btasks, b);
      var n := |btasks|;
      SetBoard(btasks + [BuilderTask(LOW, unitPos, ASSIST, ASSIST_TIMEOUT, None, None)],
               builderTasks[k := RemoveAll(Bucket(builderTasks, k), b)]);
      SetCount(builderTasksCount - 1, true);
      SetUnitTask(unitTask[unit := BuilderRef(n)]);
      SetWorkers(workers, builderInfo[unit := lastFrame]);
    }

    /** `WorkerWatchdog`. */
    method WorkerWatchdog(lastFrame: int)
      requires Valid()
      modifies this
      ensures Valid()
      ensures Snap() == WatchdogUpdate(old(Snap()), lastFrame)
    {
      WatchdogMeaning(Snap(), lastFrame, 0);
      builderInfo, unitTask := SweepInfo(Snap(), lastFrame);
    }

    // -------------------------------------------------------------------
    // The handlers registered per unit type. `buildSpeed`, positions,
    // footprints and build ranges are the unit definition's and the
    // engine's answers; `beingBuilt` is `IsBeingBuilt()`.
    // -------------------------------------------------------------------

    /** `factorycloak` finished. `nanos` are the team's caretakers within a
        caretaker's build range, `cluster` the result of
        `FindNearestCluster` (negative for none). Returns the nudged point
        the factory is moved to and the task it was given. */
    method FactoryFinished(unit: UnitId, buildSpeed: real, nanos: seq<UnitId>, cluster: int, pos: Point, xSize: int, zSize: int,
                           canAssign: nat -> bool, m: MapInfo)
      returns (moveTo: Point, task: nat)
      requires Valid() && cluster < |clusterInfo|
      modifies this
      ensures Valid() && Drift(Snap()) == Drift(old(Snap()))
      ensures moveTo == NudgePoint(pos, HalfWidth(m), HalfHeight(m), Span(xSize, zSize) as real * 0.75)
      ensures (Snap(), task) == PreparedFactory(FactoryJoined(old(Snap()), unit, buildSpeed, nanos, cluster), unit, canAssign, pos, xSize, zSize)
    {
      FactoryHandlersOk(Snap(), unit, buildSpeed, nanos, cluster);
      JoinFactory(unit, buildSpeed, nanos, cluster);
      moveTo := NudgePoint(pos, HalfWidth(m), HalfHeight(m), Span(xSize, zSize) as real * 0.75);
      task := PrepareFactory(unit, canAssign, pos, xSize, zSize);
    }

    method JoinFactory(unit: UnitId, buildSpeed: real, nanos: seq<UnitId>, cluster: int)
      requires cluster < |clusterInfo|
      modifies this
      ensures Snap() == FactoryJoined(old(Snap()), unit, buildSpeed, nanos, cluster)
    {
      SetPower(totalBuildpower + buildSpeed, builderPower, factoryPower + buildSpeed);
      var info := if cluster >= 0 then clusterInfo[cluster := clusterInfo[cluster].(factory := Some(unit))] else clusterInfo;
      SetSites(factories[unit := nanos], info);
    }

    /** `factorycloak` idle: a factory without a task gets one. */
    method FactoryIdle(unit: UnitId, canAssign: nat -> bool, pos: Point, xSize: int, zSize: int)
      requires Valid()
      modifies this
      ensures Valid() && Drift(Snap()) == Drift(old(Snap()))
      ensures unit in old(unitTask) ==> Snap() == old(Snap())
      ensures unit !in old(unitTask) ==> Snap() == PreparedFactory(old(Snap()), unit, canAssign, pos, xSize, zSize).0
    {
      if unit !in unitTask {
        var task := PrepareFactory(unit, canAssign, pos, xSize, zSize);
      }
    }

    /** `factorycloak` destroyed. */
    method FactoryDestroyed(unit: UnitId, beingBuilt: bool, buildSpeed: real)
      requires Valid()
      modifies this
      ensures Valid() && Drift(Snap()) == Drift(old(Snap()))
      ensures Snap() == FactoryLeft(old(Snap()), unit, buildSpeed, beingBuilt)
    {
      if beingBuilt {
        return;
      }
      FactoryHandlersOk(Snap(), unit, buildSpeed, [], -1);
      SetPower(totalBuildpower - buildSpeed, builderPower, factoryPower - buildSpeed);
      var info := ClearSlots(clusterInfo, unit, false);
      SetSites(factories - {unit}, info);
      SetUnitTask(unitTask - {unit});
    }

    /** The commander finished: its build power counts, and the facing of
        the factory it is ordered to build is returned. */
    method CommanderFinished(buildSpeed: real, pos: Point, m: MapInfo) returns (facing: Facing)
      requires Valid()
      modifies this
      ensures Valid()
      ensures Snap() == old(Snap()).(totalBuildpower := old(totalBuildpower) + buildSpeed)
      ensures facing == FindFacing((m.width * SQUARE_SIZE) as real, (m.height * SQUARE_SIZE) as real, pos)
    {
      SetPower(totalBuildpower + buildSpeed, builderPower, factoryPower);
      facing := FindFacing((m.width * SQUARE_SIZE) as real, (m.height * SQUARE_SIZE) as real, pos);
    }

    method CommanderDestroyed(beingBuilt: bool, buildSpeed: real)
      requires Valid()
      modifies this
      ensures Valid()
      ensures Snap() == if beingBuilt then old(Snap()) else old(Snap()).(totalBuildpower := old(totalBuildpower) - buildSpeed)
    {
      if !beingBuilt {
        SetPower(totalBuildpower - buildSpeed, builderPower, factoryPower);
      }
    }

    /** `armnanotc` finished; returns its patrol point, one footprint from
        it toward the map centre. */
    method NanoFinished(unit: UnitId, buildSpeed: real, from: Point, xSize: int, zSize: int, radius: real,
                        at: UnitId -> Point, m: MapInfo)
      returns (patrol: Point)
      requires Valid()
      modifies this
      ensures Valid()
      ensures Snap() == NanoJoined(old(Snap()), unit, buildSpeed, from, radius, at)
      ensures patrol == NudgePoint(from, HalfWidth(m), HalfHeight(m), Span(xSize, zSize) as real)
    {
      patrol := NudgePoint(from, HalfWidth(m), HalfHeight(m), Span(xSize, zSize) as real);
      SetPower(totalBuildpower + buildSpeed, builderPower, factoryPower + buildSpeed);
      var f := AttachNano(factories, unit, from, radius, at);
      assert f == Attached(factories, unit, from, radius, at);
      SetSites(f, clusterInfo);
    }

    method NanoDestroyed(unit: UnitId, beingBuilt: bool, buildSpeed: real)
      requires Valid()
      modifies this
      ensures Valid()
      ensures Snap() == NanoLeft(old(Snap()), unit, buildSpeed, beingBuilt)
    {
      if beingBuilt {
        return;
      }
      SetPower(totalBuildpower - buildSpeed, builderPower, factoryPower - buildSpeed);
      var f := DetachNano(factories, unit);
      assert f == Detached(factories, unit);
      SetSites(f, clusterInfo);
    }

    /** `armrectr` finished. */
    method ConstructorFinished(unit: UnitId, buildSpeed: real)
      requires Valid()
      modifies this
      ensures Valid() && Drift(Snap()) == Drift(old(Snap()))
      ensures Snap() == WorkerJoined(old(Snap()), unit, buildSpeed)
    {
      WorkerHandlersOk(Snap(), unit, buildSpeed);
      SetPower(totalBuildpower + buildSpeed, builderPower + buildSpeed, factoryPower);
      SetWorkers(workers + {unit}, builderInfo);
      SetCount(builderTasksCount, true);
    }

    /** Whether the constructor's task is an ASSIST task. */
    predicate Assisting(unit: UnitId)
      reads this
    {
      BuilderTaskOf(Snap(), unit).Some? && BuilderTaskOf(Snap(), unit).value.kind == ASSIST
    }

    /** `armrectr` idle: an assistant drops its target and keeps its task;
        any other constructor loses its task and picks one. Either way the
        task is then executed. `mid` is the state between the two steps
        and `info` the worker's info in the cache the pick used. */
    method ConstructorIdle(unit: UnitId, canAssign: nat -> bool, quantity: nat -> int, lastFrame: int,
                           at: UnitId -> Point, qspeed: UnitId -> QSpeed, unitPos: Point,
                           buildPosOk: bool, site: Option<Point>, m: MapInfo)
      returns (patrol: Option<Point>, ghost mid: State, ghost info: Option<WorkerInfo>)
      requires Valid()
      requires Assisting(unit) || unit in workers
      modifies this
      ensures Valid() && BuilderTaskOf(Snap(), unit).Some?
      ensures StateOk(mid) && unit in mid.unitTask && mid.unitTask[unit].BuilderRef? && mid.unitTask[unit].b < |mid.btasks|
      ensures old(Assisting(unit)) ==> mid == old(Snap()).(btasks := WithTarget(old(btasks), old(unitTask[unit].b), None))
      ensures !old(Assisting(unit)) ==> FreshFor(Repicking(old(Snap()), unit, mid.wtRelation, mid.cachedFrame), info)
      ensures !old(Assisting(unit)) ==>
                mid == PreparedBuilder(Repicking(old(Snap()), unit, mid.wtRelation, mid.cachedFrame), unit, info, canAssign, quantity, unitPos).0
      ensures !old(Assisting(unit)) ==> CacheTaken(old(Snap()), mid.wtRelation, mid.cachedFrame, lastFrame, at, qspeed, unit, info)
      ensures Snap() == Executed(mid, unit, buildPosOk, site, lastFrame, unitPos)
    {
      if Assisting(unit) {
        DropAssistTarget(unit);
        info := None;
      } else {
        info := Repick(unit, canAssign, quantity, lastFrame, at, qspeed, unitPos);
      }
      mid := Snap();
      patrol := ExecuteBuilder(unit, buildPosOk, site, lastFrame, unitPos, m);
    }

    /** `task->SetTarget(nullptr)` on the assistant's task. */
    method DropAssistTarget(unit: UnitId)
      requires Valid() && Assisting(unit)
      modifies this
      ensures Valid() && unit in unitTask && unitTask[unit].BuilderRef? && unitTask[unit].b < |btasks|
      ensures Snap() == old(Snap()).(btasks := WithTarget(old(btasks), old(unitTask[unit].b), None))
    {
      var s := Snap();
      SetBoard(WithTarget(btasks, unitTask[unit].b, None), builderTasks);
      SameCatalogOk(s, Snap());
    }

    /** `unit->RemoveTask(); PrepareBuilder(unit);` */
    method Repick(unit: UnitId, canAssign: nat -> bool, quantity: nat -> int, lastFrame: int,
                  at: UnitId -> Point, qspeed: UnitId -> QSpeed, unitPos: Point)
      returns (ghost info: Option<WorkerInfo>)
      requires Valid() && unit in workers
      modifies this
      ensures Valid() && unit in unitTask && unitTask[unit].BuilderRef? && unitTask[unit].b < |btasks|
      ensures FreshFor(Repicking(old(Snap()), unit, wtRelation, cachedFrame), info)
      ensures Snap() == PreparedBuilder(Repicking(old(Snap()), unit, wtRelation, cachedFrame), unit, info, canAssign, quantity, unitPos).0
      ensures CacheTaken(old(Snap()), wtRelation, cachedFrame, lastFrame, at, qspeed, unit, info)
    {
      SetUnitTask(unitTask - {unit});
      var task, w := PrepareBuilder(unit, canAssign, quantity, lastFrame, at, qspeed, unitPos);
      info := w;
    }

    /** `armrectr` destroyed. */
    method ConstructorDestroyed(unit: UnitId, beingBuilt: bool, buildSpeed: real)
      requires Valid()
      modifies this
      ensures Valid() && Drift(Snap()) == Drift(old(Snap()))
      ensures Snap() == WorkerLeft(old(Snap()), unit, buildSpeed, beingBuilt)
    {
      if beingBuilt {
        return;
      }
      WorkerHandlersOk(Snap(), unit, buildSpeed);
      SetPower(totalBuildpower - buildSpeed, builderPower - buildSpeed, factoryPower);
      SetWorkers(workers - {unit}, builderInfo - {unit});
      SetCount(builderTasksCount, true);
      SetUnitTask(unitTask - {unit});
    }

    /** `armsolar` created and destroyed, `armfus` created and destroyed. */
    method SolarCreated()
      requires Valid()
      modifies this
      ensures Valid() && Snap() == old(Snap()).(solarCount := old(solarCount) + 1)
    {
      SetEnergyCounts(solarCount + 1, fusionCount);
    }

    method SolarDestroyed()
      requires Valid()
      modifies this
      ensures Valid() && Snap() == old(Snap()).(solarCount := old(solarCount) - 1)
    {
      SetEnergyCounts(solarCount - 1, fusionCount);
    }

    method FusionCreated()
      requires Valid()
      modifies this
      ensures Valid() && Snap() == old(Snap()).(fusionCount := old(fusionCount) + 1)
    {
      SetEnergyCounts(solarCount, fusionCount + 1);
    }

    method FusionDestroyed()
      requires Valid()
      modifies this
      ensures Valid() && Snap() == old(Snap()).(fusionCount := old(fusionCount) - 1)
    {
      SetEnergyCounts(solarCount, fusionCount - 1);
    }

    /** `armfus` finished: one HIGH DDM task at its position. */
    method FusionFinished(pos: Point)
      requires Valid()
      modifies this
      ensures Valid() && Drift(Snap()) == Drift(old(Snap()))
      ensures Snap() == FusionFinishedState(old(Snap()), pos)
    {
      FusionFinishedOk(Snap(), pos);
      var bd := PushAll(Board(btasks, builderTasks), [NewBuilderTask(HIGH, pos, DDM)]);
      SetBoard(bd.tasks, bd.buckets);
      SetCount(builderTasksCount + 1, true);
    }

    /** `cafus` finished, with the count raised by the seven tasks pushed. */
    method SingularityFinished(pos: Point)
      requires Valid()
      modifies this
      ensures Valid() && Drift(Snap()) == Drift(old(Snap()))
      ensures Snap() == SinguFinished(old(Snap()), pos)
    {
      SinguFinishedOk(Snap(), pos);
      var bd := PushAll(Board(btasks, builderTasks), SinguTasks(pos));
      SetBoard(bd.tasks, bd.buckets);
      SetCount(builderTasksCount + |SinguTasks(pos)|, true);
    }

    /** `armestor` created and destroyed. */
    method PylonCreated(unit: UnitId, cluster: int)
      requires Valid() && cluster < |clusterInfo|
      modifies this
      ensures Valid() && Snap() == PylonPlaced(old(Snap()), unit, cluster)
    {
      if cluster >= 0 {
        SetSites(factories, clusterInfo[cluster := clusterInfo[cluster].(pylon := Some(unit))]);
      }
    }

    method PylonDestroyed(unit: UnitId)
      requires Valid()
      modifies this
      ensures Valid() && Snap() == PylonLeft(old(Snap()), unit)
    {
      var info := ClearSlots(clusterInfo, unit, true);
      SetSites(factories, info);
    }
  }
}
