/** `ISquadTask`: a fighter task that moves its assignees as one squad. The
    model keeps the assignee bookkeeping (range buckets, the range and speed
    aggregates, the leader), merging of two squads, the integer line walk of
    the line-of-fire test, and the re-attack timer. Unit definitions and
    terrain areas are oracles fixed for the life of the task. */
module Squad {
  import opened Common

  /** `std::numeric_limits<float>::max()`. */
  const FLT_MAX: real := 340282346638528859811704183484516925440.0

  /** What the squad reads about a unit: the definition's minimum and maximum
      weapon ranges and speed, whether its role is support, and the
      `percentOfMap` of its terrain area (`None` when the unit has no area). */
  datatype Traits = Traits(minRange: real, maxRange: real, speed: real, support: bool, area: Option<real>)

  /** Engine values are finite and non-negative. */
  predicate InRange(t: Traits) {
    0.0 <= t.maxRange <= FLT_MAX && 0.0 <= t.speed <= FLT_MAX
  }

  /** The four aggregate fields `lowestRange`, `highestRange`, `lowestSpeed`,
      `highestSpeed`. */
  datatype Agg = Agg(lowestRange: real, highestRange: real, lowestSpeed: real, highestSpeed: real)

  /** The values the constructor and `RemoveAssignee` reset the aggregates to. */
  const RESET: Agg := Agg(FLT_MAX, 0.0, FLT_MAX, 0.0)

  function Min(a: real, b: real): real { if a <= b then a else b }
  function Max(a: real, b: real): real { if a >= b then a else b }

  /** One `std::min`/`std::max` update with a unit's values. */
  function Include(a: Agg, t: Traits): Agg {
    Agg(Min(a.lowestRange, t.maxRange), Max(a.highestRange, t.maxRange),
        Min(a.lowestSpeed, t.speed), Max(a.highestSpeed, t.speed))
  }

  /** The updates of a walk over `s`, in order. */
  function IncludeAll(a: Agg, s: seq<UnitId>, traits: UnitId -> Traits): Agg {
    if s == [] then a else Include(IncludeAll(a, s[..|s| - 1], traits), traits(s[|s| - 1]))
  }

  predicate Covers(a: Agg, t: Traits) {
    a.lowestRange <= t.maxRange <= a.highestRange && a.lowestSpeed <= t.speed <= a.highestSpeed
  }

  /** `a` holds exactly the minima and maxima over `units`, or the reset
      values when there are none. */
  predicate Exact(a: Agg, units: set<UnitId>, traits: UnitId -> Traits) {
    && (units == {} ==> a == RESET)
    && (forall u :: u in units ==> Covers(a, traits(u)))
    && (units != {} ==>
          && (exists u :: u in units && a.lowestRange == traits(u).maxRange)
          && (exists u :: u in units && a.highestRange == traits(u).maxRange)
          && (exists u :: u in units && a.lowestSpeed == traits(u).speed)
          && (exists u :: u in units && a.highestSpeed == traits(u).speed))
  }

  /** Including one more unit keeps the aggregates exact. */
  lemma IncludeExact(a: Agg, units: set<UnitId>, traits: UnitId -> Traits, v: UnitId)
    requires Exact(a, units, traits) && InRange(traits(v))
    ensures Exact(Include(a, traits(v)), units + {v}, traits)
  {
    var b := Include(a, traits(v));
    var s := units + {v};
    if units == {} {
      assert s == {v};
    } else {
      var w1 :| w1 in units && a.lowestRange == traits(w1).maxRange;
      var w2 :| w2 in units && a.highestRange == traits(w2).maxRange;
      var w3 :| w3 in units && a.lowestSpeed == traits(w3).speed;
      var w4 :| w4 in units && a.highestSpeed == traits(w4).speed;
      var x1 := if a.lowestRange <= traits(v).maxRange then w1 else v;
      var x2 := if a.highestRange >= traits(v).maxRange then w2 else v;
      var x3 := if a.lowestSpeed <= traits(v).speed then w3 else v;
      var x4 := if a.highestSpeed >= traits(v).speed then w4 else v;
      assert x1 in s && b.lowestRange == traits(x1).maxRange;
      assert x2 in s && b.highestRange == traits(x2).maxRange;
      assert x3 in s && b.lowestSpeed == traits(x3).speed;
      assert x4 in s && b.highestSpeed == traits(x4).speed;
    }
  }

  /** A walk over `s` makes the aggregates exact over the units walked as well. */
  lemma {:induction false} IncludeAllExact(a: Agg, units: set<UnitId>, s: seq<UnitId>, traits: UnitId -> Traits)
    requires Exact(a, units, traits)
    requires forall k :: 0 <= k < |s| ==> InRange(traits(s[k]))
    ensures Exact(IncludeAll(a, s, traits), units + Elems(s), traits)
  {
    if s == [] {
      assert units + Elems(s) == units;
    } else {
      var init := s[..|s| - 1];
      assert forall k :: 0 <= k < |init| ==> init[k] == s[k];
      IncludeAllExact(a, units, init, traits);
      IncludeExact(IncludeAll(a, init, traits), units + Elems(init), traits, s[|s| - 1]);
      ElemsSnoc(s);
    }
  }

  lemma ElemsSnoc<T>(s: seq<T>)
    requires s != []
    ensures Elems(s) == Elems(s[..|s| - 1]) + {s[|s| - 1]}
  {
    assert s == s[..|s| - 1] + [s[|s| - 1]];
  }

  /** The elements of a walk. */
  function Elems<T>(s: seq<T>): set<T> {
    set x | x in s
  }

  // ---------------------------------------------------------------------
  // Leader choice.
  // ---------------------------------------------------------------------

  /** One step of the second loop of `FindLeader`: a unit with a terrain area
      that is not support replaces a leader that has no area, is support, or
      lives in a larger area. */
  function LeaderStep(leader: UnitId, ass: UnitId, traits: UnitId -> Traits): UnitId {
    var a := traits(ass);
    var l := traits(leader);
    if a.support || a.area.None? then leader
    else if l.area.None? || l.support || a.area.value < l.area.value then ass
    else leader
  }

  function Refine(leader: UnitId, s: seq<UnitId>, traits: UnitId -> Traits): UnitId {
    if s == [] then leader else LeaderStep(Refine(leader, s[..|s| - 1], traits), s[|s| - 1], traits)
  }

  /** The index of the first unit of `s` that is not support. */
  function FirstNonSupport(s: seq<UnitId>, traits: UnitId -> Traits): (r: Option<nat>)
    ensures r.Some? ==> r.value < |s| && !traits(s[r.value]).support
                        && forall k :: 0 <= k < r.value ==> traits(s[k]).support
    ensures r.None? ==> forall k :: 0 <= k < |s| ==> traits(s[k]).support
  {
    if s == [] then None
    else if !traits(s[0]).support then Some(0)
    else match FirstNonSupport(s[1..], traits)
      case None => None
      case Some(i) => Some(i + 1)
  }

  /** The leader after `FindLeader` walks `s`: with no leader, the first unit
      that is not support becomes leader and the walk continues after it;
      then every later unit may replace the leader by `LeaderStep`. */
  function LeaderAfter(leader: Option<UnitId>, s: seq<UnitId>, traits: UnitId -> Traits): Option<UnitId> {
    if leader.Some? then Some(Refine(leader.value, s, traits))
    else match FirstNonSupport(s, traits)
      case None => None
      case Some(i) => Some(Refine(s[i], s[i + 1..], traits))
  }

  /** The leader after `AssignTo(unit)`. Unlike `LeaderStep`, a unit without a
      terrain area may take over from a leader that has none either. */
  function LeaderOnAssign(leader: Option<UnitId>, unit: UnitId, traits: UnitId -> Traits): Option<UnitId> {
    if leader.None? then Some(unit)
    else
      var u := traits(unit);
      var l := traits(leader.value);
      if u.support then leader
      else if l.area.None? || l.support || (u.area.Some? && u.area.value < l.area.value) then Some(unit)
      else leader
  }

  /** A support unit joining a squad that has a leader never becomes leader. */
  lemma SupportNeverTakesOver(leader: UnitId, unit: UnitId, traits: UnitId -> Traits)
    requires traits(unit).support
    ensures LeaderOnAssign(Some(leader), unit, traits) == Some(leader)
  {
  }

  /** The refined leader is the starting one or a unit of `s` that is not
      support and has a terrain area. */
  lemma {:induction false} RefineChoice(leader: UnitId, s: seq<UnitId>, traits: UnitId -> Traits)
    ensures var r := Refine(leader, s, traits);
            r == leader || (r in s && !traits(r).support && traits(r).area.Some?)
  {
    if s != [] {
      var init := s[..|s| - 1];
      RefineChoice(leader, init, traits);
      var p := Refine(leader, init, traits);
      if p != leader {
        assert p in init;
        assert p in s;
      }
    }
  }

  /** `FindLeader` never selects a support unit: the leader afterwards is the
      old one or a unit walked that is not support. Starting without a
      leader, it ends without one exactly when every unit walked is support. */
  lemma LeaderAfterChoice(leader: Option<UnitId>, s: seq<UnitId>, traits: UnitId -> Traits)
    ensures var r := LeaderAfter(leader, s, traits);
            && (r.None? <==> leader.None? && forall k :: 0 <= k < |s| ==> traits(s[k]).support)
            && (r.Some? && r != leader ==> r.value in s && !traits(r.value).support)
  {
    if leader.Some? {
      RefineChoice(leader.value, s, traits);
    } else {
      match FirstNonSupport(s, traits)
      case None =>
      case Some(i) =>
        RefineChoice(s[i], s[i + 1..], traits);
    }
  }

  // ---------------------------------------------------------------------
  // Assignee bookkeeping.
  // ---------------------------------------------------------------------

  function BucketOf(m: map<real, set<UnitId>>, r: real): set<UnitId> {
    if r in m then m[r] else {}
  }

  /** The range buckets after `Merge`: the buckets of both squads, key by key. */
  function UnionRanges(a: map<real, set<UnitId>>, b: map<real, set<UnitId>>): (m: map<real, set<UnitId>>)
    ensures m.Keys == a.Keys + b.Keys
    ensures forall r :: r in m ==> m[r] == BucketOf(a, r) + BucketOf(b, r)
  {
    map r | r in a.Keys + b.Keys :: BucketOf(a, r) + BucketOf(b, r)
  }

  ghost predicate TraitsOk(traits: UnitId -> Traits) {
    forall u :: InRange(traits(u))
  }

  /** No empty bucket is stored; every assignee sits in the bucket of its
      minimum range, and buckets hold only assignees. */
  ghost predicate BucketsOk(traits: UnitId -> Traits, units: set<UnitId>, rangeUnits: map<real, set<UnitId>>) {
    && (forall r :: r in rangeUnits ==> rangeUnits[r] != {})
    && (forall u :: u in units ==> traits(u).minRange in rangeUnits && u in rangeUnits[traits(u).minRange])
    && (forall r, u :: r in rangeUnits && u in rangeUnits[r] ==> u in units && traits(u).minRange == r)
  }

  /** The leader is an assignee, the aggregates are exact, and the squad is
      without a leader only while all its assignees are support. */
  ghost predicate LeaderOk(traits: UnitId -> Traits, units: set<UnitId>, leader: Option<UnitId>, agg: Agg) {
    && (leader.Some? ==> leader.value in units)
    && Exact(agg, units, traits)
    && (forall u :: u in units && leader.None? ==> traits(u).support)
  }

  lemma BucketsInsert(traits: UnitId -> Traits, units: set<UnitId>, m: map<real, set<UnitId>>, unit: UnitId)
    requires BucketsOk(traits, units, m)
    ensures BucketsOk(traits, units + {unit}, m[traits(unit).minRange := BucketOf(m, traits(unit).minRange) + {unit}])
  {
  }

  lemma BucketsRemove(traits: UnitId -> Traits, units: set<UnitId>, m: map<real, set<UnitId>>, unit: UnitId)
    requires BucketsOk(traits, units, m)
    ensures var r := traits(unit).minRange;
            var rest := BucketOf(m, r) - {unit};
            BucketsOk(traits, units - {unit}, if rest == {} then m - {r} else m[r := rest])
  {
  }

  lemma LeaderAssign(traits: UnitId -> Traits, units: set<UnitId>, leader: Option<UnitId>, agg: Agg, unit: UnitId)
    requires TraitsOk(traits) && LeaderOk(traits, units, leader, agg)
    ensures LeaderOk(traits, units + {unit}, LeaderOnAssign(leader, unit, traits), Include(agg, traits(unit)))
  {
    IncludeExact(agg, units, traits, unit);
  }

  /** After a walk over all of `units` from the reset state, the leader and
      aggregates are consistent. */
  lemma LeaderRecomputed(traits: UnitId -> Traits, units: set<UnitId>, order: seq<UnitId>)
    requires TraitsOk(traits)
    requires forall u :: u in order <==> u in units
    ensures LeaderOk(traits, units, LeaderAfter(None, order, traits), IncludeAll(RESET, order, traits))
  {
    IncludeAllExact(RESET, {}, order, traits);
    assert {} + Elems(order) == units;
    LeaderAfterChoice(None, order, traits);
    if LeaderAfter(None, order, traits).None? {
      forall u | u in units ensures traits(u).support {
        var k :| 0 <= k < |order| && order[k] == u;
      }
    }
  }

  /** Walking the newcomers from a consistent state keeps it consistent. */
  lemma LeaderMerged(traits: UnitId -> Traits, units: set<UnitId>, leader: UnitId, agg: Agg,
                     rookies: set<UnitId>, order: seq<UnitId>)
    requires TraitsOk(traits) && LeaderOk(traits, units, Some(leader), agg)
    requires forall u :: u in order <==> u in rookies
    ensures LeaderOk(traits, units + rookies, LeaderAfter(Some(leader), order, traits), IncludeAll(agg, order, traits))
  {
    IncludeAllExact(agg, units, order, traits);
    assert units + Elems(order) == units + rookies;
    LeaderAfterChoice(Some(leader), order, traits);
  }

  class SquadTask {
    const traits: UnitId -> Traits
    var units: set<UnitId>
    var shields: set<UnitId>
    var attackPower: real
    var rangeUnits: map<real, set<UnitId>>
    var lowestRange: real
    var highestRange: real
    var lowestSpeed: real
    var highestSpeed: real
    var leader: Option<UnitId>
    var attackFrame: int

    function Aggregates(): Agg
      reads this
    {
      Agg(lowestRange, highestRange, lowestSpeed, highestSpeed)
    }

    /** The bookkeeping invariant: no empty bucket is stored; every assignee
        sits in the bucket of its minimum range and buckets hold only
        assignees; the leader is an assignee; the aggregates are exact; and
        the squad is without a leader only while all its assignees are
        support. */
    ghost predicate Valid()
      reads this
    {
      && TraitsOk(traits)
      && BucketsOk(traits, units, rangeUnits)
      && LeaderOk(traits, units, leader, Aggregates())
    }

    constructor (traits: UnitId -> Traits, attackPower: real)
      requires TraitsOk(traits)
      ensures Valid()
      ensures this.traits == traits && units == {} && shields == {} && this.attackPower == attackPower
      ensures rangeUnits == map[] && Aggregates() == RESET && leader == None && attackFrame == -1
    {
      this.traits := traits;
      units := {};
      shields := {};
      this.attackPower := attackPower;
      rangeUnits := map[];
      lowestRange := FLT_MAX;
      highestRange := 0.0;
      lowestSpeed := FLT_MAX;
      highestSpeed := 0.0;
      leader := None;
      attackFrame := -1;
    }

    /** The unit joins its range bucket; the aggregates take its range and
        speed in; the leader follows `LeaderOnAssign`. The aggregates are
        updated with `std::min`/`std::max` even when there is no leader (see
        `AssignAggregatesAsWritten`). `IFighterTask::AssignTo` runs first
        and is not part of this model: `basePower` and `baseShields` are the
        attack power and shields it leaves. */
    method AssignTo(unit: UnitId, basePower: real, baseShields: set<UnitId>)
      requires Valid()
      modifies this
      ensures Valid()
      ensures units == old(units) + {unit}
      ensures rangeUnits == old(rangeUnits)[traits(unit).minRange := BucketOf(old(rangeUnits), traits(unit).minRange) + {unit}]
      ensures Aggregates() == Include(old(Aggregates()), traits(unit))
      ensures leader == LeaderOnAssign(old(leader), unit, traits)
      ensures shields == baseShields && attackPower == basePower && attackFrame == old(attackFrame)
    {
      var t := traits(unit);
      BucketsInsert(traits, units, rangeUnits, unit);
      LeaderAssign(traits, units, leader, Aggregates(), unit);
      // The four `std::min`/`std::max` updates are `Include`.
      SetState(units + {unit}, baseShields, basePower,
               rangeUnits[t.minRange := BucketOf(rangeUnits, t.minRange) + {unit}],
               Include(Aggregates(), t), LeaderOnAssign(leader, unit, traits));
    }

    /** The unit leaves its bucket, and the bucket is erased once empty; the
        leader and aggregates are reset and recomputed over the remaining
        assignees in `order`, the set's iteration order. `basePower` and
        `baseShields` are what `IFighterTask::RemoveAssignee`, which runs
        first, leaves in the base class's fields. */
    method RemoveAssignee(unit: UnitId, basePower: real, baseShields: set<UnitId>) returns (order: seq<UnitId>)
      requires Valid()
      modifies this
      ensures Valid()
      ensures units == old(units) - {unit}
      ensures var r := traits(unit).minRange;
              var rest := BucketOf(old(rangeUnits), r) - {unit};
              rangeUnits == if rest == {} then old(rangeUnits) - {r} else old(rangeUnits)[r := rest]
      ensures NoDup(order) && forall u :: u in order <==> u in units
      ensures Aggregates() == IncludeAll(RESET, order, traits)
      ensures leader == LeaderAfter(None, order, traits)
      ensures units == {} ==> leader == None && Aggregates() == RESET
      ensures shields == baseShields && attackPower == basePower && attackFrame == old(attackFrame)
    {
      BucketsRemove(traits, units, rangeUnits, unit);
      var rest := units - {unit};
      var r := traits(unit).minRange;
      var bucket := BucketOf(rangeUnits, r) - {unit};
      var ranges := if bucket == {} then rangeUnits - {r} else rangeUnits[r := bucket];
      order := Enumerate(rest);
      if rest == {} {
        assert order == [];
        SetState(rest, baseShields, basePower, ranges, RESET, None);
        return;
      }
      var agg, ld := ScanLeader(RESET, None, order, traits);
      LeaderRecomputed(traits, rest, order);
      SetState(rest, baseShields, basePower, ranges, agg, ld);
    }

    /** The two loops over `[itBegin, itEnd)`, given as the sequence `s`. */
    method FindLeader(s: seq<UnitId>)
      modifies this
      ensures Aggregates() == IncludeAll(old(Aggregates()), s, traits)
      ensures leader == LeaderAfter(old(leader), s, traits)
      ensures units == old(units) && shields == old(shields) && attackPower == old(attackPower)
      ensures rangeUnits == old(rangeUnits) && attackFrame == old(attackFrame)
    {
      var agg, ld := ScanLeader(Aggregates(), leader, s, traits);
      SetFields(agg, ld);
    }

    method SetFields(agg: Agg, ld: Option<UnitId>)
      modifies this
      ensures Aggregates() == agg && leader == ld
      ensures units == old(units) && shields == old(shields) && attackPower == old(attackPower)
      ensures rangeUnits == old(rangeUnits) && attackFrame == old(attackFrame)
    {
      lowestRange, highestRange := agg.lowestRange, agg.highestRange;
      lowestSpeed, highestSpeed := agg.lowestSpeed, agg.highestSpeed;
      leader := ld;
    }

    /** Merging a squad with a leader: the other squad's assignees, shields,
        attack power and range buckets are added, and the leader may be
        replaced by one of the newcomers. */
    method Merge(other: SquadTask) returns (order: seq<UnitId>)
      requires Valid() && other.Valid() && other.traits == traits && leader.Some?
      modifies this
      ensures Valid()
      ensures units == old(units) + old(other.units)
      ensures shields == old(shields) + old(other.shields)
      ensures attackPower == old(attackPower) + old(other.attackPower)
      ensures rangeUnits == UnionRanges(old(rangeUnits), old(other.rangeUnits))
      ensures NoDup(order) && forall u :: u in order <==> u in old(other.units)
      ensures Aggregates() == IncludeAll(old(Aggregates()), order, traits)
      ensures leader == LeaderAfter(old(leader), order, traits)
      ensures attackFrame == old(attackFrame)
    {
      order := Enumerate(other.units);
      MergeIn(other.units, other.shields, other.attackPower, other.rangeUnits, order);
    }

    /** The body of `Merge` with the other squad's state passed by value:
        `rookies` are its assignees, walked in the order `order`. */
    method MergeIn(rookies: set<UnitId>, otherShields: set<UnitId>, otherPower: real,
                   rangers: map<real, set<UnitId>>, order: seq<UnitId>)
      requires Valid() && BucketsOk(traits, rookies, rangers) && leader.Some?
      requires forall u :: u in order <==> u in rookies
      modifies this
      ensures Valid()
      ensures units == old(units) + rookies && shields == old(shields) + otherShields
      ensures attackPower == old(attackPower) + otherPower
      ensures rangeUnits == UnionRanges(old(rangeUnits), rangers)
      ensures Aggregates() == IncludeAll(old(Aggregates()), order, traits)
      ensures leader == LeaderAfter(old(leader), order, traits)
      ensures attackFrame == old(attackFrame)
    {
      var ranges := MergeRanges(rangeUnits, rangers);
      var agg, ld := ScanLeader(Aggregates(), leader, order, traits);
      LeaderMerged(traits, units, leader.value, Aggregates(), rookies, order);
      MergedBucketsValid(rangeUnits, rangers, units, rookies, traits);
      SetState(units + rookies, shields + otherShields, attackPower + otherPower, ranges, agg, ld);
    }

    /** Replaces everything but the attack timer. */
    method SetState(units: set<UnitId>, shields: set<UnitId>, attackPower: real,
                    rangeUnits: map<real, set<UnitId>>, agg: Agg, ld: Option<UnitId>)
      modifies this
      ensures this.units == units && this.shields == shields && this.attackPower == attackPower
      ensures this.rangeUnits == rangeUnits && Aggregates() == agg && leader == ld
      ensures attackFrame == old(attackFrame)
    {
      this.units, this.shields, this.attackPower, this.rangeUnits := units, shields, attackPower, rangeUnits;
      SetFields(agg, ld);
    }

    /** The timer of `Attack`: orders are re-issued to every assignee when at
        least three seconds have passed since they last were. */
    method Attack(frame: int) returns (isRepeatAttack: bool)
      modifies this
      ensures (isRepeatAttack, attackFrame) == AttackStep(old(attackFrame), frame)
      ensures units == old(units) && shields == old(shields) && attackPower == old(attackPower)
      ensures rangeUnits == old(rangeUnits) && Aggregates() == old(Aggregates()) && leader == old(leader)
    {
      isRepeatAttack := frame >= attackFrame + FRAMES_PER_SEC * 3;
      attackFrame := if isRepeatAttack then frame else attackFrame;
    }
  }

  /** The loops of `FindLeader` on locals: the first runs only without a
      leader and stops after the first unit that is not support; the second
      walks the rest. Both fold every unit into the aggregates. */
  method ScanLeader(agg0: Agg, leader0: Option<UnitId>, s: seq<UnitId>, traits: UnitId -> Traits)
    returns (agg: Agg, ld: Option<UnitId>)
    ensures agg == IncludeAll(agg0, s, traits)
    ensures ld == LeaderAfter(leader0, s, traits)
  {
    var i := 0;
    agg, ld := agg0, leader0;
    if leader0.None? {
      agg, ld, i := ScanFirst(agg0, s, traits);
      if ld.None? {
        assert s[..i] == s;
        return;
      }
    }
    var l;
    agg, l := ScanRest(agg0, s, i, agg, ld.value, traits);
    ld := Some(l);
    assert leader0.Some? ==> s[i..] == s;
  }

  /** The first loop of `FindLeader`, run when there is no leader: it stops
      right after the first unit that is not support, which becomes leader. */
  method ScanFirst(agg0: Agg, s: seq<UnitId>, traits: UnitId -> Traits)
    returns (agg: Agg, ld: Option<UnitId>, i: nat)
    ensures i <= |s| && agg == IncludeAll(agg0, s[..i], traits)
    ensures ld.None? ==> i == |s| && FirstNonSupport(s, traits).None?
    ensures ld.Some? ==> 0 < i && FirstNonSupport(s, traits) == Some(i - 1) && ld.value == s[i - 1]
  {
    agg, ld, i := agg0, None, 0;
    while i < |s|
      invariant 0 <= i <= |s|
      invariant agg == IncludeAll(agg0, s[..i], traits)
      invariant forall k :: 0 <= k < i ==> traits(s[k]).support
    {
      IncludeAllSnoc(agg0, s, i, traits);
      agg := Include(agg, traits(s[i]));
      if !traits(s[i]).support {
        ld := Some(s[i]);
        FirstNonSupportAt(s, traits, i);
        i := i + 1;
        return;
      }
      i := i + 1;
    }
    FirstNonSupportNone(s, traits);
  }

  /** The second loop of `FindLeader`, from index `start` on, with leader `l0`. */
  method ScanRest(agg0: Agg, s: seq<UnitId>, start: nat, agg1: Agg, l0: UnitId, traits: UnitId -> Traits)
    returns (agg: Agg, ld: UnitId)
    requires start <= |s| && agg1 == IncludeAll(agg0, s[..start], traits)
    ensures agg == IncludeAll(agg0, s, traits)
    ensures ld == Refine(l0, s[start..], traits)
  {
    agg, ld := agg1, l0;
    var i := start;
    assert s[start..start] == [];
    while i < |s|
      invariant start <= i <= |s|
      invariant agg == IncludeAll(agg0, s[..i], traits)
      invariant ld == Refine(l0, s[start..i], traits)
    {
      IncludeAllSnoc(agg0, s, i, traits);
      assert s[start..i + 1][..i - start] == s[start..i];
      agg := Include(agg, traits(s[i]));
      ld := LeaderStep(ld, s[i], traits);
      i := i + 1;
    }
    assert s[..i] == s;
    assert s[start..i] == s[start..];
  }

  lemma IncludeAllSnoc(agg0: Agg, s: seq<UnitId>, i: nat, traits: UnitId -> Traits)
    requires i < |s|
    ensures IncludeAll(agg0, s[..i + 1], traits) == Include(IncludeAll(agg0, s[..i], traits), traits(s[i]))
  {
    assert s[..i + 1][..i] == s[..i];
  }


  lemma {:induction false} FirstNonSupportAt(s: seq<UnitId>, traits: UnitId -> Traits, i: nat)
    requires i < |s| && !traits(s[i]).support
    requires forall k :: 0 <= k < i ==> traits(s[k]).support
    ensures FirstNonSupport(s, traits) == Some(i)
  {
    if i > 0 {
      assert traits(s[0]).support;
      forall k | 0 <= k < i - 1 ensures traits(s[1..][k]).support {
        assert s[1..][k] == s[k + 1];
      }
      FirstNonSupportAt(s[1..], traits, i - 1);
    }
  }

  lemma {:induction false} FirstNonSupportNone(s: seq<UnitId>, traits: UnitId -> Traits)
    requires forall k :: 0 <= k < |s| ==> traits(s[k]).support
    ensures FirstNonSupport(s, traits).None?
  {
    if s != [] {
      assert traits(s[0]).support;
      forall k | 0 <= k < |s| - 1 ensures traits(s[1..][k]).support {
        assert s[1..][k] == s[k + 1];
      }
      FirstNonSupportNone(s[1..], traits);
    }
  }

  /** The loop of `Merge` over the other squad's range buckets: each one
      is inserted into the bucket of the same range, created if missing. */
  method MergeRanges(mine: map<real, set<UnitId>>, rangers: map<real, set<UnitId>>)
    returns (ranges: map<real, set<UnitId>>)
    ensures ranges == UnionRanges(mine, rangers)
  {
    var keys := Enumerate(rangers.Keys);
    ranges := mine;
    var n := 0;
    while n < |keys|
      invariant 0 <= n <= |keys|
      invariant ranges == InsertAll(mine, rangers, keys[..n])
    {
      var r := keys[n];
      InsertAllSnoc(mine, rangers, keys, n);
      ranges := ranges[r := BucketOf(ranges, r) + rangers[r]];
      n := n + 1;
    }
    assert keys[..n] == keys;
    InsertAllUnion(mine, rangers, keys);
  }

  /** The buckets of `m` after inserting the buckets of `rangers` listed in
      `ks`, one key after the other. */
  function InsertAll(m: map<real, set<UnitId>>, rangers: map<real, set<UnitId>>, ks: seq<real>): map<real, set<UnitId>> {
    if ks == [] then m
    else
      var prev := InsertAll(m, rangers, ks[..|ks| - 1]);
      var r := ks[|ks| - 1];
      prev[r := BucketOf(prev, r) + BucketOf(rangers, r)]
  }

  lemma InsertAllSnoc(m: map<real, set<UnitId>>, rangers: map<real, set<UnitId>>, ks: seq<real>, n: nat)
    requires n < |ks| && ks[n] in rangers
    ensures var prev := InsertAll(m, rangers, ks[..n]);
            InsertAll(m, rangers, ks[..n + 1]) == prev[ks[n] := BucketOf(prev, ks[n]) + rangers[ks[n]]]
  {
    assert ks[..n + 1][..n] == ks[..n];
  }

  /** Key by key, the inserted buckets are the union of the bucket in `m`
      and the listed buckets of `rangers`. */
  lemma {:induction false} InsertAllValues(m: map<real, set<UnitId>>, rangers: map<real, set<UnitId>>, ks: seq<real>)
    ensures forall q :: q in InsertAll(m, rangers, ks) <==> q in m || q in ks
    ensures forall q :: q in InsertAll(m, rangers, ks) ==>
              InsertAll(m, rangers, ks)[q] == BucketOf(m, q) + (if q in ks then BucketOf(rangers, q) else {})
  {
    if ks != [] {
      var init := ks[..|ks| - 1];
      InsertAllValues(m, rangers, init);
      assert forall q :: q in ks <==> q in init || q == ks[|ks| - 1] by {
        assert ks == init + [ks[|ks| - 1]];
      }
    }
  }

  /** Inserting every bucket of `rangers` yields `UnionRanges`. */
  lemma InsertAllUnion(m: map<real, set<UnitId>>, rangers: map<real, set<UnitId>>, ks: seq<real>)
    requires forall r :: r in ks <==> r in rangers
    ensures InsertAll(m, rangers, ks) == UnionRanges(m, rangers)
  {
    InsertAllValues(m, rangers, ks);
    var l := InsertAll(m, rangers, ks);
    var u := UnionRanges(m, rangers);
    forall q ensures q in l.Keys <==> q in u.Keys {
      assert q in u.Keys <==> q in m || q in rangers;
    }
    assert l.Keys == u.Keys;
    forall q | q in l ensures l[q] == u[q] {
    }
  }

  /** Both squads' buckets are consistent with their own assignees, so their
      union is consistent with the union of the assignees. */
  lemma MergedBucketsValid(a: map<real, set<UnitId>>, b: map<real, set<UnitId>>,
                           ua: set<UnitId>, ub: set<UnitId>, traits: UnitId -> Traits)
    requires BucketsOk(traits, ua, a) && BucketsOk(traits, ub, b)
    ensures BucketsOk(traits, ua + ub, UnionRanges(a, b))
  {
    MergedNonEmpty(a, b);
    MergedCover(a, b, ua, ub, traits);
    MergedOnly(a, b, ua, ub, traits);
  }

  lemma MergedNonEmpty(a: map<real, set<UnitId>>, b: map<real, set<UnitId>>)
    requires forall r :: r in a ==> a[r] != {}
    requires forall r :: r in b ==> b[r] != {}
    ensures forall r :: r in UnionRanges(a, b) ==> UnionRanges(a, b)[r] != {}
  {
    var m := UnionRanges(a, b);
    forall r | r in m ensures m[r] != {} {
      assert r in a || r in b;
    }
  }

  lemma MergedCover(a: map<real, set<UnitId>>, b: map<real, set<UnitId>>,
                    ua: set<UnitId>, ub: set<UnitId>, traits: UnitId -> Traits)
    requires forall u :: u in ua ==> traits(u).minRange in a && u in a[traits(u).minRange]
    requires forall u :: u in ub ==> traits(u).minRange in b && u in b[traits(u).minRange]
    ensures var m := UnionRanges(a, b);
            forall u :: u in ua + ub ==> traits(u).minRange in m && u in m[traits(u).minRange]
  {
    var m := UnionRanges(a, b);
    forall u | u in ua + ub ensures traits(u).minRange in m && u in m[traits(u).minRange] {
      var r := traits(u).minRange;
      assert u in BucketOf(a, r) || u in BucketOf(b, r);
    }
  }

  lemma MergedOnly(a: map<real, set<UnitId>>, b: map<real, set<UnitId>>,
                   ua: set<UnitId>, ub: set<UnitId>, traits: UnitId -> Traits)
    requires forall r, u :: r in a && u in a[r] ==> u in ua && traits(u).minRange == r
    requires forall r, u :: r in b && u in b[r] ==> u in ub && traits(u).minRange == r
    ensures var m := UnionRanges(a, b);
            forall r, u :: r in m && u in m[r] ==> u in ua + ub && traits(u).minRange == r
  {
    var m := UnionRanges(a, b);
    forall r, u | r in m && u in m[r] ensures u in ua + ub && traits(u).minRange == r {
      assert m[r] == BucketOf(a, r) + BucketOf(b, r);
      if u in BucketOf(a, r) {
        assert r in a && u in a[r];
      } else {
        assert r in b && u in b[r];
      }
    }
  }

  /** `Attack`'s timer as a function: whether orders are re-issued, and the
      new `attackFrame`. */
  function AttackStep(attackFrame: int, frame: int): (r: (bool, int))
  {
    var repeat := frame >= attackFrame + FRAMES_PER_SEC * 3;
    (repeat, if repeat then frame else attackFrame)
  }

  /** The frames, out of `frames`, at which successive `Attack` calls
      re-issue orders, and the `attackFrame` left at the end. */
  function AttackRun(attackFrame: int, frames: seq<int>): (seq<int>, int)
  {
    if frames == [] then ([], attackFrame)
    else
      var prev := AttackRun(attackFrame, frames[..|frames| - 1]);
      var step := AttackStep(prev.1, frames[|frames| - 1]);
      (prev.0 + (if step.0 then [frames[|frames| - 1]] else []), step.1)
  }

  /** Orders are re-issued at most once every three seconds, and
      `attackFrame` remembers the last frame they were. */
  lemma {:induction false} AttackSpacing(attackFrame: int, frames: seq<int>)
    ensures var (repeats, last) := AttackRun(attackFrame, frames);
            && (forall k :: 0 <= k < |repeats| - 1 ==> repeats[k + 1] >= repeats[k] + FRAMES_PER_SEC * 3)
            && (repeats == [] ==> last == attackFrame)
            && (repeats != [] ==> last == repeats[|repeats| - 1])
            && (repeats != [] ==> repeats[0] >= attackFrame + FRAMES_PER_SEC * 3)
  {
    if frames != [] {
      AttackSpacing(attackFrame, frames[..|frames| - 1]);
    }
  }

  // ---------------------------------------------------------------------
  // The line walk of the line-of-fire test.
  // ---------------------------------------------------------------------

  /** A sector of the terrain grid. */
  datatype Cell = Cell(x: int, y: int)

  function Abs(n: int): nat { if n < 0 then -n else n }

  /** `b` lies within the bounding box of `s` and `e`. */
  predicate InBox(b: Cell, s: Cell, e: Cell) {
    (s.x <= b.x <= e.x || e.x <= b.x <= s.x) && (s.y <= b.y <= e.y || e.y <= b.y <= s.y)
  }

  /** `b` is one step from `a` toward `e`: each coordinate moves by at most
      one and never away from `e`, and at least one moves. */
  predicate StepToward(a: Cell, b: Cell, e: Cell) {
    && Abs(b.x - a.x) <= 1 && Abs(b.y - a.y) <= 1 && a != b
    && Abs(e.x - b.x) <= Abs(e.x - a.x) && Abs(e.y - b.y) <= Abs(e.y - a.y)
  }

  lemma MulMono(a: int, b: int, c: int)
    requires 0 <= a && b <= c
    ensures a * b <= a * c
  {
    assert a * c - a * b == a * (c - b);
  }

  /** The arithmetic state of the walk after `i` steps in x and `j` in y:
      the position and the error term `e_xy`. */
  ghost predicate WalkAt(start: Cell, end: Cell, i: int, j: int, x: int, y: int, err: int) {
    var dx := Abs(end.x - start.x);
    var ady := Abs(end.y - start.y);
    && 0 <= i <= dx && 0 <= j <= ady
    && Cell(x, y) == At(start, end, i, j)
    && err == dx * (1 + j) - ady * (1 + i)
  }

  lemma WalkStart(start: Cell, end: Cell)
    ensures WalkAt(start, end, 0, 0, start.x, start.y, Abs(end.x - start.x) - Abs(end.y - start.y))
  {
  }

  /** A step in x, taken when the x test passes away from `end.x`. */
  lemma WalkX(start: Cell, end: Cell, i: int, j: int, x: int, y: int, err: int)
    requires WalkAt(start, end, i, j, x, y, err) && x != end.x
    ensures i < Abs(end.x - start.x)
    ensures WalkAt(start, end, i + 1, j, x + Dir(start.x, end.x), y, err - Abs(end.y - start.y))
  {
    var ady := Abs(end.y - start.y);
    assert ady * (1 + (i + 1)) == ady * (1 + i) + ady;
  }

  /** A step in y, taken when the y test passes away from `end.y`. */
  lemma WalkY(start: Cell, end: Cell, i: int, j: int, x: int, y: int, err: int)
    requires WalkAt(start, end, i, j, x, y, err) && y != end.y
    ensures j < Abs(end.y - start.y)
    ensures WalkAt(start, end, i, j + 1, x, y + Dir(start.y, end.y), err + Abs(end.x - start.x))
  {
    var dx := Abs(end.x - start.x);
    assert dx * (1 + (j + 1)) == dx * (1 + j) + dx;
  }

  lemma MulNonNeg(a: int, b: int)
    requires 0 <= a && 0 <= b
    ensures a * b >= 0
  {
  }

  lemma MulAtLeast(a: int, b: int)
    requires 0 <= a && 0 <= b
    ensures a * b >= 0
    ensures b >= 1 ==> a * b >= a
  {
    if b >= 1 {
      MulNonNeg(a, b - 1);
      assert a * b == a * (b - 1) + a;
    }
  }

  /** At `x == end.x` the x test passes only once `y == end.y` too. */
  lemma XEndsLast(dx: int, ady: int, i: int, j: int)
    requires 0 <= j <= ady && 0 <= dx && i == dx
    requires 2 * (dx * (1 + j) - ady * (1 + i)) >= -ady
    ensures j == ady
  {
    var d := ady - j;
    assert dx * (1 + j) - ady * (1 + i) == dx - ady - dx * d;
    MulAtLeast(dx, d);
  }

  /** At `y == end.y` the y test passes only once `x == end.x` too. */
  lemma YEndsLast(dx: int, ady: int, i: int, j: int)
    requires 0 <= i <= dx && 0 <= ady && j == ady
    requires 2 * (dx * (1 + j) - ady * (1 + i)) <= dx
    ensures i == dx
  {
    var d := dx - i;
    assert dx * (1 + j) - ady * (1 + i) == dx - ady + ady * d;
    MulAtLeast(ady, d);
  }

  lemma WalkXStop(start: Cell, end: Cell, i: int, j: int, x: int, y: int, err: int)
    requires WalkAt(start, end, i, j, x, y, err) && x == end.x
    requires 2 * err + Abs(end.y - start.y) >= 0
    ensures Cell(x, y) == end
  {
    XEndsLast(Abs(end.x - start.x), Abs(end.y - start.y), i, j);
  }

  lemma WalkYStop(start: Cell, end: Cell, i: int, j: int, x: int, y: int, err: int)
    requires WalkAt(start, end, i, j, x, y, err) && y == end.y
    requires 2 * err <= Abs(end.x - start.x)
    ensures Cell(x, y) == end
  {
    YEndsLast(Abs(end.x - start.x), Abs(end.y - start.y), i, j);
  }

  /** Once `y == end.y`, a step in x leaves the y test failing, so the walk
      never stops in the y test right after moving in x. */
  lemma WalkNoYStopAfterX(start: Cell, end: Cell, i: int, j: int, x: int, y: int, err: int)
    requires WalkAt(start, end, i, j, x, y, err) && x != end.x && y == end.y
    ensures 2 * err > Abs(end.x - start.x)
  {
    var dx := Abs(end.x - start.x);
    var ady := Abs(end.y - start.y);
    MulNonNeg(ady, dx - 1 - i);
    assert j == ady;
    assert 2 * err == dx + (dx + 2 * (ady * (dx - 1 - i)));
  }

  /** The direction of the walk in x and y, as the source picks it. */
  function Dir(from: int, to: int): int { if from < to then 1 else -1 }

  /** The sector `i` steps in x and `j` steps in y from `start` toward `end`. */
  function At(start: Cell, end: Cell, i: int, j: int): Cell {
    Cell(if Dir(start.x, end.x) == 1 then start.x + i else start.x - i,
         if Dir(start.y, end.y) == 1 then start.y + j else start.y - j)
  }

  /** The sectors walked so far form a chain of single steps toward `end`
      from `start`, inside the bounding box. */
  ghost predicate Chain(start: Cell, end: Cell, visited: seq<Cell>) {
    && (visited != [] ==> StepToward(start, visited[0], end))
    && (forall k :: 0 <= k < |visited| - 1 ==> StepToward(visited[k], visited[k + 1], end))
    && (forall k :: 0 <= k < |visited| ==> InBox(visited[k], start, end))
  }

  predicate Unobstructed(cells: seq<Cell>, obstructs: Cell -> bool) {
    forall k :: 0 <= k < |cells| ==> !obstructs(cells[k])
  }

  lemma ChainSnoc(start: Cell, end: Cell, visited: seq<Cell>, prev: Cell, c: Cell)
    requires Chain(start, end, visited) && InBox(c, start, end)
    requires visited == [] ==> prev == start
    requires visited != [] ==> visited[|visited| - 1] == prev
    requires StepToward(prev, c, end)
    ensures Chain(start, end, visited + [c])
  {
  }

  /** Moving from `(i, j)` to `(i2, j2)`, each by at most one and not both
      still, is a step toward `end` that stays in the box. */
  lemma AtStep(start: Cell, end: Cell, i: int, j: int, i2: int, j2: int, a: Cell, b: Cell)
    requires 0 <= i <= i2 <= i + 1 && i2 <= Abs(end.x - start.x)
    requires 0 <= j <= j2 <= j + 1 && j2 <= Abs(end.y - start.y)
    requires (i, j) != (i2, j2)
    requires a == At(start, end, i, j) && b == At(start, end, i2, j2)
    ensures StepToward(a, b, end) && InBox(b, start, end)
  {
  }

  /** The state the walk keeps between steps: `(i, j)` steps taken, the
      sectors tested so far form a chain ending at `(x, y)` and none of
      them obstructs. */
  ghost predicate LosInv(start: Cell, end: Cell, i: int, j: int, x: int, y: int, err: int,
                         visited: seq<Cell>, obstructs: Cell -> bool) {
    && WalkAt(start, end, i, j, x, y, err)
    && |visited| <= i + j
    && (visited == [] ==> i == 0 && j == 0)
    && (visited != [] ==> visited[|visited| - 1] == Cell(x, y))
    && Chain(start, end, visited)
    && Unobstructed(visited, obstructs)
  }

  lemma LosBegin(start: Cell, end: Cell, obstructs: Cell -> bool)
    ensures LosInv(start, end, 0, 0, start.x, start.y, Abs(end.x - start.x) - Abs(end.y - start.y), [], obstructs)
  {
    WalkStart(start, end);
  }

  /** One completed step of the walk to the sector `c == Cell(x, y)`. */
  lemma LosAdvance(start: Cell, end: Cell, i0: int, j0: int, x0: int, y0: int, err0: int,
                   visited: seq<Cell>, obstructs: Cell -> bool,
                   i: int, j: int, x: int, y: int, err: int, c: Cell)
    requires LosInv(start, end, i0, j0, x0, y0, err0, visited, obstructs)
    requires WalkAt(start, end, i, j, x, y, err) && c == Cell(x, y)
    requires i0 <= i <= i0 + 1 && j0 <= j <= j0 + 1 && (i, j) != (i0, j0)
    ensures Chain(start, end, visited + [c])
    ensures |visited + [c]| <= Abs(end.x - start.x) + Abs(end.y - start.y)
    ensures (visited + [c])[..|visited|] == visited
    ensures !obstructs(c) ==> LosInv(start, end, i, j, x, y, err, visited + [c], obstructs)
  {
    AtStep(start, end, i0, j0, i, j, Cell(x0, y0), c);
    ChainSnoc(start, end, visited, Cell(x0, y0), c);
    assert (visited + [c])[..|visited|] == visited;
  }

  /** The walk stops at `end` with every tested sector clear. */
  lemma LosEnd(start: Cell, end: Cell, i: int, j: int, x: int, y: int, err: int,
               visited: seq<Cell>, obstructs: Cell -> bool)
    requires LosInv(start, end, i, j, x, y, err, visited, obstructs) && Cell(x, y) == end
    ensures Chain(start, end, visited)
    ensures |visited| <= Abs(end.x - start.x) + Abs(end.y - start.y)
    ensures Unobstructed(visited[..|visited|], obstructs)
    ensures if visited == [] then start == end else visited[|visited| - 1] == end
  {
    assert visited[..|visited|] == visited;
  }

  /** The all-octant line walk from `start` to `end`. After every step the
      sector reached is tested (`obstructs` stands for the elevation test
      against the line of sight); the walk fails at the first obstructed
      sector and succeeds on reaching `end`. `visited` lists the sectors
      tested, in order. */
  method LosTest(start: Cell, end: Cell, obstructs: Cell -> bool) returns (clear: bool, visited: seq<Cell>)
    ensures Chain(start, end, visited)
    ensures |visited| <= Abs(end.x - start.x) + Abs(end.y - start.y)
    ensures !clear ==> visited != [] && obstructs(visited[|visited| - 1])
    ensures Unobstructed(visited[..if clear then |visited| else |visited| - 1], obstructs)
    ensures clear ==> (if visited == [] then start == end else visited[|visited| - 1] == end)
  {
    var dx := Abs(end.x - start.x);
    var sx := if start.x < end.x then 1 else -1;
    var absDy: int := Abs(end.y - start.y);
    var dy := -absDy;
    var sy := if start.y < end.y then 1 else -1;
    var err := dx + dy;
    var x, y := start.x, start.y;
    ghost var i, j := 0, 0;
    LosBegin(start, end, obstructs);
    visited := [];
    while true
      invariant LosInv(start, end, i, j, x, y, err, visited, obstructs)
      decreases (dx - i) + (absDy - j)
    {
      var e2 := 2 * err;
      ghost var i0, j0, x0, y0, err0 := i, j, x, y, err;
      ghost var movedX := false;
      if e2 >= dy {
        if x == end.x {
          WalkXStop(start, end, i, j, x, y, err);
          LosEnd(start, end, i, j, x, y, err, visited, obstructs);
          break;
        }
        if y == end.y {
          WalkNoYStopAfterX(start, end, i, j, x, y, err);
        }
        WalkX(start, end, i, j, x, y, err);
        err := err + dy;
        x := x + sx;
        i := i + 1;
        movedX := true;
      }
      if e2 <= dx {
        if y == end.y {
          if movedX {
            assert false;
          }
          WalkYStop(start, end, i, j, x, y, err);
          LosEnd(start, end, i, j, x, y, err, visited, obstructs);
          break;
        }
        WalkY(start, end, i, j, x, y, err);
        err := err + dx;
        y := y + sy;
        j := j + 1;
      }
      var c := Cell(x, y);
      LosAdvance(start, end, i0, j0, x0, y0, err0, visited, obstructs, i, j, x, y, err, c);
      visited := visited + [c];
      if obstructs(c) {
        return false, visited;
      }
    }
    clear := true;
  }

  /** The bug in `AssignTo` as written: with no leader the aggregates are
      overwritten with the new unit's values, even though the squad may
      still hold support units (after its last other unit left). */
  function AssignAggregatesAsWritten(a: Agg, hasLeader: bool, t: Traits): Agg {
    if !hasLeader then Agg(t.maxRange, t.maxRange, t.speed, t.speed) else Include(a, t)
  }

  /** A squad holding one support unit of range 500 and no leader takes in a
      unit of range 100: as written, `highestRange` drops to 100 and no longer
      covers the support unit. */
  lemma AsWrittenDropsSupport()
    ensures var support := Traits(0.0, 500.0, 1.0, true, None);
            var a := Agg(500.0, 500.0, 1.0, 1.0);
            var joined := AssignAggregatesAsWritten(a, false, Traits(0.0, 100.0, 1.0, false, None));
            Covers(a, support) && !Covers(joined, support)
  {
  }
}
