/** `CBEnergyTask`: a builder task for an energy structure that raises its
    build priority while the economy is stalling on energy. The base
    `IBuilderTask` behaviour and the engine command are outside the model;
    what the task does around them is recorded as an event log. */
module Energy {
  import opened Common

  /** One byte of a binary stream. */
  newtype byte = x: int | 0 <= x < 256

  /** Calls the task makes outside its own fields, in order. */
  datatype Event =
    | BaseUpdate                  // IBuilderTask::Update
    | BaseFinish                  // IBuilderTask::Finish
    | BaseCancel                  // IBuilderTask::Cancel
    | ClearEnergyRequired         // CEconomyManager::ClearEnergyRequired
    | CmdPriority(p: Priority)    // target->CmdPriority(ClampPriority())

  /** The effect of `Update` on `(isStalling, priority)`: nothing when the task
      has no assignee or no target, nothing when the stall state is already
      recorded, otherwise the new stall state and the priority it selects. */
  function StallStep(isStalling: bool, priority: Priority, hasUnits: bool, hasTarget: bool,
                     energyStalling: bool): (r: (bool, Priority))
  {
    if !hasUnits || !hasTarget then (isStalling, priority)
    else if isStalling == energyStalling then (isStalling, priority)
    else (energyStalling, if energyStalling then HIGH else NORMAL)
  }

  /** Without an assignee or a target nothing changes. */
  lemma StallStepIdle(isStalling: bool, priority: Priority, hasUnits: bool, hasTarget: bool, energyStalling: bool)
    requires !hasUnits || !hasTarget
    ensures StallStep(isStalling, priority, hasUnits, hasTarget, energyStalling) == (isStalling, priority)
  {
  }

  /** With both, the recorded stall state follows the economy and the priority
      is HIGH exactly while stalling, unless nothing had to change. */
  lemma StallStepFollows(isStalling: bool, priority: Priority, energyStalling: bool)
    ensures var r := StallStep(isStalling, priority, true, true, energyStalling);
            r.0 == energyStalling
            && (isStalling != energyStalling ==> r.1 == (if energyStalling then HIGH else NORMAL))
            && (isStalling == energyStalling ==> r.1 == priority)
  {
  }

  /** A second `Update` under the same stall state changes nothing. */
  lemma StallStepIdempotent(isStalling: bool, priority: Priority, hasUnits: bool, hasTarget: bool, energyStalling: bool)
    ensures var r := StallStep(isStalling, priority, hasUnits, hasTarget, energyStalling);
            StallStep(r.0, r.1, hasUnits, hasTarget, energyStalling) == r
  {
  }

  /** `binary_write` of a `bool` writes one byte. */
  function EncodeBool(b: bool): (r: byte)
    ensures r == 0 <==> !b
  {
    if b then 1 else 0
  }

  /** `binary_read` of a `bool` from byte `at` of `stream`: a stream that has
      no byte there leaves the value as it was; otherwise a non-zero byte reads
      as true. The second component is the read position afterwards. */
  function DecodeBool(stream: seq<byte>, at: nat, current: bool): (r: (bool, nat))
    ensures at < |stream| ==> r == (stream[at] != 0, at + 1)
    ensures at >= |stream| ==> r.0 == current
  {
    if at < |stream| then (stream[at] != 0, at + 1) else (current, at)
  }

  /** Reading back what was written gives the same value, whatever came before. */
  lemma BoolRoundTrip(prefix: seq<byte>, b: bool, current: bool)
    ensures DecodeBool(prefix + [EncodeBool(b)], |prefix|, current) == (b, |prefix| + 1)
  {
  }

  class EnergyTask {
    var isStalling: bool
    var priority: Priority
    /** Whether `units` is non-empty and whether `target` is set; both belong to the base class. */
    var hasUnits: bool
    var hasTarget: bool
    /** The serialized image of the base class's fields, written by `IBuilderTask::Save`. */
    var baseImage: seq<byte>
    var log: seq<Event>

    /** The constructor for a new task at a given priority. */
    constructor Create(priority: Priority, baseImage: seq<byte>)
      ensures !isStalling && this.priority == priority
      ensures !hasUnits && !hasTarget && this.baseImage == baseImage && log == []
    {
      isStalling := false;
      this.priority := priority;
      hasUnits := false;
      hasTarget := false;
      this.baseImage := baseImage;
      log := [];
    }

    /** The constructor used before `Load`. It passes no priority: the base
        class's own load constructor picks one, given here as `basePriority`. */
    constructor Empty(basePriority: Priority)
      ensures !isStalling && priority == basePriority
      ensures !hasUnits && !hasTarget && baseImage == [] && log == []
    {
      isStalling := false;
      priority := basePriority;
      hasUnits := false;
      hasTarget := false;
      baseImage := [];
      log := [];
    }

    /** `energyStalling` is `IsEnergyStalling()` of the economy manager.
        `IBuilderTask::Update` runs first and is not part of this model:
        `baseHasUnits` and `baseHasTarget` say whether it leaves an assignee
        and a target. */
    method Update(energyStalling: bool, baseHasUnits: bool, baseHasTarget: bool)
      modifies this
      ensures hasUnits == baseHasUnits && hasTarget == baseHasTarget
      ensures (isStalling, priority) == StallStep(old(isStalling), old(priority), hasUnits, hasTarget, energyStalling)
      ensures log == old(log) + [BaseUpdate]
                     + (if (isStalling, priority) == (old(isStalling), old(priority)) then [] else [CmdPriority(priority)])
      ensures baseImage == old(baseImage)
    {
      log := log + [BaseUpdate];
      hasUnits, hasTarget := baseHasUnits, baseHasTarget;
      if !hasUnits || !hasTarget {
        return;
      }
      if isStalling == energyStalling {
        return;
      }
      isStalling := energyStalling;
      priority := if energyStalling then HIGH else NORMAL;
      log := log + [CmdPriority(priority)];
    }

    /** The energy requirement is cleared before the base class finishes. */
    method Finish()
      modifies this
      ensures log == old(log) + [ClearEnergyRequired, BaseFinish]
      ensures isStalling == old(isStalling) && priority == old(priority)
      ensures hasUnits == old(hasUnits) && hasTarget == old(hasTarget) && baseImage == old(baseImage)
    {
      log := log + [ClearEnergyRequired];
      log := log + [BaseFinish];
    }

    /** The energy requirement is cleared before the base class cancels. */
    method Cancel()
      modifies this
      ensures log == old(log) + [ClearEnergyRequired, BaseCancel]
      ensures isStalling == old(isStalling) && priority == old(priority)
      ensures hasUnits == old(hasUnits) && hasTarget == old(hasTarget) && baseImage == old(baseImage)
    {
      log := log + [ClearEnergyRequired];
      log := log + [BaseCancel];
    }

    /** The base fields first, then `isStalling`. */
    method Save(os: seq<byte>) returns (out: seq<byte>)
      ensures out == os + baseImage + [EncodeBool(isStalling)]
    {
      out := os + baseImage;
      out := out + [EncodeBool(isStalling)];
    }

    /** The base class reads its own fields first: it consumes `baseLength`
        bytes from `at` and restores from them the priority, the assignee and
        the target, given here as `basePriority`, `baseHasUnits` and
        `baseHasTarget`. Then `isStalling` is read. */
    method Load(stream: seq<byte>, at: nat, baseLength: nat,
                basePriority: Priority, baseHasUnits: bool, baseHasTarget: bool) returns (ok: bool, next: nat)
      modifies this
      ensures baseImage == Consumed(stream, at, baseLength)
      ensures priority == basePriority && hasUnits == baseHasUnits && hasTarget == baseHasTarget
      ensures isStalling == DecodeBool(stream, at + baseLength, old(isStalling)).0
      ensures next == DecodeBool(stream, at + baseLength, old(isStalling)).1
      ensures ok
      ensures log == old(log)
    {
      baseImage := Consumed(stream, at, baseLength);
      priority, hasUnits, hasTarget := basePriority, baseHasUnits, baseHasTarget;
      var r := DecodeBool(stream, at + baseLength, isStalling);
      isStalling := r.0;
      next := r.1;
      ok := true;
    }
  }

  /** The bytes of `stream` from `at` on, at most `len` of them: what a read
      of `len` bytes at `at` gets, cut short where the stream ends. */
  function Consumed(stream: seq<byte>, at: nat, len: nat): (r: seq<byte>)
    ensures at + len <= |stream| ==> r == stream[at..at + len]
    ensures at <= |stream| < at + len ==> at + |r| == |stream|
    ensures at >= |stream| ==> r == []
    ensures |r| <= len
    ensures forall k :: 0 <= k < |r| ==> at + k < |stream| && r[k] == stream[at + k]
  {
    if at >= |stream| then []
    else if at + len <= |stream| then stream[at..at + len]
    else stream[at..]
  }

  /** `Load` reads back exactly the `isStalling` that `Save` wrote once the
      base class has consumed its own image. */
  lemma SaveLoadRoundTrip(prefix: seq<byte>, baseImage: seq<byte>, isStalling: bool, current: bool)
    ensures Consumed(prefix + baseImage + [EncodeBool(isStalling)], |prefix|, |baseImage|) == baseImage
    ensures DecodeBool(prefix + baseImage + [EncodeBool(isStalling)], |prefix| + |baseImage|, current)
            == (isStalling, |prefix| + |baseImage| + 1)
  {
    var stream := prefix + baseImage + [EncodeBool(isStalling)];
    assert stream[|prefix|..|prefix| + |baseImage|] == baseImage;
    BoolRoundTrip(prefix + baseImage, isStalling, current);
  }
}
