/** The C-facing wrapper of the RelaxedIK solver: it validates the flat
    goal buffers a caller passes in, packs them into the per-chain goal
    arrays of the solver handle, and exposes a few of the handle's settings.

    A raw pointer is modelled as an `Option` (None is the null pointer) over
    the buffer it points to, and the buffer's length argument as the length
    of that sequence. Every `assert!` of the source, which panics across the
    foreign-function boundary, becomes a `Failure` / `Fail` result. The
    optimiser itself is the `solver` parameter. */
module RelaxedIkWrapper {
  import opened Algebra
  import opened ActiveChains

  /** nalgebra's `Vector6<f64>`: the tolerance of one chain. */
  type Vector6 = s: seq<real> | |s| == 6 witness [0.0, 0.0, 0.0, 0.0, 0.0, 0.0]

  /** `RelaxedIK::solve()`: a joint-angle vector computed from the current
      goals, the objective weight priors and the environment-collision tip
      offset; it does not change them. */
  type Solver = (seq<Vec3>, seq<UnitQuaternion>, seq<Vector6>, seq<real>, nat) -> seq<real>

  /** C's `int`. */
  newtype int32 = x: int | -0x8000_0000 <= x < 0x8000_0000

  datatype Option<T> = None | Some(value: T)

  /** The buffer an error is about. */
  datatype Buffer = PosGoals | QuatGoals | PosVels | RotVels | Tolerance | Weights | Name | Pos | Quat

  /** The panics of the wrapper. */
  datatype WrapperError =
    | NullPointer(buffer: Buffer)
    | LengthMismatch(buffer: Buffer, expected: nat, got: nat)
    | NegativeTipOffset(offset: int)
    | NulInName(index: nat)
    | NoChains   // the end-effector diagnostic after a velocity solve indexes chain 0

  datatype Outcome = Pass | Fail(error: WrapperError)

  datatype Result<T> = Success(value: T) | Failure(error: WrapperError)

  // ---------------------------------------------------------------------
  // Reading slots of the flat buffers

  /** Slot j of a buffer of 3-vectors: numbers 3 j, 3 j + 1, 3 j + 2. */
  function Vec3At(buf: seq<real>, j: nat): (v: Vec3)
    requires 3 * j + 3 <= |buf|
    ensures [v.x, v.y, v.z] == buf[3 * j..3 * j + 3]
  {
    Vec3(buf[3 * j], buf[3 * j + 1], buf[3 * j + 2])
  }

  /** A caller's quaternion comes as (x, y, z, w); nalgebra's constructor
      takes the real part first. */
  function XyzwToQuaternion(q: seq<real>): (r: Quaternion)
    requires |q| == 4
    ensures QuaternionToXyzw(r) == q
  {
    Quaternion(q[3], q[0], q[1], q[2])
  }

  /** The caller's (x, y, z, w) layout of a quaternion: the inverse of the
      reorder, used to state what the reorder does. */
  function QuaternionToXyzw(q: Quaternion): (r: seq<real>)
    ensures |r| == 4
  {
    [q.i, q.j, q.k, q.w]
  }

  /** The reorder loses nothing: it is a bijection between the caller's
      layout and nalgebra's. */
  lemma {:induction false} XyzwRoundTrip(s: seq<real>, q: Quaternion)
    requires |s| == 4
    ensures QuaternionToXyzw(XyzwToQuaternion(s)) == s
    ensures XyzwToQuaternion(QuaternionToXyzw(q)) == q
  {
  }

  /** Slot j of a buffer of (x, y, z, w) quaternions, normalised. */
  function QuatAt(buf: seq<real>, j: nat): (u: UnitQuaternion)
    requires 4 * j + 4 <= |buf|
    ensures u.FromQuaternion? && QuaternionToXyzw(u.q) == buf[4 * j..4 * j + 4]
  {
    FromQuaternion(XyzwToQuaternion(buf[4 * j..4 * j + 4]))
  }

  /** The six numbers of a buffer starting at `offset`. */
  function TolAt(buf: seq<real>, offset: nat): (t: Vector6)
    requires offset + 6 <= |buf|
    ensures forall k :: 0 <= k < 6 ==> t[k] == buf[offset + k]
  {
    buf[offset..offset + 6]
  }

  // ---------------------------------------------------------------------
  // The goals after packing a buffer: chain i, when active, takes slot
  // SlotOf(mask, i); an inactive chain keeps its goal.

  function AbsolutePositions(mask: seq<bool>, goals: seq<Vec3>, pos: seq<real>): (r: seq<Vec3>)
    requires |goals| == |mask| && 3 * CountActive(mask) <= |pos|
    ensures |r| == |mask|
  {
    seq(|mask|, i requires 0 <= i < |mask| =>
      if mask[i] then Vec3At(pos, SlotOf(mask, i)) else goals[i])
  }

  function AbsoluteOrientations(mask: seq<bool>, quats: seq<UnitQuaternion>, quat: seq<real>): (r: seq<UnitQuaternion>)
    requires |quats| == |mask| && 4 * CountActive(mask) <= |quat|
    ensures |r| == |mask|
  {
    seq(|mask|, i requires 0 <= i < |mask| =>
      if mask[i] then QuatAt(quat, SlotOf(mask, i)) else quats[i])
  }

  /** Position solving reads tolerance slot j at offset 6 j. */
  function AbsoluteTolerances(mask: seq<bool>, tols: seq<Vector6>, tol: seq<real>): (r: seq<Vector6>)
    requires |tols| == |mask| && 6 * CountActive(mask) <= |tol|
    ensures |r| == |mask|
  {
    seq(|mask|, i requires 0 <= i < |mask| =>
      if mask[i] then TolAt(tol, 6 * SlotOf(mask, i)) else tols[i])
  }

  /** Velocity solving adds slot j to the current goal position. */
  function VelocityPositions(mask: seq<bool>, goals: seq<Vec3>, pos: seq<real>): (r: seq<Vec3>)
    requires |goals| == |mask| && 3 * CountActive(mask) <= |pos|
    ensures |r| == |mask|
  {
    seq(|mask|, i requires 0 <= i < |mask| =>
      if mask[i] then Add(goals[i], Vec3At(pos, SlotOf(mask, i))) else goals[i])
  }

  /** Velocity solving composes the rotation of slot j, on the left, with the
      current goal orientation. */
  function VelocityOrientations(mask: seq<bool>, quats: seq<UnitQuaternion>, rot: seq<real>): (r: seq<UnitQuaternion>)
    requires |quats| == |mask| && 3 * CountActive(mask) <= |rot|
    ensures |r| == |mask|
  {
    seq(|mask|, i requires 0 <= i < |mask| =>
      if mask[i] then Product(FromScaledAxis(Vec3At(rot, SlotOf(mask, i))), quats[i]) else quats[i])
  }

  /** Velocity solving reads tolerance slot j at offset 3 j, so it reads
      3 A + 3 numbers of the buffer when A > 0. */
  function VelocityTolerances(mask: seq<bool>, tols: seq<Vector6>, tol: seq<real>): (r: seq<Vector6>)
    requires |tols| == |mask| && (CountActive(mask) == 0 || 3 * CountActive(mask) + 3 <= |tol|)
    ensures |r| == |mask|
  {
    seq(|mask|, i requires 0 <= i < |mask| =>
      if mask[i] then TolAt(tol, 3 * SlotOf(mask, i)) else tols[i])
  }

  // ---------------------------------------------------------------------
  // Input validation of the entry points

  /** The checks of `solve_position`: the three null pointers, then the
      three lengths against A. */
  function CheckPositionInput(mask: seq<bool>, pos: Option<seq<real>>, quat: Option<seq<real>>, tol: Option<seq<real>>): (o: Outcome)
    ensures o.Pass? <==>
      && pos.Some? && quat.Some? && tol.Some?
      && |pos.value| == 3 * CountActive(mask)
      && |quat.value| == 4 * CountActive(mask)
      && |tol.value| == 6 * CountActive(mask)
    ensures CheckNonNull(pos, quat, tol).Fail? ==> o == CheckNonNull(pos, quat, tol)
    ensures CheckNonNull(pos, quat, tol).Pass? && |pos.value| != 3 * CountActive(mask) ==>
      o == Fail(LengthMismatch(PosGoals, 3 * CountActive(mask), |pos.value|))
    ensures (CheckNonNull(pos, quat, tol).Pass? && |pos.value| == 3 * CountActive(mask)
             && |quat.value| != 4 * CountActive(mask)) ==>
      o == Fail(LengthMismatch(QuatGoals, 4 * CountActive(mask), |quat.value|))
    ensures (CheckNonNull(pos, quat, tol).Pass? && |pos.value| == 3 * CountActive(mask)
             && |quat.value| == 4 * CountActive(mask) && |tol.value| != 6 * CountActive(mask)) ==>
      o == Fail(LengthMismatch(Tolerance, 6 * CountActive(mask), |tol.value|))
  {
    var a := CountActive(mask);
    if pos.None? then Fail(NullPointer(PosGoals))
    else if quat.None? then Fail(NullPointer(QuatGoals))
    else if tol.None? then Fail(NullPointer(Tolerance))
    else if |pos.value| != 3 * a then Fail(LengthMismatch(PosGoals, 3 * a, |pos.value|))
    else if |quat.value| != 4 * a then Fail(LengthMismatch(QuatGoals, 4 * a, |quat.value|))
    else if |tol.value| != 6 * a then Fail(LengthMismatch(Tolerance, 6 * a, |tol.value|))
    else Pass
  }

  /** The checks of `solve_velocity`: rotations come as 3-vectors. */
  function CheckVelocityInput(mask: seq<bool>, pos: Option<seq<real>>, rot: Option<seq<real>>, tol: Option<seq<real>>): (o: Outcome)
    ensures o.Pass? <==>
      && pos.Some? && rot.Some? && tol.Some?
      && |pos.value| == 3 * CountActive(mask)
      && |rot.value| == 3 * CountActive(mask)
      && |tol.value| == 6 * CountActive(mask)
    ensures pos.None? ==> o == Fail(NullPointer(PosVels))
    ensures pos.Some? && rot.None? ==> o == Fail(NullPointer(RotVels))
    ensures pos.Some? && rot.Some? && tol.None? ==> o == Fail(NullPointer(Tolerance))
    ensures pos.Some? && rot.Some? && tol.Some? && |pos.value| != 3 * CountActive(mask) ==>
      o == Fail(LengthMismatch(PosVels, 3 * CountActive(mask), |pos.value|))
    ensures (pos.Some? && rot.Some? && tol.Some? && |pos.value| == 3 * CountActive(mask)
             && |rot.value| != 3 * CountActive(mask)) ==>
      o == Fail(LengthMismatch(RotVels, 3 * CountActive(mask), |rot.value|))
    ensures (pos.Some? && rot.Some? && tol.Some? && |pos.value| == 3 * CountActive(mask)
             && |rot.value| == 3 * CountActive(mask) && |tol.value| != 6 * CountActive(mask)) ==>
      o == Fail(LengthMismatch(Tolerance, 6 * CountActive(mask), |tol.value|))
  {
    var a := CountActive(mask);
    if pos.None? then Fail(NullPointer(PosVels))
    else if rot.None? then Fail(NullPointer(RotVels))
    else if tol.None? then Fail(NullPointer(Tolerance))
    else if |pos.value| != 3 * a then Fail(LengthMismatch(PosVels, 3 * a, |pos.value|))
    else if |rot.value| != 3 * a then Fail(LengthMismatch(RotVels, 3 * a, |rot.value|))
    else if |tol.value| != 6 * a then Fail(LengthMismatch(Tolerance, 6 * a, |tol.value|))
    else Pass
  }

  /** The checks of the compatibility `solve`: null pointers only. */
  function CheckNonNull(pos: Option<seq<real>>, quat: Option<seq<real>>, tol: Option<seq<real>>): (o: Outcome)
    ensures o.Pass? <==> pos.Some? && quat.Some? && tol.Some?
    ensures pos.None? ==> o == Fail(NullPointer(PosGoals))
    ensures pos.Some? && quat.None? ==> o == Fail(NullPointer(QuatGoals))
    ensures pos.Some? && quat.Some? && tol.None? ==> o == Fail(NullPointer(Tolerance))
  {
    if pos.None? then Fail(NullPointer(PosGoals))
    else if quat.None? then Fail(NullPointer(QuatGoals))
    else if tol.None? then Fail(NullPointer(Tolerance))
    else Pass
  }

  // ---------------------------------------------------------------------
  // Buffers produced for the caller

  /** The x, y, z of each chain's goal position, chain after chain. */
  function Flatten(goals: seq<Vec3>): (r: seq<real>)
    ensures |r| == 3 * |goals|
  {
    if |goals| == 0 then []
    else
      var g := goals[|goals| - 1];
      Flatten(goals[..|goals| - 1]) + [g.x, g.y, g.z]
  }

  lemma {:induction false} FlattenAt(goals: seq<Vec3>, i: nat)
    requires i < |goals|
    ensures Flatten(goals)[3 * i] == goals[i].x
    ensures Flatten(goals)[3 * i + 1] == goals[i].y
    ensures Flatten(goals)[3 * i + 2] == goals[i].z
  {
    var n := |goals| - 1;
    if i < n {
      FlattenAt(goals[..n], i);
    }
  }

  /** A C string: the characters followed by the NUL terminator. */
  function CString(s: string): (r: string)
    ensures |r| == |s| + 1 && r[|s|] == '\0'
  {
    s + ['\0']
  }

  /** What C code reads from a C string: everything before the first NUL. */
  function ReadCString(s: string): (r: string)
    ensures '\0' !in r && |r| <= |s| && r == s[..|r|]
  {
    if |s| == 0 || s[0] == '\0' then []
    else [s[0]] + ReadCString(s[1..])
  }

  /** A name without an interior NUL reads back unchanged from its C string. */
  lemma {:induction false} CStringRoundTrip(s: string)
    requires '\0' !in s
    ensures ReadCString(CString(s)) == s
  {
    if |s| > 0 {
      assert CString(s)[1..] == CString(s[1..]);
      CStringRoundTrip(s[1..]);
    }
  }

  /** The pose handed to the obstacle registry by `dynamic_obstacle_cb`. */
  datatype Isometry = Isometry(translation: Vec3, rotation: UnitQuaternion)

  datatype ObstacleUpdate = ObstacleUpdate(name: string, pose: Isometry)

  /** `dynamic_obstacle_cb`: the three null checks, in order, then the pose
      from 3 position numbers and 4 (x, y, z, w) quaternion numbers. */
  function DynamicObstacleCb(name: Option<string>, pos: Option<seq<real>>, quat: Option<seq<real>>): (r: Result<ObstacleUpdate>)
    requires pos.Some? ==> |pos.value| >= 3
    requires quat.Some? ==> |quat.value| >= 4
    ensures r.Success? <==> name.Some? && pos.Some? && quat.Some?
    ensures name.None? ==> r == Failure(NullPointer(Name))
    ensures name.Some? && pos.None? ==> r == Failure(NullPointer(Pos))
    ensures name.Some? && pos.Some? && quat.None? ==> r == Failure(NullPointer(Quat))
    ensures r.Success? ==>
      && r.value.name == name.value
      && r.value.pose.translation == Vec3(pos.value[0], pos.value[1], pos.value[2])
      && r.value.pose.rotation.FromQuaternion?
      && QuaternionToXyzw(r.value.pose.rotation.q) == quat.value[..4]
  {
    if name.None? then Failure(NullPointer(Name))
    else if pos.None? then Failure(NullPointer(Pos))
    else if quat.None? then Failure(NullPointer(Quat))
    else
      var p := pos.value;
      var q := quat.value[..4];
      XyzwRoundTrip(q, XyzwToQuaternion(q));
      Success(ObstacleUpdate(name.value, Isometry(Vec3At(p, 0), FromQuaternion(XyzwToQuaternion(q)))))
  }

  // ---------------------------------------------------------------------
  // The packing loops of the two solve helpers

  /** Halfway through a loop that rewrites `cur` into `target` from the
      front: the first i entries are already the target's, the rest are
      still the original's. */
  ghost predicate RewrittenUpTo<T>(cur: seq<T>, target: seq<T>, orig: seq<T>, i: nat)
  {
    && |cur| == |target| == |orig| && i <= |cur|
    && (forall k :: 0 <= k < i ==> cur[k] == target[k])
    && (forall k :: i <= k < |cur| ==> cur[k] == orig[k])
  }

  /** Writing the target's entry at i moves the boundary one step. */
  lemma {:induction false} RewriteStep<T>(cur: seq<T>, target: seq<T>, orig: seq<T>, i: nat, v: T)
    requires RewrittenUpTo(cur, target, orig, i) && i < |cur| && v == target[i]
    ensures RewrittenUpTo(cur[i := v], target, orig, i + 1)
  {
  }

  /** Where the target keeps the original entry, nothing needs writing. */
  lemma {:induction false} RewriteSkip<T>(cur: seq<T>, target: seq<T>, orig: seq<T>, i: nat)
    requires RewrittenUpTo(cur, target, orig, i) && i < |cur| && target[i] == orig[i]
    ensures RewrittenUpTo(cur, target, orig, i + 1)
  {
  }

  /** At the end of the walk the sequence is the target. */
  lemma {:induction false} RewriteDone<T>(cur: seq<T>, target: seq<T>, orig: seq<T>)
    requires RewrittenUpTo(cur, target, orig, |cur|)
    ensures cur == target
  {
  }

  /** The loop of `solve_position_helper`: walk every chain with a slot
      counter j that advances on active chains, and overwrite each active
      chain's goal from slot j, one element at a time. */
  method PackAbsoluteGoals(mask: seq<bool>, goalPositions: seq<Vec3>, goalQuats: seq<UnitQuaternion>, tolerances: seq<Vector6>,
                           pos: seq<real>, quat: seq<real>, tol: seq<real>)
    returns (positions: seq<Vec3>, quats: seq<UnitQuaternion>, tols: seq<Vector6>)
    requires |goalPositions| == |mask| && |goalQuats| == |mask| && |tolerances| == |mask|
    requires 3 * CountActive(mask) <= |pos| && 4 * CountActive(mask) <= |quat| && 6 * CountActive(mask) <= |tol|
    ensures positions == AbsolutePositions(mask, goalPositions, pos)
    ensures quats == AbsoluteOrientations(mask, goalQuats, quat)
    ensures tols == AbsoluteTolerances(mask, tolerances, tol)
  {
    ghost var newPositions := AbsolutePositions(mask, goalPositions, pos);
    ghost var newQuats := AbsoluteOrientations(mask, goalQuats, quat);
    ghost var newTolerances := AbsoluteTolerances(mask, tolerances, tol);
    positions, quats, tols := goalPositions, goalQuats, tolerances;
    var j: nat := 0;
    for i := 0 to |mask|
      invariant j == SlotOf(mask, i)
      invariant RewrittenUpTo(positions, newPositions, goalPositions, i)
      invariant RewrittenUpTo(quats, newQuats, goalQuats, i)
      invariant RewrittenUpTo(tols, newTolerances, tolerances, i)
    {
      SlotStep(mask, i);
      if mask[i] {
        RewriteStep(positions, newPositions, goalPositions, i, Vec3At(pos, j));
        RewriteStep(quats, newQuats, goalQuats, i, QuatAt(quat, j));
        RewriteStep(tols, newTolerances, tolerances, i, TolAt(tol, 6 * j));
        positions := positions[i := Vec3At(pos, j)];
        quats := quats[i := QuatAt(quat, j)];
        tols := tols[i := TolAt(tol, 6 * j)];
        j := j + 1;
      } else {
        RewriteSkip(positions, newPositions, goalPositions, i);
        RewriteSkip(quats, newQuats, goalQuats, i);
        RewriteSkip(tols, newTolerances, tolerances, i);
      }
    }
    RewriteDone(positions, newPositions, goalPositions);
    RewriteDone(quats, newQuats, goalQuats);
    RewriteDone(tols, newTolerances, tolerances);
  }

  /** The loop of `solve_velocity_helper`: the same walk, adding each active
      chain's position increment, composing its rotation increment on the
      left, and overwriting its tolerance from offset 3 j. */
  method AccumulateVelocityGoals(mask: seq<bool>, goalPositions: seq<Vec3>, goalQuats: seq<UnitQuaternion>, tolerances: seq<Vector6>,
                                 pos: seq<real>, rot: seq<real>, tol: seq<real>)
    returns (positions: seq<Vec3>, quats: seq<UnitQuaternion>, tols: seq<Vector6>)
    requires |goalPositions| == |mask| && |goalQuats| == |mask| && |tolerances| == |mask|
    requires 3 * CountActive(mask) <= |pos| && 3 * CountActive(mask) <= |rot|
    requires CountActive(mask) == 0 || 3 * CountActive(mask) + 3 <= |tol|
    ensures positions == VelocityPositions(mask, goalPositions, pos)
    ensures quats == VelocityOrientations(mask, goalQuats, rot)
    ensures tols == VelocityTolerances(mask, tolerances, tol)
  {
    ghost var newPositions := VelocityPositions(mask, goalPositions, pos);
    ghost var newQuats := VelocityOrientations(mask, goalQuats, rot);
    ghost var newTolerances := VelocityTolerances(mask, tolerances, tol);
    positions, quats, tols := goalPositions, goalQuats, tolerances;
    var j: nat := 0;
    for i := 0 to |mask|
      invariant j == SlotOf(mask, i)
      invariant RewrittenUpTo(positions, newPositions, goalPositions, i)
      invariant RewrittenUpTo(quats, newQuats, goalQuats, i)
      invariant RewrittenUpTo(tols, newTolerances, tolerances, i)
    {
      SlotStep(mask, i);
      if mask[i] {
        var position := Add(positions[i], Vec3At(pos, j));
        var axisAngle := Vec3At(rot, j);
        var orgQ := quats[i];
        var quat := Product(FromScaledAxis(axisAngle), orgQ);
        RewriteStep(positions, newPositions, goalPositions, i, position);
        RewriteStep(quats, newQuats, goalQuats, i, quat);
        RewriteStep(tols, newTolerances, tolerances, i, TolAt(tol, 3 * j));
        positions := positions[i := position];
        quats := quats[i := quat];
        tols := tols[i := TolAt(tol, 3 * j)];
        j := j + 1;
      } else {
        RewriteSkip(positions, newPositions, goalPositions, i);
        RewriteSkip(quats, newQuats, goalQuats, i);
        RewriteSkip(tols, newTolerances, tolerances, i);
      }
    }
    RewriteDone(positions, newPositions, goalPositions);
    RewriteDone(quats, newQuats, goalQuats);
    RewriteDone(tols, newTolerances, tolerances);
  }

  // ---------------------------------------------------------------------
  // The solver handle

  /** The solver handle. The source walks chains `0..vars.robot.num_chains`
      and indexes the mask and the goal arrays with the same index; the
      model takes the number of chains to be the length of the mask, and
      `Valid()` requires the goal arrays to have that length. */
  class RelaxedIK {
    /** `vars.is_active_chain`: fixed by the settings; one entry per chain. */
    const isActiveChain: seq<bool>
    var goalPositions: seq<Vec3>
    var goalQuats: seq<UnitQuaternion>
    var tolerances: seq<Vector6>
    /** `om.weight_names` and `om.weight_priors`. */
    var weightNames: seq<string>
    var weightPriors: seq<real>
    var envCollisionTipOffset: nat

    /** One goal per chain, one prior per objective. */
    ghost predicate Valid()
      reads this
    {
      && |goalPositions| == |isActiveChain|
      && |goalQuats| == |isActiveChain|
      && |tolerances| == |isActiveChain|
      && |weightPriors| == |weightNames|
    }

    /** A handle over already loaded settings. */
    constructor (mask: seq<bool>, positions: seq<Vec3>, quats: seq<UnitQuaternion>, tols: seq<Vector6>,
                 names: seq<string>, priors: seq<real>, tipOffset: nat)
      requires |positions| == |mask| && |quats| == |mask| && |tols| == |mask| && |priors| == |names|
      ensures Valid()
      ensures isActiveChain == mask && goalPositions == positions && goalQuats == quats && tolerances == tols
      ensures weightNames == names && weightPriors == priors && envCollisionTipOffset == tipOffset
    {
      isActiveChain := mask;
      goalPositions := positions;
      goalQuats := quats;
      tolerances := tols;
      weightNames := names;
      weightPriors := priors;
      envCollisionTipOffset := tipOffset;
    }

    /** `solve_position_helper`: overwrite the goals of the active chains
        from consecutive slots, then run the solver. */
    method SolvePositionHelper(pos: seq<real>, quat: seq<real>, tol: seq<real>, solver: Solver) returns (x: seq<real>)
      requires Valid()
      requires 3 * CountActive(isActiveChain) <= |pos|
      requires 4 * CountActive(isActiveChain) <= |quat|
      requires 6 * CountActive(isActiveChain) <= |tol|
      modifies this
      ensures Valid()
      ensures goalPositions == AbsolutePositions(isActiveChain, old(goalPositions), pos)
      ensures goalQuats == AbsoluteOrientations(isActiveChain, old(goalQuats), quat)
      ensures tolerances == AbsoluteTolerances(isActiveChain, old(tolerances), tol)
      ensures weightNames == old(weightNames) && weightPriors == old(weightPriors)
      ensures envCollisionTipOffset == old(envCollisionTipOffset)
      ensures x == solver(goalPositions, goalQuats, tolerances, weightPriors, envCollisionTipOffset)
    {
      goalPositions, goalQuats, tolerances :=
        PackAbsoluteGoals(isActiveChain, goalPositions, goalQuats, tolerances, pos, quat, tol);
      x := solver(goalPositions, goalQuats, tolerances, weightPriors, envCollisionTipOffset);
    }

    /** `solve_velocity_helper`: accumulate the active chains' position and
        rotation increments, overwrite their tolerances from offset 3 j, then
        run the solver. The distance diagnostic computed afterwards indexes
        the first chain's frames and goal, which panics on a handle with no
        chains; its value is discarded. */
    method SolveVelocityHelper(pos: seq<real>, rot: seq<real>, tol: seq<real>, solver: Solver) returns (r: Result<seq<real>>)
      requires Valid()
      requires 3 * CountActive(isActiveChain) <= |pos|
      requires 3 * CountActive(isActiveChain) <= |rot|
      requires CountActive(isActiveChain) == 0 || 3 * CountActive(isActiveChain) + 3 <= |tol|
      modifies this
      ensures Valid()
      ensures goalPositions == VelocityPositions(isActiveChain, old(goalPositions), pos)
      ensures goalQuats == VelocityOrientations(isActiveChain, old(goalQuats), rot)
      ensures tolerances == VelocityTolerances(isActiveChain, old(tolerances), tol)
      ensures weightNames == old(weightNames) && weightPriors == old(weightPriors)
      ensures envCollisionTipOffset == old(envCollisionTipOffset)
      ensures r == if |isActiveChain| == 0 then Failure(NoChains)
                   else Success(solver(goalPositions, goalQuats, tolerances, weightPriors, envCollisionTipOffset))
    {
      goalPositions, goalQuats, tolerances :=
        AccumulateVelocityGoals(isActiveChain, goalPositions, goalQuats, tolerances, pos, rot, tol);
      var x := solver(goalPositions, goalQuats, tolerances, weightPriors, envCollisionTipOffset);
      if |goalPositions| == 0 {
        return Failure(NoChains);
      }
      r := Success(x);
    }

    /** `solve_position`: validate, then pack absolute goals and solve. A
        rejected call changes nothing. */
    method SolvePosition(pos: Option<seq<real>>, quat: Option<seq<real>>, tol: Option<seq<real>>, solver: Solver)
      returns (r: Result<seq<real>>)
      requires Valid()
      modifies this
      ensures Valid()
      ensures var o := CheckPositionInput(isActiveChain, pos, quat, tol);
        && (o.Fail? ==> r == Failure(o.error) && unchanged(this))
        && (o.Pass? ==>
          && r == Success(solver(goalPositions, goalQuats, tolerances, weightPriors, envCollisionTipOffset))
          && goalPositions == AbsolutePositions(isActiveChain, old(goalPositions), pos.value)
          && goalQuats == AbsoluteOrientations(isActiveChain, old(goalQuats), quat.value)
          && tolerances == AbsoluteTolerances(isActiveChain, old(tolerances), tol.value)
          && weightNames == old(weightNames) && weightPriors == old(weightPriors)
          && envCollisionTipOffset == old(envCollisionTipOffset))
    {
      var o := CheckPositionInput(isActiveChain, pos, quat, tol);
      if o.Fail? {
        return Failure(o.error);
      }
      var x := SolvePositionHelper(pos.value, quat.value, tol.value, solver);
      r := Success(x);
    }

    /** `solve_velocity`: validate, then accumulate increments and solve. A
        rejected call changes nothing. */
    method SolveVelocity(pos: Option<seq<real>>, rot: Option<seq<real>>, tol: Option<seq<real>>, solver: Solver)
      returns (r: Result<seq<real>>)
      requires Valid()
      modifies this
      ensures Valid()
      ensures var o := CheckVelocityInput(isActiveChain, pos, rot, tol);
        && (o.Fail? ==> r == Failure(o.error) && unchanged(this))
        && (o.Pass? ==>
          && r == (if |isActiveChain| == 0 then Failure(NoChains)
                   else Success(solver(goalPositions, goalQuats, tolerances, weightPriors, envCollisionTipOffset)))
          && goalPositions == VelocityPositions(isActiveChain, old(goalPositions), pos.value)
          && goalQuats == VelocityOrientations(isActiveChain, old(goalQuats), rot.value)
          && tolerances == VelocityTolerances(isActiveChain, old(tolerances), tol.value)
          && weightNames == old(weightNames) && weightPriors == old(weightPriors)
          && envCollisionTipOffset == old(envCollisionTipOffset))
    {
      var o := CheckVelocityInput(isActiveChain, pos, rot, tol);
      if o.Fail? {
        return Failure(o.error);
      }
      r := SolveVelocityHelper(pos.value, rot.value, tol.value, solver);
    }

    /** The compatibility `solve`: null checks only; once the pointers are
        non-null, its callers must pass buffers at least as long as
        `solve_position` demands, and any numbers beyond those are ignored. */
    method Solve(pos: Option<seq<real>>, quat: Option<seq<real>>, tol: Option<seq<real>>, solver: Solver)
      returns (r: Result<seq<real>>)
      requires Valid()
      requires CheckNonNull(pos, quat, tol).Pass? ==>
        && 3 * CountActive(isActiveChain) <= |pos.value|
        && 4 * CountActive(isActiveChain) <= |quat.value|
        && 6 * CountActive(isActiveChain) <= |tol.value|
      modifies this
      ensures Valid()
      ensures var o := CheckNonNull(pos, quat, tol);
        && (o.Fail? ==> r == Failure(o.error) && unchanged(this))
        && (o.Pass? ==>
          && r == Success(solver(goalPositions, goalQuats, tolerances, weightPriors, envCollisionTipOffset))
          && goalPositions == AbsolutePositions(isActiveChain, old(goalPositions), pos.value)
          && goalQuats == AbsoluteOrientations(isActiveChain, old(goalQuats), quat.value)
          && tolerances == AbsoluteTolerances(isActiveChain, old(tolerances), tol.value)
          && weightNames == old(weightNames) && weightPriors == old(weightPriors)
          && envCollisionTipOffset == old(envCollisionTipOffset))
    {
      var o := CheckNonNull(pos, quat, tol);
      if o.Fail? {
        return Failure(o.error);
      }
      var x := SolvePositionHelper(pos.value, quat.value, tol.value, solver);
      r := Success(x);
    }

    /** `get_ee_positions`: the goal positions of ALL chains, flattened. */
    method GetEePositions() returns (positions: seq<real>)
      ensures positions == Flatten(goalPositions)
      ensures |positions| == 3 * |goalPositions|
      ensures forall i :: 0 <= i < |goalPositions| ==>
        positions[3 * i] == goalPositions[i].x &&
        positions[3 * i + 1] == goalPositions[i].y &&
        positions[3 * i + 2] == goalPositions[i].z
    {
      positions := [];
      for i := 0 to |goalPositions|
        invariant positions == Flatten(goalPositions[..i])
      {
        assert goalPositions[..i + 1][..i] == goalPositions[..i];
        positions := positions + [goalPositions[i].x];
        positions := positions + [goalPositions[i].y];
        positions := positions + [goalPositions[i].z];
      }
      assert goalPositions[..|goalPositions|] == goalPositions;
      forall i | 0 <= i < |goalPositions|
        ensures positions[3 * i] == goalPositions[i].x
        ensures positions[3 * i + 1] == goalPositions[i].y
        ensures positions[3 * i + 2] == goalPositions[i].z
      {
        FlattenAt(goalPositions, i);
      }
    }

    /** `get_objective_weight_priors`: the current priors. */
    method GetObjectiveWeightPriors() returns (w: seq<real>)
      ensures w == weightPriors
    {
      w := weightPriors;
    }

    /** `set_objective_weight_priors`: overwrite every prior by index once
        the pointer and the length are checked. */
    method SetObjectiveWeightPriors(weights: Option<seq<real>>) returns (o: Outcome)
      requires Valid()
      modifies this
      ensures Valid()
      ensures weights.None? ==> o == Fail(NullPointer(Weights))
      ensures weights.Some? && |weights.value| != |old(weightPriors)| ==>
        o == Fail(LengthMismatch(Weights, |old(weightPriors)|, |weights.value|))
      ensures o.Pass? <==> weights.Some? && |weights.value| == |old(weightPriors)|
      ensures weightPriors == if o.Pass? then weights.value else old(weightPriors)
      ensures weightNames == old(weightNames) && goalPositions == old(goalPositions)
      ensures goalQuats == old(goalQuats) && tolerances == old(tolerances)
      ensures envCollisionTipOffset == old(envCollisionTipOffset)
    {
      if weights.None? {
        return Fail(NullPointer(Weights));
      }
      var w := weights.value;
      if |w| != |weightPriors| {
        return Fail(LengthMismatch(Weights, |weightPriors|, |w|));
      }
      for i := 0 to |weightPriors|
        invariant |weightPriors| == |w|
        invariant forall k :: 0 <= k < i ==> weightPriors[k] == w[k]
        invariant forall k :: i <= k < |w| ==> weightPriors[k] == old(weightPriors)[k]
        invariant weightNames == old(weightNames) && goalPositions == old(goalPositions)
        invariant goalQuats == old(goalQuats) && tolerances == old(tolerances)
        invariant envCollisionTipOffset == old(envCollisionTipOffset)
      {
        weightPriors := weightPriors[i := w[i]];
      }
      assert weightPriors == w;
      o := Pass;
    }

    /** `set_env_collision_tip_offset`: reject a negative offset, otherwise
        store it. */
    method SetEnvCollisionTipOffset(offset: int32) returns (o: Outcome)
      modifies this
      ensures o.Pass? <==> offset >= 0
      ensures o.Fail? ==> o.error == NegativeTipOffset(offset as int)
      ensures envCollisionTipOffset == if o.Pass? then offset as int else old(envCollisionTipOffset)
      ensures goalPositions == old(goalPositions) && goalQuats == old(goalQuats) && tolerances == old(tolerances)
      ensures weightNames == old(weightNames) && weightPriors == old(weightPriors)
    {
      if offset < 0 {
        return Fail(NegativeTipOffset(offset as int));
      }
      envCollisionTipOffset := offset as int;
      o := Pass;
    }

    /** `get_objective_weight_names`: one C string per name, in order; a name
        with an interior NUL cannot become a C string and panics. */
    method GetObjectiveWeightNames() returns (r: Result<seq<string>>)
      ensures r.Success? <==> forall k :: 0 <= k < |weightNames| ==> '\0' !in weightNames[k]
      ensures r.Success? ==>
        |r.value| == |weightNames| && forall k :: 0 <= k < |weightNames| ==> r.value[k] == CString(weightNames[k])
      ensures r.Failure? ==>
        && r.error.NulInName?
        && r.error.index < |weightNames|
        && '\0' in weightNames[r.error.index]
        && forall k :: 0 <= k < r.error.index ==> '\0' !in weightNames[k]
    {
      var cStrings: seq<string> := [];
      for i := 0 to |weightNames|
        invariant |cStrings| == i
        invariant forall k :: 0 <= k < i ==> '\0' !in weightNames[k] && cStrings[k] == CString(weightNames[k])
      {
        if '\0' in weightNames[i] {
          return Failure(NulInName(i));
        }
        cStrings := cStrings + [CString(weightNames[i])];
      }
      r := Success(cStrings);
    }
  }

  // ---------------------------------------------------------------------
  // Properties of the packing across calls

  /** Element-wise sum of two buffers of the same length. */
  function AddBuffers(a: seq<real>, b: seq<real>): (r: seq<real>)
    requires |a| == |b|
    ensures |r| == |a|
  {
    seq(|a|, k requires 0 <= k < |a| => a[k] + b[k])
  }

  /** After `solve_position`, the goal positions of the active chains, taken
      in chain order, are exactly the slots of the position buffer. */
  lemma {:induction false} ReadBackPositions(mask: seq<bool>, goals: seq<Vec3>, pos: seq<real>)
    requires |goals| == |mask| && 3 * CountActive(mask) <= |pos|
    ensures var g := Gather(mask, AbsolutePositions(mask, goals, pos));
      forall j :: 0 <= j < CountActive(mask) ==> g[j] == Vec3At(pos, j)
  {
    var abs := AbsolutePositions(mask, goals, pos);
    forall j | 0 <= j < CountActive(mask)
      ensures Gather(mask, abs)[j] == Vec3At(pos, j)
    {
      EverySlotHasChain(mask, j);
      var i :| 0 <= i < |mask| && mask[i] && SlotOf(mask, i) == j;
      GatherAt(mask, abs, i);
    }
  }

  /** The same for the goal orientations and the quaternion buffer. */
  lemma {:induction false} ReadBackOrientations(mask: seq<bool>, quats: seq<UnitQuaternion>, quat: seq<real>)
    requires |quats| == |mask| && 4 * CountActive(mask) <= |quat|
    ensures var g := Gather(mask, AbsoluteOrientations(mask, quats, quat));
      forall j :: 0 <= j < CountActive(mask) ==> g[j] == QuatAt(quat, j)
  {
    var abs := AbsoluteOrientations(mask, quats, quat);
    forall j | 0 <= j < CountActive(mask)
      ensures Gather(mask, abs)[j] == QuatAt(quat, j)
    {
      EverySlotHasChain(mask, j);
      var i :| 0 <= i < |mask| && mask[i] && SlotOf(mask, i) == j;
      GatherAt(mask, abs, i);
    }
  }

  /** Position solving cuts the tolerance buffer into disjoint windows of
      six: active chain number j takes numbers 6 j to 6 j + 5. */
  lemma {:induction false} ReadBackTolerances(mask: seq<bool>, tols: seq<Vector6>, tol: seq<real>)
    requires |tols| == |mask| && 6 * CountActive(mask) <= |tol|
    ensures var g := Gather(mask, AbsoluteTolerances(mask, tols, tol));
      forall j :: 0 <= j < CountActive(mask) ==> g[j] == tol[6 * j..6 * j + 6]
  {
    var abs := AbsoluteTolerances(mask, tols, tol);
    forall j | 0 <= j < CountActive(mask)
      ensures Gather(mask, abs)[j] == tol[6 * j..6 * j + 6]
    {
      EverySlotHasChain(mask, j);
      var i :| 0 <= i < |mask| && mask[i] && SlotOf(mask, i) == j;
      GatherAt(mask, abs, i);
    }
  }

  /** Velocity solving gives active chain number j the numbers 3 j to
      3 j + 5 of the tolerance buffer, so the windows of consecutive active
      chains share three numbers. */
  lemma {:induction false} VelocityToleranceWindows(mask: seq<bool>, tols: seq<Vector6>, tol: seq<real>)
    requires |tols| == |mask| && (CountActive(mask) == 0 || 3 * CountActive(mask) + 3 <= |tol|)
    ensures var g := Gather(mask, VelocityTolerances(mask, tols, tol));
      && (forall j :: 0 <= j < CountActive(mask) ==> g[j] == tol[3 * j..3 * j + 6])
      && (forall j :: 0 <= j && j + 1 < CountActive(mask) ==> g[j][3..] == g[j + 1][..3])
  {
    var v := VelocityTolerances(mask, tols, tol);
    forall j | 0 <= j < CountActive(mask)
      ensures Gather(mask, v)[j] == tol[3 * j..3 * j + 6]
    {
      EverySlotHasChain(mask, j);
      var i :| 0 <= i < |mask| && mask[i] && SlotOf(mask, i) == j;
      GatherAt(mask, v, i);
    }
    var g := Gather(mask, v);
    forall j | 0 <= j && j + 1 < CountActive(mask)
      ensures g[j][3..] == g[j + 1][..3]
    {
      assert g[j][3..] == tol[3 * j + 3..3 * j + 6];
      assert g[j + 1][..3] == tol[3 * j + 3..3 * j + 6];
    }
  }

  /** Two active chains and the tolerance buffer 0, 1, ..., 11: position
      solving gives the second chain 6..11, velocity solving gives it 3..8. */
  lemma {:induction false} ToleranceOffsetExample(tols: seq<Vector6>)
    requires |tols| == 2
    ensures var mask := [true, true];
      var tol := [0.0, 1.0, 2.0, 3.0, 4.0, 5.0, 6.0, 7.0, 8.0, 9.0, 10.0, 11.0];
      && AbsoluteTolerances(mask, tols, tol)[1] == [6.0, 7.0, 8.0, 9.0, 10.0, 11.0]
      && VelocityTolerances(mask, tols, tol)[1] == [3.0, 4.0, 5.0, 6.0, 7.0, 8.0]
  {
    var mask := [true, true];
    SlotStep(mask, 0);
    SlotStep(mask, 1);
    assert SlotOf(mask, 1) == 1;
  }

  /** Velocity solving never reads the tolerance buffer from number 3 A + 3
      on: two buffers that agree on the first 3 A + 3 numbers give the same
      tolerances. Of a buffer of the checked length 6 A, the last 3 A - 3
      numbers are ignored. */
  lemma {:induction false} VelocityToleranceIgnoresTail(mask: seq<bool>, tols: seq<Vector6>, tol1: seq<real>, tol2: seq<real>)
    requires |tols| == |mask| && CountActive(mask) > 0
    requires 3 * CountActive(mask) + 3 <= |tol1| && 3 * CountActive(mask) + 3 <= |tol2|
    requires tol1[..3 * CountActive(mask) + 3] == tol2[..3 * CountActive(mask) + 3]
    ensures VelocityTolerances(mask, tols, tol1) == VelocityTolerances(mask, tols, tol2)
  {
    var a := CountActive(mask);
    var p := tol1[..3 * a + 3];
    forall i | 0 <= i < |mask| && mask[i]
      ensures TolAt(tol1, 3 * SlotOf(mask, i)) == TolAt(tol2, 3 * SlotOf(mask, i))
    {
      var j := SlotOf(mask, i);
      assert tol1[3 * j..3 * j + 6] == p[3 * j..3 * j + 6];
      assert tol2[3 * j..3 * j + 6] == p[3 * j..3 * j + 6];
    }
  }

  /** Slot j of a sum of buffers is the sum of the slots. */
  lemma {:induction false} Vec3AtAdd(a: seq<real>, b: seq<real>, j: nat)
    requires |a| == |b| && 3 * j + 3 <= |a|
    ensures Vec3At(AddBuffers(a, b), j) == Add(Vec3At(a, j), Vec3At(b, j))
  {
  }

  /** Two velocity steps with increments d1 and d2 move the goal positions
      as one step with d1 + d2. */
  lemma {:induction false} VelocityPositionsCompose(mask: seq<bool>, goals: seq<Vec3>, d1: seq<real>, d2: seq<real>)
    requires |goals| == |mask| && |d1| == |d2| && 3 * CountActive(mask) <= |d1|
    ensures VelocityPositions(mask, VelocityPositions(mask, goals, d1), d2)
      == VelocityPositions(mask, goals, AddBuffers(d1, d2))
  {
    var once := VelocityPositions(mask, goals, d1);
    var twice := VelocityPositions(mask, once, d2);
    var sum := VelocityPositions(mask, goals, AddBuffers(d1, d2));
    forall i | 0 <= i < |mask|
      ensures twice[i] == sum[i]
    {
      if mask[i] {
        Vec3AtAdd(d1, d2, SlotOf(mask, i));
      }
    }
  }

  /** A velocity step after a position solve lands where a position solve
      with the summed buffer does. */
  lemma {:induction false} VelocityAfterPosition(mask: seq<bool>, goals: seq<Vec3>, p: seq<real>, d: seq<real>)
    requires |goals| == |mask| && |p| == |d| && 3 * CountActive(mask) <= |p|
    ensures VelocityPositions(mask, AbsolutePositions(mask, goals, p), d)
      == AbsolutePositions(mask, goals, AddBuffers(p, d))
  {
    var after := VelocityPositions(mask, AbsolutePositions(mask, goals, p), d);
    var direct := AbsolutePositions(mask, goals, AddBuffers(p, d));
    forall i | 0 <= i < |mask|
      ensures after[i] == direct[i]
    {
      if mask[i] {
        Vec3AtAdd(p, d, SlotOf(mask, i));
      }
    }
  }

  lemma {:induction false} Vec3AtComponents(buf: seq<real>, j: nat)
    requires 3 * j + 3 <= |buf|
    ensures Vec3At(buf, j).x == buf[3 * j]
    ensures Vec3At(buf, j).y == buf[3 * j + 1]
    ensures Vec3At(buf, j).z == buf[3 * j + 2]
  {
  }

  lemma {:induction false} AllActiveAt(mask: seq<bool>, goals: seq<Vec3>, pos: seq<real>, i: nat)
    requires forall m :: 0 <= m < |mask| ==> mask[m]
    requires |goals| == |mask| && |pos| == 3 * |mask| && i < |mask|
    requires CountActive(mask) == |mask|
    ensures AbsolutePositions(mask, goals, pos)[i] == Vec3At(pos, i)
  {
    AllActiveSlot(mask, i);
  }

  lemma {:induction false} DivideByThree(k: nat, n: nat) returns (i: nat, c: nat)
    requires k < 3 * n
    ensures k == 3 * i + c && c < 3 && i < n
  {
    i, c := k / 3, k % 3;
  }

  /** A goal that is slot i of a buffer flattens back to that slot's numbers. */
  lemma {:induction false} FlattenSlotAt(goals: seq<Vec3>, buf: seq<real>, i: nat, c: nat)
    requires |buf| == 3 * |goals| && i < |goals| && c < 3
    requires goals[i] == Vec3At(buf, i)
    ensures Flatten(goals)[3 * i + c] == buf[3 * i + c]
  {
    Vec3AtComponents(buf, i);
    FlattenAt(goals, i);
  }

  /** Goals that are the buffer's slots in order flatten back to the buffer. */
  lemma {:induction false} FlattenSlots(goals: seq<Vec3>, buf: seq<real>)
    requires |buf| == 3 * |goals|
    requires forall i :: 0 <= i < |goals| ==> goals[i] == Vec3At(buf, i)
    ensures Flatten(goals) == buf
  {
    var f := Flatten(goals);
    forall k | 0 <= k < |buf|
      ensures f[k] == buf[k]
    {
      var i, c := DivideByThree(k, |goals|);
      FlattenSlotAt(goals, buf, i, c);
    }
  }

  /** When every chain is active, `get_ee_positions` after `solve_position`
      returns the position buffer that was passed in. */
  lemma {:induction false} EePositionsAfterSolve(mask: seq<bool>, goals: seq<Vec3>, pos: seq<real>)
    requires forall k :: 0 <= k < |mask| ==> mask[k]
    requires |goals| == |mask| && |pos| == 3 * |mask|
    ensures 3 * CountActive(mask) <= |pos|
    ensures Flatten(AbsolutePositions(mask, goals, pos)) == pos
  {
    AllActiveSlot(mask, |mask|);
    SlotAtEnd(mask);
    var abs := AbsolutePositions(mask, goals, pos);
    forall i | 0 <= i < |abs|
      ensures abs[i] == Vec3At(pos, i)
    {
      AllActiveAt(mask, goals, pos, i);
    }
    FlattenSlots(abs, pos);
  }
}
