# relaxed_ik_core: goal packing and point-to-segment distance, in Dafny

This project models two parts of relaxed_ik_core and proves properties of them.

The first is the foreign-call wrapper around the RelaxedIK solver handle. A
robot has several kinematic chains, and a fixed boolean mask `is_active_chain`
says which of them take goals. A caller passes flat `f64` buffers holding one
slot per active chain, in chain order. `solve_position` and `solve_velocity`
check the buffers' null pointers and their lengths against `A`, the number of
active chains. They then walk every chain `i` with a second counter `j` that
advances only on active chains. Active chain `i` reads slot `j` of each buffer
and overwrites, or accumulates into, the handle's `goal_positions[i]`,
`goal_quats[i]` and `tolerances[i]`. Then the optimiser runs. Smaller
operations set and read the objective weight priors, flatten the goal
positions, store the collision tip offset, export the objective names as C
strings, and build the pose of a dynamic obstacle.

The second is `point_to_segment_distance`, the geometry helper of the
collision code. It handles four cases: a degenerate segment, a clamp to the
start, a clamp to the end, and the interior projection.

Files:

- `algebra.dfy` (module `Algebra`) holds 3-vectors over the reals and quaternions.
  - A unit quaternion is the symbolic expression that built it: normalising a
    quaternion, converting a scaled axis, or multiplying two unit quaternions.
    The model can therefore say exactly which orientation a goal gets, without
    modelling the numerics.
- `math_utils.dfy` (module `MathUtils`) holds the segment distance.
  - Dafny has no square root, so every branch returns the squared norm of the
    vector whose norm the source returns. The branch structure and the clamped
    parameter are unchanged.
- `active_chains.dfy` (module `ActiveChains`) holds the count `A` and the slot
  numbering: chain `i` reads slot `SlotOf(mask, i)`, the number of active
  chains below `i`.
- `relaxed_ik_wrapper.dfy` (module `RelaxedIkWrapper`) holds the `RelaxedIK`
  class, the entry points, and the properties that relate several calls.
  - The class fields are `seq`s, replaced element by element the way the
    source's loops do it.
  - A raw pointer is an `Option` over its buffer, with `None` as null.
  - A `c_int` length argument is the length of that sequence.
  - A panicking `assert!` becomes a `Failure`/`Fail` result.
  - `RelaxedIK::solve()` is a function-valued parameter `solver` that computes
    joints from the goals.

The two solve helpers read the tolerance buffer differently.
`solve_velocity_helper` reads slot `j` at offset `3*j`
(src/relaxed_ik_wrapper.rs:230-231), so the six-number windows of consecutive
active chains share three numbers. `solve_position_helper` reads it at offset
`6*j` (src/relaxed_ik_wrapper.rs:208-209). Three lemmas make this explicit:
`VelocityToleranceWindows`, `VelocityToleranceIgnoresTail` and
`ToleranceOffsetExample`.

## Model

| member | source | states |
|---|---|---|
| Algebra.NormSq | src/utils_rust/math_utils.rs:5 | a squared norm is never negative |
| MathUtils.PointToSegmentDistanceSq | src/utils_rust/math_utils.rs:3-24 | the four branches of the source in order; the result is never negative |
| MathUtils.PointOnSegment | src/utils_rust/math_utils.rs:22 | the point start + s (end - start) is start at s = 0 and end at s = 1 |
| MathUtils.ProjectionParameter | src/utils_rust/math_utils.rs:12 | on a segment of non-zero length, the point of parameter t = ((point - start) . v) / (v . v) is the foot of the perpendicular from the point: its offset from the point is orthogonal to v = end - start |
| MathUtils.DegenerateSegment | src/utils_rust/math_utils.rs:7-9 | a segment with end == start gives the squared distance from the point to start |
| MathUtils.ProperSegmentBranches | src/utils_rust/math_utils.rs:12-23 | on a segment of non-zero length, with t the projection parameter: t < 0 gives the distance to start, t > 1 the distance to end, and otherwise the distance to start + t (end - start) |
| MathUtils.ClosestParameter | src/utils_rust/math_utils.rs:7-23 | the result is the distance to the segment point of some parameter s in [0, 1]: the clamped projection parameter, or 0 for a degenerate segment |
| MathUtils.DistanceIsMinimal | src/utils_rust/math_utils.rs:3-24 | the result is at most the distance to every point of the closed segment, so it is the distance to the segment |
| MathUtils.Examples | src/utils_rust/math_utils.rs:12-23 | for the segment (0,0,0)-(10,0,0), the points (5,3,0), (-5,0,0) and (15,4,0) give 3, 5 and the square root of 41 (9, 25, 41 squared) |
| ActiveChains.CountActive | src/relaxed_ik_wrapper.rs:76 | A, the number of true entries of the mask, is at most the number of chains |
| ActiveChains.CountActiveMonotone | src/relaxed_ik_wrapper.rs:76 | a longer prefix of the mask holds at least as many active chains |
| ActiveChains.SlotOf | src/relaxed_ik_wrapper.rs:202-213 | the slot counter j at chain i is at most i and at most A, and is below A when chain i is active, so every slot index is inside the buffers |
| ActiveChains.SlotStep | src/relaxed_ik_wrapper.rs:204-211 | j advances by one exactly on an active chain |
| ActiveChains.SlotAtEnd | src/relaxed_ik_wrapper.rs:203-213 | the counter ends the loop at A, so every slot is visited |
| ActiveChains.SlotsIncrease | src/relaxed_ik_wrapper.rs:204-211 | an active chain's slot is below the slot of every later chain, so distinct active chains read distinct slots |
| ActiveChains.EverySlotHasChain | src/relaxed_ik_wrapper.rs:202-213 | every slot below A is read by some active chain |
| ActiveChains.AllActiveSlot | src/relaxed_ik_wrapper.rs:202-213 | with every chain active, chain i reads slot i |
| ActiveChains.Gather | src/relaxed_ik_wrapper.rs:76 | a reference construction, not code of the source: the ordered list of the active chains' entries, which has exactly A elements, the count computed at this line |
| ActiveChains.GatherAt | src/relaxed_ik_wrapper.rs:204 | the active chain i is entry SlotOf(mask, i) of the gathered sequence |
| RelaxedIkWrapper.Vec3At | src/relaxed_ik_wrapper.rs:205 | slot j of a buffer of 3-vectors is the vector of numbers 3j, 3j+1 and 3j+2, in that order (also the reads at lines 225-226 and 269) |
| RelaxedIkWrapper.XyzwToQuaternion | src/relaxed_ik_wrapper.rs:206 | the caller's (x, y, z, w) numbers become the quaternion whose (x, y, z, w) layout is the same four numbers, with the real part w taken from the last (the same reorder as line 270) |
| RelaxedIkWrapper.QuaternionToXyzw | src/relaxed_ik_wrapper.rs:206 | the inverse of the reorder, which the contracts use to say what the reorder does; a quaternion in the caller's layout has four numbers |
| RelaxedIkWrapper.QuatAt | src/relaxed_ik_wrapper.rs:206-207 | slot j of a quaternion buffer is the normalisation of the quaternion whose (x, y, z, w) layout is numbers 4j to 4j+3 |
| RelaxedIkWrapper.TolAt | src/relaxed_ik_wrapper.rs:208-209 | the six tolerance numbers starting at the given offset, in order (offset 6j here, 3j at lines 230-231) |
| RelaxedIkWrapper.XyzwRoundTrip | src/relaxed_ik_wrapper.rs:206 | the (x, y, z, w) to (w, x, y, z) reorder is a bijection: both round trips are the identity |
| RelaxedIkWrapper.AbsolutePositions | src/relaxed_ik_wrapper.rs:203-205 | one goal position per chain: active chain i takes slot SlotOf(mask, i) of the buffer, and an inactive chain keeps its goal |
| RelaxedIkWrapper.AbsoluteOrientations | src/relaxed_ik_wrapper.rs:203-207 | one orientation per chain: active chain i takes the normalised quaternion (w = q[4j+3], x = q[4j], y = q[4j+1], z = q[4j+2]) |
| RelaxedIkWrapper.AbsoluteTolerances | src/relaxed_ik_wrapper.rs:203-209 | one tolerance per chain: active chain i takes tol[6j..6j+6] |
| RelaxedIkWrapper.VelocityPositions | src/relaxed_ik_wrapper.rs:223-225 | one goal position per chain: active chain i adds slot j of the buffer to its goal |
| RelaxedIkWrapper.VelocityOrientations | src/relaxed_ik_wrapper.rs:223-229 | one orientation per chain: active chain i becomes from_scaled_axis(rot slot j) times its old orientation, with the increment on the left |
| RelaxedIkWrapper.VelocityTolerances | src/relaxed_ik_wrapper.rs:223-231 | one tolerance per chain: active chain i takes tol[3j..3j+6] |
| RelaxedIkWrapper.CheckPositionInput | src/relaxed_ik_wrapper.rs:72-85 | passes exactly when all three pointers are non-null and the lengths are 3A, 4A and 6A; the null-pointer error comes first, as CheckNonNull reports it; then the first wrong length among pos, quat and tolerance, naming the buffer, what was expected and what was got |
| RelaxedIkWrapper.CheckVelocityInput | src/relaxed_ik_wrapper.rs:121-133 | passes exactly when all three pointers are non-null and the lengths are 3A, 3A and 6A; the first null pointer among pos, rot and tolerance is reported, then the first wrong length, naming the buffer, what was expected and what was got |
| RelaxedIkWrapper.CheckNonNull | src/relaxed_ik_wrapper.rs:181-183 | passes exactly when all three pointers are non-null; otherwise reports the first null one among pos, quat and tolerance |
| RelaxedIkWrapper.Flatten | src/relaxed_ik_wrapper.rs:158-163 | three numbers per goal position |
| RelaxedIkWrapper.FlattenAt | src/relaxed_ik_wrapper.rs:159-162 | numbers 3i, 3i+1 and 3i+2 are the x, y and z of goal i |
| RelaxedIkWrapper.CString | src/relaxed_ik_wrapper.rs:336 | a C string is its characters followed by one NUL |
| RelaxedIkWrapper.ReadCString | src/relaxed_ik_wrapper.rs:336-337 | what C code reads from a buffer is the prefix before the first NUL, and contains no NUL |
| RelaxedIkWrapper.CStringRoundTrip | src/relaxed_ik_wrapper.rs:336 | a name without an interior NUL reads back unchanged from its exported C string |
| RelaxedIkWrapper.DynamicObstacleCb | src/relaxed_ik_wrapper.rs:250-272 | fails on the first null name, pos or quat pointer, in that order, naming that pointer; otherwise the pose's translation is pos[0..3] and its rotation is the normalised quaternion whose (x, y, z, w) layout is quat[0..4] |
| RelaxedIkWrapper.PackAbsoluteGoals | src/relaxed_ik_wrapper.rs:202-213 | the two-counter loop of solve_position_helper produces exactly AbsolutePositions, AbsoluteOrientations and AbsoluteTolerances of the old goals |
| RelaxedIkWrapper.AccumulateVelocityGoals | src/relaxed_ik_wrapper.rs:222-235 | the two-counter loop of solve_velocity_helper produces exactly VelocityPositions, VelocityOrientations and VelocityTolerances of the old goals |
| RelaxedIkWrapper.RelaxedIK.constructor | src/relaxed_ik_wrapper.rs:19-24 | a handle over loaded settings, with one goal per chain and one prior per objective name |
| RelaxedIkWrapper.RelaxedIK.SolvePositionHelper | src/relaxed_ik_wrapper.rs:200-217 | the goals become AbsolutePositions, AbsoluteOrientations and AbsoluteTolerances of the old goals; the weights and the tip offset do not change; the result is solve() on the new goals, the priors and the tip offset |
| RelaxedIkWrapper.RelaxedIK.SolveVelocityHelper | src/relaxed_ik_wrapper.rs:219-247 | the goals become VelocityPositions, VelocityOrientations and VelocityTolerances of the old goals; tolerance reads stay inside 3A+3 numbers; nothing else changes; the result is solve() on the new goals, the priors and the tip offset, except on a handle with no chains, where the diagnostic after solving indexes chain 0 (rs:240-243) and the call fails with NoChains |
| RelaxedIkWrapper.RelaxedIK.SolvePosition | src/relaxed_ik_wrapper.rs:63-108 | a call rejected by CheckPositionInput returns its error and changes nothing; an accepted one packs the absolute goals and returns the solver's joints |
| RelaxedIkWrapper.RelaxedIK.SolveVelocity | src/relaxed_ik_wrapper.rs:112-149 | a call rejected by CheckVelocityInput returns its error and changes nothing; an accepted one accumulates the increments and returns the solver's joints, or fails with NoChains on a handle with no chains |
| RelaxedIkWrapper.RelaxedIK.Solve | src/relaxed_ik_wrapper.rs:172-198 | only null pointers are rejected, with nothing changed; given buffers at least as long as solve_position demands, it packs like solve_position and ignores any numbers past the A slots |
| RelaxedIkWrapper.RelaxedIK.GetEePositions | src/relaxed_ik_wrapper.rs:152-168 | returns 3 numbers per chain, active or not, with out[3i], out[3i+1], out[3i+2] the x, y, z of goal i |
| RelaxedIkWrapper.RelaxedIK.GetObjectiveWeightPriors | src/relaxed_ik_wrapper.rs:280-290 | returns the current priors |
| RelaxedIkWrapper.RelaxedIK.SetObjectiveWeightPriors | src/relaxed_ik_wrapper.rs:293-305 | a null pointer or a length different from the current priors' is rejected and changes nothing; otherwise the priors become the given weights; the names and goals are untouched, so priors and names keep the same length |
| RelaxedIkWrapper.RelaxedIK.SetEnvCollisionTipOffset | src/relaxed_ik_wrapper.rs:308-317 | a negative offset is rejected and changes nothing; otherwise exactly the offset is stored, and nothing else changes |
| RelaxedIkWrapper.RelaxedIK.GetObjectiveWeightNames | src/relaxed_ik_wrapper.rs:326-350 | succeeds exactly when no name contains a NUL, returning one C string per name, in order; otherwise fails at the first name that does |
| RelaxedIkWrapper.ReadBackPositions | src/relaxed_ik_wrapper.rs:202-211 | after position packing, the active chains' goal positions in chain order are exactly the A slots of the buffer |
| RelaxedIkWrapper.ReadBackOrientations | src/relaxed_ik_wrapper.rs:202-211 | the same for the goal orientations and the quaternion buffer |
| RelaxedIkWrapper.ReadBackTolerances | src/relaxed_ik_wrapper.rs:208-211 | position packing gives the j-th active chain tolerance numbers 6j to 6j+5, as disjoint windows |
| RelaxedIkWrapper.VelocityToleranceWindows | src/relaxed_ik_wrapper.rs:230-233 | velocity packing gives the j-th active chain numbers 3j to 3j+5, and consecutive windows share three numbers |
| RelaxedIkWrapper.ToleranceOffsetExample | src/relaxed_ik_wrapper.rs:208-209 | on two active chains and the buffer 0..11, position packing gives the second chain 6..11 and velocity packing gives it 3..8 |
| RelaxedIkWrapper.VelocityToleranceIgnoresTail | src/relaxed_ik_wrapper.rs:230-231 | velocity packing never reads tolerance numbers from 3A+3 on, so a checked 6A buffer's last 3A-3 numbers are ignored |
| RelaxedIkWrapper.AddBuffers | src/relaxed_ik_wrapper.rs:225 | element-wise sum of two buffers of one length |
| RelaxedIkWrapper.VelocityPositionsCompose | src/relaxed_ik_wrapper.rs:225 | two velocity calls with increments d1 and d2 move the goals like one call with d1 + d2 |
| RelaxedIkWrapper.VelocityAfterPosition | src/relaxed_ik_wrapper.rs:205-225 | a velocity call with d after a position call with p gives the goals of a position call with p + d |
| RelaxedIkWrapper.EePositionsAfterSolve | src/relaxed_ik_wrapper.rs:158-163 | with every chain active, get_ee_positions after solve_position returns the position buffer that was passed in |

## Left out

- Raw-pointer and ownership mechanics are not modelled: `Box::into_raw`/`from_raw`, `slice::from_raw_parts`, `mem::forget`, `CString::into_raw` and the `StringArray` record. A buffer is the sequence it points to.
- `get_objective_weight_priors` forgets the pointer, not the vector, so the caller's buffer aliases the handle's storage. The model returns the values and does not model the aliasing.
- `relaxed_ik_new`, `relaxed_ik_free`, `reset` and `get_jointstate_loss` are not modelled. They are settings file I/O, deallocation and calls into the optimiser, whose code is not part of this model.
- The null check on the handle pointer itself is not modelled: a Dafny object reference is never null.
- The length arguments are not modelled as separate `c_int`s. A negative length cast to `usize`, and a length that disagrees with the memory behind the pointer, are outside the model.
- `PackAbsoluteGoals`, `AccumulateVelocityGoals`: the source's loops update the handle's goal arrays element by element, in place. The model's loops update copies element by element, and the helper stores the copies in the handle after the loop. Nothing runs between the two, so the difference is not observable.
- The optimiser `RelaxedIK::solve()` is the `solver` parameter. It sees the goals, the objective weight priors and the tip offset, so the setters can change a later solve's result. It does not see the handle's joint state or the rest of the settings, and it cannot change the goals.
- The end-effector distance computed after a velocity solve (src/relaxed_ik_wrapper.rs:240-244) is discarded by the source, and its value is not modelled. Only its failure on a handle with no chains is modelled, as `NoChains`.
- `SolveVelocityHelper`: assumes the robot's frame list has one entry per chain, each with at least one frame. The underflow of `frames[0].0.len() - 1` for a first chain with no frames (src/relaxed_ik_wrapper.rs:241) is not modelled, because forward kinematics is not part of this model.
- The number of chains `vars.robot.num_chains`, which bounds the loops (src/relaxed_ik_wrapper.rs:203, 223), is taken to be the length of the mask. A robot whose chain count disagrees with the mask or the goal arrays, where the source would panic on an index, is outside the model.
- `env_collision.update_dynamic_obstacle`, the obstacle registry, is not part of this model. `DynamicObstacleCb` returns the name and pose it would receive.
- UTF-8 validation of C-string names, in `dynamic_obstacle_cb` and `relaxed_ik_new`, is not modelled. Names are Dafny strings.
- `GetObjectiveWeightNames`: `CString::new` exports UTF-8 bytes (src/relaxed_ik_wrapper.rs:336). The model's C string is a sequence of characters, so its length counts characters, not bytes.
- `SetEnvCollisionTipOffset`: forwarding the offset to the objective master (`om.set_env_collision_tip_offset`, src/relaxed_ik_wrapper.rs:316) is not modelled, because the objective master is not part of this model.
- Floating point is modelled as `real`. Quaternion normalisation and `from_scaled_axis` are symbolic, with no trigonometry.
- `PointToSegmentDistanceSq`: returns the squared distance rather than the distance, because Dafny has no square root. `NormSq` stands for `norm_squared`, and the squared `norm` of each branch.
- The text of the panic messages is not modelled, including the source's "Pos vels"/"Rot vels" wording in `solve_position`. An error carries the buffer, the expected length and the actual length.
- Panics are modelled as error results. The process abort across the foreign-call boundary is not modelled.
- `Solve`: the compatibility entry point does not check lengths. It copies buffers of the given lengths (src/relaxed_ik_wrapper.rs:185-191), and the helper indexes them with bounds checks (src/relaxed_ik_wrapper.rs:205-209). A buffer that is too short therefore panics at the first index out of range, after the goals of the earlier active chains have already been overwritten. A buffer that is too long is accepted and its tail is ignored, which the model covers. The model's minimum-length precondition excludes the short-buffer panic.
