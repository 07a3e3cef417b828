# Estimation, attitude and link logic: a verified model

A Dafny model of the numerical and protocol core of a fixed-wing and VTOL flight stack, with proofs of what
that core is for. Verify with `dafny verify dfyconfig.toml`.

**The covariance engine.** A 24-state extended Kalman filter keeps a covariance `P`. The model holds it as a
two-dimensional array inside a class whose methods run the source's loops; each method is proved against a
specification function on matrices, and the theorems are about those functions.

- `LinearAlgebra`: quadratic forms, congruence and Cauchy–Schwarz for positive semidefinite tables.
- `PredictionBlock`, `CovariancePropagation`, `PredictionColumns`, `EkfPrediction`: the generated block
  PS0..PS222 with the column loops and the noise loop is `F·P·Fᵀ + G·Q·Gᵀ + D`, where `F` is read off the row
  formulas, and it keeps a covariance positive semidefinite.
- `StrapdownJacobian`, `PredictionNoiseBlocks`: that F is the derivative of the strapdown step at the samples and biases
  it is given, and what noise a prediction puts where.
- `EkfModel`, `ScalarFusion`, `KalmanGain`: the scalar update, its guard, its gain masks and its limits.
- `FusionOrder`, `VarianceLimits`: sequential fusion does not depend on the order, and exactly when the limits stay idle.
- `MagFusion`, `AirspeedFusion`, `MagSequence`: the dense measurement rows, their variances and gains, the
  variances that go stale between axes, and why the aborts cannot happen.
- `MeasurementModels`, `FixResiduals`: that the rows are the derivatives of what is measured, that a correction takes the
  state towards the measurement on the axis it was taken on, and what the gates, noises, resets and initial variances mean.
- `FusionLimits`, `MeasurementRuns`, `FusionPremises`: what the limits do to a covariance, and why in a run that
  takes no variance past its upper limit no guard ever rejects and nothing is reinitialised.
- `EkfInvariant`, `EkfOperations`, `EkfRuns`, `CovarianceArray`, `EkfEngine`: what every call and every run keeps.

A covariance is *legal* when it is symmetric and positive semidefinite and the rows of inhibited states are zero. It
is one *the fusions can go on from* (`FusionLimits.Fusable`) when in addition no variance is above its upper limit;
an inhibited accel bias may then keep the variances the limits restart it with.
Arithmetic is over the reals. The square root is a function supplied with its defining law, and so are the sine,
cosine, arc functions and angle wrap where they occur.

**Attitude.** `QuaternionAlgebra` and `AttitudeControl` separate the thrust error from the heading error and show what
yaw limiting preserves, and `AttitudeErrors` that turning by the errors reaches the target; `SquareRootController` is
the controller the yaw limit is taken from, with its inverse; `RotationTables` shows that the vector table and the
quaternion table are the same rotations; `DcmEstimator` and `DcmOrientation` treat the renormalisation and the
rebuilding of the rotation matrix, its handedness and its angles, and the gyro bias integrator; `MatrixInverse` the
closed-form inverses.

**Codes and protocols.** `Float16` is the binary16 codec bit for bit; `Bitmasks` a word array that stands for a set;
`MavlinkItem`, `MissionLoad`, `MissionLink` and `MissionRuns` the mission upload and download session, with the
distances of `Geodesy`; `VtolLift` the lift law with its anti-windup and its transition latch.

## Where the code does not do what is expected of it

Each is a lemma, with the exact condition under which the expectation holds where there is one.

- The accel bias limits are not gated by the inhibit flag. An inhibited bias keeps its value exactly when its
  variances pass the scan or it is zero already (`EkfRuns.InhibitedAccelBias`, `EkfRuns.InhibitedAccelBiasMoves`).
- The zero tests use `FLT_EPSILON`. An invertible matrix with a smaller determinant is refused
  (`MatrixInverse.MatInverse`, `MatrixInverse.SmallMatrixRefused`). Thrust vectors closer than that, but not
  equal, take the fallback axis, so the heading remainder is not a pure z rotation
  (`AttitudeControl.HeadingIsPureZ`, `AttitudeControl.HairTiltMisses`). So do exactly opposite ones: the fallback
  turn about the thrust direction works exactly for level vectors turned clockwise
  (`AttitudeControl.FallbackReaches`, `AttitudeControl.OppositeReaches`).
- A quaternion whose vector part is shorter than `FLT_EPSILON` has no rotation vector that leads back to it: the identity
  does. So the attitude errors reach the target exactly when the half angles they stand for are not taken for zero
  (`AttitudeErrors.RotationVectorReturns`, `AttitudeErrors.TiltErrorsReach`, `AttitudeErrors.ErrorsReach`).
- The inverse of the square-root controller tests its output for being positive by the same threshold: a positive rate
  below it, past the linear region, comes back with the wrong sign (`SquareRootController.InverseThenControl`).
- The limits can make a covariance indefinite: they cut a variance above its upper limit down and leave its
  correlations (`FusionPremises.CuttingBreaks`). Below the upper limits they cannot (`FusionLimits.LimitsFit`).
- `normalize` rebuilds the matrix from angles, instead of renormalising it, for unit rows whose cross product is
  no longer than a millionth (`DcmEstimator.NormaliseRestores`, `DcmEstimator.AlmostParallelRebuilds`).
- The transition latch is cleared by a vertical tick, not by the mode command
  (`VtolLift.LatchHistory`, `VtolLift.LatchSurvivesHoverCommand`). A failed mode command changes something exactly
  when it is a fixed-wing mode the vehicle refused outside manual: that has ended the vertical law all the same
  (`VtolLift.RefusalLeavesHover`, `VtolLift.LawStaysOff`).
- An item message is taken whatever system it is addressed to, while a count is not
  (`MissionLink.OnlyKeptBytesCount`).

## Model

| member | source | states |
|---|---|---|
| `CovariancePropagation.RowIsProduct` | modules/ap-ekf/src/ekf_core.cpp:784-976 | each row formula of the column loops is linear: it is the inner product with a row of the Jacobian F |
| `CovariancePropagation.PropagatedIsCongruence` | modules/ap-ekf/src/ekf_core.cpp:784-976 | applying the row formulas on both sides of P is F·P·Fᵀ |
| `CovariancePropagation.BlockIsCongruence` | modules/ap-ekf/src/ekf_core.cpp:443-783 | for every state, sample and symmetric P, each of the 55 generated entries over PS0..PS222 is the entry of F·P·Fᵀ + G·Q·Gᵀ |
| `CovariancePropagation.PredictedPsd` | modules/ap-ekf/src/ekf_core.cpp:425-433 | F·P·Fᵀ + G·Q·Gᵀ + D is symmetric positive semidefinite whenever P is |
| `EkfPrediction.IdleStateStays` | modules/ap-ekf/src/ekf_core.cpp:784-976 | a state past the position whose row is zero and which is not disturbed keeps a zero row |
| `EkfPrediction.PredictedAboveLimit` | modules/ap-ekf/src/ekf_core.cpp:1003-1031 | past the index limit a zero row stays zero, so stopping the copy there loses nothing |
| `EkfPrediction.PropagateIsPredicted` | modules/ap-ekf/src/ekf_core.cpp:982-1031 | with the rows above the limit zero and no collapsed position variance, the copied-back covariance is the whole of F·P·Fᵀ + G·Q·Gᵀ + D |
| `EkfPrediction.PredictionKeepsPsd` | modules/ap-ekf/src/ekf_core.cpp:308-1031 | a prediction takes a legal covariance to a symmetric positive semidefinite one, up to the collapse guard and the limits |
| `StrapdownJacobian.TransitionIsDerivative` | modules/ap-ekf/src/ekf_core.cpp:161-221 | F, at the attitude, samples and biases it is given, is the derivative of the strapdown step along every displacement of the state: attitude turned by the corrected delta angle, velocity gained from the corrected delta velocity in the earth frame, position advanced by the velocity |
| `StrapdownJacobian.DisplacedSlots` | modules/ap-ekf/src/ekf_core.cpp:396-412 | a displacement of the state moves each of the 24 slots by its own entry |
| `PredictionNoiseBlocks.PredictionFromNothing` | modules/ap-ekf/src/ekf_core.cpp:415-433 | what a prediction adds to a zero covariance: the accelerometer variance on each velocity, a quarter of the gyro variance across the attitude, the own noise of each further state, and nothing anywhere else |
| `PredictionNoiseBlocks.ProcessNoiseOwn` | modules/ap-ekf/src/ekf_core.cpp:339-394 | each bias, field and wind state is disturbed by its own setting, clamped to one, and by nothing when inhibited |
| `PredictionNoiseBlocks.ResetFromNothing` | modules/ap-ekf/src/ekf_core.cpp:415-424 | an attitude reset turns angle variances about the earth axes into body axes and spreads them over the attitude |
| `PredictionNoiseBlocks.InitialAttitude` | modules/ap-ekf/src/ekf_core.cpp:261-301 | initialisation gives an angle variance of 0.01 about every axis, whichever way the attitude points |
| `PredictionNoiseBlocks.StepDuration` | modules/ap-ekf/src/ekf_core.cpp:310-311 | the step is the mean of the two sample times when that is within half and twice the average |
| `PredictionNoiseBlocks.HeightRateFollows` | modules/ap-ekf/src/ekf_core.cpp:325-328 | the filtered height rate closes a share of its distance to the climb rate, which is minus the down velocity |
| `PredictionColumns.FormNext` | modules/ap-ekf/src/ekf_core.cpp:670-986 | the column-by-column program, over the array, leaves F·P·Fᵀ + G·Q·Gᵀ + D in the upper triangle up to the limit |
| `PredictionColumns.ProcessNoiseArray` | modules/ap-ekf/src/ekf_core.cpp:339-394 | the noise loops fill exactly the variances of the active states |
| `PredictionColumns.HoldPosition` | modules/ap-ekf/src/ekf_core.cpp:992-1001 | a collapsed position variance keeps both its rows and both its columns |
| `PredictionColumns.CopyBack` | modules/ap-ekf/src/ekf_core.cpp:1024-1031 | every entry up to the limit is the upper-triangle entry of the scratch matrix, mirrored; the rest is untouched |
| `PredictionColumns.CopyAttitude` | modules/ap-ekf/src/ekf_core.cpp:681-690 | the reset branch stores the attitude block mirrored, its variances limited, and nothing else |
| `EkfEngine.EkfCore.CovariancePrediction` | modules/ap-ekf/src/ekf_core.cpp:308-1036 | both branches, over the arrays and fields, are the specified prediction, whose inputs `StrapdownJacobian.TransitionIsDerivative` and `PredictionNoiseBlocks.PredictionFromNothing` pin |
| `EkfEngine.EkfCore.Propagation` | modules/ap-ekf/src/ekf_core.cpp:439-1031 | the normal branch replaces P by the propagated covariance |
| `EkfEngine.EkfCore.ResetAttitudeRows` | modules/ap-ekf/src/ekf_core.cpp:415-424 | the attitude reset clears four rows and columns and restarts their block |
| `EkfEngine.EkfCore.CovarianceInit` | modules/ap-ekf/src/ekf_core.cpp:261-301 | initialisation yields the specified diagonal with the rotated attitude block |
| `ScalarFusion.GainAboveLimit` | modules/ap-ekf/src/ekf_core.cpp:1336-1385 | for every combination of inhibit flags the gain is zero on inhibited states and above the index limit |
| `ScalarFusion.UpdateIsDowndate` | modules/ap-ekf/src/ekf_core.cpp:1392-1419 | with zero inhibited rows the masked, bounded update is P − P·Hᵀ·H·P / S on all 24 states |
| `ScalarFusion.UpdateKeepsPsd` | modules/ap-ekf/src/ekf_core.cpp:1392-1420 | P − K·H·P is symmetric positive semidefinite whenever S is at least H·P·Hᵀ |
| `ScalarFusion.GuardNeverRejects` | modules/ap-ekf/src/ekf_core.cpp:1400-1409 | on a legal covariance the negative-variance guard never rejects and no variance grows |
| `ScalarFusion.DirectObservation` | modules/ap-ekf/src/ekf_core.cpp:1330-1419 | an observed state always passes the guard and its variance becomes P·R/(P+R) |
| `ScalarFusion.DirectResidual` | modules/ap-ekf/src/ekf_core.cpp:1413-1428 | the residual of the observed state shrinks by exactly R/(P+R) |
| `ScalarFusion.IdleFused` | modules/ap-ekf/src/ekf_core.cpp:1413-1428 | when the limits are idle a guarded fusion is the bare update and correction |
| `MeasurementModels.CorrectionMoves` | modules/ap-ekf/src/ekf_core.cpp:1282-1314 | every state slot moves by minus its correction, the attitude up to the one positive factor that makes it a unit quaternion again |
| `MeasurementModels.InnovationShrinks` | modules/ap-ekf/src/ekf_core.cpp:1282-1314 | for any measurement row, moving the state by the gain takes the innovation, to first order, down to the share R/(H·P·Hᵀ + R) of it |
| `EkfEngine.EkfCore.FuseDirectStateObservation` | modules/ap-ekf/src/ekf_core.cpp:1323-1430 | the gain stretches, the product loops, the guard and the update over arrays are the specified fusion, and the flag says whether it was applied |
| `EkfEngine.EkfCore.GuardedUpdate` | modules/ap-ekf/src/ekf_core.cpp:1392-1429 | nothing changes when a variance would become negative; otherwise update, symmetrise, limit and correct |
| `EkfEngine.EkfCore.ApplyStateCorrection` | modules/ap-ekf/src/ekf_core.cpp:1282-1314 | all 24 slots move by gain times innovation and the quaternion is renormalised, which `MeasurementModels.CorrectionMoves` turns into slots |
| `EkfEngine.EkfCore.ConstrainVariances` | modules/ap-ekf/src/ekf_core.cpp:1145-1239 | the limits in place are the specified ones, clip counter and accel bias restart included |
| `EkfEngine.EkfCore.GuardVerticalVelocity` | modules/ap-ekf/src/ekf_core.cpp:1153-1161 | the vertical velocity clip counter and its covariance restart |
| `EkfEngine.EkfCore.LimitAccelBias` | modules/ap-ekf/src/ekf_core.cpp:1171-1194 | the accel bias scan, clamp and restart |
| `CovarianceArray.ForceSymmetry` | modules/ap-ekf/src/ekf_core.cpp:1266-1276 | each pair of entries within the limit becomes its mean, the rest is untouched |
| `CovarianceArray.ClearRowsCols` | modules/ap-ekf/src/ekf_core.cpp:142-153 | exactly the given rows and columns become zero |
| `CovarianceArray.NoneNegative` | modules/ap-ekf/src/ekf_core.cpp:1400-1409 | the guard passes exactly when no product on the diagonal exceeds its variance |
| `CovarianceArray.Subtract` | modules/ap-ekf/src/ekf_core.cpp:1413-1419 | the products are subtracted within the limit and nowhere else |
| `KalmanGain.DirectGainArray` | modules/ap-ekf/src/ekf_core.cpp:1336-1385 | the five stretches fill the masked gain |
| `KalmanGain.DirectProducts` | modules/ap-ekf/src/ekf_core.cpp:1392-1399 | the product matrix holds K·H·P within the limit |
| `KalmanGain.MagProducts` | modules/ap-ekf/src/ekf_core.cpp:2050-2068 | eight terms per entry are K·H·P for a magnetometer row |
| `KalmanGain.TasProducts` | modules/ap-ekf/src/ekf_core.cpp:2407-2420 | five terms per entry are K·H·P for the airspeed row |
| `FusionOrder.UpdatesCommute` | modules/ap-ekf/src/ekf_core.cpp:1392-1419 | the covariance updates of any two scalar measurements commute |
| `FusionOrder.OrderIndependent` | modules/ap-ekf/src/ekf_core.cpp:1323-1430 | fusing two observed states in either order, innovations recomputed between, gives the same covariance and the same state past the quaternion, when no limit acts |
| `FusionOrder.DirectApplies` | modules/ap-ekf/src/ekf_core.cpp:1400-1409 | both fusions of the pair pass their guard on a legal covariance |
| `FusionOrder.PositionAxesCommute` | modules/ap-ekf/src/ekf_core.cpp:1641-1649 | the two horizontal position axes of a GPS fix may be fused in either order |
| `VarianceLimits.IdleExactly` | modules/ap-ekf/src/ekf_core.cpp:1145-1239 | the limits leave an estimator alone if and only if every variance is within its interval, inhibited field and wind rows are zero and the accel bias scan is satisfied |
| `VarianceLimits.OrderPremisesHold` | modules/ap-ekf/src/ekf_core.cpp:1145-1239 | an uncorrelated covariance meets every premise of order independence, for any two axes and measurements |
| `MagFusion.VarianceIsFormX` | modules/ap-ekf/src/ekf_core.cpp:1854-1854 | the x variance expression is H·P·Hᵀ + R |
| `MagFusion.VarianceIsFormY` | modules/ap-ekf/src/ekf_core.cpp:1863-1863 | the y variance expression is H·P·Hᵀ + R |
| `MagFusion.VarianceIsFormZ` | modules/ap-ekf/src/ekf_core.cpp:1869-1869 | the z variance expression is H·P·Hᵀ + R |
| `MagFusion.RowXIsDerivative` | modules/ap-ekf/src/ekf_core.cpp:1813-1821 | the x row of H is the exact derivative of the predicted field: moving the state by t·d moves it by t·H·d up to second order in t |
| `MagFusion.RowYIsDerivative` | modules/ap-ekf/src/ekf_core.cpp:1813-1821 | the y row of H is the exact derivative of the predicted field |
| `MagFusion.RowZIsDerivative` | modules/ap-ekf/src/ekf_core.cpp:1813-1821 | the z row of H is the exact derivative of the predicted field |
| `MeasurementModels.MagRowIsDerivative` | modules/ap-ekf/src/ekf_core.cpp:1813-1824 | the row of each axis is the derivative of that axis of the innovation along every displacement of the state |
| `MeasurementModels.MagInnovationIs` | modules/ap-ekf/src/ekf_core.cpp:1813-1824 | the innovation is the earth field turned to body axes plus the body field, less the measurement |
| `MeasurementModels.MagInnovationShrinks` | modules/ap-ekf/src/ekf_core.cpp:1897-2116 | with the variance the source computes, each axis is left with the share of its noise of its innovation, to first order |
| `MeasurementModels.AirspeedRowIsDerivative` | modules/ap-ekf/src/ekf_core.cpp:2280-2312 | the airspeed row is the derivative of the predicted airspeed along every displacement of the state |
| `MeasurementModels.AirspeedRow` | modules/ap-ekf/src/ekf_core.cpp:2298-2312 | the row times the airspeed is the air-relative velocity, with the wind taken off |
| `AirspeedFusion.VarianceIsFormTas` | modules/ap-ekf/src/ekf_core.cpp:2328-2339 | the airspeed denominator is H·P·Hᵀ + R |
| `AirspeedFusion.HpTas` | modules/ap-ekf/src/ekf_core.cpp:2383-2384 | the airspeed bracket is an entry of P·Hᵀ |
| `MagSequence.MagVariances` | modules/ap-ekf/src/ekf_core.cpp:1854-1873 | each magnetometer variance is H·P·Hᵀ + R, hence at least R on a positive semidefinite covariance |
| `MagSequence.TasVariances` | modules/ap-ekf/src/ekf_core.cpp:2328-2350 | the airspeed variance is at least its noise on a positive semidefinite covariance |
| `MagSequence.MagGain` | modules/ap-ekf/src/ekf_core.cpp:1903-2043 | each magnetometer gain is P·Hᵀ/S on the active states and zero elsewhere |
| `MagSequence.TasGain` | modules/ap-ekf/src/ekf_core.cpp:2359-2385 | the airspeed gain is P·Hᵀ/S on the active states and zero elsewhere |
| `MagSequence.FormShrinks` | modules/ap-ekf/src/ekf_core.cpp:2092-2098 | no update increases the variance H·P·Hᵀ of any measurement |
| `MagSequence.StaleVariancesSuffice` | modules/ap-ekf/src/ekf_core.cpp:1897-2098 | variances computed at entry stay large enough for every later axis: each guard passes and each covariance stays positive semidefinite |
| `MagSequence.AxesNeverAbort` | modules/ap-ekf/src/ekf_core.cpp:1897-2116 | from a legal covariance, no limit acting in between, all three axes are fused and the covariance is legal after each |
| `MagSequence.MagEntryNeverAborts` | modules/ap-ekf/src/ekf_core.cpp:1854-1893 | the badly-conditioned reinitialisations at entry are unreachable on a legal covariance |
| `MagSequence.MagnetometerNeverAborts` | modules/ap-ekf/src/ekf_core.cpp:1791-2119 | a magnetometer call on a legal covariance stores its innovations when its gate fails, and when the gate passes and no limit acts between the axes it fuses all three |
| `MagSequence.AirspeedNeverAborts` | modules/ap-ekf/src/ekf_core.cpp:2280-2350 | an airspeed call on a legal covariance never reinitialises it |
| `FusionLimits.LimitsFit` | modules/ap-ekf/src/ekf_core.cpp:1145-1239 | on a positive semidefinite covariance below its upper limits the limits only raise variances or restart rows: it stays positive semidefinite, below them, and as it was between attitude and field states |
| `FusionLimits.FusedFusable` | modules/ap-ekf/src/ekf_core.cpp:1392-1429 | a fusion, limits acting, passes its guard, leaves a covariance to go on from even with the accel bias inhibited, and changes the attitude and field block by the update alone |
| `MeasurementRuns.NotStaleAfter` | modules/ap-ekf/src/ekf_core.cpp:1897-2098 | a magnetometer variance computed at entry is still large enough after an axis whose limits acted |
| `MeasurementRuns.MagnetometerFuses` | modules/ap-ekf/src/ekf_core.cpp:1791-2119 | a magnetometer call fuses all three axes if and only if its gate passes, limits acting or not, and never reinitialises |
| `MeasurementRuns.DirectFuses` | modules/ap-ekf/src/ekf_core.cpp:1323-1430 | an observation of a velocity or position state is always fused |
| `MeasurementRuns.VelocityFuses` | modules/ap-ekf/src/ekf_core.cpp:1587-1612 | a GPS velocity within its gate is fused on all three axes |
| `MeasurementRuns.AirspeedFuses` | modules/ap-ekf/src/ekf_core.cpp:2280-2446 | an airspeed is fused if and only if it is fast enough and within its gate, and never reinitialises |
| `MeasurementRuns.PredictionFusable` | modules/ap-ekf/src/ekf_core.cpp:308-1036 | a prediction with both biases in use and no collapsed position variance that takes no variance past its upper limit leaves a covariance the fusions can go on from |
| `MeasurementRuns.RunFuses` | modules/ap-ekf/src/ekf_core.cpp:308-2446 | over every run of predictions with both biases in use, fusions and resets that collapses no position variance and takes no variance past its upper limit, the covariance stays positive semidefinite and each measurement is fused on all its axes exactly when it passes its gate: no guard rejects, nothing is reinitialised |
| `FusionPremises.AxesIdleApart` | modules/ap-ekf/src/ekf_core.cpp:1145-1239 | with every variance within its limits and the attitude and field states uncorrelated with the rest, no limit acts between the three axes |
| `FusionPremises.ModeratePremises` | modules/ap-ekf/src/ekf_core.cpp:1145-1239 | an uncorrelated covariance of moderate variances meets the premises of the sequence and run theorems |
| `FusionPremises.CuttingBreaks` | modules/ap-ekf/src/ekf_core.cpp:1150-1152 | the upper limits are needed in those premises: cutting one horizontal velocity variance down to its limit costs a legal covariance its positive semidefiniteness |
| `VarianceLimits.VerticalActs` | modules/ap-ekf/src/ekf_core.cpp:1153-1161 | a vertical velocity variance below its limit is raised and counted, and after five seconds of it its row restarts |
| `EkfEngine.EkfCore.FuseMagnetometer` | modules/ap-ekf/src/ekf_core.cpp:1791-2119 | the in-place call, with its early returns, is the specified one |
| `EkfEngine.EkfCore.FuseMagAxis` | modules/ap-ekf/src/ekf_core.cpp:1897-2116 | one axis, from the values captured at entry, in place |
| `EkfEngine.EkfCore.FuseAirspeed` | modules/ap-ekf/src/ekf_core.cpp:2280-2446 | the in-place call is the specified one, on the row of `MeasurementModels.AirspeedRowIsDerivative`: the limits run whether or not the update does |
| `EkfEngine.EkfCore.FuseGpsVelocity` | modules/ap-ekf/src/ekf_core.cpp:1587-1612 | gate, timeout reset, three fusions, pass time and count |
| `EkfEngine.EkfCore.FuseGpsPosition` | modules/ap-ekf/src/ekf_core.cpp:1633-1654 | gate, timeout reset, two fusions, pass time and count |
| `EkfEngine.EkfCore.FuseBaroHeight` | modules/ap-ekf/src/ekf_core.cpp:2215-2230 | gate, timeout reset, one fusion and pass time |
| `EkfEngine.EkfCore.ResetVelocity` | modules/ap-ekf/src/ekf_core.cpp:1519-1525 | rows, columns and state of the horizontal velocity restart, the rest stays |
| `EkfEngine.EkfCore.ResetPosition` | modules/ap-ekf/src/ekf_core.cpp:1551-1557 | rows, columns and state of the horizontal position restart, the rest stays |
| `EkfEngine.EkfCore.ResetHeight` | modules/ap-ekf/src/ekf_core.cpp:2188-2193 | row, column and state of the height restart, the rest stays |
| `FixResiduals.FusedTowards` | modules/ap-ekf/src/ekf_core.cpp:1323-1430 | a fused observation, limits acting, leaves the share R/(P+R) of the distance to the measurement and does not move a velocity or position it is uncorrelated with |
| `FixResiduals.VelocityTowardsFix` | modules/ap-ekf/src/ekf_core.cpp:1587-1612 | a GPS velocity within its gate pulls each axis towards its own fix by the share of its own noise |
| `FixResiduals.PositionTowardsFix` | modules/ap-ekf/src/ekf_core.cpp:1633-1654 | a GPS position within its gate does so for north and east |
| `FixResiduals.HeightTowardsBaro` | modules/ap-ekf/src/ekf_core.cpp:2215-2230 | a barometer altitude within its gate pulls the height, which is minus the down position, towards itself |
| `FixResiduals.ResetsAgree` | modules/ap-ekf/src/ekf_core.cpp:1519-1557 | after a reset the fix it came from has no innovation |
| `FixResiduals.NoFixStarves` | modules/ap-ekf/src/ekf_core.cpp:1587-2230 | after any velocity, position or height call less than ten seconds have passed without that measurement being taken |
| `FixResiduals.FixGates` | modules/ap-ekf/src/ekf_core.cpp:1468-1500 | a fix passes its gate exactly when its squared distance is below the summed variances times the square of its own gate |
| `FixResiduals.GateIsDeviations` | modules/ap-ekf/src/ekf_core.cpp:1477-1480 | a test ratio below one is an innovation within that many standard deviations, at least one: a gate in hundredths |
| `FixResiduals.MagGate` | modules/ap-ekf/src/ekf_core.cpp:1884-1893 | a magnetometer passes exactly when each axis is within its gate |
| `FixResiduals.NoiseGrows` | modules/ap-ekf/src/ekf_core.cpp:1436-1457 | observation noise is the clamped setting grown with the square of the acceleration or of the turn rate |
| `FixResiduals.NoiseInRange` | modules/ap-ekf/src/ekf_core.cpp:2156-2156 | settings within their range are used as they are |
| `FixResiduals.InitialIsRestart` | modules/ap-ekf/src/ekf_core.cpp:261-301 | every variance the filter starts from is the one a reset or a limit restarts that state with, or that of a measurement at rest, and nothing is correlated |
| `EkfInvariant.ConstrainedKeeps` | modules/ap-ekf/src/ekf_core.cpp:1145-1239 | the limits establish symmetry and nonnegative variances from any symmetric matrix |
| `EkfInvariant.FusedKeeps` | modules/ap-ekf/src/ekf_core.cpp:1413-1428 | no gain, however bad, makes a fusion break symmetry or leave a negative variance |
| `EkfInvariant.PropagateKeeps` | modules/ap-ekf/src/ekf_core.cpp:1024-1031 | the propagated covariance is symmetric |
| `EkfInvariant.PredictionKeeps` | modules/ap-ekf/src/ekf_core.cpp:308-1036 | a prediction keeps the covariance symmetric with nonnegative variances |
| `EkfInvariant.InitialisedKeeps` | modules/ap-ekf/src/ekf_core.cpp:261-301 | so does initialisation |
| `EkfRuns.RunKeepsInvariant` | modules/ap-ekf/src/ekf_core.cpp:261-2446 | in every state of every run of init, predict, fuse and reset calls P is symmetric with a nonnegative diagonal |
| `EkfRuns.CorrectionBounded` | modules/ap-ekf/src/ekf_core.cpp:1278-1314 | correcting all 24 slots is correcting those up to the index limit |
| `EkfRuns.LimitsAndState` | modules/ap-ekf/src/ekf_core.cpp:1171-1194 | the limits change the state exactly when the accel bias scan asks for a restart, and then only by zeroing it |
| `EkfRuns.InhibitedAccelBias` | modules/ap-ekf/src/ekf_core.cpp:1170-1194 | a fusion leaves an inhibited accel bias alone if and only if its variances pass the scan or the bias is already zero |
| `EkfRuns.InhibitedAccelBiasMoves` | modules/ap-ekf/src/ekf_core.cpp:1170-1194 | the scan is not gated by the inhibit flag: an inhibited nonzero accel bias with zero variances is lost |
| `EkfRuns.StepHolds` | modules/ap-ekf/src/ekf_core.cpp:261-2446 | no call moves an inhibited state except to restart an accel bias slot at zero |
| `EkfRuns.RunHolds` | modules/ap-ekf/src/ekf_core.cpp:261-2446 | over a whole run an inhibited state keeps its value, or is an accel bias slot restarted at zero |
| `QuaternionAlgebra.MulAssociative` | modules/ap-math/include/fwcpp/math/quaternion.hpp:144-152 | composition is associative |
| `QuaternionAlgebra.RotateConjugates` | modules/ap-math/include/fwcpp/math/quaternion.hpp:162-172 | the doubled cross product form of the rotation is q·v·q⁻¹ for a unit quaternion |
| `QuaternionAlgebra.RotateMul` | modules/ap-math/include/fwcpp/math/quaternion.hpp:144-172 | rotating by a product is rotating by its factors, the right one first |
| `QuaternionAlgebra.RotateInverse` | modules/ap-math/include/fwcpp/math/quaternion.hpp:140-172 | the inverse undoes the rotation |
| `QuaternionAlgebra.RotateKeepsLength` | modules/ap-math/include/fwcpp/math/quaternion.hpp:162-172 | rotation keeps lengths |
| `AttitudeControl.TurnReaches` | modules/ap-control/include/fwcpp/control/attitude_kinematics.hpp:1170-1186 | for thrust vectors with a usable axis, the correction turns the body thrust vector exactly onto the target one |
| `AttitudeControl.FallbackReaches` | modules/ap-control/include/fwcpp/control/attitude_kinematics.hpp:1181-1184 | turning about the thrust direction by the angle between two different unit vectors takes one onto the other if and only if both are level and the turn is clockwise |
| `AttitudeControl.ReachesExactly` | modules/ap-control/include/fwcpp/control/attitude_kinematics.hpp:1181-1195 | the correction reaches the target thrust vector if and only if the two agree, or the axis is usable, or the angle is not taken for zero and both vectors are level with a clockwise turn between them |
| `AttitudeControl.OppositeReaches` | modules/ap-control/include/fwcpp/control/attitude_kinematics.hpp:1176-1184 | exactly opposite thrust vectors take the fallback axis, and when the angle between them is not taken for zero it turns one onto the other if and only if they are level |
| `AttitudeControl.Rebuilds` | modules/ap-control/include/fwcpp/control/attitude_kinematics.hpp:1211-1212 | body · correction · heading is the target, always |
| `AttitudeControl.HeadingIsPureZ` | modules/ap-control/include/fwcpp/control/attitude_kinematics.hpp:1205-1218 | the heading remainder is a pure z rotation if and only if the thrust vectors agree, the axis is usable, or the fallback turn is level and clockwise |
| `AttitudeControl.LimitingKeepsThrust` | modules/ap-control/include/fwcpp/control/attitude_kinematics.hpp:1263-1275 | the rebuilt target keeps the thrust direction, whatever the yaw cap, under exactly that condition on the two thrust vectors |
| `AttitudeControl.LimitedAgain` | modules/ap-control/include/fwcpp/control/attitude_kinematics.hpp:1269-1274 | decomposing the limited target finds the same correction and exactly the capped heading |
| `AttitudeControl.HeadingErrorCapped` | modules/ap-control/include/fwcpp/control/attitude_kinematics.hpp:1267-1273 | after limiting the heading error is within the limit and the thrust errors are unchanged |
| `AttitudeControl.YawLimitingKeepsThrust` | modules/ap-control/include/fwcpp/control/attitude_kinematics.hpp:1248-1276 | for unit attitudes with a usable correction, or agreeing thrust vectors, the new target has the same image of (0,0,-1) |
| `AttitudeControl.HairTiltMisses` | modules/ap-control/include/fwcpp/control/attitude_kinematics.hpp:1182-1184 | a tilt under the zero threshold takes the fallback axis: the correction misses and the heading remainder is no pure z rotation |
| `AttitudeErrors.RotationVectorReturns` | modules/ap-math/include/fwcpp/math/quaternion.hpp:221-285 | a unit quaternion turned into a rotation vector and back is itself up to sign, unless its half angle has a sine taken for zero: then it becomes the identity |
| `AttitudeErrors.TiltErrorsReach` | modules/ap-control/include/fwcpp/control/attitude_kinematics.hpp:1188-1203 | with a usable axis, turning the body about x and y by the first two errors brings its thrust onto that of the target if and only if the sine of half the angle is not taken for zero |
| `AttitudeErrors.ErrorsReach` | modules/ap-control/include/fwcpp/control/attitude_kinematics.hpp:1188-1218 | turning it on about z by the third error reaches the target attitude if and only if the heading has no sine or one that is not taken for zero |
| `AttitudeErrors.ReportedAngles` | modules/ap-control/include/fwcpp/control/attitude_kinematics.hpp:1160-1173 | the two reported angles are the lean of the body and the angle between the thrust vectors |
| `AttitudeControl.LimitSaturates` | modules/ap-control/include/fwcpp/control/attitude_kinematics.hpp:1261-1274 | the heading limit is the error at which the square-root controller asks for a rate that saturates the output, or 45 degrees when that is less; below it no error saturates |
| `AttitudeErrors.CapKeepsSide` | modules/ap-control/include/fwcpp/control/attitude_kinematics.hpp:1261-1274 | the cap keeps the side of the heading error and all of it up to the limit; only an error of exactly minus half a turn is taken the other way |
| `SquareRootController.InverseThenControl` | modules/ap-math/include/fwcpp/math/control.hpp:249-278 | the controller asks for a rate at the error its inverse gives for it if and only if the sign of the rate is not lost |
| `SquareRootController.ControlThenInverse` | modules/ap-math/include/fwcpp/math/control.hpp:196-278 | the inverse finds the error a rate was asked for under the same condition |
| `SquareRootController.Mirrored` | modules/ap-math/include/fwcpp/math/control.hpp:196-278 | controller and inverse are odd |
| `SquareRootController.RateGrows` | modules/ap-math/include/fwcpp/math/control.hpp:196-230 | a larger error never asks for a lower rate |
| `SquareRootController.NoOvershoot` | modules/ap-math/include/fwcpp/math/control.hpp:225-229 | with a time step the rate never takes more than the error |
| `AttitudeControl.ThrustVectorRotationAngles` | modules/ap-control/include/fwcpp/control/attitude_kinematics.hpp:1151-1219 | the step-by-step method computes the specified correction and errors, whose meaning is `AttitudeErrors.ErrorsReach` |
| `AttitudeControl.ThrustHeadingRotationAngles` | modules/ap-control/include/fwcpp/control/attitude_kinematics.hpp:1248-1276 | the limiter, with its nested guards, computes the specified errors and target |
| `RotationTables.TablesAgree` | modules/ap-math/src/quaternion.cpp:26-166 | for every named rotation the vector table is rotation by the unit quaternion of the other table |
| `QuaternionAlgebra.RotateKeepsDot` | modules/ap-math/include/fwcpp/math/quaternion.hpp:162-172 | rotation keeps inner products |
| `RotationTables.RigidAndUndone` | modules/ap-math/src/vector3.cpp:26-266 | the vector table keeps lengths, and rotate_inverse undoes it on either side |
| `RotationTables.RotateImpl` | modules/ap-math/src/vector3.cpp:26-234 | the sequential assignments through tmp compute the table, the two irregular entries and the sentinels included |
| `RotationTables.MutableVector.Rotate` | modules/ap-math/src/vector3.cpp:236-239 | rotation in place |
| `RotationTables.MutableVector.RotateInverse` | modules/ap-math/src/vector3.cpp:249-266 | the inverse built from three rotated axes, in place |
| `DcmEstimator.RenormWorks` | modules/ap-ahrs/include/fwcpp/ahrs/ahrs_dcm.hpp:654-665 | a row can be scaled if and only if its length lies strictly between a millionth and a million, and is then a unit vector |
| `DcmEstimator.NormaliseRestores` | modules/ap-ahrs/include/fwcpp/ahrs/ahrs_dcm.hpp:669-681 | for unit rows the matrix is renormalised, not rebuilt from angles, if and only if the third row is long enough; then all rows are unit and the third is exactly orthogonal to both |
| `DcmOrientation.NormalisedRightHanded` | modules/ap-ahrs/include/fwcpp/ahrs/ahrs_dcm.hpp:669-681 | whatever is renormalised has its third row along the cross product of the first two: a rotation sense is never reversed |
| `DcmOrientation.NormalisedNear` | modules/ap-ahrs/include/fwcpp/ahrs/ahrs_dcm.hpp:669-681 | for unit rows each renormalised row is within the error of the row it replaces, and orthogonal rows stay |
| `DcmEstimator.ErrorCubes` | modules/ap-ahrs/include/fwcpp/ahrs/ahrs_dcm.hpp:669-681 | the remaining error is at most the cube of the old one |
| `DcmEstimator.RepeatedNormalise` | modules/ap-ahrs/include/fwcpp/ahrs/ahrs_dcm.hpp:669-681 | after n steps the error is at most |e|·(e²)ⁿ and every step works |
| `DcmEstimator.ErrorVanishes` | modules/ap-ahrs/include/fwcpp/ahrs/ahrs_dcm.hpp:669-681 | repeated renormalisation drives an error below one under any bound |
| `DcmEstimator.AlmostParallelRebuilds` | modules/ap-ahrs/include/fwcpp/ahrs/ahrs_dcm.hpp:654-681 | unit rows that are almost but not quite parallel make the third row too short: the matrix is rebuilt instead |
| `DcmEstimator.StepBounded` | modules/ap-ahrs/include/fwcpp/ahrs/ahrs_dcm.hpp:958-1203 | each event of the estimator keeps the bias within the drift rate times the time applied |
| `DcmEstimator.BiasWithinDrift` | modules/ap-ahrs/include/fwcpp/ahrs/ahrs_dcm.hpp:1175-1203 | after any run from a fresh estimator the x and y bias are at most max_gyro_drift_rad_s times the time integrated |
| `DcmEstimator.BoundIsSharp` | modules/ap-ahrs/include/fwcpp/ahrs/ahrs_dcm.hpp:1182-1194 | the bound is reached by one batch |
| `DcmEstimator.ErrorIntegrates` | modules/ap-ahrs/include/fwcpp/ahrs/ahrs_dcm.hpp:1175-1203 | an error below the spin limit moves the bias its own way by gain times time, z at once and x and y when their batch of five seconds is full |
| `DcmEstimator.SteadyAcceleration` | modules/ap-ahrs/include/fwcpp/ahrs/ahrs_dcm.hpp:958-978 | a steady acceleration adds its earth-frame value times the time |
| `DcmEstimator.EulerOrthonormal` | modules/ap-math/include/fwcpp/math/matrix3.hpp:150-167 | a matrix rebuilt from angles is a rotation, whatever the angles |
| `DcmOrientation.EulerRightHanded` | modules/ap-math/include/fwcpp/math/matrix3.hpp:152-169 | a matrix rebuilt from angles is right-handed |
| `DcmOrientation.EulerReadsBack` | modules/ap-math/include/fwcpp/math/matrix3.hpp:152-183 | short of a vertical nose the angles a matrix is built from read back off it |
| `DcmOrientation.RecoveryReadsBack` | modules/ap-ahrs/include/fwcpp/ahrs/ahrs_dcm.hpp:605-608 | a recovering reset rebuilds the matrix whose angles are those held |
| `DcmOrientation.LevelAgainstAcceleration` | modules/ap-ahrs/include/fwcpp/ahrs/ahrs_dcm.hpp:610-621 | rebuilt from an acceleration worth trusting, the matrix has its vertical exactly against it |
| `DcmOrientation.LevelWithoutAcceleration` | modules/ap-ahrs/include/fwcpp/ahrs/ahrs_dcm.hpp:615-621 | with too little acceleration the matrix is the identity |
| `DcmEstimator.NormalizeLeavesUnitRows` | modules/ap-ahrs/include/fwcpp/ahrs/ahrs_dcm.hpp:669-681 | whatever the matrix was, the renormalisation ends with unit rows, and a rebuilt matrix is a rotation |
| `DcmEstimator.AhrsDcm.Normalize` | modules/ap-ahrs/include/fwcpp/ahrs/ahrs_dcm.hpp:669-681 | in place, with the sense of `DcmOrientation.NormalisedRightHanded`: new rows, or a reset from the last initial acceleration when any cannot be scaled |
| `DcmEstimator.AhrsDcm.RenormRow` | modules/ap-ahrs/include/fwcpp/ahrs/ahrs_dcm.hpp:654-665 | the two-stage length test |
| `DcmEstimator.AhrsDcm.AccumulateAccel` | modules/ap-ahrs/include/fwcpp/ahrs/ahrs_dcm.hpp:958-978 | the earth-frame sum gains the rotated mean acceleration over the sample, the reading is kept in the earth frame, and for the bias only the integrated time counts |
| `DcmEstimator.AhrsDcm.IntegrateError` | modules/ap-ahrs/include/fwcpp/ahrs/ahrs_dcm.hpp:1175-1198 | batch, clamp and apply |
| `DcmEstimator.AhrsDcm.Reset` | modules/ap-ahrs/include/fwcpp/ahrs/ahrs_dcm.hpp:597-622 | a reset clears the bias and the proportional terms but not the pending batch, and rebuilds the matrix from the held angles or from the acceleration |
| `DcmEstimator.AhrsDcm.ResetGyroDrift` | modules/ap-ahrs/include/fwcpp/ahrs/ahrs_dcm.hpp:584-588 | a drift reset clears bias and batch |
| `MatrixInverse.Laplace` | modules/ap-math/src/matrix_alg.cpp:47-83 | expanding a 4x4 determinant along a row that is repeated gives zero, and along any of its rows the same value up to the sign of the place |
| `MatrixInverse.AdjugateProducts3` | modules/ap-math/src/matrix_alg.cpp:23-39 | the nine cofactors times the matrix, on either side, are the determinant on the diagonal and zero off it |
| `MatrixInverse.AdjugateProducts4` | modules/ap-math/src/matrix_alg.cpp:47-83 | the sixteen cofactors times the matrix, on either side, are the determinant on the diagonal and zero off it |
| `MatrixInverse.InverseCorrect3` | modules/ap-math/src/matrix_alg.cpp:22-41 | with a nonzero determinant the 3x3 closed form is the inverse on both sides |
| `MatrixInverse.InverseCorrect4` | modules/ap-math/src/matrix_alg.cpp:44-92 | with a nonzero determinant the 4x4 closed form is the inverse on both sides |
| `MatrixInverse.MatInverse` | modules/ap-math/src/matrix_alg.cpp:95-131 | true if and only if the dimension is 3 or 4 and the determinant is at least FLT_EPSILON in size; then y is the two-sided inverse, x may be y, and a refusal leaves y alone |
| `MatrixInverse.SmallMatrixRefused` | modules/ap-math/src/matrix_alg.cpp:26-28 | a thousandth of the identity is invertible and refused |
| `Float16.SetIsNearest` | modules/ap-common/include/fwcpp/float16.hpp:48-74 | every finite magnitude gets the nearest half, ties away from zero, subnormals and overflow included |
| `Float16.NearestIsRounding` | modules/ap-common/include/fwcpp/float16.hpp:48-74 | the nearest half is at least as close as any other finite half, a tie goes to the larger, and infinity starts exactly at the midpoint above the largest half |
| `Float16.SetIsMonotone` | modules/ap-common/include/fwcpp/float16.hpp:48-74 | encoding keeps order over every pair of inputs that are not NaN |
| `Float16.GetIsExact` | modules/ap-common/include/fwcpp/float16.hpp:32-46 | decoding is exact on every finite half and takes infinity and NaN to themselves |
| `Float16.RoundTrip` | modules/ap-common/include/fwcpp/float16.hpp:32-75 | set(get(h)) = h for every h that is not a NaN |
| `Float16.NearestMonotone` | modules/ap-common/include/fwcpp/float16.hpp:48-74 | rounding to nearest keeps order |
| `Float16.Half.GetFloat` | modules/ap-common/include/fwcpp/float16.hpp:32-46 | the scaling and the two patches compute the decoded pattern |
| `Float16.Half.SetFloat` | modules/ap-common/include/fwcpp/float16.hpp:48-74 | mask, scale, add the rounding bit with wrap-around, limit and shift compute the encoded pattern |
| `Bitmasks.MembersOfSet` | modules/ap-common/include/fwcpp/bitmask.hpp:81-86 | or-ing one bit into its word adds exactly that member |
| `Bitmasks.MembersOfClear` | modules/ap-common/include/fwcpp/bitmask.hpp:98-103 | masking one bit out removes exactly that member |
| `Bitmasks.MembersDecideWords` | modules/ap-common/include/fwcpp/bitmask.hpp:53-55 | word arrays of one size are equal if and only if they stand for the same set |
| `Bitmasks.TotalIsSize` | modules/ap-common/include/fwcpp/bitmask.hpp:131-137 | the word counts add up to the cardinality |
| `Bitmasks.FirstIsLeast` | modules/ap-common/include/fwcpp/bitmask.hpp:140-147 | the first bit of the first nonzero word is the least member |
| `Bitmasks.Bitmask.constructor` | modules/ap-common/include/fwcpp/bitmask.hpp:45-45 | a new mask of any size is empty |
| `Bitmasks.Bitmask.FromList` | modules/ap-common/include/fwcpp/bitmask.hpp:65-72 | the listed bits in range, and no others |
| `Bitmasks.Bitmask.Set` | modules/ap-common/include/fwcpp/bitmask.hpp:81-86 | adds a bit in range; out of range nothing changes |
| `Bitmasks.Bitmask.Clear` | modules/ap-common/include/fwcpp/bitmask.hpp:98-103 | removes a bit; out of range nothing changes |
| `Bitmasks.Bitmask.SetOnOff` | modules/ap-common/include/fwcpp/bitmask.hpp:105-111 | adds or removes |
| `Bitmasks.Bitmask.SetAll` | modules/ap-common/include/fwcpp/bitmask.hpp:88-96 | exactly the bits below NumBits, none beyond |
| `Bitmasks.Bitmask.ClearAll` | modules/ap-common/include/fwcpp/bitmask.hpp:113-113 | the empty set |
| `Bitmasks.Bitmask.Assign` | modules/ap-common/include/fwcpp/bitmask.hpp:48-51 | takes the other set, also from itself |
| `Bitmasks.Bitmask.Equals` | modules/ap-common/include/fwcpp/bitmask.hpp:53-55 | word equality is set equality |
| `Bitmasks.Bitmask.Get` | modules/ap-common/include/fwcpp/bitmask.hpp:115-120 | membership; false out of range |
| `Bitmasks.Bitmask.Empty` | modules/ap-common/include/fwcpp/bitmask.hpp:122-129 | the set is empty |
| `Bitmasks.Bitmask.Count` | modules/ap-common/include/fwcpp/bitmask.hpp:131-137 | cardinality |
| `Bitmasks.Bitmask.FirstSet` | modules/ap-common/include/fwcpp/bitmask.hpp:140-147 | the minimum, or -1 |
| `MavlinkItem.ItemRoundTrip` | sitl/wopr_bridge.cpp:1571-1587 | what is sent for a row reads back as that row |
| `MavlinkItem.BytesSurvive` | sitl/wopr_bridge.cpp:1678-1685 | a stored item sent again carries the bytes it came with, parameters 3 and 4, addressing and flags apart |
| `MavlinkItem.PackingsAgree` | modules/ap-gcs/include/fwcpp/gcs/mission.hpp:97-147 | the bridge and the library agree on the message: what the library packs reads as the row of its fields, and what is sent for a row is what the library packs |
| `MissionLink.BuildItem` | sitl/wopr_bridge.cpp:1571-1587 | the payload written field by field into the buffer |
| `MissionLoad.Bridge.GcsMissionLoad` | sitl/wopr_bridge.cpp:1035-1086 | positive if and only if initialised, every row acceptable and 1 to 32 of them flown; then the mission is the converted rows; otherwise the code of the first fault and the old mission |
| `MissionLoad.RefusedIsNotLoadable` | sitl/wopr_bridge.cpp:1043-1080 | a refusal code is never given for an upload that could be flown |
| `MissionLoad.ConvertMeans` | sitl/wopr_bridge.cpp:1053-1076 | a converted row lies north of home exactly when its latitude is higher and east the short way round, at the altitude it names over its own reference, with its own command and parameter |
| `MissionLoad.FramesAgree` | sitl/wopr_bridge.cpp:1068-1076 | a relative row and an absolute one, higher by the altitude of home, lead to the same place |
| `MissionLoad.FlownInSequence` | sitl/wopr_bridge.cpp:1043-1052 | of rows numbered from zero every one is flown, but for a waypoint at the very first |
| `Geodesy.ShortWayRound` | modules/ap-common/include/fwcpp/location.hpp:316-327 | a difference of longitudes is wrapped to the short way round |
| `Geodesy.CompassPoints` | modules/ap-common/include/fwcpp/location.hpp:391-397 | north is towards higher latitude and east towards higher longitude |
| `Geodesy.ThereAndBack` | modules/ap-common/include/fwcpp/location.hpp:391-397 | the way back is the way there reversed |
| `MissionLoad.Bridge.Load` | modules/ap-vehicle/include/fwcpp/vehicle/plane.hpp:3794-3804 | too many items leave the old mission |
| `MissionLink.ChangesOnlyOnAccept` | sitl/wopr_bridge.cpp:1690-1700 | the cache and the mission change only on the item completing an accepted upload, and then together |
| `MissionLink.RefusalLeavesAll` | sitl/wopr_bridge.cpp:1700-1702 | a refused upload answers its code, ends the session and leaves mission and cache |
| `MissionLink.GcsLink.HandleFrame` | sitl/wopr_bridge.cpp:1651-1717 | the handler is the session state machine, with exactly the specified answers, and keeps every session and cache index in bounds |
| `MissionLink.GcsLink.HandleCount` | sitl/wopr_bridge.cpp:1651-1666 | a count opens, refuses or is not ours |
| `MissionLink.GcsLink.HandleItem` | sitl/wopr_bridge.cpp:1668-1690 | an item fills the awaited row, or is asked for again |
| `MissionLink.GcsLink.Complete` | sitl/wopr_bridge.cpp:1691-1705 | load, cache, acknowledge |
| `MissionLink.OnlyKeptBytesCount` | sitl/wopr_bridge.cpp:1668-1685 | an item acts through the bytes its row keeps alone, so the system it is addressed to does not matter |
| `MissionRuns.RowsHaveOrigins` | sitl/wopr_bridge.cpp:1651-1717 | after any events an open session holds rows brought strictly in sequence since the last MISSION_COUNT, the cache holds one complete accepted upload, and without host intervention since, that upload is the mission |
| `MissionRuns.DownloadReturnsUpload` | sitl/wopr_bridge.cpp:1711-1717 | a download answer carries the fields of the item message that was uploaded for that row |
| `MissionRuns.UploadDecides` | sitl/wopr_bridge.cpp:1651-1705 | whatever the session was doing, an upload sent in order ends with mission and cache equal to it if it can be flown, and changes neither otherwise |
| `MissionRuns.AsksInOrder` | sitl/wopr_bridge.cpp:1651-1705 | after each frame of an upload the link asks for the next row, and after the last it closes, with success exactly when the upload can be flown |
| `MissionRuns.RequestsLeadThrough` | sitl/wopr_bridge.cpp:1651-1705 | a ground station that opens with its count and sends what it is asked for sends the whole upload in order |
| `MissionRuns.DownloadIsUpload` | sitl/wopr_bridge.cpp:1707-1717 | an accepted upload downloads as an upload of the same rows |
| `VtolLift.HoverCommandFits` | modules/ap-sim/include/fwcpp/sim/sim_frame.hpp:646-654 | the hover command of a hover thrust in [0,1] is in [0,1] and produces that thrust above the exponent cut-off |
| `VtolLift.LawFits` | sitl/wopr_bridge.cpp:1236-1289 | the trim stays in [-hover, 1-hover] and the collective in [0,1] |
| `VtolLift.AntiWindup` | sitl/wopr_bridge.cpp:1268-1276 | the trim never moves further into a saturated output, overshoots by at most one increment, and unwinds as soon as the error turns |
| `VtolLift.StickDemands` | sitl/wopr_bridge.cpp:1242-1245 | the stick asks for no climb in the middle, more the higher it is, and the whole climb rate at its ends |
| `VtolLift.LandingDemands` | sitl/wopr_bridge.cpp:1245-1254 | a landing keeps its height until it is over the point, and then comes down |
| `VtolLift.LandingTick` | sitl/wopr_bridge.cpp:678-727 | a tick of a landing, taken over or commanded, descends exactly over the point, with a fresh trim when it has just taken over |
| `VtolLift.FeedbackOpposes` | sitl/wopr_bridge.cpp:1268-1277 | climbing faster never gets more collective, at the output or in the trim |
| `VtolLift.AssistFades` | sitl/wopr_bridge.cpp:1285-1288 | forward assist is full below one airspeed, zero above another and non-increasing between |
| `VtolLift.RunFits` | sitl/wopr_bridge.cpp:671-745 | over any run of INIT, mode commands and ticks the trim and every collective stay in range |
| `VtolLift.LatchHistory` | sitl/wopr_bridge.cpp:713-720 | the latch is set if and only if some tick reached cruise on the wing with no vertical tick and no INIT since |
| `VtolLift.LatchSurvivesHoverCommand` | sitl/wopr_bridge.cpp:713-720 | a vertical mode entered and left between ticks does not clear the latch |
| `VtolLift.RefusalLeavesHover` | sitl/wopr_bridge.cpp:807-885 | a failed mode command leaves everything as it was if and only if it is not a fixed-wing mode the vehicle refused; that one has ended the vertical law all the same |
| `VtolLift.QuietExactly` | sitl/wopr_bridge.cpp:671-885 | off the vertical law, exactly an accepted vertical command or a landing takeover brings it back, and otherwise the trim rests |
| `VtolLift.LawStaysOff` | sitl/wopr_bridge.cpp:671-885 | after a fixed-wing command, accepted or refused, the law stays off and the trim rests over any run without an accepted vertical command, a takeover or INIT |
| `VtolLift.Bridge.Initialise` | sitl/wopr_bridge.cpp:300-411 | INIT resets the law and refuses inconsistent models |
| `VtolLift.Bridge.SetMode` | sitl/wopr_bridge.cpp:807-885 | mode commands and their status |
| `VtolLift.Bridge.VtolCollective` | sitl/wopr_bridge.cpp:1236-1289 | the law with its branches in place |
| `VtolLift.Bridge.Prepare` | sitl/wopr_bridge.cpp:678-727 | landing takeover, latch and position hold |
| `VtolLift.Bridge.RunTick` | sitl/wopr_bridge.cpp:671-745 | eight sub-steps apply exactly the specified collectives; speed limits are held exactly during a transition |
| `VtolLift.Bridge.StepTicks` | sitl/wopr_bridge.cpp:640-671 | at most 64 ticks, none before INIT |

## Left out

- Strapdown integration beyond its first-order step, which `StrapdownJacobian.Advanced` states as the reference of the
  Jacobian: the finite rotation, the scaling of the biases by sample time over averaging period, earth rate, gravity, the
  trapezoidal position and the clamps. The sample buffers with their recall functions, and the tick that schedules the calls.
- `calc_tilt_error_variance`, the alignment and gyro calibration status: derived reports that nothing here reads.
- IEEE rounding, overflow and NaN outside `Float16`; infinite determinants.
- Positive semidefiniteness through the position collapse guard, which restores some rows, and through an upper limit
  that acts, where `FusionPremises.CuttingBreaks` shows it can be lost.
- The columns of states 16 to 23 are one method per column range rather than the source's unrolled assignments;
  the entries are the same.
- EkfPrediction.PropagateIsPredicted: requires zero rows above the index limit, because the loop stops there. The
  limits zero the field and wind rows, but nothing zeroes the accel or gyro bias rows when those are inhibited.
- ScalarFusion.UpdateKeepsPsd: requires the rows of all inhibited states to be zero; `FusionLimits.FusedFusable` admits
  the variances the limits restart an inhibited accel bias with. A correlated inhibited bias stays outside both.
- FusionOrder.OrderIndependent: requires idle limits, which `VarianceLimits.IdleExactly` turns into a condition on
  the variances, and leaves the quaternion slots out: a limit that acts between the two fusions, and the
  renormalisation, depend on the order.
- MagSequence.AxesNeverAbort: requires idle limits between the axes, which `FusionPremises.AxesIdleApart` turns into a
  condition on the covariance; `MeasurementRuns.MagnetometerFuses` does without when no variance is above its limit.
- MagSequence.MagnetometerNeverAborts: says nothing when the gate passes and a limit acts between the axes; for a
  covariance below its upper limits `MeasurementRuns.MagnetometerFuses` covers that case.
- MeasurementRuns.RunFuses: leaves out runs that initialise, change an inhibit flag or a setting, or predict with a bias
  inhibited or a collapsed position variance, and keeps one averaging period.
- EkfEngine.EkfCore.FuseMagnetometer: requires a gyro sample of nonzero duration, because the source divides by it and
  the reals have no infinity for the result.
- EkfRuns.RunKeepsInvariant: requires a nonzero gyro sample duration in magnetometer calls, by which the source divides.
- `attitude_controller_run_quat`, `ang_vel_limit`, the Euler rate conversions and the input shapers: single formulas
  around the decomposition.
- `wrap_PI` and the trigonometric functions are parameters of the attitude model, with the laws it needs of them.
- SquareRootController.InverseThenControl: requires a gain and a limit in use; with either missing the source inverts
  without the sign or without the other, and `sqrt_controller_accel` and the shapers built on it are not modelled.
- AttitudeControl.LimitSaturates: requires positive gains, and a rate gain no larger than 1/`FLT_EPSILON`.
- AttitudeErrors.TiltErrorsReach: requires a usable axis; without one the correction itself misses, as
  `AttitudeControl.ReachesExactly` says.
- DcmOrientation.EulerReadsBack: requires a nose short of vertical and angles within half a turn, which is what the arc
  functions return.
- FixResiduals.VelocityTowardsFix: requires velocities that are uncorrelated and within their limits, so that an axis is
  not moved by the fusion of another; `FixResiduals.FusedTowards` is the single fusion without that.
- FixResiduals.PositionTowardsFix: requires north and east uncorrelated, for the same reason.
- MeasurementModels.InnovationShrinks: to first order in the correction, and before the attitude is renormalised.
- RotationTables.TablesAgree: leaves out the sentinels, which rotate nothing, and the two rotations given by rounded
  decimals, which are rotations only approximately. The surds the other constants abbreviate are exact.
- The GPS error that `drift_correction_accel` forms before it integrates it, and the guards before that: every
  outcome they can have is an event of `DcmEstimator`.
- `matrix_update`, and when angles are read off the matrix: the held angles are a field that a reset alone changes.
- `mat_mul`, `mat_identity` and the general size, which the source refuses.
- The bitmask's error sink, which only records that an index was out of range.
- Framing, checksums, sequence numbers and sockets of the link; messages other than the mission ones, which do not
  touch the session.
- The mission's own progress once flying; position control gains and the attitude demand of the vertical modes; the
  throttle stick the airspeed modes seed.
- VtolLift.AntiWindup: requires a nonnegative trim gain, which the model check does not enforce.
- VtolLift.RunFits: requires frames whose hover command is in [0,1], which `VtolLift.HoverCommandFits` gives for a
  hover thrust in that range; a frame file is not checked for it.
- MissionLoad.Bridge.GcsMissionLoad: coordinates are unbounded integers, the value of a binary32 pattern is a function
  supplied to it, and the item holds the metres north and east themselves, not the coordinates they are stored as.
- VtolLift.Bridge.Initialise: what the model file says and whether it can be read are inputs.
- VtolLift.Bridge.SetMode: the altitude and throttle a mode seeds are not modelled, and whether the vehicle accepts a
  fixed-wing mode is an input.
