/**
 * Controlled attitude: the spacecraft attitude is not integrated but set by a
 * control mode each step.  This module covers the mode names, the checks that
 * decide whether the calculation is enabled, the early exits of a propagation
 * step, and the bookkeeping of the previous step used to derive the angular
 * velocity.  Target-direction and direction-cosine computations are supplied
 * by the caller.
 */
module ControlledAttitudes {
  import opened VectorMath

  datatype AttitudeControlMode =
    | InertialStabilize
    | SunPointing
    | EarthCenterPointing
    | VelocityDirectionPointing
    | OrbitNormalPointing
    | NoCtrl

  /** Position in the enumeration, used by the `>= NO_CTRL` checks. */
  function Ordinal(m: AttitudeControlMode): nat
  {
    match m
    case InertialStabilize => 0
    case SunPointing => 1
    case EarthCenterPointing => 2
    case VelocityDirectionPointing => 3
    case OrbitNormalPointing => 4
    case NoCtrl => 5
  }

  /** The name a mode is written with in the initialisation files. */
  function ModeName(m: AttitudeControlMode): string
  {
    match m
    case InertialStabilize => "INERTIAL_STABILIZE"
    case SunPointing => "SUN_POINTING"
    case EarthCenterPointing => "EARTH_CENTER_POINTING"
    case VelocityDirectionPointing => "VELOCITY_DIRECTION_POINTING"
    case OrbitNormalPointing => "ORBIT_NORMAL_POINTING"
    case NoCtrl => "NO_CTRL"
  }

  /** Reads a mode name; the five control modes are recognised exactly, anything else is no control. */
  function ConvertStringToCtrlMode(mode: string): (m: AttitudeControlMode)
    ensures forall k :: k != NoCtrl ==> (m == k <==> mode == ModeName(k))
  {
    if mode == "INERTIAL_STABILIZE" then InertialStabilize
    else if mode == "SUN_POINTING" then SunPointing
    else if mode == "EARTH_CENTER_POINTING" then EarthCenterPointing
    else if mode == "VELOCITY_DIRECTION_POINTING" then VelocityDirectionPointing
    else if mode == "ORBIT_NORMAL_POINTING" then OrbitNormalPointing
    else NoCtrl
  }

  /** Every mode survives being written out by name and read back. */
  lemma ModeNameRoundTrip(m: AttitudeControlMode)
    ensures ConvertStringToCtrlMode(ModeName(m)) == m
  {
    if m == NoCtrl {
      assert forall k :: k != NoCtrl ==> ModeName(k) != "NO_CTRL";
    }
  }

  function Abs(x: real): real
  {
    if x < 0.0 then -x else x
  }

  /**
   * The separation test of `Initialize` on unit target directions: the angle
   * between them is below 30 degrees (or above 150), i.e. the absolute value of
   * their inner product exceeds cos 30 deg.  Since cos 30 deg is irrational it is
   * stated through its square, 3/4; see `TooCloseIsAngleTest`.
   */
  predicate TooClose(a: seq<real>, b: seq<real>)
    requires |a| == |b|
  {
    4.0 * Square(Dot(a, b)) > 3.0
  }

  function Square(x: real): real
  {
    x * x
  }

  lemma ProductNonNegative(p: real, q: real)
    requires p >= 0.0 && q >= 0.0
    ensures p * q >= 0.0
  {
  }

  /** On non-negative numbers, comparing squares is comparing the numbers. */
  lemma SquareMonotone(x: real, c: real)
    requires x >= 0.0 && c >= 0.0
    ensures x > c <==> Square(x) > Square(c)
  {
    assert x * x - c * c == (x - c) * (x + c);
    if x > c {
      AddPositiveProduct(0.0, x - c, x + c);
    } else {
      ProductNonNegative(c - x, c + x);
      assert c * c - x * x == (c - x) * (c + x);
    }
  }

  lemma AbsSquare(d: real)
    ensures Square(Abs(d)) == Square(d)
  {
    if d < 0.0 {
      assert (-d) * (-d) == d * d;
    }
  }

  /** `TooClose` is the test `|a . b| > cos 30 deg`, for the cosine `c >= 0` with `4 c^2 = 3`. */
  lemma TooCloseIsAngleTest(a: seq<real>, b: seq<real>, c: real)
    requires |a| == |b|
    requires c >= 0.0 && 4.0 * Square(c) == 3.0
    ensures TooClose(a, b) <==> Abs(Dot(a, b)) > c
  {
    var d := Dot(a, b);
    AbsSquare(d);
    SquareMonotone(Abs(d), c);
  }

  /** Attitude quaternion, vector part first. */
  datatype Quaternion = Quaternion(x: real, y: real, z: real, w: real)
  {
    function Conjugate(): Quaternion
    {
      Quaternion(-x, -y, -z, w)
    }

    function VectorPart(): (v: seq<real>)
      ensures |v| == 3
    {
      [x, y, z]
    }
  }

  class ControlledAttitude {
    var mainMode: AttitudeControlMode
    var subMode: AttitudeControlMode
    var isCalcEnabled: bool
    var quaternionI2b: Quaternion
    var mainTargetDirectionB: seq<real>
    var subTargetDirectionB: seq<real>
    var angularVelocityB: seq<real>
    var previousCalcTime: real
    var previousQuaternionI2b: Quaternion
    var previousOmegaB: seq<real>

    ghost predicate Valid()
      reads this
    {
      |mainTargetDirectionB| == 3 && |subTargetDirectionB| == 3 && |angularVelocityB| == 3
    }

    /**
     * Stores the modes, attitude and body-frame target directions, then runs
     * `Initialize`.  `mainNorm` and `subNorm` are the Euclidean norms of the
     * two target directions.
     */
    constructor (mainMode: AttitudeControlMode, subMode: AttitudeControlMode, quaternionI2b: Quaternion,
                 mainTargetDirectionB: seq<real>, subTargetDirectionB: seq<real>, mainNorm: real, subNorm: real)
      requires |mainTargetDirectionB| == 3 && |subTargetDirectionB| == 3
      requires mainNorm >= 0.0 && mainNorm * mainNorm == Dot(mainTargetDirectionB, mainTargetDirectionB)
      requires subNorm >= 0.0 && subNorm * subNorm == Dot(subTargetDirectionB, subTargetDirectionB)
      ensures Valid()
      ensures this.mainMode == mainMode && this.subMode == subMode && this.quaternionI2b == quaternionI2b
      ensures isCalcEnabled == Accepted(mainMode, subMode,
        Normalized(mainTargetDirectionB, mainNorm), Normalized(subTargetDirectionB, subNorm))
    {
      this.mainMode := mainMode;
      this.subMode := subMode;
      this.quaternionI2b := quaternionI2b;
      this.mainTargetDirectionB := mainTargetDirectionB;
      this.subTargetDirectionB := subTargetDirectionB;
      isCalcEnabled := true;
      angularVelocityB := Zero(3);
      previousCalcTime := -1.0;
      previousQuaternionI2b := quaternionI2b;
      previousOmegaB := Zero(3);
      new;
      Initialize(mainNorm, subNorm);
    }

    /**
     * Validates the mode pair and the target directions.  It only ever
     * disables the calculation.  Both modes must be real control modes; in a
     * pointing main mode the sub mode must differ (checked before the
     * directions are touched), then both directions are normalised in place
     * and must be at least 30 degrees apart.
     */
    method Initialize(mainNorm: real, subNorm: real)
      requires Valid()
      requires mainNorm >= 0.0 && mainNorm * mainNorm == Dot(mainTargetDirectionB, mainTargetDirectionB)
      requires subNorm >= 0.0 && subNorm * subNorm == Dot(subTargetDirectionB, subTargetDirectionB)
      modifies this
      ensures Valid()
      ensures isCalcEnabled ==> old(isCalcEnabled)
      ensures Ordinal(mainMode) >= Ordinal(NoCtrl) || Ordinal(subMode) >= Ordinal(NoCtrl) ==> !isCalcEnabled
      ensures mainMode == InertialStabilize ==>
        isCalcEnabled == (old(isCalcEnabled) && subMode != NoCtrl)
        && mainTargetDirectionB == old(mainTargetDirectionB) && subTargetDirectionB == old(subTargetDirectionB)
      ensures mainMode != InertialStabilize && mainMode == subMode ==>
        !isCalcEnabled
        && mainTargetDirectionB == old(mainTargetDirectionB) && subTargetDirectionB == old(subTargetDirectionB)
      ensures mainMode != InertialStabilize && mainMode != subMode ==>
        mainTargetDirectionB == Normalized(old(mainTargetDirectionB), mainNorm)
        && subTargetDirectionB == Normalized(old(subTargetDirectionB), subNorm)
      ensures isCalcEnabled == (old(isCalcEnabled)
        && Accepted(mainMode, subMode, Normalized(old(mainTargetDirectionB), mainNorm), Normalized(old(subTargetDirectionB), subNorm)))
      ensures mainMode == old(mainMode) && subMode == old(subMode) && quaternionI2b == old(quaternionI2b)
      ensures angularVelocityB == old(angularVelocityB) && previousCalcTime == old(previousCalcTime)
      ensures previousQuaternionI2b == old(previousQuaternionI2b) && previousOmegaB == old(previousOmegaB)
    {
      if Ordinal(mainMode) >= Ordinal(NoCtrl) {
        isCalcEnabled := false;
      }
      if Ordinal(subMode) >= Ordinal(NoCtrl) {
        isCalcEnabled := false;
      }
      if mainMode == InertialStabilize {
      } else {
        if mainMode == subMode {
          isCalcEnabled := false;
          return;
        }
        mainTargetDirectionB := Normalized(mainTargetDirectionB, mainNorm);
        subTargetDirectionB := Normalized(subTargetDirectionB, subNorm);
        if TooClose(mainTargetDirectionB, subTargetDirectionB) {
          isCalcEnabled := false;
          return;
        }
      }
    }

    /**
     * One propagation step.  Nothing happens while the calculation is disabled
     * or in inertial stabilisation; otherwise the attitude becomes
     * `pointingAttitude` (the result of pointing the main and sub target
     * directions) and the angular velocity is derived from it.
     */
    method Propagate(endTime: real, pointingAttitude: Quaternion, product: (Quaternion, Quaternion) -> Quaternion)
      requires Valid()
      requires previousCalcTime > 0.0 ==> endTime != previousCalcTime
      modifies this
      ensures Valid()
      ensures !old(isCalcEnabled) || old(mainMode) == InertialStabilize ==>
        quaternionI2b == old(quaternionI2b) && angularVelocityB == old(angularVelocityB)
        && previousCalcTime == old(previousCalcTime)
        && previousQuaternionI2b == old(previousQuaternionI2b) && previousOmegaB == old(previousOmegaB)
      ensures old(isCalcEnabled) && old(mainMode) != InertialStabilize ==>
        quaternionI2b == pointingAttitude
        && angularVelocityB == AngularVelocity(old(previousCalcTime), old(previousQuaternionI2b), endTime, pointingAttitude, product)
        && previousCalcTime == endTime && previousQuaternionI2b == pointingAttitude && previousOmegaB == angularVelocityB
      ensures mainMode == old(mainMode) && subMode == old(subMode) && isCalcEnabled == old(isCalcEnabled)
      ensures mainTargetDirectionB == old(mainTargetDirectionB) && subTargetDirectionB == old(subTargetDirectionB)
    {
      if !isCalcEnabled {
        return;
      }
      if mainMode == InertialStabilize {
        return;
      }
      quaternionI2b := pointingAttitude;
      CalcAngularVelocity(endTime, product);
    }

    /**
     * Derives the body angular velocity from the attitude change since the
     * previous step (zero on the first step, when no positive previous time is
     * recorded), then records the current time, attitude and angular velocity
     * as the previous ones.
     */
    method CalcAngularVelocity(currentTime: real, product: (Quaternion, Quaternion) -> Quaternion)
      requires Valid()
      requires previousCalcTime > 0.0 ==> currentTime != previousCalcTime
      modifies this
      ensures Valid()
      ensures angularVelocityB
        == AngularVelocity(old(previousCalcTime), old(previousQuaternionI2b), currentTime, quaternionI2b, product)
      ensures old(previousCalcTime) <= 0.0 ==> angularVelocityB == Zero(3)
      ensures previousCalcTime == currentTime
      ensures previousQuaternionI2b == quaternionI2b
      ensures previousOmegaB == angularVelocityB
      ensures quaternionI2b == old(quaternionI2b) && isCalcEnabled == old(isCalcEnabled)
      ensures mainMode == old(mainMode) && subMode == old(subMode)
      ensures mainTargetDirectionB == old(mainTargetDirectionB) && subTargetDirectionB == old(subTargetDirectionB)
    {
      if previousCalcTime > 0.0 {
        var timeDiff := currentTime - previousCalcTime;
        var diff := product(previousQuaternionI2b.Conjugate(), quaternionI2b).VectorPart();
        var rate := 2.0 / timeDiff;
        var omega := new real[3];
        var i := 0;
        while i < 3
          modifies omega
          invariant 0 <= i <= 3
          invariant forall k :: 0 <= k < i ==> omega[k] == Scale(rate, diff)[k]
        {
          omega[i] := rate * diff[i];
          i := i + 1;
        }
        assert omega[..] == Scale(rate, diff);
        angularVelocityB := omega[..];
      } else {
        angularVelocityB := Zero(3);
      }
      previousCalcTime := currentTime;
      previousQuaternionI2b := quaternionI2b;
      previousOmegaB := angularVelocityB;
    }
  }

  /**
   * Whether `Initialize` keeps an enabled calculation enabled, given the
   * normalised target directions.
   */
  predicate Accepted(mainMode: AttitudeControlMode, subMode: AttitudeControlMode, mainDirection: seq<real>, subDirection: seq<real>)
    requires |mainDirection| == |subDirection|
  {
    mainMode != NoCtrl && subMode != NoCtrl
    && (mainMode == InertialStabilize || (mainMode != subMode && !TooClose(mainDirection, subDirection)))
  }

  lemma RateTimesStep(x: real, dt: real)
    requires dt != 0.0
    ensures (2.0 / dt * x) * dt == 2.0 * x
  {
    assert 2.0 / dt * dt == 2.0;
  }

  /**
   * The angular velocity derived at `currentTime` from the attitude `q`:
   * zero without a positive previous time, otherwise the vector part of the
   * attitude difference `conj(previousQ) * q` scaled by `2 / dt`.
   */
  function AngularVelocity(previousTime: real, previousQ: Quaternion, currentTime: real, q: Quaternion,
                           product: (Quaternion, Quaternion) -> Quaternion): (omega: seq<real>)
    requires previousTime > 0.0 ==> currentTime != previousTime
    ensures |omega| == 3
    ensures previousTime <= 0.0 ==> omega == Zero(3)
    ensures previousTime > 0.0 ==> forall i :: 0 <= i < 3 ==>
      omega[i] * (currentTime - previousTime) == 2.0 * product(previousQ.Conjugate(), q).VectorPart()[i]
  {
    if previousTime > 0.0 then
      var dt := currentTime - previousTime;
      var v := product(previousQ.Conjugate(), q).VectorPart();
      assert forall i :: 0 <= i < 3 ==> Scale(2.0 / dt, v)[i] * dt == 2.0 * v[i] by {
        forall i | 0 <= i < 3 {
          RateTimesStep(v[i], dt);
        }
      }
      Scale(2.0 / dt, v)
    else Zero(3)
  }
}
