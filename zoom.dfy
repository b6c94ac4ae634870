/** The smooth-zoom state machine: a wheel event sets a direction flag and a
    number of ticks, and every repaint moves the camera one small step in depth
    and counts one tick off. */
module Zoom {
  import opened CArith
  import opened Defaults

  /** mZoomSmoothFactor: ticks per wheel step. The constructor sets it and
      nothing changes it afterwards. */
  const SmoothFactor: int := 10
  /** The depth moved per tick, `1.0 / mZoomSmoothFactor`, written as the
      literal it evaluates to (StepIsReciprocal). */
  const Step: real := 0.1

  lemma StepIsReciprocal()
    ensures Step * SmoothFactor as real == 1.0
  {
  }

  /** setZPosition's decision on the depth: the proposed value is taken when it
      differs from the current one and lies in [DefaultZPos, DefaultZPos / 2);
      otherwise the depth stays. */
  function SetZ(current: real, proposed: real): (r: real)
    ensures r == proposed || r == current
    ensures r == proposed <==> proposed == current || InZRange(proposed)
    ensures InZRange(current) ==> InZRange(r)
  {
    if proposed != current && InZRange(proposed) then proposed else current
  }

  /** The part of the widget the zoom touches: the two direction flags, the
      remaining tick count and the camera depth. */
  datatype ZoomState = ZoomState(zoomingIn: bool, zoomingOut: bool, amount: int, z: real)

  predicate Idle(s: ZoomState) {
    !s.zoomingIn && !s.zoomingOut
  }

  /** What the wheel and tick keep true of the remaining count: it never drops
      below -2, and a flag that is still set has at most one overshoot left. */
  predicate AmountBounded(s: ZoomState) {
    && s.amount >= -2
    && (s.zoomingIn ==> s.amount >= 0)
    && (s.zoomingOut ==> s.amount >= -1)
  }

  /** The zoom block at the top of paintGL. Zooming in has precedence over
      zooming out; an active tick counts one off and moves the depth one step
      (subject to setZPosition's range check); the active flag clears on the
      first tick that leaves the count at or below zero. */
  function Tick(s: ZoomState): (r: ZoomState)
    ensures Idle(s) ==> r == s
    ensures !Idle(s) ==> r.amount == s.amount - 1
    ensures s.zoomingIn ==>
      && r.zoomingOut == s.zoomingOut
      && (r.zoomingIn <==> r.amount > 0)
      && r.z == (if InZRange(s.z + Step) then s.z + Step else s.z)
    ensures !s.zoomingIn && s.zoomingOut ==>
      && !r.zoomingIn
      && (r.zoomingOut <==> r.amount > 0)
      && r.z == (if InZRange(s.z - Step) then s.z - Step else s.z)
    ensures InZRange(s.z) ==> InZRange(r.z)
    ensures AmountBounded(s) ==> AmountBounded(r)
  {
    if s.zoomingIn then
      var amount := s.amount - 1;
      ZoomState(amount > 0, s.zoomingOut, amount, SetZ(s.z, s.z + Step))
    else if s.zoomingOut then
      var amount := s.amount - 1;
      ZoomState(false, amount > 0, amount, SetZ(s.z, s.z - Step))
    else
      s
  }

  /** wheelEvent on the zoom state, given the wheel's step count. It sets one
      flag and never clears the other, so both may be set at once. */
  function Wheel(s: ZoomState, numSteps: int): (r: ZoomState)
    ensures numSteps > 0 ==> r.zoomingIn && r.zoomingOut == s.zoomingOut
    ensures numSteps <= 0 ==> r.zoomingOut && r.zoomingIn == s.zoomingIn
    ensures r.amount == SmoothFactor * Abs(numSteps)
    ensures r.z == s.z
    ensures AmountBounded(r)
  {
    ZoomState(s.zoomingIn || numSteps > 0, s.zoomingOut || numSteps <= 0,
              Abs(numSteps * SmoothFactor), s.z)
  }

  /** The wheel step count: `delta * DELTA_2_DEGREES` and then
      `* DEGREES_2_STEPS`, each stored into an int and so truncated toward zero.
      With non-negative factors only a forward (positive) delta gives positive
      steps, and only a backward one negative steps. */
  function WheelSteps(delta: int, delta2Degrees: real, degrees2Steps: real): (r: int)
    ensures delta2Degrees >= 0.0 && degrees2Steps >= 0.0 ==>
      (r > 0 ==> delta > 0) && (r < 0 ==> delta < 0)
  {
    var numDegrees := TruncateToInt(delta as real * delta2Degrees);
    TruncateToInt(numDegrees as real * degrees2Steps)
  }

  /** The state after `n` repaints. */
  function Ticks(s: ZoomState, n: nat): ZoomState
    decreases n
  {
    if n == 0 then s else Ticks(Tick(s), n - 1)
  }

  /** How many ticks one direction stays active from a count `a`: `a` ticks,
      but at least one. */
  function PhaseLength(a: int): nat {
    if a >= 1 then a else 1
  }

  /** The number of repaints after which both flags are clear. */
  function SettleTime(s: ZoomState): nat {
    if s.zoomingIn then PhaseLength(s.amount) + (if s.zoomingOut then 1 else 0)
    else if s.zoomingOut then PhaseLength(s.amount)
    else 0
  }

  lemma {:induction false} IdleStays(s: ZoomState, n: nat)
    requires Idle(s)
    ensures Ticks(s, n) == s
    decreases n
  {
    if n > 0 {
      IdleStays(Tick(s), n - 1);
    }
  }

  lemma {:induction false} TicksAdd(s: ZoomState, m: nat, n: nat)
    ensures Ticks(s, m + n) == Ticks(Ticks(s, m), n)
    decreases m
  {
    if m > 0 {
      TicksAdd(Tick(s), m - 1, n);
    }
  }

  /** Zooming in from count A stays active for exactly PhaseLength(A) ticks,
      counting off one per tick, leaving the zoom-out flag alone and moving
      the camera forward by at most one step per tick. */
  lemma {:induction false} ZoomInPhase(s: ZoomState, n: nat)
    requires s.zoomingIn && n <= PhaseLength(s.amount)
    ensures Ticks(s, n).zoomingIn <==> n < PhaseLength(s.amount)
    ensures Ticks(s, n).zoomingOut == s.zoomingOut
    ensures Ticks(s, n).amount == s.amount - n
    ensures s.z <= Ticks(s, n).z <= s.z + n as real * Step
    decreases n
  {
    if n > 0 {
      var s' := Tick(s);
      assert Ticks(s, n) == Ticks(s', n - 1);
      if s'.zoomingIn {
        ZoomInPhase(s', n - 1);
        DepthUp(s.z, s'.z, Ticks(s', n - 1).z, n);
      } else {
        assert n == 1;
        assert Ticks(s', 0) == s';
      }
    }
  }

  /** Zooming out (with zoom-in clear) from count A stays active for exactly
      PhaseLength(A) ticks and moves the camera back by at most one step per
      tick. */
  lemma {:induction false} ZoomOutPhase(s: ZoomState, n: nat)
    requires !s.zoomingIn && s.zoomingOut && n <= PhaseLength(s.amount)
    ensures !Ticks(s, n).zoomingIn
    ensures Ticks(s, n).zoomingOut <==> n < PhaseLength(s.amount)
    ensures Ticks(s, n).amount == s.amount - n
    ensures s.z - n as real * Step <= Ticks(s, n).z <= s.z
    decreases n
  {
    if n > 0 {
      var s' := Tick(s);
      assert Ticks(s, n) == Ticks(s', n - 1);
      if s'.zoomingOut {
        ZoomOutPhase(s', n - 1);
        DepthDown(s.z, s'.z, Ticks(s', n - 1).z, n);
      } else {
        assert n == 1;
        assert Ticks(s', 0) == s';
      }
    }
  }

  /** A first step of at most Step up, then at most (n - 1) steps more. */
  lemma DepthUp(z0: real, z1: real, z2: real, n: nat)
    requires n >= 1
    requires z0 <= z1 <= z0 + Step
    requires z1 <= z2 <= z1 + (n - 1) as real * Step
    ensures z0 <= z2 <= z0 + n as real * Step
  {
    assert (n - 1) as real * Step + Step == n as real * Step;
  }

  /** A first step of at most Step down, then at most (n - 1) steps more. */
  lemma DepthDown(z0: real, z1: real, z2: real, n: nat)
    requires n >= 1
    requires z0 - Step <= z1 <= z0
    requires z1 - (n - 1) as real * Step <= z2 <= z1
    ensures z0 - n as real * Step <= z2 <= z0
  {
    assert (n - 1) as real * Step + Step == n as real * Step;
  }

  /** After exactly SettleTime(s) repaints, and from then on, no zoom is in
      progress; before that, one is. */
  lemma Settles(s: ZoomState, n: nat)
    ensures Idle(Ticks(s, n)) <==> n >= SettleTime(s)
  {
    if !s.zoomingIn && !s.zoomingOut {
      IdleStays(s, n);
    } else if !s.zoomingIn {
      var t := PhaseLength(s.amount);
      if n <= t {
        ZoomOutPhase(s, n);
      } else {
        ZoomOutPhase(s, t);
        TicksAdd(s, t, n - t);
        IdleStays(Ticks(s, t), n - t);
      }
    } else {
      var t := PhaseLength(s.amount);
      if n <= t {
        ZoomInPhase(s, n);
      } else {
        ZoomInPhase(s, t);
        var s1 := Ticks(s, t);
        TicksAdd(s, t, n - t);
        if !s.zoomingOut {
          IdleStays(s1, n - t);
        } else {
          assert s1.amount <= 0;
          ZoomOutPhase(s1, 1);
          TicksAdd(s1, 1, n - t - 1);
          IdleStays(Ticks(s1, 1), n - t - 1);
        }
      }
    }
  }

  /** A forward wheel turn of k steps from rest zooms in for exactly
      SmoothFactor * k repaints and never zooms out. */
  lemma WheelZoomsIn(s: ZoomState, k: int, n: nat)
    requires Idle(s) && k > 0
    ensures Ticks(Wheel(s, k), n).zoomingIn <==> n < SmoothFactor * k
    ensures !Ticks(Wheel(s, k), n).zoomingOut
  {
    var w := Wheel(s, k);
    var t := PhaseLength(w.amount);
    assert t == SmoothFactor * k;
    if n <= t {
      ZoomInPhase(w, n);
    } else {
      ZoomInPhase(w, t);
      TicksAdd(w, t, n - t);
      IdleStays(Ticks(w, t), n - t);
    }
  }

  /** A backward (or zero) wheel turn of k steps from rest zooms out for
      exactly max(SmoothFactor * |k|, 1) repaints and never zooms in. */
  lemma WheelZoomsOut(s: ZoomState, k: int, n: nat)
    requires Idle(s) && k <= 0
    ensures Ticks(Wheel(s, k), n).zoomingOut <==> n < PhaseLength(SmoothFactor * -k)
    ensures !Ticks(Wheel(s, k), n).zoomingIn
  {
    var w := Wheel(s, k);
    var t := PhaseLength(w.amount);
    if n <= t {
      ZoomOutPhase(w, n);
    } else {
      ZoomOutPhase(w, t);
      TicksAdd(w, t, n - t);
      IdleStays(Ticks(w, t), n - t);
    }
  }
}
