/**
 * Pose fusion of the head-mounted-display path (Quake/vr.c,
 * VR_UpdateScreenContent): each frame the head tracker reports an
 * orientation and the client's aim and view angles are recomputed from it
 * according to the aim mode `(int)vr_aimmode.value`. The previous frame's
 * orientation and aim are kept so that deltas can be taken.
 *
 * This module is the pure update of one frame and the laws it obeys across
 * many frames; the class in module Vr applies it to the engine's state.
 */
module VrPose {
  import opened QCommon

  // Aim modes (the VR_AIMMODE_* constants of vr.c).
  const HEAD_MYAW := 1
  const HEAD_MYAW_MPITCH := 2
  const MOUSE_MYAW := 3
  const MOUSE_MYAW_MPITCH := 4
  const BLENDED := 5
  /** Offered by the VR menu; vr.c has no case for it. */
  const BLENDED_NOPITCH := 6

  /**
   * cl.aimangles, cl.viewangles and the two statics of vr.c that remember the
   * previous frame: lastOrientation and lastAim.
   */
  datatype Pose = Pose(aim: Angles, view: Angles, lastOrientation: Angles, lastAim: Angles)

  /** Modes the switch sends to the head-aiming branch: case 1 and `default`. */
  predicate IsHeadAimMode(mode: int)
  {
    mode == HEAD_MYAW || !(HEAD_MYAW_MPITCH <= mode <= BLENDED)
  }

  /**
   * The deadzone test of the blended mode: `abs(diffYaw) > vr_deadzone / 2`,
   * where `abs` is the C integer abs, so the float difference is first
   * truncated toward zero.
   */
  predicate Recouples(diffYaw: real, deadzone: real)
  {
    Abs(Trunc(diffYaw)) as real > deadzone / 2.0
  }

  /** The blended mode's view/aim yaw difference once the head delta is applied to the view. */
  function BlendDiff(p: Pose, o: Angles): real
  {
    p.view.yaw + (o.yaw - p.lastOrientation.yaw) - p.aim.yaw
  }

  /** One frame of pose fusion for head orientation `o`. */
  function Fuse(p: Pose, o: Angles, mode: int, deadzone: real): (r: Pose)
    // roll is always the head's, and the frame is remembered for the next one
    ensures r.view.roll == o.roll
    ensures r.aim.roll == p.aim.roll
    ensures r.lastOrientation == o && r.lastAim == r.aim
    // head aiming: aim and view coincide; pitch is the head's, yaw integrates head deltas
    ensures IsHeadAimMode(mode) ==>
      r.aim.pitch == r.view.pitch == o.pitch && r.aim.yaw == r.view.yaw &&
      r.aim.yaw - p.aim.yaw == o.yaw - p.lastOrientation.yaw
    // head aiming with pitch: both angles integrate head deltas
    ensures mode == HEAD_MYAW_MPITCH ==>
      r.aim.pitch == r.view.pitch && r.aim.yaw == r.view.yaw &&
      r.aim.pitch - p.aim.pitch == o.pitch - p.lastOrientation.pitch &&
      r.aim.yaw - p.aim.yaw == o.yaw - p.lastOrientation.yaw
    // mouse aiming: the head never moves the aim; the view is the aim offset by the raw head yaw
    ensures mode == MOUSE_MYAW || mode == MOUSE_MYAW_MPITCH ==>
      r.aim == p.aim && r.view.yaw - r.aim.yaw == o.yaw
    ensures mode == MOUSE_MYAW ==> r.view.pitch == o.pitch
    ensures mode == MOUSE_MYAW_MPITCH ==> r.view.pitch - r.aim.pitch == o.pitch
    // blended: the view follows the head; the aim follows only outside the deadzone
    ensures mode == BLENDED ==>
      r.view.pitch == o.pitch &&
      r.aim.pitch - p.aim.pitch == o.pitch - p.lastOrientation.pitch &&
      (Recouples(BlendDiff(p, o), deadzone) ==>
        r.aim.yaw - p.aim.yaw == o.yaw - p.lastOrientation.yaw &&
        r.view.yaw - p.view.yaw == (o.yaw - p.lastOrientation.yaw) + (p.aim.yaw - p.lastAim.yaw)) &&
      (!Recouples(BlendDiff(p, o), deadzone) ==>
        r.aim.yaw == p.aim.yaw && r.view.yaw - p.view.yaw == o.yaw - p.lastOrientation.yaw)
  {
    var aim := p.aim;
    var view := p.view;
    var last := p.lastOrientation;
    var (aim', view') :=
      if mode == HEAD_MYAW_MPITCH then
        var pitch := aim.pitch + o.pitch - last.pitch;
        var yaw := aim.yaw + o.yaw - last.yaw;
        (aim.(pitch := pitch, yaw := yaw), view.(pitch := pitch, yaw := yaw))
      else if mode == MOUSE_MYAW then
        (aim, view.(pitch := o.pitch, yaw := aim.yaw + o.yaw))
      else if mode == MOUSE_MYAW_MPITCH then
        (aim, view.(pitch := aim.pitch + o.pitch, yaw := aim.yaw + o.yaw))
      else if mode == BLENDED then
        var diffHmdYaw := o.yaw - last.yaw;
        var diffHmdPitch := o.pitch - last.pitch;
        var diffAimYaw := aim.yaw - p.lastAim.yaw;
        var viewYaw := view.yaw + diffHmdYaw;
        var diffYaw := viewYaw - aim.yaw;
        var (aimYaw, viewYaw') :=
          if Recouples(diffYaw, deadzone) then (aim.yaw + diffHmdYaw, viewYaw + diffAimYaw)
          else (aim.yaw, viewYaw);
        (aim.(yaw := aimYaw, pitch := aim.pitch + diffHmdPitch), view.(yaw := viewYaw', pitch := o.pitch))
      else
        // case 1 and default
        var yaw := aim.yaw + o.yaw - last.yaw;
        (aim.(pitch := o.pitch, yaw := yaw), view.(pitch := o.pitch, yaw := yaw))
      ;
    var viewRolled := view'.(roll := o.roll);
    Pose(aim', viewRolled, o, aim')
  }

  /** Successive frames with no mouse or keyboard input in between. */
  function FuseAll(p: Pose, os: seq<Angles>, mode: int, deadzone: real): (r: Pose)
    decreases |os|
  {
    if os == [] then p else FuseAll(Fuse(p, os[0], mode, deadzone), os[1..], mode, deadzone)
  }

  /**
   * Head aiming integrates head yaw: over any number of frames the aim yaw
   * moves by the total head-yaw change, however it is split across frames,
   * and the pitch is the last frame's head pitch.
   */
  lemma {:induction false} HeadAimTelescopes(p: Pose, os: seq<Angles>, mode: int, deadzone: real)
    requires IsHeadAimMode(mode) && |os| > 0
    ensures FuseAll(p, os, mode, deadzone).aim.yaw == p.aim.yaw + os[|os| - 1].yaw - p.lastOrientation.yaw
    ensures FuseAll(p, os, mode, deadzone).aim.pitch == os[|os| - 1].pitch
    ensures FuseAll(p, os, mode, deadzone).view.yaw == FuseAll(p, os, mode, deadzone).aim.yaw
    decreases |os|
  {
    if |os| > 1 {
      HeadAimTelescopes(Fuse(p, os[0], mode, deadzone), os[1..], mode, deadzone);
    }
  }

  /** Mode 2 integrates both head pitch and head yaw into the aim. */
  lemma {:induction false} HeadAimPitchTelescopes(p: Pose, os: seq<Angles>, deadzone: real)
    requires |os| > 0
    ensures FuseAll(p, os, HEAD_MYAW_MPITCH, deadzone).aim.yaw == p.aim.yaw + os[|os| - 1].yaw - p.lastOrientation.yaw
    ensures FuseAll(p, os, HEAD_MYAW_MPITCH, deadzone).aim.pitch == p.aim.pitch + os[|os| - 1].pitch - p.lastOrientation.pitch
    decreases |os|
  {
    if |os| > 1 {
      HeadAimPitchTelescopes(Fuse(p, os[0], HEAD_MYAW_MPITCH, deadzone), os[1..], deadzone);
    }
  }

  /**
   * Mouse aiming isolates the aim from the head: across any number of frames
   * the aim angles are untouched, and the view is the aim plus the raw head
   * orientation of the last frame.
   */
  lemma {:induction false} MouseAimIsolated(p: Pose, os: seq<Angles>, mode: int, deadzone: real)
    requires mode == MOUSE_MYAW || mode == MOUSE_MYAW_MPITCH
    requires |os| > 0
    ensures FuseAll(p, os, mode, deadzone).aim == p.aim
    ensures FuseAll(p, os, mode, deadzone).view.yaw == p.aim.yaw + os[|os| - 1].yaw
    ensures mode == MOUSE_MYAW ==> FuseAll(p, os, mode, deadzone).view.pitch == os[|os| - 1].pitch
    decreases |os|
  {
    if |os| > 1 {
      MouseAimIsolated(Fuse(p, os[0], mode, deadzone), os[1..], mode, deadzone);
    }
  }

  /** In the blended mode the aim pitch integrates head pitch over any number of frames. */
  lemma {:induction false} BlendedPitchTelescopes(p: Pose, os: seq<Angles>, deadzone: real)
    requires |os| > 0
    ensures FuseAll(p, os, BLENDED, deadzone).aim.pitch == p.aim.pitch + os[|os| - 1].pitch - p.lastOrientation.pitch
    ensures FuseAll(p, os, BLENDED, deadzone).view.pitch == os[|os| - 1].pitch
    decreases |os|
  {
    if |os| > 1 {
      BlendedPitchTelescopes(Fuse(p, os[0], BLENDED, deadzone), os[1..], deadzone);
    }
  }

  /**
   * The blended mode only recouples when the view/aim difference is beyond
   * half the deadzone; within it the aim yaw does not move.
   */
  lemma BlendedWithinDeadzoneKeepsAim(p: Pose, o: Angles, deadzone: real)
    requires var d := BlendDiff(p, o); -(deadzone / 2.0) <= d <= deadzone / 2.0
    ensures Fuse(p, o, BLENDED, deadzone).aim.yaw == p.aim.yaw
  {
    TruncTowardZero(BlendDiff(p, o));
  }

  /**
   * Beyond half the deadzone plus one degree the blended mode always
   * recouples. The one-degree margin is the integer truncation in the test.
   */
  lemma BlendedBeyondDeadzoneRecouples(p: Pose, o: Angles, deadzone: real)
    requires var d := BlendDiff(p, o); d >= deadzone / 2.0 + 1.0 || d <= -(deadzone / 2.0) - 1.0
    ensures Recouples(BlendDiff(p, o), deadzone)
    ensures Fuse(p, o, BLENDED, deadzone).aim.yaw == p.aim.yaw + o.yaw - p.lastOrientation.yaw
  {
    TruncTowardZero(BlendDiff(p, o));
  }

  /**
   * With a zero deadzone a view/aim difference under one degree still does
   * not recouple: the float difference is truncated to 0 before the test.
   */
  lemma BlendedZeroDeadzoneSubDegree()
    ensures var p := Pose(Zero, Zero, Zero, Zero);
            var o := Angles(0.0, 0.5, 0.0);
            Fuse(p, o, BLENDED, 0.0).aim.yaw == 0.0 && Fuse(p, o, BLENDED, 0.0).view.yaw == 0.5
  {
  }

  /**
   * The yaw difference is a plain subtraction with no wrap to (-180, 180]:
   * a view at 179 degrees and an aim at -179 degrees, two degrees apart on
   * the circle, are 358 degrees apart for the deadzone test.
   */
  lemma BlendedNoWrapAround()
    ensures var p := Pose(Angles(0.0, -179.0, 0.0), Angles(0.0, 178.0, 0.0), Zero, Angles(0.0, -179.0, 0.0));
            var o := Angles(0.0, 1.0, 0.0);
            BlendDiff(p, o) == 358.0 && Recouples(BlendDiff(p, o), 30.0)
  {
  }

  /** If the aim did not change since the last frame, the blended view yaw follows the head delta exactly. */
  lemma BlendedViewFollowsHead(p: Pose, o: Angles, deadzone: real)
    requires p.lastAim == p.aim
    ensures Fuse(p, o, BLENDED, deadzone).view.yaw == p.view.yaw + o.yaw - p.lastOrientation.yaw
  {
  }

  /**
   * In mode 4 the view is exactly what VR_AddOrientationToViewAngles makes of
   * the aim angles, and in mode 3 it differs from that only in pitch.
   */
  lemma MouseAimViewIsAimPlusHead(p: Pose, o: Angles, deadzone: real)
    ensures Fuse(p, o, MOUSE_MYAW_MPITCH, deadzone).view == AddOrientation(p.aim, o)
    ensures Fuse(p, o, MOUSE_MYAW, deadzone).view == AddOrientation(p.aim, o).(pitch := o.pitch)
  {
  }

  /** Mode 6 has no case in the switch: it behaves as head aiming. */
  lemma BlendedNoPitchIsHeadAim(p: Pose, o: Angles, deadzone: real)
    ensures Fuse(p, o, BLENDED_NOPITCH, deadzone) == Fuse(p, o, HEAD_MYAW, deadzone)
  {
  }

  /** Two frames of mouse aiming with a steady head and no mouse input. */
  lemma MouseYawScenario()
    ensures var p := Pose(Angles(0.0, 90.0, 0.0), Zero, Zero, Zero);
            var head := Angles(10.0, 5.0, 0.0);
            var r := FuseAll(p, [head, head], MOUSE_MYAW, 30.0);
            r.view.yaw == 95.0 && r.view.pitch == 10.0 && r.aim.yaw == 90.0
  {
    var p := Pose(Angles(0.0, 90.0, 0.0), Zero, Zero, Zero);
    var head := Angles(10.0, 5.0, 0.0);
    assert [head, head][1..] == [head];
    assert FuseAll(p, [head, head], MOUSE_MYAW, 30.0)
        == FuseAll(Fuse(Fuse(p, head, MOUSE_MYAW, 30.0), head, MOUSE_MYAW, 30.0), [], MOUSE_MYAW, 30.0);
  }

  /** Two frames of head aiming: a ten-degree head turn moves aim and view by ten degrees. */
  lemma HeadYawScenario()
    ensures var p := Pose(Angles(0.0, 90.0, 0.0), Angles(0.0, 90.0, 0.0), Zero, Zero);
            var r := FuseAll(p, [Angles(0.0, 0.0, 0.0), Angles(0.0, 10.0, 0.0)], HEAD_MYAW, 30.0);
            r.aim.yaw == 100.0 && r.view.yaw == 100.0
  {
    var p := Pose(Angles(0.0, 90.0, 0.0), Angles(0.0, 90.0, 0.0), Zero, Zero);
    HeadAimTelescopes(p, [Angles(0.0, 0.0, 0.0), Angles(0.0, 10.0, 0.0)], HEAD_MYAW, 30.0);
  }
}
