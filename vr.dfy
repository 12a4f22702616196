/**
 * The head-mounted-display subsystem of Quake/vr.c: enabling and disabling
 * the display session (the vr_enabled cvar callback), the OpenGL extension
 * table it needs, the two eye render targets with their swap-texture rings,
 * the per-frame pose update and the per-eye scene render.
 *
 * Vendor SDK calls (session start, device creation, tracking, frame submit,
 * mirror blit) are not modelled; where their outcome steers the code it is a
 * parameter. The scene renderer SCR_UpdateScreenContent is modelled by the
 * record of what it saw (`scenes`).
 */
module Vr {
  import opened QCommon
  import opened VrPose

  /** Entries of the gl_extensions table, before its NULL terminator. */
  const GL_EXTENSION_COUNT := 7

  /** The SDK's ring of colour textures for one eye (ovrSwapTextureSet). */
  datatype SwapChain = SwapChain(textureCount: nat, currentIndex: nat)

  /** fbo_t: a framebuffer name, its size and its colour swap chain. */
  datatype Fbo = Fbo(framebuffer: nat, width: int, height: int, colorTextures: SwapChain)

  /** vr_eye_t, without the SDK render description and pose. */
  datatype Eye = Eye(index: int, fbo: Fbo, fovX: real, fovY: real)

  /** What the SDK reports for one eye: texture size, swap-ring length, field of view in degrees. */
  datatype EyeDesc = EyeDesc(width: int, height: int, textureCount: nat, fovX: real, fovY: real)

  /** What one call of the scene renderer saw: render size, field of view, random seed, target. */
  datatype SceneCall = SceneCall(glwidth: int, glheight: int, fovX: real, fovY: real, seed: int,
                                 framebuffer: nat, texture: nat)

  /** Index of the first extension SDL_GL_GetProcAddress cannot resolve, or the table size. */
  function FirstMissing(procs: seq<bool>): (k: nat)
    ensures k <= |procs|
    ensures forall j :: 0 <= j < k ==> procs[j]
    ensures k < |procs| ==> !procs[k]
    decreases |procs|
  {
    if procs == [] || !procs[0] then 0 else 1 + FirstMissing(procs[1..])
  }

  /** The 4x4 matrix of an ovrMatrix4f, rows of columns. */
  predicate IsMatrix4(m: seq<seq<real>>)
  {
    |m| == 4 && forall y :: 0 <= y < 4 ==> |m[y]| == 4
  }

  function Transposed(m: seq<seq<real>>): (t: seq<seq<real>>)
    requires IsMatrix4(m)
  {
    seq(4, x requires 0 <= x < 4 => seq(4, y requires 0 <= y < 4 => m[y][x]))
  }

  /** Transposing twice gives the matrix back. */
  lemma TransposeInvolution(m: seq<seq<real>>)
    requires IsMatrix4(m)
    ensures IsMatrix4(Transposed(m)) && Transposed(Transposed(m)) == m
  {
    var t := Transposed(m);
    assert IsMatrix4(t);
    forall y | 0 <= y < 4 ensures Transposed(t)[y] == m[y] {
      assert forall x :: 0 <= x < 4 ==> Transposed(t)[y][x] == m[y][x];
    }
  }

  /** TransposeMatrix: `out.M[x][y] = in.M[y][x]` over both indices. */
  method TransposeMatrix(m: seq<seq<real>>) returns (t: seq<seq<real>>)
    requires IsMatrix4(m)
    ensures IsMatrix4(t)
    ensures forall y, x :: 0 <= y < 4 && 0 <= x < 4 ==> t[x][y] == m[y][x]
  {
    var out := new real[4, 4];
    for y := 0 to 4
      invariant forall yy, x :: 0 <= yy < y && 0 <= x < 4 ==> out[x, yy] == m[yy][x]
    {
      for x := 0 to 4
        invariant forall yy, xx :: 0 <= yy < y && 0 <= xx < 4 ==> out[xx, yy] == m[yy][xx]
        invariant forall xx :: 0 <= xx < x ==> out[xx, y] == m[y][xx]
      {
        out[x, y] := m[y][x];
      }
    }
    t := seq(4, i requires 0 <= i < 4 reads out => seq(4, j requires 0 <= j < 4 reads out => out[i, j]));
  }

  /** The eye with its swap ring moved on to the next texture. */
  function Advance(e: Eye): Eye
    requires e.fbo.colorTextures.textureCount > 0
  {
    var c := e.fbo.colorTextures;
    e.(fbo := e.fbo.(colorTextures := c.(currentIndex := (c.currentIndex + 1) % c.textureCount)))
  }

  /** What the scene renderer sees when it draws into eye `e` at time `time`. */
  function SceneFor(e: Eye, time: real): SceneCall
  {
    SceneCall(e.fbo.width, e.fbo.height, e.fovX, e.fovY, Trunc(time * 1000.0),
              e.fbo.framebuffer, e.fbo.colorTextures.currentIndex)
  }

  class VrSystem {
    /** cl.aimangles, cl.viewangles, and vr.c's lastOrientation and lastAim. */
    var pose: Pose
    /** r_refdef.viewangles and r_refdef.aimangles. */
    var refdefView: Angles
    var refdefAim: Angles
    /** Values of the cvars vr_enabled, vr_aimmode and vr_deadzone. */
    var vrEnabled: real
    var aimmode: real
    var deadzone: real
    var initialized: bool
    /** The static memo of InitOpenGLExtensions. */
    var extensionsInitialized: bool
    /** Which entries of the extension table hold a resolved function pointer. */
    var resolved: seq<bool>
    const eyes: array<Eye>
    /** Framebuffer names currently allocated for the eyes. */
    var liveFbos: set<nat>
    /** Next name glGenFramebuffers hands out; every name below it has been used. */
    var nextName: nat
    var glwidth: int
    var glheight: int
    /** r_refdef.fov_x and r_refdef.fov_y. */
    var fovX: real
    var fovY: real
    /** The last srand seed. */
    var seed: int
    var scenes: seq<SceneCall>
    /** Recentring requests sent to the tracker. */
    var recenters: nat

    ghost predicate EyeValid(i: int)
      reads this, eyes
      requires eyes.Length == 2 && 0 <= i < 2
    {
      var e := eyes[i];
      e.index == i && e.fbo.framebuffer < nextName &&
      e.fbo.colorTextures.textureCount > 0 &&
      e.fbo.colorTextures.currentIndex < e.fbo.colorTextures.textureCount
    }

    /**
     * Exactly one pair of eye framebuffers exists while the session is
     * initialised and none otherwise; a memoised extension table is fully
     * resolved.
     */
    ghost predicate Valid()
      reads this, eyes
    {
      eyes.Length == 2 &&
      |resolved| == GL_EXTENSION_COUNT &&
      (extensionsInitialized ==> forall j :: 0 <= j < GL_EXTENSION_COUNT ==> resolved[j]) &&
      (initialized ==>
        EyeValid(0) && EyeValid(1) &&
        eyes[0].fbo.framebuffer != eyes[1].fbo.framebuffer &&
        liveFbos == {eyes[0].fbo.framebuffer, eyes[1].fbo.framebuffer}) &&
      (!initialized ==> liveFbos == {})
    }

    /** The state at program start: the cvar defaults of vr.c and zeroed statics. */
    constructor (width: int, height: int)
      ensures Valid() && fresh(eyes)
      ensures !initialized && !extensionsInitialized && liveFbos == {}
      ensures pose == Pose(Zero, Zero, Zero, Zero)
      ensures vrEnabled == 0.0 && aimmode == 1.0 && deadzone == 30.0
      ensures glwidth == width && glheight == height && scenes == []
    {
      pose := Pose(Zero, Zero, Zero, Zero);
      refdefView, refdefAim := Zero, Zero;
      vrEnabled, aimmode, deadzone := 0.0, 1.0, 30.0;
      initialized, extensionsInitialized := false, false;
      resolved := seq(GL_EXTENSION_COUNT, _ => false);
      eyes := new Eye[2](_ => Eye(0, Fbo(0, 0, 0, SwapChain(0, 0)), 0.0, 0.0));
      liveFbos, nextName := {}, 1;
      glwidth, glheight := width, height;
      fovX, fovY, seed, scenes, recenters := 0.0, 0.0, 0, [], 0;
    }

    /**
     * InitOpenGLExtensions: resolve the table in order, stopping at the first
     * entry that cannot be resolved; remember success.
     */
    method InitOpenGLExtensions(procs: seq<bool>) returns (ok: bool)
      requires Valid() && |procs| == GL_EXTENSION_COUNT
      modifies this`resolved, this`extensionsInitialized
      ensures Valid()
      ensures ok == (old(extensionsInitialized) || FirstMissing(procs) == GL_EXTENSION_COUNT)
      ensures extensionsInitialized == ok
      ensures old(extensionsInitialized) ==> resolved == old(resolved)
      ensures !old(extensionsInitialized) ==>
        |resolved| == GL_EXTENSION_COUNT &&
        forall j :: 0 <= j < GL_EXTENSION_COUNT ==>
          resolved[j] == (j < FirstMissing(procs) || old(resolved)[j])
    {
      if extensionsInitialized {
        return true;
      }
      var i := 0;
      while i < GL_EXTENSION_COUNT
        invariant 0 <= i <= FirstMissing(procs) && !extensionsInitialized
        invariant |resolved| == GL_EXTENSION_COUNT
        invariant forall j :: 0 <= j < GL_EXTENSION_COUNT ==> resolved[j] == (j < i || old(resolved)[j])
      {
        if !procs[i] {
          return false;
        }
        resolved := resolved[i := true];
        i := i + 1;
      }
      extensionsInitialized := true;
      return true;
    }

    /**
     * VR_Enable: start the SDK session and the device, resolve the
     * extensions, then create each eye's framebuffer from the SDK's sizes.
     * Any failure returns before a framebuffer exists.
     */
    method Enable(sdkOk: bool, hmdOk: bool, procs: seq<bool>, descs: seq<EyeDesc>) returns (ok: bool)
      requires Valid() && !initialized
      requires |procs| == GL_EXTENSION_COUNT
      requires |descs| == 2 && descs[0].textureCount > 0 && descs[1].textureCount > 0
      modifies this`initialized, this`resolved, this`extensionsInitialized, this`liveFbos, this`nextName, eyes
      ensures Valid()
      ensures ok == (sdkOk && hmdOk && (old(extensionsInitialized) || FirstMissing(procs) == GL_EXTENSION_COUNT))
      ensures initialized == ok
      ensures extensionsInitialized ==
                (old(extensionsInitialized) || (sdkOk && hmdOk && FirstMissing(procs) == GL_EXTENSION_COUNT))
      ensures !(sdkOk && hmdOk) || old(extensionsInitialized) ==> resolved == old(resolved)
      ensures sdkOk && hmdOk && !old(extensionsInitialized) ==>
        |resolved| == GL_EXTENSION_COUNT &&
        forall j :: 0 <= j < GL_EXTENSION_COUNT ==>
          resolved[j] == (j < FirstMissing(procs) || old(resolved)[j])
      ensures nextName == if ok then old(nextName) + 2 else old(nextName)
      ensures !ok ==> liveFbos == {} && unchanged(eyes)
      ensures ok ==> liveFbos == {old(nextName), old(nextName) + 1}
      ensures ok ==> forall i :: 0 <= i < 2 ==>
        eyes[i] == Eye(i, Fbo(old(nextName) + i, descs[i].width, descs[i].height,
                              SwapChain(descs[i].textureCount, 0)), descs[i].fovX, descs[i].fovY)
      ensures pose == old(pose) && vrEnabled == old(vrEnabled) && aimmode == old(aimmode) && deadzone == old(deadzone)
      ensures refdefView == old(refdefView) && refdefAim == old(refdefAim) && recenters == old(recenters)
      ensures fovX == old(fovX) && fovY == old(fovY) && seed == old(seed) && scenes == old(scenes)
      ensures glwidth == old(glwidth) && glheight == old(glheight)
    {
      if !sdkOk || !hmdOk {
        return false;
      }
      ok := InitOpenGLExtensions(procs);
      if !ok {
        return false;
      }
      CreateEyeFbos(descs);
      initialized := true;
      return true;
    }

    /** The eye loop of VR_Enable: each eye gets a fresh framebuffer with the SDK's size and field of view. */
    method CreateEyeFbos(descs: seq<EyeDesc>)
      requires eyes.Length == 2 && liveFbos == {}
      requires |descs| == 2 && descs[0].textureCount > 0 && descs[1].textureCount > 0
      modifies this`liveFbos, this`nextName, eyes
      ensures nextName == old(nextName) + 2
      ensures liveFbos == {old(nextName), old(nextName) + 1}
      ensures forall i :: 0 <= i < 2 ==>
        eyes[i] == Eye(i, Fbo(old(nextName) + i, descs[i].width, descs[i].height,
                              SwapChain(descs[i].textureCount, 0)), descs[i].fovX, descs[i].fovY)
    {
      var live, name := liveFbos, nextName;
      for i := 0 to 2
        modifies eyes
        invariant forall x :: x in live <==> old(nextName) <= x < name
        invariant name == old(nextName) + i
        invariant forall j :: 0 <= j < i ==>
          eyes[j] == Eye(j, Fbo(old(nextName) + j, descs[j].width, descs[j].height,
                                SwapChain(descs[j].textureCount, 0)), descs[j].fovX, descs[j].fovY)
      {
        eyes[i] := Eye(i, Fbo(name, descs[i].width, descs[i].height, SwapChain(descs[i].textureCount, 0)),
                       descs[i].fovX, descs[i].fovY);
        live := live + {name};
        name := name + 1;
      }
      liveFbos, nextName := live, name;
    }

    /** VR_Disable: nothing to do unless initialised; otherwise release both eye framebuffers. */
    method Disable()
      requires Valid()
      modifies this`initialized, this`liveFbos
      ensures Valid() && !initialized && liveFbos == {}
      ensures !old(initialized) ==> unchanged(this)
      ensures pose == old(pose) && vrEnabled == old(vrEnabled) && aimmode == old(aimmode) && deadzone == old(deadzone)
      ensures refdefView == old(refdefView) && refdefAim == old(refdefAim) && recenters == old(recenters)
      ensures fovX == old(fovX) && fovY == old(fovY) && seed == old(seed) && scenes == old(scenes)
      ensures extensionsInitialized == old(extensionsInitialized) && nextName == old(nextName)
      ensures glwidth == old(glwidth) && glheight == old(glheight)
    {
      if !initialized {
        return;
      }
      var live := liveFbos;
      for i := 0 to 2
        invariant live == set j | i <= j < 2 :: eyes[j].fbo.framebuffer
      {
        live := live - {eyes[i].fbo.framebuffer};
      }
      liveFbos := live;
      initialized := false;
    }

    /**
     * VR_Enabled_f, run after vr_enabled changed: disable, and when the new
     * value is nonzero enable again; a failed enable writes 0 back (the
     * callback that write triggers finds nothing initialised and returns).
     */
    method EnabledChanged(sdkOk: bool, hmdOk: bool, procs: seq<bool>, descs: seq<EyeDesc>)
      requires Valid()
      requires |procs| == GL_EXTENSION_COUNT
      requires |descs| == 2 && descs[0].textureCount > 0 && descs[1].textureCount > 0
      modifies this`initialized, this`resolved, this`extensionsInitialized, this`liveFbos, this`nextName,
               this`vrEnabled, eyes
      ensures Valid()
      ensures initialized <==> vrEnabled != 0.0
      ensures initialized == (old(vrEnabled) != 0.0 && sdkOk && hmdOk &&
                              (old(extensionsInitialized) || FirstMissing(procs) == GL_EXTENSION_COUNT))
      ensures vrEnabled == (if initialized then old(vrEnabled) else 0.0)
      ensures extensionsInitialized ==
                (old(extensionsInitialized) ||
                 (old(vrEnabled) != 0.0 && sdkOk && hmdOk && FirstMissing(procs) == GL_EXTENSION_COUNT))
      ensures !(old(vrEnabled) != 0.0 && sdkOk && hmdOk) || old(extensionsInitialized) ==> resolved == old(resolved)
      ensures old(vrEnabled) != 0.0 && sdkOk && hmdOk && !old(extensionsInitialized) ==>
        |resolved| == GL_EXTENSION_COUNT &&
        forall j :: 0 <= j < GL_EXTENSION_COUNT ==>
          resolved[j] == (j < FirstMissing(procs) || old(resolved)[j])
      ensures nextName == if initialized then old(nextName) + 2 else old(nextName)
      ensures pose == old(pose) && aimmode == old(aimmode) && deadzone == old(deadzone)
      ensures refdefView == old(refdefView) && refdefAim == old(refdefAim) && recenters == old(recenters)
      ensures fovX == old(fovX) && fovY == old(fovY) && seed == old(seed) && scenes == old(scenes)
      ensures glwidth == old(glwidth) && glheight == old(glheight)
    {
      Disable();
      if vrEnabled == 0.0 {
        return;
      }
      var ok := Enable(sdkOk, hmdOk, procs, descs);
      if !ok {
        vrEnabled := 0.0;
      }
    }

    /** VR_Deadzone_f, run after vr_deadzone changed. */
    method DeadzoneChanged()
      modifies this`deadzone
      ensures 0.0 <= old(deadzone) <= 70.0 ==> deadzone == old(deadzone)
      ensures 0.0 <= deadzone <= 70.0
      ensures DeadzoneWrite(old(deadzone)).Some? ==> deadzone == DeadzoneWrite(old(deadzone)).value
    {
      match DeadzoneWrite(deadzone)
      case Some(v) => deadzone := v;
      case None =>
    }

    /**
     * RenderScreenForCurrentEye: advance the eye's swap ring, render the
     * scene at the eye's size and field of view with the frame's seed, and
     * restore the render size.
     */
    method RenderScreenForCurrentEye(i: int, time: real)
      requires Valid() && initialized && 0 <= i < 2
      modifies this`fovX, this`fovY, this`seed, this`scenes, this`glwidth, this`glheight, eyes
      ensures Valid()
      ensures glwidth == old(glwidth) && glheight == old(glheight)
      ensures eyes[1 - i] == old(eyes[1 - i])
      ensures eyes[i] == Advance(old(eyes[i]))
      ensures seed == Trunc(time * 1000.0)
      ensures fovX == eyes[i].fovX && fovY == eyes[i].fovY
      ensures scenes == old(scenes) + [SceneFor(eyes[i], time)]
    {
      var oldglheight := glheight;
      var oldglwidth := glwidth;
      var e := eyes[i];
      var c := e.fbo.colorTextures;
      glwidth, glheight := e.fbo.width, e.fbo.height;
      var index := (c.currentIndex + 1) % c.textureCount;
      eyes[i] := e.(fbo := e.fbo.(colorTextures := c.(currentIndex := index)));
      seed := Trunc(time * 1000.0);
      fovX, fovY := e.fovX, e.fovY;
      // SCR_UpdateScreenContent draws at the eye's size
      scenes := scenes + [SceneCall(glwidth, glheight, fovX, fovY, seed, e.fbo.framebuffer, index)];
      glwidth, glheight := oldglwidth, oldglheight;
    }

    /**
     * VR_UpdateScreenContent: fuse the head orientation into the aim and view
     * angles, publish them to the refresh, then render the left and the right
     * eye.
     */
    method UpdateScreenContent(orientation: Angles, time: real)
      requires Valid() && initialized
      modifies this`pose, this`refdefView, this`refdefAim, this`fovX, this`fovY, this`seed, this`scenes,
               this`glwidth, this`glheight, eyes
      ensures Valid() && initialized
      ensures pose == Fuse(old(pose), orientation, Trunc(aimmode), deadzone)
      ensures refdefView == pose.view && refdefAim == pose.aim
      ensures glwidth == old(glwidth) && glheight == old(glheight)
      ensures eyes[0] == Advance(old(eyes[0])) && eyes[1] == Advance(old(eyes[1]))
      ensures scenes == old(scenes) + [SceneFor(eyes[0], time), SceneFor(eyes[1], time)]
      ensures aimmode == old(aimmode) && deadzone == old(deadzone) && vrEnabled == old(vrEnabled)
    {
      FusePose(orientation);
      RenderEyes(time);
    }

    /** The head orientation fused into the aim and view, which the refresh definition then takes. */
    method FusePose(orientation: Angles)
      modifies this`pose, this`refdefView, this`refdefAim
      ensures pose == Fuse(old(pose), orientation, Trunc(aimmode), deadzone)
      ensures refdefView == pose.view && refdefAim == pose.aim
    {
      pose := Fuse(pose, orientation, Trunc(aimmode), deadzone);
      refdefView := pose.view;
      refdefAim := pose.aim;
    }

    /** The eye loop of VR_UpdateScreenContent: the left eye, then the right. */
    method RenderEyes(time: real)
      requires Valid() && initialized
      modifies this`fovX, this`fovY, this`seed, this`scenes, this`glwidth, this`glheight, eyes
      ensures Valid()
      ensures glwidth == old(glwidth) && glheight == old(glheight)
      ensures eyes[0] == Advance(old(eyes[0])) && eyes[1] == Advance(old(eyes[1]))
      ensures scenes == old(scenes) + [SceneFor(eyes[0], time), SceneFor(eyes[1], time)]
    {
      for i := 0 to 2
        modifies this`fovX, this`fovY, this`seed, this`scenes, this`glwidth, this`glheight, eyes
        invariant Valid()
        invariant glwidth == old(glwidth) && glheight == old(glheight)
        invariant i == 0 ==> scenes == old(scenes) && eyes[0] == old(eyes[0]) && eyes[1] == old(eyes[1])
        invariant i == 1 ==> scenes == old(scenes) + [SceneFor(eyes[0], time)] &&
                             eyes[0] == Advance(old(eyes[0])) && eyes[1] == old(eyes[1])
        invariant i == 2 ==> scenes == old(scenes) + [SceneFor(eyes[0], time), SceneFor(eyes[1], time)] &&
                             eyes[0] == Advance(old(eyes[0])) && eyes[1] == Advance(old(eyes[1]))
      {
        RenderScreenForCurrentEye(i, time);
      }
    }

    /** VR_SetAngles: aim, view and the remembered aim all take the given angles. */
    method SetAngles(angles: Angles)
      modifies this`pose
      ensures pose == old(pose).(aim := angles, view := angles, lastAim := angles)
    {
      pose := pose.(aim := angles, view := angles, lastAim := angles);
    }

    /**
     * VR_ResetOrientation: aim pitch and yaw snap to the view's; with the
     * display enabled the tracker is recentred and the aim re-baselined.
     */
    method ResetOrientation()
      modifies this`pose, this`recenters
      ensures pose.aim == old(pose.aim).(yaw := old(pose.view.yaw), pitch := old(pose.view.pitch))
      ensures pose.view == old(pose.view) && pose.lastOrientation == old(pose.lastOrientation)
      ensures pose.lastAim == if vrEnabled != 0.0 then pose.aim else old(pose.lastAim)
      ensures recenters == old(recenters) + (if vrEnabled != 0.0 then 1 else 0)
    {
      pose := pose.(aim := pose.aim.(yaw := pose.view.yaw, pitch := pose.view.pitch));
      if vrEnabled != 0.0 {
        recenters := recenters + 1;
        pose := pose.(lastAim := pose.aim);
      }
    }
  }

  /**
   * Enable followed by Disable, from a disabled state, leaves no eye
   * framebuffer allocated whatever the outcome of the enable.
   */
  method EnableThenDisable(v: VrSystem, sdkOk: bool, hmdOk: bool, procs: seq<bool>, descs: seq<EyeDesc>)
    requires v.Valid() && !v.initialized
    requires |procs| == GL_EXTENSION_COUNT
    requires |descs| == 2 && descs[0].textureCount > 0 && descs[1].textureCount > 0
    modifies v, v.eyes
    ensures v.Valid() && !v.initialized && v.liveFbos == {}
  {
    var ok := v.Enable(sdkOk, hmdOk, procs, descs);
    assert ok ==> |v.liveFbos| == 2;
    v.Disable();
  }

  /**
   * The extension memo outlives a disable: once an enable has succeeded,
   * a later enable no longer consults the entry points, so it succeeds
   * whatever they would now resolve to.
   */
  method ReenableSkipsResolution(v: VrSystem, procs: seq<bool>, laterProcs: seq<bool>, descs: seq<EyeDesc>)
    returns (first: bool, second: bool)
    requires v.Valid() && !v.initialized
    requires |procs| == GL_EXTENSION_COUNT && |laterProcs| == GL_EXTENSION_COUNT
    requires |descs| == 2 && descs[0].textureCount > 0 && descs[1].textureCount > 0
    modifies v, v.eyes
    ensures first ==> second
    ensures second == (first || old(v.extensionsInitialized) || FirstMissing(laterProcs) == GL_EXTENSION_COUNT)
    ensures v.Valid() && v.initialized == second
  {
    first := v.Enable(true, true, procs, descs);
    v.Disable();
    second := v.Enable(true, true, laterProcs, descs);
  }
}
