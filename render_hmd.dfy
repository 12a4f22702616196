/**
 * The earlier head-mounted-display renderer of Quake/r_renderhmd.c: eye
 * set-up from the device description (view offsets, lens shifts, viewports,
 * projection matrices, one framebuffer per eye), release, the per-eye scene
 * render, and the two aim modes of that revision.
 *
 * The lens-warp shader programs, the composite pass (RenderEyeOnScreen) and
 * the SDK session are not modelled beyond the flags and outcomes that steer
 * the code. `tan`, `atan2` and `pow` are not needed except through the
 * identities noted where they are used.
 */
module RenderHmd {
  import opened QCommon

  /** hmd_settings_t: screen geometry in pixels and metres and the lens coefficients. */
  datatype HmdSettings = HmdSettings(
    hResolution: real, vResolution: real,
    hScreenSize: real, vScreenSize: real,
    interpupillaryDistance: real, lensSeparationDistance: real,
    eyeToScreenDistance: real,
    distortionK: seq<real>, chromAbr: seq<real>)

  /** The settings of the first development kit, as compiled in. */
  const OculusRiftHmd := HmdSettings(1280.0, 800.0, 0.14976, 0.0936, 0.064, 0.064, 0.041,
                                     [1.0, 0.22, 0.24, 0.0], [0.996, -0.004, 1.014, 0.0])

  /** The horizontal position and size of an eye's viewport, as fractions of the screen. */
  datatype Viewport = Viewport(left: real, top: real, width: real, height: real)

  const LeftViewport := Viewport(0.0, 0.0, 0.5, 1.0)
  const RightViewport := Viewport(0.5, 0.0, 0.5, 1.0)

  datatype Side = Left | Right

  /** fbo_t: the framebuffer name, and the size its texture storage was created with. */
  datatype Fbo = Fbo(framebuffer: nat, width: int, height: int)

  /** hmd_eye_t without its projection matrix, which the renderer keeps in an array per eye. */
  datatype HmdEye = HmdEye(offset: real, lensShift: real, viewport: Viewport, fbo: Fbo)

  datatype LensShader = Plain | ChromaticAberration

  /**
   * An eye after set-up: its offset and lens shift, and a framebuffer sized
   * to the render size scaled by the eye's viewport and the supersampling
   * factor (CreateFBO takes ints, so the sizes are truncated).
   */
  function SetUpEye(e: HmdEye, offset: real, lensShift: real, name: nat, glwidth: int, glheight: int, ss: real): (r: HmdEye)
    ensures r.viewport == e.viewport && r.fbo.framebuffer == name
    ensures r.offset == offset && r.lensShift == lensShift
  {
    HmdEye(offset, lensShift, e.viewport,
           Fbo(name, Trunc(glwidth as real * e.viewport.width * ss), Trunc(glheight as real * e.viewport.height * ss)))
  }

  const PLAYER_HEIGHT_UNITS := 56.0
  const PLAYER_HEIGHT_M := 1.75
  const NEAR_CLIP := 4.0

  /** Settings for which every quotient of the eye set-up is defined. */
  predicate Sane(hmd: HmdSettings)
  {
    |hmd.distortionK| == 4 && |hmd.chromAbr| == 4 && hmd.eyeToScreenDistance > 0.0 &&
    hmd.hResolution != 0.0 && hmd.vResolution != 0.0 && hmd.hScreenSize != 0.0 &&
    hmd.vScreenSize * DistScale(hmd) != 0.0
  }

  function Aspect(hmd: HmdSettings): real
    requires hmd.vResolution != 0.0
  {
    hmd.hResolution / (2.0 * hmd.vResolution)
  }

  /** `r`: the lens radius at the screen edge the distortion is scaled to. */
  function LensRadius(hmd: HmdSettings): real
    requires hmd.hScreenSize != 0.0
  {
    -1.0 - (4.0 * (hmd.hScreenSize / 4.0 - hmd.lensSeparationDistance / 2.0) / hmd.hScreenSize)
  }

  /** `h`: the horizontal shift of the projection centre for the left eye. */
  function ProjectionShift(hmd: HmdSettings): real
    requires hmd.hScreenSize != 0.0
  {
    4.0 * (hmd.hScreenSize / 4.0 - hmd.interpupillaryDistance / 2.0) / hmd.hScreenSize
  }

  /** `dk[0] + dk[1] r^2 + dk[2] r^4 + dk[3] r^6`. */
  function DistScale(hmd: HmdSettings): real
  {
    if |hmd.distortionK| != 4 || hmd.hScreenSize == 0.0 then 0.0
    else
      var r := LensRadius(hmd);
      var dk := hmd.distortionK;
      var r2 := r * r;
      dk[0] + dk[1] * r2 + dk[2] * r2 * r2 + dk[3] * r2 * r2 * r2
  }

  function LensShift(hmd: HmdSettings): real
    requires hmd.hScreenSize != 0.0
  {
    4.0 * (hmd.hScreenSize / 4.0 - hmd.lensSeparationDistance / 2.0) / hmd.hScreenSize
  }

  /**
   * `1 / tan(fovy / 2)` for `fovy = 2 atan2(v_screen_size * dist_scale,
   * 2 eye_to_screen_distance)`: since tan(atan2(y, x)) = y / x for x > 0,
   * this is x / y.
   */
  function Cotangent(hmd: HmdSettings): real
    requires Sane(hmd)
  {
    2.0 * hmd.eyeToScreenDistance / (hmd.vScreenSize * DistScale(hmd))
  }

  /** Half the interpupillary distance in world units (56 units for a 1.75 m player). */
  function EyeOffset(hmd: HmdSettings): real
  {
    PLAYER_HEIGHT_UNITS * (hmd.interpupillaryDistance / PLAYER_HEIGHT_M) * 0.5
  }

  /** The lens radius and the lens shift are the same quantity seen from the two sides of the lens. */
  lemma LensRadiusIsShiftedLensShift(hmd: HmdSettings)
    requires hmd.hScreenSize != 0.0
    ensures LensRadius(hmd) == -1.0 - LensShift(hmd)
  {
  }

  /** The eye offset is half the interpupillary distance at 32 units per metre. */
  lemma EyeOffsetIsHalfIpd(hmd: HmdSettings)
    ensures EyeOffset(hmd) == 32.0 * hmd.interpupillaryDistance / 2.0
  {
  }

  /** The compiled-in settings make every quotient of the eye set-up defined. */
  lemma OculusRiftHmdIsSane()
    ensures Sane(OculusRiftHmd)
  {
    var hmd := OculusRiftHmd;
    var r2 := LensRadius(hmd) * LensRadius(hmd);
    assert r2 >= 0.0;
    assert r2 * r2 >= 0.0;
    assert DistScale(hmd) == 1.0 + 0.22 * r2 + 0.24 * r2 * r2 + 0.0 * r2 * r2 * r2;
    assert DistScale(hmd) >= 1.0;
  }

  /** The two viewports split the screen into a left and a right half. */
  lemma ViewportsTile()
    ensures LeftViewport.left == 0.0 && LeftViewport.left + LeftViewport.width == RightViewport.left
    ensures RightViewport.left + RightViewport.width == 1.0
    ensures LeftViewport.width == RightViewport.width && LeftViewport.height == RightViewport.height == 1.0
  {
  }

  /** The column-major OpenGL perspective matrix CreatePerspectiveMatrix writes, with `f = 1 / tan(fovy / 2)`. */
  function Perspective(f: real, aspect: real, nearf: real, farf: real, h: real): (m: seq<real>)
    requires aspect != 0.0 && nearf != farf
    ensures |m| == 16
  {
    var nf := 1.0 / (nearf - farf);
    [f / aspect, 0.0, 0.0, 0.0,
     0.0, f, 0.0, 0.0,
     -h, 0.0, (farf + nearf) * nf, -1.0,
     0.0, 0.0, (2.0 * farf * nearf) * nf, 0.0]
  }

  /**
   * The two eyes' matrices differ only in the horizontal shift of the
   * projection centre, which is mirrored.
   */
  lemma PerspectiveMirrored(f: real, aspect: real, nearf: real, farf: real, h: real)
    requires aspect != 0.0 && nearf != farf
    ensures forall k :: 0 <= k < 16 && k != 8 ==>
      Perspective(f, aspect, nearf, farf, h)[k] == Perspective(f, aspect, nearf, farf, -h)[k]
    ensures Perspective(f, aspect, nearf, farf, h)[8] == -Perspective(f, aspect, nearf, farf, -h)[8]
  {
  }

  /** A point on the near plane maps to depth -1 and one on the far plane to depth +1. */
  lemma PerspectiveDepthRange(f: real, aspect: real, nearf: real, farf: real, h: real)
    requires aspect != 0.0 && nearf != farf && nearf != 0.0 && farf != 0.0
    ensures var m := Perspective(f, aspect, nearf, farf, h);
            (m[10] * -nearf + m[14]) / nearf == -1.0 &&
            (m[10] * -farf + m[14]) / farf == 1.0
  {
    var m := Perspective(f, aspect, nearf, farf, h);
    var nf := 1.0 / (nearf - farf);
    assert m[10] * -nearf + m[14] == nf * (-(farf + nearf) * nearf + 2.0 * farf * nearf);
    assert -(farf + nearf) * nearf + 2.0 * farf * nearf == nearf * (farf - nearf);
    assert nf * (nearf - farf) == 1.0;
    assert m[10] * -farf + m[14] == nf * (-(farf + nearf) * farf + 2.0 * farf * nearf);
    assert -(farf + nearf) * farf + 2.0 * farf * nearf == farf * (nearf - farf);
  }

  /** CreatePerspectiveMatrix: fill all sixteen entries of `out`, one column at a time. */
  method CreatePerspectiveMatrix(out: array<real>, f: real, aspect: real, nearf: real, farf: real, h: real)
    requires out.Length == 16 && aspect != 0.0 && nearf != farf
    modifies out
    ensures out[..] == Perspective(f, aspect, nearf, farf, h)
  {
    var nf := 1.0 / (nearf - farf);
    SetColumn(out, 0, f / aspect, 0.0, 0.0, 0.0);
    SetColumn(out, 1, 0.0, f, 0.0, 0.0);
    SetColumn(out, 2, -h, 0.0, (farf + nearf) * nf, -1.0);
    SetColumn(out, 3, 0.0, 0.0, (2.0 * farf * nearf) * nf, 0.0);
    ghost var m := Perspective(f, aspect, nearf, farf, h);
    assert forall k :: 0 <= k < 16 ==> out[k] == m[k];
  }

  /** Write entries 4c to 4c+3 of a sixteen-entry matrix and leave the others alone. */
  method SetColumn(out: array<real>, c: int, a: real, b: real, d: real, e: real)
    requires out.Length == 16 && 0 <= c < 4
    modifies out
    ensures out[4 * c] == a && out[4 * c + 1] == b && out[4 * c + 2] == d && out[4 * c + 3] == e
    ensures forall k :: 0 <= k < 16 && (k < 4 * c || 4 * c + 4 <= k) ==> out[k] == old(out[k])
  {
    out[4 * c] := a;
    out[4 * c + 1] := b;
    out[4 * c + 2] := d;
    out[4 * c + 3] := e;
  }

  /** cl.aimangles, cl.viewangles and the static lastYaw of this revision. */
  datatype HmdPose = HmdPose(aim: Angles, view: Angles, lastYaw: real)

  /**
   * One frame of SCR_UpdateHMDScreenContent's pose update: the float cvar
   * r_oculusrift_aimmode is compared with 1 and 2 without conversion.
   */
  function FuseHmd(p: HmdPose, o: Angles, mode: real): (r: HmdPose)
    ensures r.view.roll == o.roll
    // mouse aiming: the head offsets the view from the aim and never moves the aim
    ensures mode == 1.0 ==> r.aim == p.aim && r.lastYaw == p.lastYaw &&
                            r.view == AddOrientation(p.aim, o)
    // head-yaw aiming: pitch follows the head, the head's yaw delta moves aim and view alike
    ensures mode == 2.0 ==> r.view.pitch == o.pitch && r.aim.pitch == p.aim.pitch &&
                            r.aim.yaw == r.view.yaw && r.aim.yaw - p.aim.yaw == o.yaw - p.lastYaw &&
                            r.lastYaw == o.yaw
    // any other value: only the roll is written
    ensures mode != 1.0 && mode != 2.0 ==> r == p.(view := p.view.(roll := o.roll))
  {
    var (aim, view, lastYaw) :=
      if mode == 1.0 then
        (p.aim, p.view.(pitch := p.aim.pitch + o.pitch, yaw := p.aim.yaw + o.yaw), p.lastYaw)
      else if mode == 2.0 then
        var yaw := p.aim.yaw + o.yaw - p.lastYaw;
        (p.aim.(yaw := yaw), p.view.(pitch := o.pitch, yaw := yaw), o.yaw)
      else
        (p.aim, p.view, p.lastYaw);
    HmdPose(aim, view.(roll := o.roll), lastYaw)
  }

  function FuseHmdAll(p: HmdPose, os: seq<Angles>, mode: real): HmdPose
    decreases |os|
  {
    if os == [] then p else FuseHmdAll(FuseHmd(p, os[0], mode), os[1..], mode)
  }

  /** Head-yaw aiming integrates head yaw over any number of frames and leaves the aim pitch alone. */
  lemma {:induction false} HmdHeadYawTelescopes(p: HmdPose, os: seq<Angles>)
    requires |os| > 0
    ensures FuseHmdAll(p, os, 2.0).aim.yaw == p.aim.yaw + os[|os| - 1].yaw - p.lastYaw
    ensures FuseHmdAll(p, os, 2.0).aim.pitch == p.aim.pitch
    ensures FuseHmdAll(p, os, 2.0).lastYaw == os[|os| - 1].yaw
    decreases |os|
  {
    if |os| > 1 {
      HmdHeadYawTelescopes(FuseHmd(p, os[0], 2.0), os[1..]);
    }
  }

  /** Mouse aiming never lets the head move the aim, over any number of frames. */
  lemma {:induction false} HmdMouseAimIsolated(p: HmdPose, os: seq<Angles>)
    ensures FuseHmdAll(p, os, 1.0).aim == p.aim
    ensures FuseHmdAll(p, os, 1.0).lastYaw == p.lastYaw
    decreases |os|
  {
    if os != [] {
      HmdMouseAimIsolated(FuseHmd(p, os[0], 1.0), os[1..]);
    }
  }

  /**
   * lastYaw is only kept up to date in mode 2: after head turns in mode 1,
   * switching to mode 2 moves the aim by the whole head yaw at once.
   */
  lemma HmdStaleLastYaw()
    ensures var p := HmdPose(Zero, Zero, 0.0);
            var head := Angles(0.0, 40.0, 0.0);
            var q := FuseHmd(FuseHmd(p, head, 1.0), head, 2.0);
            q.aim.yaw == 40.0
  {
  }

  /** The part of r_refdef this renderer reads and writes. */
  datatype Refdef = Refdef(vrectWidth: int, vrectHeight: int, fovX: real, fovY: real,
                           viewangles: Angles, aimangles: Angles)

  /** What one call of the scene renderer saw. */
  datatype HmdSceneCall = HmdSceneCall(vrectWidth: int, vrectHeight: int, glwidth: int, glheight: int,
                                       fovX: real, fovY: real, seed: int, viewOffset: real,
                                       projection: Option<Side>, screen2d: Overlay, framebuffer: nat)

  /** `n *= factor` on an int lvalue: the product is truncated. */
  function Scale(n: int, factor: real): int
  {
    Trunc(n as real * factor)
  }

  /**
   * hmd_screen_2d: where the 2D overlay sits in an eye image of the given
   * size. The four floats are kept as a record; the last two hold halvings
   * done in integer arithmetic, so they are whole numbers.
   */
  function Screen2d(w: int, h: int, offset: real): (s: Overlay)
    ensures w >= 0 ==> 0 <= s.width && 4 * s.width <= w
    ensures h >= 0 ==> 0 <= s.height && 2 * s.height <= h
    ensures offset == 0.0 ==> s.x == w as real / 2.6
  {
    Overlay(w as real / 2.6 - offset * w as real * 0.11, h as real / 3.5,
            TruncDiv(TruncDiv(w, 2), 2), TruncDiv(h, 2))
  }

  datatype Overlay = Overlay(x: real, y: real, width: int, height: int)

  /**
   * What the scene renderer sees for an eye: the view rectangle and render
   * size scaled to the eye, the eye's offset, projection and framebuffer,
   * and the overlay placement computed from the scaled rectangle.
   */
  function EyeScene(e: HmdEye, side: Side, vrectWidth: int, vrectHeight: int, glwidth: int, glheight: int,
                    ss: real, fovX: real, fovY: real, seed: int): (c: HmdSceneCall)
    ensures c.viewOffset == e.offset && c.projection == Some(side) && c.framebuffer == e.fbo.framebuffer
    ensures c.fovX == fovX && c.fovY == fovY && c.seed == seed
    ensures ss == 1.0 ==> c.glwidth == glwidth && c.glheight == glheight
    ensures e.viewport.width * ss == 1.0 ==> c.vrectWidth == vrectWidth
    ensures c.screen2d == Screen2d(c.vrectWidth, c.vrectHeight, e.offset)
  {
    var w := Scale(vrectWidth, e.viewport.width * ss);
    var h := Scale(vrectHeight, e.viewport.height * ss);
    HmdSceneCall(w, h, Scale(glwidth, ss), Scale(glheight, ss), fovX, fovY, seed, e.offset, Some(side),
                 Screen2d(w, h, e.offset), e.fbo.framebuffer)
  }

  class HmdRenderer {
    var pose: HmdPose
    var refdef: Refdef
    var riftEnabled: bool
    var shaderSupport: bool
    /** The static memo of InitShaderExtension. */
    var shaderSupportInitialized: bool
    /** lens_warp_shader: NULL or one of the two programs. */
    var shader: Option<LensShader>
    var leftEye: HmdEye
    var rightEye: HmdEye
    const leftProjection: array<real>
    const rightProjection: array<real>
    var viewportFovX: real
    var viewportFovY: real
    /** Framebuffer names currently allocated and the next one glGenFramebuffers hands out. */
    var liveFbos: set<nat>
    var nextName: nat
    /** The size of the render target in pixels. */
    var glwidth: int
    var glheight: int
    /** hmd_screen_2d, hmd_view_offset and hmd_projection_matrix (which eye's, or NULL). */
    var screen2d: Overlay
    var viewOffset: real
    var projection: Option<Side>
    var seed: int
    var scenes: seq<HmdSceneCall>
    /** The prediction time and drift-correction flag last handed to the SDK. */
    var sdkPrediction: real
    var sdkDriftCorrect: int
    var recalcRefdef: bool

    /**
     * While the renderer is enabled a shader is bound and exactly the two eye
     * framebuffers exist; while it is disabled none do.
     */
    ghost predicate Valid()
      reads this
    {
      leftProjection.Length == 16 && rightProjection.Length == 16 && leftProjection != rightProjection &&
      (forall n :: n in liveFbos ==> n < nextName) &&
      (riftEnabled ==>
        shader.Some? && leftEye.fbo.framebuffer != rightEye.fbo.framebuffer &&
        liveFbos == {leftEye.fbo.framebuffer, rightEye.fbo.framebuffer}) &&
      (!riftEnabled ==> liveFbos == {} && shader.None?)
    }

    constructor (width: int, height: int)
      ensures Valid() && !riftEnabled && !shaderSupportInitialized
      ensures fresh(leftProjection) && fresh(rightProjection)
      ensures leftEye.viewport == LeftViewport && rightEye.viewport == RightViewport
      ensures glwidth == width && glheight == height && scenes == [] && projection.None?
    {
      pose := HmdPose(Zero, Zero, 0.0);
      refdef := Refdef(width, height, 90.0, 90.0, Zero, Zero);
      riftEnabled, shaderSupport, shaderSupportInitialized := false, false, false;
      shader := None;
      leftEye := HmdEye(0.0, 0.0, LeftViewport, Fbo(0, 0, 0));
      rightEye := HmdEye(0.0, 0.0, RightViewport, Fbo(0, 0, 0));
      leftProjection := new real[16](_ => 0.0);
      rightProjection := new real[16](_ => 0.0);
      viewportFovX, viewportFovY := 0.0, 0.0;
      liveFbos, nextName := {}, 1;
      glwidth, glheight := width, height;
      screen2d, viewOffset, projection := Overlay(0.0, 0.0, 0, 0), 0.0, None;
      seed, scenes := 0, [];
      sdkPrediction, sdkDriftCorrect, recalcRefdef := 0.0, 0, false;
    }

    /** InitShaderExtension: resolve the shader and framebuffer entry points once. */
    method InitShaderExtension(allResolved: bool) returns (ok: bool)
      modifies this`shaderSupportInitialized
      ensures ok == shaderSupportInitialized
      ensures shaderSupportInitialized == (old(shaderSupportInitialized) || allResolved)
    {
      if shaderSupportInitialized {
        return true;
      }
      if allResolved {
        shaderSupportInitialized := true;
      }
      return shaderSupportInitialized;
    }

    /**
     * The eye set-up of R_InitHMDRenderer: the fields of view, then for each
     * eye its offset, lens shift, a fresh framebuffer and its projection.
     */
    method SetUpEyes(hmd: HmdSettings, ss: real, farclip: real, fovYDegrees: real)
      requires Sane(hmd) && farclip != NEAR_CLIP
      requires leftProjection.Length == 16 && rightProjection.Length == 16 && leftProjection != rightProjection
      modifies this`leftEye, this`rightEye, this`viewportFovX, this`viewportFovY, this`liveFbos, this`nextName,
               leftProjection, rightProjection
      ensures leftEye == SetUpEye(old(leftEye), -EyeOffset(hmd), LensShift(hmd), old(nextName), glwidth, glheight, ss)
      ensures rightEye == SetUpEye(old(rightEye), EyeOffset(hmd), -LensShift(hmd), old(nextName) + 1, glwidth, glheight, ss)
      ensures leftProjection[..] == Perspective(Cotangent(hmd), Aspect(hmd), NEAR_CLIP, farclip, ProjectionShift(hmd))
      ensures rightProjection[..] == Perspective(Cotangent(hmd), Aspect(hmd), NEAR_CLIP, farclip, -ProjectionShift(hmd))
      ensures viewportFovY == fovYDegrees && viewportFovX == fovYDegrees * Aspect(hmd)
      ensures liveFbos == {old(nextName), old(nextName) + 1} && nextName == old(nextName) + 2
    {
      var aspect := Aspect(hmd);
      var h := ProjectionShift(hmd);
      var lensShift := LensShift(hmd);
      var f := Cotangent(hmd);
      viewportFovY := fovYDegrees;
      viewportFovX := viewportFovY * aspect;

      leftEye := SetUpEye(leftEye, -EyeOffset(hmd), lensShift, nextName, glwidth, glheight, ss);
      CreatePerspectiveMatrix(leftProjection, f, aspect, NEAR_CLIP, farclip, h);

      rightEye := SetUpEye(rightEye, EyeOffset(hmd), -lensShift, nextName + 1, glwidth, glheight, ss);
      CreatePerspectiveMatrix(rightProjection, f, aspect, NEAR_CLIP, farclip, -h);
      liveFbos := {nextName, nextName + 1};
      nextName := nextName + 2;
    }

    /**
     * R_InitHMDRenderer: find the shader extensions, compile the lens shader,
     * set up both eyes and their framebuffers and start the SDK. When the
     * SDK fails to start the renderer stays enabled with its framebuffers.
     */
    method Init(hmd: HmdSettings, ss: real, chromabr: real, predictionMs: real, driftCorrect: real,
                farclip: real, allResolved: bool, compileOk: bool, sdkOk: bool, fovYDegrees: real)
      returns (ok: bool)
      requires Valid() && !riftEnabled
      requires Sane(hmd) && farclip != NEAR_CLIP
      modifies this`shaderSupport, this`shaderSupportInitialized, this`riftEnabled, this`shader,
               this`leftEye, this`rightEye, this`viewportFovX, this`viewportFovY, this`liveFbos, this`nextName,
               this`sdkPrediction, this`sdkDriftCorrect, leftProjection, rightProjection
      ensures Valid()
      ensures ok == ((old(shaderSupportInitialized) || allResolved) && compileOk && sdkOk)
      ensures riftEnabled == ((old(shaderSupportInitialized) || allResolved) && compileOk)
      ensures riftEnabled ==>
        shader == Some(if chromabr != 0.0 then ChromaticAberration else Plain) &&
        leftEye == SetUpEye(old(leftEye), -EyeOffset(hmd), LensShift(hmd), leftEye.fbo.framebuffer, glwidth, glheight, ss) &&
        rightEye == SetUpEye(old(rightEye), EyeOffset(hmd), -LensShift(hmd), rightEye.fbo.framebuffer, glwidth, glheight, ss) &&
        viewportFovY == fovYDegrees && viewportFovX == fovYDegrees * Aspect(hmd)
      ensures riftEnabled ==>
        leftProjection[..] == Perspective(Cotangent(hmd), Aspect(hmd), NEAR_CLIP, farclip, ProjectionShift(hmd)) &&
        rightProjection[..] == Perspective(Cotangent(hmd), Aspect(hmd), NEAR_CLIP, farclip, -ProjectionShift(hmd))
      ensures !riftEnabled ==> unchanged(leftProjection) && unchanged(rightProjection) &&
                               leftEye == old(leftEye) && rightEye == old(rightEye)
      ensures ok ==> sdkPrediction == predictionMs / 1000.0 && sdkDriftCorrect == Trunc(driftCorrect)
      ensures !ok ==> sdkPrediction == old(sdkPrediction) && sdkDriftCorrect == old(sdkDriftCorrect)
    {
      var prediction := predictionMs / 1000.0;
      var driftcorrection := Trunc(driftCorrect);
      ok := false;
      shaderSupport := InitShaderExtension(allResolved);
      if shaderSupport {
        var chosen := if chromabr != 0.0 then ChromaticAberration else Plain;
        riftEnabled := compileOk;
        if riftEnabled {
          shader := Some(chosen);
          SetUpEyes(hmd, ss, farclip, fovYDegrees);
          if sdkOk {
            sdkPrediction := prediction;
            sdkDriftCorrect := driftcorrection;
            ok := true;
          }
        } else {
          shader := None;
        }
      }
    }

    /** R_ReleaseHMDRenderer: drop the shader and both framebuffers if enabled; always stop the SDK. */
    method Release()
      requires Valid()
      modifies this`riftEnabled, this`shader, this`liveFbos, this`recalcRefdef
      ensures Valid() && !riftEnabled && liveFbos == {} && shader.None? && recalcRefdef
    {
      if riftEnabled {
        shader := None;
        liveFbos := liveFbos - {leftEye.fbo.framebuffer};
        liveFbos := liveFbos - {rightEye.fbo.framebuffer};
      }
      riftEnabled := false;
      recalcRefdef := true;
    }

    /** R_SetHMDPredictionTime: hand the prediction time in seconds to the SDK, only while enabled. */
    method SetPredictionTime(predictionMs: real)
      modifies this`sdkPrediction
      ensures sdkPrediction == if riftEnabled then predictionMs / 1000.0 else old(sdkPrediction)
    {
      if riftEnabled {
        sdkPrediction := predictionMs / 1000.0;
      }
    }

    /** R_SetHMDDriftCorrection: hand the truncated flag to the SDK, only while enabled. */
    method SetDriftCorrection(driftCorrect: real)
      modifies this`sdkDriftCorrect
      ensures sdkDriftCorrect == if riftEnabled then Trunc(driftCorrect) else old(sdkDriftCorrect)
    {
      if riftEnabled {
        sdkDriftCorrect := Trunc(driftCorrect);
      }
    }

    /** The scene renderer, as far as this model sees it: it draws into the bound framebuffer with the globals in force. */
    method DrawScene(framebuffer: nat)
      modifies this`scenes
      ensures scenes == old(scenes) + [HmdSceneCall(refdef.vrectWidth, refdef.vrectHeight, glwidth, glheight,
                                                    refdef.fovX, refdef.fovY, seed, viewOffset, projection,
                                                    screen2d, framebuffer)]
    {
      scenes := scenes + [HmdSceneCall(refdef.vrectWidth, refdef.vrectHeight, glwidth, glheight,
                                       refdef.fovX, refdef.fovY, seed, viewOffset, projection,
                                       screen2d, framebuffer)];
    }


    /**
     * RenderScreenForEye: scale the view rectangle and the render size to
     * the eye, publish its projection, offset and the shared field of view,
     * render the scene with the frame's seed, then restore the sizes and clear
     * the projection and offset.
     */
    method RenderScreenForEye(eye: HmdEye, side: Side, ss: real, time: real)
      modifies this`refdef, this`glwidth, this`glheight, this`projection, this`viewOffset, this`seed,
               this`screen2d, this`scenes
      ensures refdef == old(refdef).(fovX := viewportFovX, fovY := viewportFovY)
      ensures glwidth == old(glwidth) && glheight == old(glheight)
      ensures projection.None? && viewOffset == 0.0 && seed == Trunc(time * 1000.0)
      ensures var call := EyeScene(eye, side, refdef.vrectWidth, refdef.vrectHeight,
                                   glwidth, glheight, ss, viewportFovX, viewportFovY, seed);
              scenes == old(scenes) + [call] && screen2d == call.screen2d
    {
      var oldwidth, oldheight := refdef.vrectWidth, refdef.vrectHeight;
      var oldglheight, oldglwidth := glheight, glwidth;

      var call := EyeScene(eye, side, oldwidth, oldheight, oldglwidth, oldglheight, ss,
                           viewportFovX, viewportFovY, Trunc(time * 1000.0));
      refdef := refdef.(vrectWidth := call.vrectWidth, vrectHeight := call.vrectHeight);
      glwidth, glheight := call.glwidth, call.glheight;

      projection, viewOffset := Some(side), eye.offset;
      seed := call.seed;
      refdef := refdef.(fovX := call.fovX, fovY := call.fovY);
      screen2d := call.screen2d;

      DrawScene(eye.fbo.framebuffer);

      refdef := refdef.(vrectWidth := oldwidth, vrectHeight := oldheight);
      glwidth, glheight := oldglwidth, oldglheight;
      projection, viewOffset := None, 0.0;
    }

    /**
     * SCR_UpdateHMDScreenContent: update the pose for the aim mode, publish
     * the angles to the refresh, then render the left and the right eye.
     */
    method UpdateScreenContent(orientation: Angles, mode: real, ss: real, time: real)
      modifies this`pose, this`refdef, this`glwidth, this`glheight, this`projection, this`viewOffset,
               this`seed, this`screen2d, this`scenes
      ensures pose == FuseHmd(old(pose), orientation, mode)
      ensures refdef == old(refdef).(viewangles := pose.view, aimangles := pose.aim,
                                     fovX := viewportFovX, fovY := viewportFovY)
      ensures glwidth == old(glwidth) && glheight == old(glheight)
      ensures projection.None? && viewOffset == 0.0 && seed == Trunc(time * 1000.0)
      ensures var w, h, gw, gh := old(refdef.vrectWidth), old(refdef.vrectHeight), old(glwidth), old(glheight);
              var left := EyeScene(old(leftEye), Left, w, h, gw, gh, ss, viewportFovX, viewportFovY, seed);
              var right := EyeScene(old(rightEye), Right, w, h, gw, gh, ss, viewportFovX, viewportFovY, seed);
              scenes == old(scenes) + [left] + [right] && screen2d == right.screen2d
    {
      pose := FuseHmd(pose, orientation, mode);
      refdef := refdef.(viewangles := pose.view, aimangles := pose.aim);
      ghost var w, h, gw, gh := refdef.vrectWidth, refdef.vrectHeight, glwidth, glheight;
      RenderScreenForEye(leftEye, Left, ss, time);
      ghost var afterLeft := scenes;
      assert refdef.vrectWidth == w && refdef.vrectHeight == h && glwidth == gw && glheight == gh;
      RenderScreenForEye(rightEye, Right, ss, time);
      assert scenes == afterLeft + [scenes[|scenes| - 1]];
    }
  }

  /**
   * The stereo pair is symmetric: for any settings the two eyes are offset by
   * the same distance in opposite directions, with mirrored lens shifts,
   * equal framebuffer sizes and projections that differ only in the mirrored
   * centre shift.
   */
  method InitThenCheckSymmetry(r: HmdRenderer, hmd: HmdSettings, ss: real, chromabr: real, farclip: real,
                               fovYDegrees: real)
    requires r.Valid() && !r.riftEnabled && Sane(hmd) && farclip != NEAR_CLIP
    requires r.leftEye.viewport == LeftViewport && r.rightEye.viewport == RightViewport
    modifies r, r.leftProjection, r.rightProjection
    ensures r.Valid()
    ensures r.riftEnabled ==>
      r.leftEye.offset == -r.rightEye.offset && r.leftEye.lensShift == -r.rightEye.lensShift &&
      r.leftEye.fbo.width == r.rightEye.fbo.width && r.leftEye.fbo.height == r.rightEye.fbo.height &&
      r.leftProjection[8] == -r.rightProjection[8] &&
      (forall k :: 0 <= k < 16 && k != 8 ==> r.leftProjection[k] == r.rightProjection[k])
  {
    var ok := r.Init(hmd, ss, chromabr, 0.0, 0.0, farclip, true, true, true, fovYDegrees);
    if r.riftEnabled {
      PerspectiveMirrored(Cotangent(hmd), Aspect(hmd), NEAR_CLIP, farclip, ProjectionShift(hmd));
      assert r.leftProjection[..][8] == r.leftProjection[8];
      assert forall k :: 0 <= k < 16 ==> r.leftProjection[..][k] == r.leftProjection[k] &&
                                         r.rightProjection[..][k] == r.rightProjection[k];
    }
  }

  /**
   * A failed SDK start is reported as failure, yet the renderer stays
   * enabled and both eye framebuffers stay allocated.
   */
  method SdkFailureLeavesRendererEnabled(r: HmdRenderer, hmd: HmdSettings, farclip: real)
    requires r.Valid() && !r.riftEnabled && Sane(hmd) && farclip != NEAR_CLIP
    modifies r, r.leftProjection, r.rightProjection
    ensures r.Valid() && r.riftEnabled && |r.liveFbos| == 2
  {
    var ok := r.Init(hmd, 1.0, 0.0, 0.0, 0.0, farclip, true, true, false, 0.0);
    assert !ok;
  }
}
