/**
 * The renderer's per-frame decisions (gl_rmain.c): the sign bits of the
 * frustum planes, the box-versus-frustum test, the choice of bounds by
 * rotation, the cheat-protected draw modes, the widened field of view, the
 * anaglyph stereo pass and the split of entities into the solid and the
 * alpha pass.
 *
 * Vectors are triples of reals; the sine and cosine of TurnVector and
 * AngleVectors are not modelled, so the rotated vectors are parameters.
 */
module GlRmain {
  import opened QCommon

  /** A vec3_t of positions or directions. */
  datatype Vec3 = Vec3(x: real, y: real, z: real)
  {
    /** v[j] */
    function At(j: int): real
      requires 0 <= j < 3
    {
      if j == 0 then x else if j == 1 then y else z
    }
  }

  /** VectorAdd(a, b, out) */
  function Add(a: Vec3, b: Vec3): Vec3
  {
    Vec3(a.x + b.x, a.y + b.y, a.z + b.z)
  }

  /** VectorMA(v, s, dir, out): v + s * dir */
  function MA(v: Vec3, s: real, dir: Vec3): Vec3
  {
    Vec3(v.x + s * dir.x, v.y + s * dir.y, v.z + s * dir.z)
  }

  /** DotProduct(a, b) */
  function Dot(a: Vec3, b: Vec3): real
  {
    a.x * b.x + a.y * b.y + a.z * b.z
  }

  /** An mplane_t of the view frustum: its normal, its distance from the origin and the sign bits of its normal. */
  datatype Plane = Plane(normal: Vec3, dist: real, signbits: int)

  /** 1 << j for the three axes. */
  function Shl1(j: int): int
    requires 0 <= j < 3
  {
    if j == 0 then 1 else if j == 1 then 2 else 4
  }

  /** Bit j of a three-bit value. */
  predicate Bit(b: int, j: int)
    requires 0 <= j < 3
  {
    (b / Shl1(j)) % 2 == 1
  }

  /** The sign bits say which components of the normal are negative. */
  predicate SignbitsMatch(p: Plane)
  {
    && 0 <= p.signbits < 8
    && forall j :: 0 <= j < 3 ==> (Bit(p.signbits, j) <==> p.normal.At(j) < 0.0)
  }

  /**
   * SignbitsForPlane: bit j of the result is set exactly when component j
   * of the normal is negative.
   */
  method SignbitsForPlane(normal: Vec3) returns (bits: int)
    ensures 0 <= bits < 8
    ensures forall j :: 0 <= j < 3 ==> (Bit(bits, j) <==> normal.At(j) < 0.0)
  {
    bits := 0;
    var j := 0;
    while j < 3
      invariant 0 <= j <= 3
      invariant 0 <= bits < (if j == 3 then 8 else Shl1(j))
      invariant forall k :: 0 <= k < j ==> (Bit(bits, k) <==> normal.At(k) < 0.0)
    {
      if normal.At(j) < 0.0 {
        // bits |= 1 << j, where bit j is still clear since bits < 1 << j
        bits := bits + Shl1(j);
      }
      j := j + 1;
    }
  }

  /**
   * The corner of [emins, emaxs] that R_CullBox tests for a plane with
   * the given sign bits: the switch's eight cases, with default sharing case 0.
   */
  function TestedCorner(signbits: int, emins: Vec3, emaxs: Vec3): (c: Vec3)
    ensures 0 <= signbits < 8 ==>
              forall j :: 0 <= j < 3 ==> c.At(j) == if Bit(signbits, j) then emins.At(j) else emaxs.At(j)
    ensures !(0 <= signbits < 8) ==> c == emaxs
  {
    if signbits == 1 then Vec3(emins.x, emaxs.y, emaxs.z)
    else if signbits == 2 then Vec3(emaxs.x, emins.y, emaxs.z)
    else if signbits == 3 then Vec3(emins.x, emins.y, emaxs.z)
    else if signbits == 4 then Vec3(emaxs.x, emaxs.y, emins.z)
    else if signbits == 5 then Vec3(emins.x, emaxs.y, emins.z)
    else if signbits == 6 then Vec3(emaxs.x, emins.y, emins.z)
    else if signbits == 7 then Vec3(emins.x, emins.y, emins.z)
    else emaxs
  }

  /** The test of one switch case: the tested corner lies strictly behind the plane. */
  predicate CornerBehind(p: Plane, emins: Vec3, emaxs: Vec3)
  {
    Dot(p.normal, TestedCorner(p.signbits, emins, emaxs)) < p.dist
  }

  predicate InBox(q: Vec3, emins: Vec3, emaxs: Vec3)
  {
    emins.x <= q.x <= emaxs.x && emins.y <= q.y <= emaxs.y && emins.z <= q.z <= emaxs.z
  }

  predicate NonEmptyBox(emins: Vec3, emaxs: Vec3)
  {
    emins.x <= emaxs.x && emins.y <= emaxs.y && emins.z <= emaxs.z
  }

  /** Every point of the box lies strictly behind the plane. */
  ghost predicate BoxBehind(p: Plane, emins: Vec3, emaxs: Vec3)
  {
    forall q :: InBox(q, emins, emaxs) ==> Dot(p.normal, q) < p.dist
  }

  /** On one axis, the bound picked by the sign of n maximises n * q over [lo, hi]. */
  lemma AxisMaximised(n: real, q: real, lo: real, hi: real, b: real)
    requires lo <= q <= hi && b == (if n < 0.0 then lo else hi)
    ensures n * q <= n * b
  {
    if n < 0.0 {
      assert n * (q - lo) <= 0.0;
    } else {
      assert n * (hi - q) >= 0.0;
    }
  }

  /** With matching sign bits the tested corner has the largest dot product of any point of the box. */
  lemma CornerMaximises(p: Plane, emins: Vec3, emaxs: Vec3, q: Vec3)
    requires SignbitsMatch(p) && InBox(q, emins, emaxs)
    ensures Dot(p.normal, q) <= Dot(p.normal, TestedCorner(p.signbits, emins, emaxs))
  {
    CornerFollowsSigns(p, emins, emaxs);
    DotBelowSignCorner(p.normal, q, emins, emaxs, TestedCorner(p.signbits, emins, emaxs));
  }

  /** With matching sign bits the tested corner takes the lower bound exactly on the axes where the normal is negative. */
  lemma CornerFollowsSigns(p: Plane, emins: Vec3, emaxs: Vec3)
    requires SignbitsMatch(p)
    ensures var c := TestedCorner(p.signbits, emins, emaxs);
            && c.x == (if p.normal.x < 0.0 then emins.x else emaxs.x)
            && c.y == (if p.normal.y < 0.0 then emins.y else emaxs.y)
            && c.z == (if p.normal.z < 0.0 then emins.z else emaxs.z)
  {
    var c := TestedCorner(p.signbits, emins, emaxs);
    assert c.At(0) == c.x && c.At(1) == c.y && c.At(2) == c.z;
    assert p.normal.At(0) == p.normal.x && p.normal.At(1) == p.normal.y && p.normal.At(2) == p.normal.z;
  }

  /** The corner picked by the signs of n has the largest dot product with n over the box. */
  lemma DotBelowSignCorner(n: Vec3, q: Vec3, emins: Vec3, emaxs: Vec3, c: Vec3)
    requires InBox(q, emins, emaxs)
    requires c.x == (if n.x < 0.0 then emins.x else emaxs.x)
    requires c.y == (if n.y < 0.0 then emins.y else emaxs.y)
    requires c.z == (if n.z < 0.0 then emins.z else emaxs.z)
    ensures Dot(n, q) <= Dot(n, c)
  {
    AxisMaximised(n.x, q.x, emins.x, emaxs.x, c.x);
    AxisMaximised(n.y, q.y, emins.y, emaxs.y, c.y);
    AxisMaximised(n.z, q.z, emins.z, emaxs.z, c.z);
    SumLe(n.x * q.x, n.x * c.x, n.y * q.y, n.y * c.y, n.z * q.z, n.z * c.z);
  }

  lemma SumLe(a1: real, b1: real, a2: real, b2: real, a3: real, b3: real)
    requires a1 <= b1 && a2 <= b2 && a3 <= b3
    ensures a1 + a2 + a3 <= b1 + b2 + b3
  {
  }

  /**
   * One plane's case is exact: with matching sign bits the tested corner is
   * behind the plane exactly when the whole (non-empty) box is.
   */
  lemma CornerBehindIffBoxBehind(p: Plane, emins: Vec3, emaxs: Vec3)
    requires SignbitsMatch(p) && NonEmptyBox(emins, emaxs)
    ensures CornerBehind(p, emins, emaxs) <==> BoxBehind(p, emins, emaxs)
  {
    var c := TestedCorner(p.signbits, emins, emaxs);
    if CornerBehind(p, emins, emaxs) {
      forall q | InBox(q, emins, emaxs)
        ensures Dot(p.normal, q) < p.dist
      {
        CornerMaximises(p, emins, emaxs, q);
      }
    } else {
      assert c.At(0) == c.x && c.At(1) == c.y && c.At(2) == c.z;
      assert InBox(c, emins, emaxs);
    }
  }

  /**
   * R_CullBox is sound and exact: it culls a box exactly when some frustum
   * plane has the whole box strictly on its negative side, i.e. the box is
   * completely outside the frustum as its comment promises.
   */
  lemma CullBoxMeansOutside(planes: seq<Plane>, emins: Vec3, emaxs: Vec3)
    requires forall i :: 0 <= i < |planes| ==> SignbitsMatch(planes[i])
    requires NonEmptyBox(emins, emaxs)
    ensures (exists i :: 0 <= i < |planes| && CornerBehind(planes[i], emins, emaxs))
            <==> (exists i :: 0 <= i < |planes| && BoxBehind(planes[i], emins, emaxs))
  {
    forall i | 0 <= i < |planes|
      ensures CornerBehind(planes[i], emins, emaxs) <==> BoxBehind(planes[i], emins, emaxs)
    {
      CornerBehindIffBoxBehind(planes[i], emins, emaxs);
    }
  }

  /**
   * Without the sign bits the test is still never too eager to keep: any
   * box it keeps has, for every plane, a corner on or in front of it.
   */
  lemma KeptBoxReachesEveryPlane(p: Plane, emins: Vec3, emaxs: Vec3)
    requires NonEmptyBox(emins, emaxs) && !CornerBehind(p, emins, emaxs)
    ensures exists q :: InBox(q, emins, emaxs) && Dot(p.normal, q) >= p.dist
  {
    var c := TestedCorner(p.signbits, emins, emaxs);
    if 0 <= p.signbits < 8 {
      assert c.At(0) == c.x && c.At(1) == c.y && c.At(2) == c.z;
    }
    assert InBox(c, emins, emaxs);
  }

  /** The bounds an entity's model provides: unrotated, for any yaw, and for any rotation. */
  datatype ModelBounds = ModelBounds(mins: Vec3, maxs: Vec3, ymins: Vec3, ymaxs: Vec3, rmins: Vec3, rmaxs: Vec3)

  /** The box of an entity in world space. */
  datatype Box = Box(mins: Vec3, maxs: Vec3)

  /**
   * The bounds R_CullModelForEntity tests: the rotated bounds when pitch or
   * roll is nonzero, the yaw bounds when only yaw is, the plain ones
   * otherwise, each moved to the entity's origin.
   */
  function EntityBox(origin: Vec3, angles: Angles, model: ModelBounds): (b: Box)
    ensures (angles.pitch != 0.0 || angles.roll != 0.0) ==>
              b == Box(Add(origin, model.rmins), Add(origin, model.rmaxs))
    ensures (angles.pitch == 0.0 && angles.roll == 0.0 && angles.yaw != 0.0) ==>
              b == Box(Add(origin, model.ymins), Add(origin, model.ymaxs))
    ensures (angles.pitch == 0.0 && angles.roll == 0.0 && angles.yaw == 0.0) ==>
              b == Box(Add(origin, model.mins), Add(origin, model.maxs))
  {
    if angles.pitch != 0.0 || angles.roll != 0.0 then
      Box(Add(origin, model.rmins), Add(origin, model.rmaxs))
    else if angles.yaw != 0.0 then
      Box(Add(origin, model.ymins), Add(origin, model.ymaxs))
    else
      Box(Add(origin, model.mins), Add(origin, model.maxs))
  }

  /** Moving the entity moves its box by the same amount, whichever bounds are chosen. */
  lemma EntityBoxTranslates(origin: Vec3, delta: Vec3, angles: Angles, model: ModelBounds)
    ensures var b := EntityBox(origin, angles, model);
            var moved := EntityBox(Add(origin, delta), angles, model);
            moved.mins == Add(b.mins, delta) && moved.maxs == Add(b.maxs, delta)
  {
  }

  /** The cheat-protected draw modes. */
  datatype CheatSafe = CheatSafe(drawflat: bool, fullbright: bool, lightmap: bool, drawworld: bool)

  /**
   * The draw modes allowed for the given cvars: in multiplayer none of the
   * debugging modes and always the world; in single player the cvars take
   * effect, drawflat winning over fullbright (also forced by a map without
   * light data) winning over lightmap.
   */
  function CheatSafeFlags(maxclients: int, drawworld: real, drawflat: real, fullbright: real, lightmap: real,
                          hasLightdata: bool): (f: CheatSafe)
    ensures maxclients != 1 ==> f == CheatSafe(false, false, false, true)
    ensures !(f.drawflat && f.fullbright) && !(f.drawflat && f.lightmap) && !(f.fullbright && f.lightmap)
    ensures maxclients == 1 ==>
              && (f.drawworld <==> drawworld != 0.0)
              && (f.drawflat <==> drawflat != 0.0)
              && (f.fullbright <==> drawflat == 0.0 && (fullbright != 0.0 || !hasLightdata))
              && (f.lightmap <==> drawflat == 0.0 && fullbright == 0.0 && hasLightdata && lightmap != 0.0)
  {
    if maxclients != 1 then CheatSafe(false, false, false, true)
    else
      var mode := if drawflat != 0.0 then 0 else if fullbright != 0.0 || !hasLightdata then 1
                  else if lightmap != 0.0 then 2 else 3;
      CheatSafe(mode == 0, mode == 1, mode == 2, drawworld != 0.0)
  }

  /** A call of R_RenderScene as this model sees it: where the view is, the skew and colour mask in force, and the random seed set before it (if any). */
  datatype Mask = Mask(red: bool, green: bool, blue: bool, alpha: bool)
  datatype Scene = Scene(vieworg: Vec3, skew: real, mask: Mask, seed: Option<int>)

  const AllChannels: Mask := Mask(true, true, true, true)
  const RedOnly: Mask := Mask(true, false, false, true)
  const Cyan: Mask := Mask(false, true, true, true)

  /** NEARCLIP */
  const NEAR_CLIP: real := 4.0

  /** fovx widened for the frustum: by 10 for r_stereo, by 25 for r_oculusrift. */
  function WidenedFov(fovx: real, stereo: real, rift: real): (w: real)
    ensures stereo == 0.0 && rift == 0.0 ==> w == fovx
    ensures stereo != 0.0 && rift == 0.0 ==> w == fovx + 10.0
    ensures stereo == 0.0 && rift != 0.0 ==> w == fovx + 25.0
    ensures stereo != 0.0 && rift != 0.0 ==> w == fovx + 35.0
  {
    var f := if stereo != 0.0 then fovx + 10.0 else fovx;
    if rift != 0.0 then f + 25.0 else f
  }

  /** The two widenings add up: each contributes its own amount whatever the other does. */
  lemma WideningIsAdditive(fovx: real, stereo: real, rift: real)
    ensures WidenedFov(fovx, stereo, rift) == fovx + WidenedFov(0.0, stereo, 0.0) + WidenedFov(0.0, 0.0, rift)
  {
  }

  /**
   * The angles R_SetFrustum turns the forward vector by, for the left,
   * right, bottom and top planes.
   */
  function FrustumTurns(fovx: real, fovy: real, stereo: real, rift: real): (t: seq<real>)
    ensures |t| == 4
    ensures t[0] == -t[1] && t[2] == -t[3]
    ensures t[1] == 90.0 - WidenedFov(fovx, stereo, rift) / 2.0 && t[2] == 90.0 - fovy / 2.0
  {
    var w := WidenedFov(fovx, stereo, rift);
    [w / 2.0 - 90.0, 90.0 - w / 2.0, 90.0 - fovy / 2.0, fovy / 2.0 - 90.0]
  }

  /** Widening the field of view turns the side planes further from the forward vector. */
  lemma WideningTurnsSidesOut(fovx: real, fovy: real, stereo: real, rift: real)
    requires stereo != 0.0 || rift != 0.0
    ensures FrustumTurns(fovx, fovy, stereo, rift)[1] < FrustumTurns(fovx, fovy, 0.0, 0.0)[1]
    ensures FrustumTurns(fovx, fovy, stereo, rift)[0] > FrustumTurns(fovx, fovy, 0.0, 0.0)[0]
  {
  }

  /** The frustum skew of the left eye: half the clamped separation, scaled to the near plane at the clamped depth. */
  function StereoSkew(stereo: real, stereodepth: real): (s: real)
    ensures -0.5 <= s <= 0.5
    ensures stereo == 0.0 ==> s == 0.0
    ensures 0.0 < stereo ==> 0.0 < s
    ensures stereo < 0.0 ==> s < 0.0
  {
    var eyesep := Clamp(-8.0, stereo, 8.0);
    var fdepth := Clamp(32.0, stereodepth, 1024.0);
    SkewBounded(eyesep, fdepth);
    0.5 * eyesep * NEAR_CLIP / fdepth
  }

  lemma SkewBounded(e: real, d: real)
    requires -8.0 <= e <= 8.0 && 32.0 <= d
    ensures -0.5 <= 0.5 * e * NEAR_CLIP / d <= 0.5
    ensures (e == 0.0 ==> 0.5 * e * NEAR_CLIP / d == 0.0)
    ensures (0.0 < e ==> 0.0 < 0.5 * e * NEAR_CLIP / d)
    ensures (e < 0.0 ==> 0.5 * e * NEAR_CLIP / d < 0.0)
  {
    var s := 0.5 * e * NEAR_CLIP / d;
    assert s * d == 2.0 * e;
  }

  /** The renderer globals this part of gl_rmain.c reads and writes. */
  class Renderer {
    const frustum: array<Plane>
    var drawflatCheatsafe: bool
    var fullbrightCheatsafe: bool
    var lightmapCheatsafe: bool
    var drawworldCheatsafe: bool
    /** r_refdef.vieworg, frustum_skew and the colour mask. */
    var vieworg: Vec3
    var frustumSkew: real
    var colorMask: Mask
    var scenes: seq<Scene>

    constructor (org: Vec3)
      ensures frustum.Length == 4 && fresh(frustum)
      ensures vieworg == org && frustumSkew == 0.0 && colorMask == AllChannels && scenes == []
    {
      frustum := new Plane[4](_ => Plane(Vec3(0.0, 0.0, 0.0), 0.0, 0));
      drawflatCheatsafe, fullbrightCheatsafe, lightmapCheatsafe, drawworldCheatsafe := false, false, false, true;
      vieworg := org;
      frustumSkew := 0.0;
      colorMask := AllChannels;
      scenes := [];
    }

    /**
     * The loop of R_SetFrustum: each plane gets the turned normal, the
     * distance of the view origin along it and its sign bits. The turned
     * normals are TurnVector's results for FrustumTurns.
     */
    method SetFrustum(normals: seq<Vec3>, origin: Vec3)
      requires frustum.Length == 4 && |normals| == 4
      modifies frustum
      ensures forall i :: 0 <= i < 4 ==>
                frustum[i].normal == normals[i] && frustum[i].dist == Dot(origin, normals[i]) &&
                SignbitsMatch(frustum[i])
    {
      var i := 0;
      while i < 4
        invariant 0 <= i <= 4
        invariant forall k :: 0 <= k < i ==>
                    frustum[k].normal == normals[k] && frustum[k].dist == Dot(origin, normals[k]) &&
                    SignbitsMatch(frustum[k])
      {
        var bits := SignbitsForPlane(normals[i]);
        frustum[i] := Plane(normals[i], Dot(origin, normals[i]), bits);
        i := i + 1;
      }
    }

    /** R_CullBox: the box is culled when, for some plane, the corner its sign bits select lies behind it. */
    method CullBox(emins: Vec3, emaxs: Vec3) returns (culled: bool)
      requires frustum.Length == 4
      ensures culled <==> exists i :: 0 <= i < 4 && CornerBehind(frustum[i], emins, emaxs)
    {
      var i := 0;
      while i < 4
        invariant 0 <= i <= 4
        invariant forall k :: 0 <= k < i ==> !CornerBehind(frustum[k], emins, emaxs)
      {
        var p := frustum[i];
        if Dot(p.normal, TestedCorner(p.signbits, emins, emaxs)) < p.dist {
          return true;
        }
        i := i + 1;
      }
      return false;
    }

    /** R_CullModelForEntity: R_CullBox on the bounds chosen by the entity's rotation. */
    method CullModelForEntity(origin: Vec3, angles: Angles, model: ModelBounds) returns (culled: bool)
      requires frustum.Length == 4
      ensures var b := EntityBox(origin, angles, model);
              culled <==> exists i :: 0 <= i < 4 && CornerBehind(frustum[i], b.mins, b.maxs)
    {
      var b := EntityBox(origin, angles, model);
      culled := CullBox(b.mins, b.maxs);
    }

    /** The cheat protection at the end of R_SetupView. */
    method SetupCheatSafe(maxclients: int, drawworld: real, drawflat: real, fullbright: real, lightmap: real,
                          hasLightdata: bool)
      modifies this`drawflatCheatsafe, this`fullbrightCheatsafe, this`lightmapCheatsafe, this`drawworldCheatsafe
      ensures CheatSafe(drawflatCheatsafe, fullbrightCheatsafe, lightmapCheatsafe, drawworldCheatsafe)
              == CheatSafeFlags(maxclients, drawworld, drawflat, fullbright, lightmap, hasLightdata)
    {
      drawflatCheatsafe, fullbrightCheatsafe, lightmapCheatsafe := false, false, false;
      drawworldCheatsafe := true;
      if maxclients == 1 {
        if drawworld == 0.0 {
          drawworldCheatsafe := false;
        }
        if drawflat != 0.0 {
          drawflatCheatsafe := true;
        } else if fullbright != 0.0 || !hasLightdata {
          fullbrightCheatsafe := true;
        } else if lightmap != 0.0 {
          lightmapCheatsafe := true;
        }
      }
    }

    /**
     * The view part of R_RenderView. With r_stereo set, the left eye is
     * drawn red half a separation to the left with a positive skew, the
     * right eye cyan half a separation to the right with the opposite skew,
     * both with the same random seed; then the view origin, the skew and
     * the colour mask are put back. Otherwise the view is moved by the HMD
     * eye offset and drawn once. r_norefresh draws nothing.
     */
    method RenderView(norefresh: bool, stereo: real, stereodepth: real, vright: Vec3, hmdViewOffset: real,
                      clTime: real)
      modifies this`vieworg, this`frustumSkew, this`colorMask, this`scenes
      ensures norefresh ==>
                vieworg == old(vieworg) && frustumSkew == old(frustumSkew) && colorMask == old(colorMask) &&
                scenes == old(scenes)
      ensures !norefresh && stereo != 0.0 ==>
                var e := Clamp(-8.0, stereo, 8.0);
                var skew := StereoSkew(stereo, stereodepth);
                var seed := Some(Trunc(clTime * 1000.0));
                && vieworg == old(vieworg) && frustumSkew == 0.0 && colorMask == AllChannels
                && scenes == old(scenes) + [Scene(MA(old(vieworg), -0.5 * e, vright), skew, RedOnly, seed),
                                            Scene(MA(old(vieworg), 0.5 * e, vright), -skew, Cyan, seed)]
      ensures !norefresh && stereo == 0.0 ==>
                && vieworg == MA(old(vieworg), hmdViewOffset, vright)
                && frustumSkew == old(frustumSkew) && colorMask == old(colorMask)
                && scenes == old(scenes) + [Scene(vieworg, frustumSkew, colorMask, None)]
    {
      if norefresh {
        return;
      }
      if stereo != 0.0 {
        var eyesep := Clamp(-8.0, stereo, 8.0);
        var fdepth := Clamp(32.0, stereodepth, 1024.0);
        var start := vieworg;

        colorMask := RedOnly;
        vieworg := MA(vieworg, -0.5 * eyesep, vright);
        frustumSkew := 0.5 * eyesep * NEAR_CLIP / fdepth;
        var seed := Trunc(clTime * 1000.0);
        scenes := scenes + [Scene(vieworg, frustumSkew, colorMask, Some(seed))];

        colorMask := Cyan;
        vieworg := MA(vieworg, 1.0 * eyesep, vright);
        frustumSkew := -frustumSkew;
        seed := Trunc(clTime * 1000.0);
        EyeShiftsAdd(start, -0.5 * eyesep, 1.0 * eyesep, vright);
        scenes := scenes + [Scene(vieworg, frustumSkew, colorMask, Some(seed))];

        colorMask := AllChannels;
        EyeShiftsAdd(start, 0.5 * eyesep, -0.5 * eyesep, vright);
        vieworg := MA(vieworg, -0.5 * eyesep, vright);
        assert MA(start, 0.0, vright) == start;
        frustumSkew := 0.0;
      } else {
        vieworg := MA(vieworg, hmdViewOffset, vright);
        scenes := scenes + [Scene(vieworg, frustumSkew, colorMask, None)];
      }
    }
  }

  /** Two moves along the same direction add up. */
  lemma EyeShiftsAdd(v: Vec3, a: real, b: real, dir: Vec3)
    ensures MA(MA(v, a, dir), b, dir) == MA(v, a + b, dir)
  {
    assert a * dir.x + b * dir.x == (a + b) * dir.x;
    assert a * dir.y + b * dir.y == (a + b) * dir.y;
    assert a * dir.z + b * dir.z == (a + b) * dir.z;
  }

  /** The two stereo eyes sit symmetrically about the view origin, with opposite skews. */
  lemma StereoEyesSymmetric(v: Vec3, e: real, vright: Vec3)
    ensures var l := MA(v, -0.5 * e, vright);
            var r := MA(v, 0.5 * e, vright);
            (l.x + r.x) / 2.0 == v.x && (l.y + r.y) / 2.0 == v.y && (l.z + r.z) / 2.0 == v.z
  {
    assert (-0.5 * e) * vright.x + (0.5 * e) * vright.x == 0.0;
    assert (-0.5 * e) * vright.y + (0.5 * e) * vright.y == 0.0;
    assert (-0.5 * e) * vright.z + (0.5 * e) * vright.z == 0.0;
  }

  /**
   * The entity filter of R_DrawEntitiesOnList: the solid pass skips
   * entities whose decoded alpha is below 1, the alpha pass skips those
   * whose alpha is exactly 1.
   */
  function DrawnInPass(alpha: real, alphapass: bool): (drawn: bool)
    ensures !alphapass ==> (drawn <==> alpha >= 1.0)
    ensures alphapass ==> (drawn <==> alpha != 1.0)
  {
    !((alpha < 1.0 && !alphapass) || (alpha == 1.0 && alphapass))
  }

  /** A decoded alpha of at most 1 is drawn in exactly one of the two passes. */
  lemma PassesPartition(alpha: real)
    requires alpha <= 1.0
    ensures DrawnInPass(alpha, false) != DrawnInPass(alpha, true)
  {
  }

  /** An alpha above 1 (which decoding never yields) would be drawn in both passes. */
  lemma AlphaAboveOneDrawnTwice(alpha: real)
    requires alpha > 1.0
    ensures DrawnInPass(alpha, false) && DrawnInPass(alpha, true)
  {
  }

  /**
   * R_DrawEntitiesOnList: the indices of the visible entities drawn in this
   * pass, in list order; nothing when r_drawentities is off.
   */
  method DrawEntitiesOnList(alphas: seq<real>, alphapass: bool, drawentities: bool) returns (drawn: seq<int>)
    ensures !drawentities ==> drawn == []
    ensures drawentities ==>
              forall i :: i in drawn <==> 0 <= i < |alphas| && DrawnInPass(alphas[i], alphapass)
    ensures forall a, b :: 0 <= a < b < |drawn| ==> drawn[a] < drawn[b]
  {
    drawn := [];
    if !drawentities {
      return;
    }
    var i := 0;
    while i < |alphas|
      invariant 0 <= i <= |alphas|
      invariant forall k :: k in drawn <==> 0 <= k < i && DrawnInPass(alphas[k], alphapass)
      invariant forall a, b :: 0 <= a < b < |drawn| ==> drawn[a] < drawn[b]
      invariant forall a :: 0 <= a < |drawn| ==> drawn[a] < i
    {
      if !((alphas[i] < 1.0 && !alphapass) || (alphas[i] == 1.0 && alphapass)) {
        drawn := drawn + [i];
      }
      i := i + 1;
    }
  }

  /**
   * The two entity passes of R_RenderScene: with every decoded alpha in
   * [0, 1], each visible entity is drawn by exactly one of them.
   */
  method DrawEntityPasses(alphas: seq<real>) returns (solid: seq<int>, blended: seq<int>)
    requires forall i :: 0 <= i < |alphas| ==> 0.0 <= alphas[i] <= 1.0
    ensures forall i :: 0 <= i < |alphas| ==> (i in solid <==> i !in blended)
    ensures forall i :: i in solid || i in blended ==> 0 <= i < |alphas|
  {
    solid := DrawEntitiesOnList(alphas, false, true);
    blended := DrawEntitiesOnList(alphas, true, true);
    forall i | 0 <= i < |alphas|
      ensures i in solid <==> i !in blended
    {
      PassesPartition(alphas[i]);
    }
  }

  /**
   * Every plane passes through the view origin (its distance is the
   * origin's own offset, not zero), so a box around the origin is never culled.
   */
  lemma OriginNeverCulled(p: Plane, origin: Vec3, emins: Vec3, emaxs: Vec3)
    requires SignbitsMatch(p) && p.dist == Dot(origin, p.normal) && InBox(origin, emins, emaxs)
    ensures !CornerBehind(p, emins, emaxs)
  {
    CornerMaximises(p, emins, emaxs, origin);
    assert Dot(p.normal, origin) == Dot(origin, p.normal);
  }
}
