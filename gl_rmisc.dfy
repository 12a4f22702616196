/**
 * The renderer's cvar callbacks and per-game / per-map resets
 * (gl_rmisc.c): the Rift enable and re-initialisation policy, the deadzone
 * clamp, the clear-colour palette index, the player colour split, the
 * skin-number validation, and the loops run on a new game and a new map.
 */
module GlRmisc {
  import opened QCommon
  import opened RenderHmd

  /** MAX_SCOREBOARD: the number of player slots. */
  const MAX_SCOREBOARD: int := 16

  /** The light value every style starts a map with. */
  const NORMAL_LIGHT: int := 264

  /**
   * What R_InitHMDRenderer works from: the headset settings, the cvars it
   * reads, and the outcomes of the steps it cannot see (extension lookup,
   * shader compilation, SDK start).
   */
  datatype HmdInit = HmdInit(hmd: HmdSettings, supersample: real, chromabr: real, predictionMs: real,
                             driftCorrect: real, farclip: real, allResolved: bool, compileOk: bool,
                             sdkOk: bool, fovYDegrees: real)
  {
    predicate Usable()
    {
      Sane(hmd) && farclip != NEAR_CLIP
    }

    /** Whether the renderer ends up enabled, given whether the extensions were already found. */
    predicate Enables(extensionsFound: bool)
    {
      (extensionsFound || allResolved) && compileOk
    }
  }

  /** The Rift cvars the callbacks read and write, and the HMD renderer they drive. */
  class RiftCvars {
    var oculusrift: real
    var deadzone: real
    const renderer: HmdRenderer

    constructor (r: HmdRenderer)
      ensures renderer == r && oculusrift == 0.0 && deadzone == 30.0
    {
      renderer := r;
      oculusrift := 0.0;
      deadzone := 30.0;
    }

    /**
     * R_OculusRift_f: the renderer is always released first; when the cvar
     * is on it is initialised again, and a failed initialisation turns the
     * cvar's value off.
     */
    method OculusRiftChanged(init: HmdInit)
      requires renderer.Valid() && init.Usable()
      modifies this`oculusrift, renderer, renderer.leftProjection, renderer.rightProjection
      ensures renderer.Valid() && renderer.recalcRefdef
      ensures old(oculusrift) == 0.0 ==> oculusrift == 0.0 && !renderer.riftEnabled && renderer.liveFbos == {}
      ensures old(oculusrift) != 0.0 ==>
                && renderer.riftEnabled == init.Enables(old(renderer.shaderSupportInitialized))
                && (oculusrift != 0.0 <==> renderer.riftEnabled && init.sdkOk)
                && (oculusrift != 0.0 ==> oculusrift == old(oculusrift))
    {
      renderer.Release();
      if oculusrift == 0.0 {
        return;
      }
      var ok := renderer.Init(init.hmd, init.supersample, init.chromabr, init.predictionMs, init.driftCorrect,
                              init.farclip, init.allResolved, init.compileOk, init.sdkOk, init.fovYDegrees);
      if !ok {
        oculusrift := 0.0;
      }
    }

    /**
     * R_OculusRift_SuperSample_f and R_OculusRift_ChromAbr_f (the same
     * body): only while the cvar is on, the renderer is released and
     * initialised again; the outcome is not looked at.
     */
    method ReinitIfActive(init: HmdInit)
      requires renderer.Valid() && init.Usable()
      modifies renderer, renderer.leftProjection, renderer.rightProjection
      ensures renderer.Valid()
      ensures oculusrift == 0.0 ==>
                unchanged(renderer) && unchanged(renderer.leftProjection) && unchanged(renderer.rightProjection)
      ensures oculusrift != 0.0 ==> renderer.riftEnabled == init.Enables(old(renderer.shaderSupportInitialized))
    {
      if oculusrift != 0.0 {
        renderer.Release();
        var _ := renderer.Init(init.hmd, init.supersample, init.chromabr, init.predictionMs, init.driftCorrect,
                               init.farclip, init.allResolved, init.compileOk, init.sdkOk, init.fovYDegrees);
      }
    }

    /** R_OculusRift_Prediction_f: the new prediction time reaches the SDK only while the cvar and the renderer are on. */
    method PredictionChanged(predictionMs: real)
      modifies renderer`sdkPrediction
      ensures renderer.sdkPrediction ==
                if oculusrift != 0.0 && renderer.riftEnabled then predictionMs / 1000.0 else old(renderer.sdkPrediction)
    {
      if oculusrift != 0.0 {
        renderer.SetPredictionTime(predictionMs);
      }
    }

    /** R_OculusRift_DriftCorrect_f: likewise for the drift-correction flag. */
    method DriftCorrectChanged(driftCorrect: real)
      modifies renderer`sdkDriftCorrect
      ensures renderer.sdkDriftCorrect ==
                if oculusrift != 0.0 && renderer.riftEnabled then Trunc(driftCorrect) else old(renderer.sdkDriftCorrect)
    {
      if oculusrift != 0.0 {
        renderer.SetDriftCorrection(driftCorrect);
      }
    }

    /**
     * R_OculusRift_Deadzone_f: the deadzone is clamped to [0, 70] degrees
     * and written back only when clamping changed it; the write re-runs
     * the callback, which then leaves it alone.
     */
    method DeadzoneChanged()
      modifies this`deadzone
      ensures 0.0 <= old(deadzone) <= 70.0 ==> deadzone == old(deadzone)
      ensures !(0.0 <= old(deadzone) <= 70.0) ==> deadzone == Clamp(0.0, old(deadzone), 70.0)
      ensures 0.0 <= deadzone <= 70.0
    {
      var value := Clamp(0.0, deadzone, 70.0);
      if value != deadzone {
        deadzone := value;
        DeadzoneWriteSettles(old(deadzone));
      }
    }
  }

  /**
   * A failed SDK start turns the cvar off, yet the renderer stays enabled
   * with both eye framebuffers: the cvar and the renderer disagree until
   * the next release.
   */
  method SdkFailureDisagrees(c: RiftCvars, hmd: HmdSettings, farclip: real)
    requires c.renderer.Valid() && Sane(hmd) && farclip != NEAR_CLIP && c.oculusrift != 0.0
    modifies c, c.renderer, c.renderer.leftProjection, c.renderer.rightProjection
    ensures c.oculusrift == 0.0 && c.renderer.riftEnabled && |c.renderer.liveFbos| == 2
  {
    c.OculusRiftChanged(HmdInit(hmd, 1.0, 0.0, 0.0, 0.0, farclip, true, true, false, 0.0));
  }

  /**
   * The palette index of R_SetClearColor_f, (int)value & 0xFF: the low
   * byte of the truncated value in two's complement.
   */
  function ClearColorIndex(value: real): (s: int)
    ensures 0 <= s < 256
    ensures 0 <= Trunc(value) < 256 ==> s == Trunc(value)
    ensures exists k :: Trunc(value) == s + 256 * k
  {
    var t := Trunc(value);
    assert t == t % 256 + 256 * (t / 256);
    t % 256
  }

  /** Adding whole multiples of 256 to a non-negative value gives the same colour. */
  lemma ClearColorWraps(value: real, k: int)
    requires 0.0 <= value && 0 <= k
    ensures ClearColorIndex(value + 256.0 * k as real) == ClearColorIndex(value)
  {
    var t := Trunc(value);
    assert Trunc(value + 256.0 * k as real) == t + 256 * k;
    assert (t + 256 * k) % 256 == t % 256;
  }

  /** -1 selects the last palette entry, as its two's complement low byte is 0xFF. */
  lemma ClearColorMinusOne()
    ensures ClearColorIndex(-1.0) == 255 && ClearColorIndex(-1.5) == 255
  {
  }

  datatype Rgb = Rgb(r: int, g: int, b: int)
  datatype Rgba = Rgba(r: real, g: real, b: real, a: real)

  predicate BytePalette(palette: seq<Rgb>)
  {
    |palette| == 256 &&
    forall i :: 0 <= i < 256 ==> 0 <= palette[i].r < 256 && 0 <= palette[i].g < 256 && 0 <= palette[i].b < 256
  }

  /** The colour R_SetClearColor_f clears to: the palette entry scaled to [0, 1], alpha 0. */
  function ClearColor(palette: seq<Rgb>, value: real): (c: Rgba)
    requires BytePalette(palette)
    ensures 0.0 <= c.r <= 1.0 && 0.0 <= c.g <= 1.0 && 0.0 <= c.b <= 1.0 && c.a == 0.0
    ensures var e := palette[ClearColorIndex(value)];
            c.r * 255.0 == e.r as real && c.g * 255.0 == e.g as real && c.b * 255.0 == e.b as real
  {
    var e := palette[ClearColorIndex(value)];
    Rgba(e.r as real / 255.0, e.g as real / 255.0, e.b as real / 255.0, 0.0)
  }

  /** The shirt and pants colours of a player: (colors & 0xf0) >> 4 and colors & 15, on two's complement. */
  function SkinColors(colors: int): (tb: (int, int))
    ensures 0 <= tb.0 < 16 && 0 <= tb.1 < 16
    ensures 0 <= colors < 256 ==> tb.0 * 16 + tb.1 == colors
  {
    ((colors % 256) / 16, colors % 16)
  }

  /** Packing a top and bottom colour as the server does and splitting it again gives them back. */
  lemma SkinColorsRoundTrip(top: int, bottom: int)
    requires 0 <= top < 16 && 0 <= bottom < 16
    ensures SkinColors(top * 16 + bottom) == (top, bottom)
  {
  }

  /** Only the low byte matters. */
  lemma SkinColorsLowByte(colors: int, k: int)
    ensures SkinColors(colors + 256 * k) == SkinColors(colors)
  {
    assert (colors + 256 * k) % 256 == colors % 256;
    assert (colors + 256 * k) % 16 == colors % 16 by {
      assert colors + 256 * k == colors + 16 * (16 * k);
    }
  }

  /** The skin used by R_TranslateNewPlayerSkin: an out-of-range skin number falls back to skin 0. */
  function ValidSkin(skinnum: int, numskins: int): (s: int)
    ensures 0 <= skinnum < numskins ==> s == skinnum
    ensures 1 <= numskins ==> 0 <= s < numskins
    ensures !(0 <= skinnum < numskins) ==> s == 0
  {
    if skinnum < 0 || skinnum >= numskins then 0 else skinnum
  }

  /** A validated skin number is valid. */
  lemma ValidSkinIdempotent(skinnum: int, numskins: int)
    ensures ValidSkin(ValidSkin(skinnum, numskins), numskins) == ValidSkin(skinnum, numskins)
  {
  }

  /** The texture uploaded for a player, by player slot and skin number. */
  datatype PlayerTexture = PlayerTexture(playernum: int, skin: int)

  /** A TexMgr_ReloadImage call recolouring a player texture. */
  datatype Reload = Reload(texture: PlayerTexture, top: int, bottom: int)

  /** The renderer globals reset on a new game and a new map. */
  class RenderGlobals {
    const playertextures: array<Option<PlayerTexture>>
    const lightstylevalue: array<int>
    var framecount: int
    var visframecount: int
    var viewleaf: Option<int>
    var loadSubdivideSize: real

    constructor ()
      ensures playertextures.Length == MAX_SCOREBOARD && lightstylevalue.Length == 256
      ensures fresh(playertextures) && fresh(lightstylevalue)
    {
      playertextures := new Option<PlayerTexture>[MAX_SCOREBOARD](_ => None);
      lightstylevalue := new int[256](_ => 0);
      framecount, visframecount := 0, 0;
      viewleaf := None;
      loadSubdivideSize := 0.0;
    }

    /**
     * R_TranslatePlayerSkin: the player's texture is recoloured with the
     * split colours, unless gl_nocolors is on or the player has no texture.
     */
    method TranslatePlayerSkin(playernum: int, colors: int, nocolors: real) returns (reload: Option<Reload>)
      requires 0 <= playernum < playertextures.Length
      ensures reload.Some? <==> nocolors == 0.0 && playertextures[playernum].Some?
      ensures reload.Some? ==>
                reload.value == Reload(playertextures[playernum].value, SkinColors(colors).0, SkinColors(colors).1)
    {
      var top := (colors % 256) / 16;
      var bottom := colors % 16;
      reload := None;
      if nocolors == 0.0 {
        if playertextures[playernum].Some? {
          reload := Some(Reload(playertextures[playernum].value, top, bottom));
        }
      }
    }

    /**
     * R_TranslateNewPlayerSkin: for an alias model, the texture of the
     * validated skin is uploaded into the player's slot and recoloured.
     * The skin table has at least one skin.
     */
    method TranslateNewPlayerSkin(playernum: int, isAlias: bool, skinnum: int, numskins: int, colors: int,
                                  nocolors: real) returns (reload: Option<Reload>)
      requires 0 <= playernum < playertextures.Length
      requires isAlias ==> 1 <= numskins
      modifies playertextures
      ensures !isAlias ==> reload.None? && playertextures[..] == old(playertextures[..])
      ensures isAlias ==>
                var t := PlayerTexture(playernum, ValidSkin(skinnum, numskins));
                && playertextures[..] == old(playertextures[..])[playernum := Some(t)]
                && 0 <= t.skin < numskins
                && reload == if nocolors == 0.0 then Some(Reload(t, SkinColors(colors).0, SkinColors(colors).1)) else None
    {
      if !isAlias {
        return None;
      }
      var skin := skinnum;
      if skin < 0 || skin >= numskins {
        skin := 0;
      }
      playertextures[playernum] := Some(PlayerTexture(playernum, skin));
      reload := TranslatePlayerSkin(playernum, colors, nocolors);
    }

    /** R_NewGame: every player texture pointer is cleared. */
    method NewGame()
      requires playertextures.Length == MAX_SCOREBOARD
      modifies playertextures
      ensures forall i :: 0 <= i < MAX_SCOREBOARD ==> playertextures[i].None?
    {
      var i := 0;
      while i < MAX_SCOREBOARD
        invariant 0 <= i <= MAX_SCOREBOARD
        invariant forall k :: 0 <= k < i ==> playertextures[k].None?
      {
        playertextures[i] := None;
        i := i + 1;
      }
    }

    /**
     * R_NewMap: all 256 light styles are set to the normal value, the
     * efrag lists of the first numleafs leaves are emptied (later entries
     * are left alone), the view leaf is forgotten and both frame counters
     * restart from 0.
     */
    method NewMap(leafEfrags: array<Option<nat>>, numleafs: int, subdivideSize: real)
      requires lightstylevalue.Length == 256 && 0 <= numleafs <= leafEfrags.Length
      modifies lightstylevalue, leafEfrags, this`framecount, this`visframecount, this`viewleaf,
               this`loadSubdivideSize
      ensures forall i :: 0 <= i < 256 ==> lightstylevalue[i] == NORMAL_LIGHT
      ensures forall i :: 0 <= i < numleafs ==> leafEfrags[i].None?
      ensures leafEfrags[numleafs..] == old(leafEfrags[numleafs..])
      ensures viewleaf.None? && framecount == 0 && visframecount == 0 && loadSubdivideSize == subdivideSize
    {
      var i := 0;
      while i < 256
        modifies lightstylevalue
        invariant 0 <= i <= 256
        invariant forall k :: 0 <= k < i ==> lightstylevalue[k] == NORMAL_LIGHT
      {
        lightstylevalue[i] := NORMAL_LIGHT;
        i := i + 1;
      }
      i := 0;
      while i < numleafs
        modifies leafEfrags
        invariant 0 <= i <= numleafs
        invariant forall k :: 0 <= k < i ==> leafEfrags[k].None?
        invariant leafEfrags[numleafs..] == old(leafEfrags[numleafs..])
      {
        leafEfrags[i] := None;
        i := i + 1;
      }
      viewleaf := None;
      framecount := 0;
      visframecount := 0;
      loadSubdivideSize := subdivideSize;
    }
  }
}
