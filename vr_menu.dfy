/**
 * The VR options menu of Quake/vr_menu.c: a cursor over eight options that
 * wraps at both ends, one stepper per option that saturates at its bounds,
 * and the text shown beside each option.
 *
 * Sounds and drawing are left out; the cvars the menu writes are a record
 * field, and the callbacks those writes trigger belong to the modules that
 * register them.
 */
module VrMenu {
  import opened QCommon

  /** vr_menu_options_t. */
  const VR_OPTION_ENABLED := 0
  const VR_OPTION_PERFHUD := 1
  const VR_OPTION_AIMMODE := 2
  const VR_OPTION_DEADZONE := 3
  const VR_OPTION_CROSSHAIR := 4
  const VR_OPTION_CROSSHAIR_DEPTH := 5
  const VR_OPTION_CROSSHAIR_SIZE := 6
  const VR_OPTION_CROSSHAIR_ALPHA := 7
  const VR_OPTION_MAX := 8

  /** The stepper tables and step sizes of VR_MenuKeyOption. */
  const PerfhudTable: seq<int> := [0, 1, 2, 3, 4]
  const AimmodeTable: seq<int> := [1, 2, 3, 4, 5, 6]
  const CrosshairTable: seq<int> := [0, 1, 2]
  const DEADZONE_STEP := 5
  const DEADZONE_MAX := 180
  const CROSSHAIR_DEPTH_STEP := 32
  const CROSSHAIR_DEPTH_MAX := 4096
  const CROSSHAIR_SIZE_STEP := 1
  const CROSSHAIR_SIZE_MAX := 32
  const CROSSHAIR_ALPHA_STEP := 0.05

  /** The keys the menu reacts to; every other key is ignored. */
  datatype Key = Escape | UpArrow | DownArrow | LeftArrow | RightArrow | Enter | OtherKey(code: int)

  /** The float cvars the menu shows and writes. */
  datatype MenuCvars = MenuCvars(enabled: real, perfhud: real, aimmode: real, deadzone: real,
                                 crosshair: real, crosshairDepth: real, crosshairSize: real,
                                 crosshairAlpha: real)

  /** Which menu is up: this one, the options menu it returns to, or another. */
  datatype MenuState = VrOptions | Options | Elsewhere

  /** An int stepper: one step down or up from the truncated value, clamped to [lo, hi]. */
  function Step(value: real, isLeft: bool, step: int, lo: int, hi: int): (r: int)
    requires lo <= hi
    ensures lo <= r <= hi
    ensures isLeft && lo <= Trunc(value) - step <= hi ==> r == Trunc(value) - step
    ensures !isLeft && lo <= Trunc(value) + step <= hi ==> r == Trunc(value) + step
  {
    var v := Trunc(value);
    ClampInt(lo, if isLeft then v - step else v + step, hi)
  }

  /**
   * The aim-mode stepper: the clamped value, less one, indexes the table of
   * six modes, so the index is always in bounds.
   */
  function AimmodeStep(value: real, isLeft: bool): (r: int)
    ensures 1 <= r <= 6
    ensures 1 <= Trunc(value) <= 6 ==> -1 <= r - Trunc(value) <= 1
  {
    var v := Trunc(value);
    var clamped := ClampInt(AimmodeTable[0], if isLeft then v - 1 else v + 1, |AimmodeTable|);
    AimmodeTable[clamped - 1]
  }

  /** The float stepper of the crosshair alpha. */
  function AlphaStep(value: real, isLeft: bool): (r: real)
    ensures 0.0 <= r <= 1.0
  {
    Clamp(0.0, if isLeft then value - CROSSHAIR_ALPHA_STEP else value + CROSSHAIR_ALPHA_STEP, 1.0)
  }

  /**
   * VR_MenuKeyOption: the cvars after Left (`isLeft`) or Right/Enter on an
   * option. The checkbox toggles whatever the direction.
   */
  function AdjustOption(c: MenuCvars, option: int, isLeft: bool): (r: MenuCvars)
    ensures option == VR_OPTION_ENABLED ==> r == c.(enabled := if Trunc(c.enabled) == 0 then 1.0 else 0.0)
    ensures option == VR_OPTION_PERFHUD ==> r == c.(perfhud := r.perfhud) && 0.0 <= r.perfhud <= 4.0
    ensures option == VR_OPTION_AIMMODE ==> r == c.(aimmode := r.aimmode) && 1.0 <= r.aimmode <= 6.0
    ensures option == VR_OPTION_DEADZONE ==> r == c.(deadzone := r.deadzone) && 0.0 <= r.deadzone <= 180.0
    ensures option == VR_OPTION_CROSSHAIR ==> r == c.(crosshair := r.crosshair) && 0.0 <= r.crosshair <= 2.0
    ensures option == VR_OPTION_CROSSHAIR_DEPTH ==>
      r == c.(crosshairDepth := r.crosshairDepth) && 0.0 <= r.crosshairDepth <= 4096.0
    ensures option == VR_OPTION_CROSSHAIR_SIZE ==>
      r == c.(crosshairSize := r.crosshairSize) && 0.0 <= r.crosshairSize <= 32.0
    ensures option == VR_OPTION_CROSSHAIR_ALPHA ==>
      r == c.(crosshairAlpha := r.crosshairAlpha) && 0.0 <= r.crosshairAlpha <= 1.0
    ensures !(0 <= option < VR_OPTION_MAX) ==> r == c
  {
    if option == VR_OPTION_ENABLED then
      c.(enabled := if Trunc(c.enabled) == 0 then 1.0 else 0.0)
    else if option == VR_OPTION_PERFHUD then
      c.(perfhud := Step(c.perfhud, isLeft, 1, PerfhudTable[0], PerfhudTable[|PerfhudTable| - 1]) as real)
    else if option == VR_OPTION_AIMMODE then
      c.(aimmode := AimmodeStep(c.aimmode, isLeft) as real)
    else if option == VR_OPTION_DEADZONE then
      c.(deadzone := Step(c.deadzone, isLeft, DEADZONE_STEP, 0, DEADZONE_MAX) as real)
    else if option == VR_OPTION_CROSSHAIR then
      c.(crosshair := Step(c.crosshair, isLeft, 1, CrosshairTable[0], CrosshairTable[|CrosshairTable| - 1]) as real)
    else if option == VR_OPTION_CROSSHAIR_DEPTH then
      c.(crosshairDepth := Step(c.crosshairDepth, isLeft, CROSSHAIR_DEPTH_STEP, 0, CROSSHAIR_DEPTH_MAX) as real)
    else if option == VR_OPTION_CROSSHAIR_SIZE then
      c.(crosshairSize := Step(c.crosshairSize, isLeft, CROSSHAIR_SIZE_STEP, 0, CROSSHAIR_SIZE_MAX) as real)
    else if option == VR_OPTION_CROSSHAIR_ALPHA then
      c.(crosshairAlpha := AlphaStep(c.crosshairAlpha, isLeft))
    else
      c
  }

  /**
   * Right then Left undoes a step that did not saturate, for every stepped
   * option holding a whole number: the steppers are inverse to each other
   * inside their ranges.
   */
  lemma StepsUndo(c: MenuCvars, option: int, v: int)
    requires option in {VR_OPTION_PERFHUD, VR_OPTION_AIMMODE, VR_OPTION_DEADZONE, VR_OPTION_CROSSHAIR,
                        VR_OPTION_CROSSHAIR_DEPTH, VR_OPTION_CROSSHAIR_SIZE}
    requires option == VR_OPTION_PERFHUD ==> c.perfhud == v as real && 0 <= v < 4
    requires option == VR_OPTION_AIMMODE ==> c.aimmode == v as real && 1 <= v < 6
    requires option == VR_OPTION_DEADZONE ==> c.deadzone == v as real && 0 <= v <= DEADZONE_MAX - DEADZONE_STEP
    requires option == VR_OPTION_CROSSHAIR ==> c.crosshair == v as real && 0 <= v < 2
    requires option == VR_OPTION_CROSSHAIR_DEPTH ==>
      c.crosshairDepth == v as real && 0 <= v <= CROSSHAIR_DEPTH_MAX - CROSSHAIR_DEPTH_STEP
    requires option == VR_OPTION_CROSSHAIR_SIZE ==> c.crosshairSize == v as real && 0 <= v < CROSSHAIR_SIZE_MAX
    ensures AdjustOption(AdjustOption(c, option, false), option, true) == c
  {
    var up := AdjustOption(c, option, false);
    assert Trunc(v as real) == v;
    if option == VR_OPTION_AIMMODE {
      assert up.aimmode == (v + 1) as real;
      assert Trunc((v + 1) as real) == v + 1;
    } else if option == VR_OPTION_PERFHUD {
      assert Trunc((v + 1) as real) == v + 1;
    } else if option == VR_OPTION_DEADZONE {
      assert Trunc((v + DEADZONE_STEP) as real) == v + DEADZONE_STEP;
    } else if option == VR_OPTION_CROSSHAIR {
      assert Trunc((v + 1) as real) == v + 1;
    } else if option == VR_OPTION_CROSSHAIR_DEPTH {
      assert Trunc((v + CROSSHAIR_DEPTH_STEP) as real) == v + CROSSHAIR_DEPTH_STEP;
    } else {
      assert Trunc((v + CROSSHAIR_SIZE_STEP) as real) == v + CROSSHAIR_SIZE_STEP;
    }
  }

  /** Toggling the checkbox twice from a whole value 0 or 1 restores it. */
  lemma ToggleTwice(c: MenuCvars, isLeft: bool)
    requires c.enabled == 0.0 || c.enabled == 1.0
    ensures AdjustOption(AdjustOption(c, VR_OPTION_ENABLED, isLeft), VR_OPTION_ENABLED, !isLeft) == c
  {
    assert Trunc(0.0) == 0 && Trunc(1.0) == 1;
  }

  /**
   * The deadzone the menu writes re-enters the VR module's callback, which
   * re-clamps it to [0, 70]: after both, the deadzone is in [0, 70].
   */
  lemma MenuDeadzoneSettlesInCallbackRange(c: MenuCvars, isLeft: bool)
    ensures var menu := AdjustOption(c, VR_OPTION_DEADZONE, isLeft).deadzone;
            var settled := match DeadzoneWrite(menu) case Some(w) => w case None => menu;
            0.0 <= settled <= 70.0
  {
  }

  /** The text for the perfhud values 1..4; any other value shows "off". */
  function PerfhudLabel(value: real): (s: string)
    ensures s == "off" <==> !(value in {1.0, 2.0, 3.0, 4.0})
  {
    if value == 1.0 then "Latency Timing"
    else if value == 2.0 then "Render Timing"
    else if value == 3.0 then "Perf Headroom"
    else if value == 4.0 then "Version Info"
    else "off"
  }

  /** The aim-mode names; an unknown mode is shown as blended. */
  function AimmodeLabel(mode: int): (s: string)
    ensures !(1 <= mode <= 6) ==> s == "BLENDED"
  {
    match mode
    case 1 => "HEAD_MYAW"
    case 2 => "HEAD_MYAW_MPITCH"
    case 3 => "MOUSE_MYAW"
    case 4 => "MOUSE_MYAW_MPITCH"
    case 6 => "BLENDED_NOPITCH"
    case _ => "BLENDED"
  }

  /** The six aim modes have six different names. */
  lemma AimmodeLabelsDistinct(a: int, b: int)
    requires 1 <= a <= 6 && 1 <= b <= 6 && a != b
    ensures AimmodeLabel(a) != AimmodeLabel(b)
  {
  }

  /** The crosshair styles: 2 is a line, 1 a point, anything else off. */
  function CrosshairLabel(value: real): (s: string)
    ensures Trunc(value) == 2 <==> s == "line"
    ensures Trunc(value) == 1 <==> s == "point"
    ensures s == "off" <==> !(Trunc(value) in {1, 2})
  {
    var v := Trunc(value);
    if v == 2 then "line" else if v == 1 then "point" else "off"
  }

  /** What VR_MenuPrintOptionValue draws beside an option. */
  datatype OptionValue =
    | Checkbox(on: bool)
    | Text(s: string)
    | Quantity(amount: real, unit: string)
    | Slider(range: real)
    | Nothing

  function QuantityOrOff(value: real, unit: string): (v: OptionValue)
    ensures v.Quantity? <==> value > 0.0
    ensures v.Quantity? ==> v.amount == value && v.unit == unit
    ensures !v.Quantity? ==> v == Text("off")
  {
    if value > 0.0 then Quantity(value, unit) else Text("off")
  }

  function ShowOption(c: MenuCvars, option: int): (v: OptionValue)
    ensures option == VR_OPTION_ENABLED ==> v == Checkbox(Trunc(c.enabled) != 0)
    ensures option == VR_OPTION_CROSSHAIR_ALPHA ==> v == Slider(c.crosshairAlpha)
    ensures !(0 <= option < VR_OPTION_MAX) ==> v == Nothing
    ensures option in {VR_OPTION_PERFHUD, VR_OPTION_AIMMODE, VR_OPTION_CROSSHAIR} ==> v.Text?
  {
    if option == VR_OPTION_ENABLED then Checkbox(Trunc(c.enabled) != 0)
    else if option == VR_OPTION_PERFHUD then Text(PerfhudLabel(c.perfhud))
    else if option == VR_OPTION_AIMMODE then Text(AimmodeLabel(Trunc(c.aimmode)))
    else if option == VR_OPTION_DEADZONE then QuantityOrOff(c.deadzone, " degrees")
    else if option == VR_OPTION_CROSSHAIR then Text(CrosshairLabel(c.crosshair))
    else if option == VR_OPTION_CROSSHAIR_DEPTH then QuantityOrOff(c.crosshairDepth, " units")
    else if option == VR_OPTION_CROSSHAIR_SIZE then QuantityOrOff(c.crosshairSize, " pixels")
    else if option == VR_OPTION_CROSSHAIR_ALPHA then Slider(c.crosshairAlpha)
    else Nothing
  }

  /** After any step of the aim-mode option, the shown name is that of the mode now set. */
  lemma SteppedAimmodeShowsItsName(c: MenuCvars, isLeft: bool)
    ensures var r := AdjustOption(c, VR_OPTION_AIMMODE, isLeft);
            ShowOption(r, VR_OPTION_AIMMODE) == Text(AimmodeLabel(Trunc(r.aimmode))) &&
            1 <= Trunc(r.aimmode) <= 6
  {
    var r := AdjustOption(c, VR_OPTION_AIMMODE, isLeft);
    var m := AimmodeStep(c.aimmode, isLeft);
    assert r.aimmode == m as real;
    assert Trunc(m as real) == m;
  }

  /** The menu's own state: the static cursor, the cvars it edits, and the menu globals it sets. */
  class VrMenuState {
    var cursor: int
    var cvars: MenuCvars
    var state: MenuState
    var enterSound: bool

    ghost predicate Valid()
      reads this
    {
      0 <= cursor < VR_OPTION_MAX
    }

    constructor (c: MenuCvars)
      ensures Valid() && cursor == 0 && cvars == c && state == Elsewhere && !enterSound
    {
      cursor := 0;
      cvars := c;
      state := Elsewhere;
      enterSound := false;
    }

    /** VR_Menu_f: bring the menu up. */
    method Open()
      modifies this`state, this`enterSound
      ensures state == VrOptions && enterSound
    {
      state := VrOptions;
      enterSound := true;
    }

    /** VR_MenuKeyOption: apply a left or right step to one option's cvar. */
    method KeyOption(key: Key, option: int)
      modifies this`cvars
      ensures cvars == AdjustOption(old(cvars), option, key == LeftArrow)
    {
      var isLeft := key == LeftArrow;
      var c := cvars;
      if option == VR_OPTION_ENABLED {
        c := c.(enabled := if Trunc(c.enabled) == 0 then 1.0 else 0.0);
      } else if option == VR_OPTION_PERFHUD {
        var intValue := Trunc(c.perfhud);
        intValue := ClampInt(PerfhudTable[0], if isLeft then intValue - 1 else intValue + 1,
                             PerfhudTable[|PerfhudTable| - 1]);
        c := c.(perfhud := intValue as real);
      } else if option == VR_OPTION_AIMMODE {
        var intValue := Trunc(c.aimmode);
        intValue := ClampInt(AimmodeTable[0], if isLeft then intValue - 1 else intValue + 1, |AimmodeTable|);
        intValue := intValue - 1;
        c := c.(aimmode := AimmodeTable[intValue] as real);
      } else if option == VR_OPTION_DEADZONE {
        var intValue := Trunc(c.deadzone);
        intValue := ClampInt(0, if isLeft then intValue - DEADZONE_STEP else intValue + DEADZONE_STEP, DEADZONE_MAX);
        c := c.(deadzone := intValue as real);
      } else if option == VR_OPTION_CROSSHAIR {
        var intValue := Trunc(c.crosshair);
        intValue := ClampInt(CrosshairTable[0], if isLeft then intValue - 1 else intValue + 1,
                             CrosshairTable[|CrosshairTable| - 1]);
        c := c.(crosshair := intValue as real);
      } else if option == VR_OPTION_CROSSHAIR_DEPTH {
        var intValue := Trunc(c.crosshairDepth);
        intValue := ClampInt(0, if isLeft then intValue - CROSSHAIR_DEPTH_STEP else intValue + CROSSHAIR_DEPTH_STEP,
                             CROSSHAIR_DEPTH_MAX);
        c := c.(crosshairDepth := intValue as real);
      } else if option == VR_OPTION_CROSSHAIR_SIZE {
        var intValue := Trunc(c.crosshairSize);
        intValue := ClampInt(0, if isLeft then intValue - CROSSHAIR_SIZE_STEP else intValue + CROSSHAIR_SIZE_STEP,
                             CROSSHAIR_SIZE_MAX);
        c := c.(crosshairSize := intValue as real);
      } else if option == VR_OPTION_CROSSHAIR_ALPHA {
        var floatValue := c.crosshairAlpha;
        floatValue := Clamp(0.0, if isLeft then floatValue - CROSSHAIR_ALPHA_STEP else floatValue + CROSSHAIR_ALPHA_STEP,
                            1.0);
        c := c.(crosshairAlpha := floatValue);
      }
      cvars := c;
    }

    /**
     * VR_MenuKey: Escape returns to the options menu, Up and Down move the
     * cursor with wrap-around, Left, Right and Enter step the selected option.
     */
    method MenuKey(key: Key)
      requires Valid()
      modifies this
      ensures Valid()
      ensures key == UpArrow ==> cursor == (if old(cursor) == 0 then VR_OPTION_MAX - 1 else old(cursor) - 1)
      ensures key == DownArrow ==> cursor == (if old(cursor) == VR_OPTION_MAX - 1 then 0 else old(cursor) + 1)
      ensures key !in {UpArrow, DownArrow} ==> cursor == old(cursor)
      ensures key in {LeftArrow, RightArrow, Enter} ==>
        cvars == AdjustOption(old(cvars), old(cursor), key == LeftArrow)
      ensures key !in {LeftArrow, RightArrow, Enter} ==> cvars == old(cvars)
      ensures state == if key == Escape then Options else old(state)
      ensures enterSound == (old(enterSound) || key == Enter)
    {
      match key
      case Escape =>
        state := Options;
      case UpArrow =>
        cursor := cursor - 1;
        if cursor < 0 {
          cursor := VR_OPTION_MAX - 1;
        }
      case DownArrow =>
        cursor := cursor + 1;
        if cursor >= VR_OPTION_MAX {
          cursor := 0;
        }
      case LeftArrow =>
        KeyOption(key, cursor);
      case RightArrow =>
        KeyOption(key, cursor);
      case Enter =>
        enterSound := true;
        KeyOption(key, cursor);
      case OtherKey(_) =>
    }
  }

  /** Up then Down, or Down then Up, brings the cursor back and changes no cvar. */
  method UpDownRoundTrip(m: VrMenuState, first: Key)
    requires m.Valid() && first in {UpArrow, DownArrow}
    modifies m
    ensures m.Valid() && m.cursor == old(m.cursor) && m.cvars == old(m.cvars)
  {
    m.MenuKey(first);
    m.MenuKey(if first == UpArrow then DownArrow else UpArrow);
  }
}
