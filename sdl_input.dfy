/**
 * The SDL input layer's own state: the mouse-delta accumulators, the raw
 * joystick axes, the client aim angles that mouse look turns, the
 * game-key mode that decides how key presses are translated, and the Quake
 * key events the SDL events turn into.
 *
 * Cvars and button states are passed as records. The joystick deadzone
 * (a square root) and the sine response curve (a cosine) are parameters;
 * console output, cursor grabbing and the SDL calls are left out.
 */
module SdlInput {

  import opened QCommon
  import opened SdlKeys

  datatype JoyAxis = JoyAxis(x: real, y: real)

  /** dualAxis_t: the previous and current values of both sticks. */
  datatype DualAxis = DualAxis(oldLeft: JoyAxis, oldRight: JoyAxis, left: JoyAxis, right: JoyAxis)

  /** The two sticks after filtering, as used by one IN_Move call. */
  datatype Sticks = Sticks(left: JoyAxis, right: JoyAxis)

  /** The movement part of usercmd_t. */
  datatype Usercmd = Usercmd(forwardmove: real, sidemove: real, upmove: real)

  /** The cvars IN_Move reads; flags are the cvars tested for nonzero. */
  datatype MoveCvars = MoveCvars(
    joyFilter: bool, joyFunction: real, joySensitivity: real,
    sidespeed: real, forwardspeed: real, movespeedkey: real,
    sensitivity: real, mSide: real, mYaw: real, mPitch: real, mForward: real,
    lookstrafe: bool, minPitch: real, maxPitch: real)

  /** Bit 0 of the states of the +strafe, +mlook and +speed buttons. */
  datatype Buttons = Buttons(strafe: bool, mlook: bool, speed: bool)

  /** joy_axismove_x/y and joy_axislook_x/y: which SDL axis drives each stick component. */
  datatype AxisCvars = AxisCvars(moveX: real, moveY: real, lookX: real, lookY: real)

  datatype KeyEvent = KeyEvent(key: QuakeKey, down: bool)

  const SINT16_MIN := -32768
  const SINT16_MAX := 32767

  /**
   * The integer step of NormalizeJoyInputValue: `(Uint16)(32768 + input)`.
   * The cast never wraps, because every Sint16 lands in [0, 65535].
   */
  function JoyConvert(input: int): (c: int)
    requires SINT16_MIN <= input <= SINT16_MAX
    ensures 0 <= c <= 0xFFFF
    ensures c == input + 32768
  {
    (32768 + input) % 0x10000
  }

  /** NormalizeJoyInputValue: a Sint16 axis reading scaled to [-1, 1]. */
  function Normalize(input: int): (r: real)
    requires SINT16_MIN <= input <= SINT16_MAX
    ensures -1.0 <= r <= 1.0
    ensures r > 0.0 <==> input >= 0
    ensures input == SINT16_MIN ==> r == -1.0
    ensures input == SINT16_MAX ==> r == 1.0
  {
    JoyConvert(input) as real / 32767.5 - 1.0
  }

  /** The scaling is symmetric about -1/2: a reading and its bitwise complement are opposite. */
  lemma NormalizeAntisymmetric(input: int)
    requires SINT16_MIN <= input <= SINT16_MAX
    ensures Normalize(-1 - input) == -Normalize(input)
  {
  }

  /** `(Uint8) cvar.value`: truncated and reduced to a byte. */
  function AxisIndex(v: real): (i: int)
    ensures 0 <= i < 256
    ensures 0.0 <= v < 256.0 ==> i == v.Floor
  {
    Trunc(v) % 256
  }

  /**
   * IN_JoyAxisMove's update: the reading goes to the first stick component
   * whose cvar names the axis, and to nothing when none does.
   */
  function AxisWrite(raw: DualAxis, axis: int, value: real, c: AxisCvars): (r: DualAxis)
    ensures r.oldLeft == raw.oldLeft && r.oldRight == raw.oldRight
    ensures AxisIndex(c.moveX) == axis ==> r == raw.(left := raw.left.(x := value))
    ensures AxisIndex(c.moveX) != axis && AxisIndex(c.moveY) == axis ==>
              r == raw.(left := raw.left.(y := value))
    ensures AxisIndex(c.moveX) != axis && AxisIndex(c.moveY) != axis && AxisIndex(c.lookX) == axis ==>
              r == raw.(right := raw.right.(x := value))
    ensures (AxisIndex(c.moveX) != axis && AxisIndex(c.moveY) != axis && AxisIndex(c.lookX) != axis
             && AxisIndex(c.lookY) == axis) ==> r == raw.(right := raw.right.(y := value))
    ensures axis !in {AxisIndex(c.moveX), AxisIndex(c.moveY), AxisIndex(c.lookX), AxisIndex(c.lookY)} ==>
              r == raw
  {
    if AxisIndex(c.moveX) == axis then raw.(left := raw.left.(x := value))
    else if AxisIndex(c.moveY) == axis then raw.(left := raw.left.(y := value))
    else if AxisIndex(c.lookX) == axis then raw.(right := raw.right.(x := value))
    else if AxisIndex(c.lookY) == axis then raw.(right := raw.right.(y := value))
    else raw
  }

  /** At most one stick component changes per axis event. */
  lemma AxisWriteChangesOneComponent(raw: DualAxis, axis: int, value: real, c: AxisCvars)
    ensures var r := AxisWrite(raw, axis, value, c);
            (if r.left.x != raw.left.x then 1 else 0) + (if r.left.y != raw.left.y then 1 else 0)
            + (if r.right.x != raw.right.x then 1 else 0) + (if r.right.y != raw.right.y then 1 else 0) <= 1
  {
  }

  /** The joy_filter step of IN_Move: the mean of each current and previous reading, or the readings. */
  function Filter(raw: DualAxis, filter: bool): (s: Sticks)
    ensures filter ==> (2.0 * s.left.x == raw.left.x + raw.oldLeft.x
                        && 2.0 * s.left.y == raw.left.y + raw.oldLeft.y
                        && 2.0 * s.right.x == raw.right.x + raw.oldRight.x
                        && 2.0 * s.right.y == raw.right.y + raw.oldRight.y)
    ensures !filter ==> s == Sticks(raw.left, raw.right)
    ensures raw.oldLeft == raw.left && raw.oldRight == raw.right ==> s == Sticks(raw.left, raw.right)
  {
    if filter then
      Sticks(JoyAxis((raw.left.x + raw.oldLeft.x) * 0.5, (raw.left.y + raw.oldLeft.y) * 0.5),
             JoyAxis((raw.right.x + raw.oldRight.x) * 0.5, (raw.right.y + raw.oldRight.y) * 0.5))
    else
      Sticks(raw.left, raw.right)
  }

  /** x raised to the n-th power. */
  function Pow(x: real, n: nat): real
  {
    if n == 0 then 1.0 else x * Pow(x, n - 1)
  }

  /**
   * The ease functions: 1 sine (a parameter here), then quadratic, cubic,
   * quartic and quintic, i.e. x to the power 2..5 for functions 2..5.
   */
  function Ease(fn: int, sine: real -> real, x: real): real
    requires 1 <= fn <= 5
  {
    if fn == 1 then sine(x) else Pow(x, fn)
  }

  /** dualfunc on one component: the curve is applied to |v| and the sign restored. */
  function Dual(fn: int, sine: real -> real, v: real): (r: real)
    requires 1 <= fn <= 5
  {
    if v < 0.0 then -Ease(fn, sine, -v) else Ease(fn, sine, v)
  }

  /** A nonzero reading and its negation come out of dualfunc as opposites. */
  lemma DualOdd(fn: int, sine: real -> real, v: real)
    requires 1 <= fn <= 5 && v != 0.0
    ensures Dual(fn, sine, -v) == -Dual(fn, sine, v)
  {
  }

  /** Scaling a positive value by a factor in (0, 1] keeps it positive and no larger. */
  lemma ScaleInUnit(a: real, b: real)
    requires 0.0 < a && 0.0 < b <= 1.0
    ensures 0.0 < b * a <= a
  {
    assert (1.0 - b) * a >= 0.0;
  }

  /** On (0, 1] every power from the first on stays positive and never exceeds its base. */
  lemma {:induction false} PowerInUnit(x: real, n: nat)
    requires 1 <= n && 0.0 < x <= 1.0
    ensures 0.0 < Pow(x, n) <= x
  {
    if n == 1 {
      assert Pow(x, 0) == 1.0;
    } else {
      var p := Pow(x, n - 1);
      PowerInUnit(x, n - 1);
      ScaleInUnit(p, x);
      assert Pow(x, n) == x * p;
      assert x * p <= p;
      assert p <= x;
    }
  }

  /**
   * The polynomial curves keep the sign of every stick reading and, for a
   * reading in [-1, 1], shrink its magnitude.
   */
  lemma {:induction false} CurvesPreserveSign(fn: int, sine: real -> real, v: real)
    requires 2 <= fn <= 5 && -1.0 <= v <= 1.0
    ensures v > 0.0 ==> 0.0 < Dual(fn, sine, v) <= v
    ensures v < 0.0 ==> v <= Dual(fn, sine, v) < 0.0
    ensures v == 0.0 ==> Dual(fn, sine, v) == 0.0
  {
    if v > 0.0 {
      PowerInUnit(v, fn);
    } else if v < 0.0 {
      PowerInUnit(-v, fn);
    } else {
      assert Pow(v, fn) == v * Pow(v, fn - 1);
    }
  }

  /** The joy_function switch: 1..5 apply dualfunc to all four components, anything else leaves them. */
  function ApplyCurve(s: Sticks, joyFunction: real, sine: real -> real): (r: Sticks)
    ensures !(1 <= Trunc(joyFunction) <= 5) ==> r == s
    ensures 1 <= Trunc(joyFunction) <= 5 ==>
              r.left == JoyAxis(Dual(Trunc(joyFunction), sine, s.left.x), Dual(Trunc(joyFunction), sine, s.left.y))
              && r.right == JoyAxis(Dual(Trunc(joyFunction), sine, s.right.x), Dual(Trunc(joyFunction), sine, s.right.y))
  {
    var fn := Trunc(joyFunction);
    if 1 <= fn <= 5 then
      Sticks(JoyAxis(Dual(fn, sine, s.left.x), Dual(fn, sine, s.left.y)),
             JoyAxis(Dual(fn, sine, s.right.x), Dual(fn, sine, s.right.y)))
    else s
  }

  /** The left stick moves the player: x strafes at cl_sidespeed, y walks at cl_forwardspeed. */
  function JoyMove(cmd: Usercmd, left: JoyAxis, cv: MoveCvars): (r: Usercmd)
    ensures r.sidemove == cmd.sidemove + cv.sidespeed * left.x
    ensures r.forwardmove == cmd.forwardmove - cv.forwardspeed * left.y
    ensures r.upmove == cmd.upmove
  {
    var side := if left.x != 0.0 then cmd.sidemove + cv.sidespeed * left.x else cmd.sidemove;
    var forward := if left.y != 0.0 then cmd.forwardmove - cv.forwardspeed * left.y else cmd.forwardmove;
    Usercmd(forward, side, cmd.upmove)
  }

  /**
   * The speed key. With "always run" (cl_forwardspeed > 200) the speed key
   * slows forward motion down; without it, the speed key speeds all three
   * motions up. Unheld, always-run leaves forward motion as it was and
   * scales the other two. A zero cl_movespeedkey skips the division, so
   * always-run then stops all motion unless the speed key is held.
   */
  function SpeedKey(cmd: Usercmd, cv: MoveCvars, speed: bool): (r: Usercmd)
    ensures !(cv.forwardspeed > 200.0) && !speed ==> r == cmd
    ensures !(cv.forwardspeed > 200.0) && speed ==>
              r == Usercmd(cmd.forwardmove * cv.movespeedkey, cmd.sidemove * cv.movespeedkey, cmd.upmove * cv.movespeedkey)
    ensures cv.forwardspeed > 200.0 && speed && cv.movespeedkey != 0.0 ==>
              r == cmd.(forwardmove := cmd.forwardmove / cv.movespeedkey)
    ensures cv.forwardspeed > 200.0 && !speed && cv.movespeedkey != 0.0 ==>
              r == Usercmd(cmd.forwardmove, cmd.sidemove * cv.movespeedkey, cmd.upmove * cv.movespeedkey)
    ensures cv.forwardspeed > 200.0 && speed && cv.movespeedkey == 0.0 ==> r == cmd
    ensures cv.forwardspeed > 200.0 && !speed && cv.movespeedkey == 0.0 ==> r == Usercmd(0.0, 0.0, 0.0)
  {
    var k := cv.movespeedkey;
    var forward := if cv.forwardspeed > 200.0 && k != 0.0 then cmd.forwardmove / k else cmd.forwardmove;
    if (cv.forwardspeed > 200.0) != speed then
      Usercmd(forward * k, cmd.sidemove * k, cmd.upmove * k)
    else
      cmd.(forwardmove := forward)
  }

  /** `total += axis * joy_sensitivity` on an int: the float sum is truncated back. */
  function LookTotal(total: int, axis: real, joySensitivity: real): (t: int)
    ensures axis * joySensitivity == 0.0 ==> t == total
    ensures Abs(t - total) as real <= (if axis * joySensitivity < 0.0 then -(axis * joySensitivity) else axis * joySensitivity) + 1.0
  {
    Trunc(total as real + axis * joySensitivity)
  }

  /** `dmx = total_dx * sensitivity.value`: truncated toward zero. */
  function MouseDelta(total: int, sensitivity: real): (d: int)
    ensures total == 0 ==> d == 0
    ensures 0.0 <= sensitivity ==> (total >= 0 ==> d >= 0) && (total <= 0 ==> d <= 0)
  {
    Trunc(total as real * sensitivity)
  }

  datatype Look = Look(cmd: Usercmd, aim: Angles)

  /**
   * The mouse part of IN_Move. Horizontal motion strafes when +strafe is
   * held or lookstrafe is on with +mlook, and turns the aim yaw otherwise.
   * Vertical motion turns the aim pitch under +mlook without +strafe,
   * clamped to cl_maxpitch and then cl_minpitch; otherwise it moves the
   * player up (strafe while noclipping) or forward.
   */
  function MouseLook(cmd: Usercmd, aim: Angles, dmx: int, dmy: int, cv: MoveCvars, b: Buttons, noclipAnglehack: bool): (r: Look)
    ensures r.aim.roll == aim.roll
    ensures b.strafe || (cv.lookstrafe && b.mlook) ==>
              r.aim.yaw == aim.yaw && r.cmd.sidemove == cmd.sidemove + cv.mSide * dmx as real
    ensures !(b.strafe || (cv.lookstrafe && b.mlook)) ==>
              r.aim.yaw == aim.yaw - cv.mYaw * dmx as real && r.cmd.sidemove == cmd.sidemove
    ensures b.mlook && !b.strafe && cv.minPitch <= cv.maxPitch ==> cv.minPitch <= r.aim.pitch <= cv.maxPitch
    ensures b.mlook && !b.strafe && cv.minPitch <= aim.pitch + cv.mPitch * dmy as real <= cv.maxPitch ==>
              r.aim.pitch == aim.pitch + cv.mPitch * dmy as real
    ensures b.mlook && !b.strafe ==> r.cmd.forwardmove == cmd.forwardmove && r.cmd.upmove == cmd.upmove
    ensures !(b.mlook && !b.strafe) ==> r.aim.pitch == aim.pitch
    ensures !(b.mlook && !b.strafe) && b.strafe && noclipAnglehack ==>
              r.cmd.upmove == cmd.upmove - cv.mForward * dmy as real && r.cmd.forwardmove == cmd.forwardmove
    ensures !(b.mlook && !b.strafe) && !(b.strafe && noclipAnglehack) ==>
              r.cmd.forwardmove == cmd.forwardmove - cv.mForward * dmy as real && r.cmd.upmove == cmd.upmove
  {
    var sideways := b.strafe || (cv.lookstrafe && b.mlook);
    var cmd1 := if sideways then cmd.(sidemove := cmd.sidemove + cv.mSide * dmx as real) else cmd;
    var yaw := if sideways then aim.yaw else aim.yaw - cv.mYaw * dmx as real;
    if b.mlook && !b.strafe then
      var p := aim.pitch + cv.mPitch * dmy as real;
      var p1 := if p > cv.maxPitch then cv.maxPitch else p;
      var p2 := if p1 < cv.minPitch then cv.minPitch else p1;
      Look(cmd1, Angles(p2, yaw, aim.roll))
    else if b.strafe && noclipAnglehack then
      Look(cmd1.(upmove := cmd1.upmove - cv.mForward * dmy as real), Angles(aim.pitch, yaw, aim.roll))
    else
      Look(cmd1.(forwardmove := cmd1.forwardmove - cv.mForward * dmy as real), Angles(aim.pitch, yaw, aim.roll))
  }

  /** With cl_minpitch above cl_maxpitch the later clamp wins: pitch ends at cl_minpitch. */
  lemma InvertedPitchLimitsGiveMin(cmd: Usercmd, aim: Angles, dmx: int, dmy: int, cv: MoveCvars, b: Buttons, noclip: bool)
    requires b.mlook && !b.strafe && cv.minPitch > cv.maxPitch
    ensures MouseLook(cmd, aim, dmx, dmy, cv, b, noclip).aim.pitch == cv.minPitch
  {
  }

  /** The key events one SDL event produces (Key_Event calls), given the game-key mode. */
  function EventKeys(e: Event, gamekey: bool): (ks: seq<KeyEvent>)
    requires e.WellFormed()
    ensures |ks| <= 1
    ensures e.KeyUp? ==> ks == [KeyEvent(KeyEventKey(e.sym, e.unicode, e.modstate, gamekey), false)]
    ensures e.KeyDown? && !e.Toggles() ==> ks == [KeyEvent(KeyEventKey(e.sym, e.unicode, e.modstate, gamekey), true)]
    ensures e.KeyDown? && e.Toggles() ==> ks == []
    ensures e.MouseButton? ==> (|ks| == 1 <==> 1 <= e.button <= |ButtonRemap|)
    ensures e.MouseButton? && |ks| == 1 ==> ks[0] == KeyEvent(ButtonRemap[e.button - 1], e.pressed)
    ensures e.JoyButton? ==> (|ks| == 1 <==> e.button < |JoyRemap|)
    ensures e.JoyButton? && |ks| == 1 ==> ks[0] == KeyEvent(JoyRemap[e.button], e.pressed)
    ensures !(e.KeyDown? || e.KeyUp? || e.MouseButton? || e.JoyButton?) ==> ks == []
  {
    match e
    case KeyDown(sym, unicode, _, modstate) =>
      if e.Toggles() then [] else [KeyEvent(KeyEventKey(sym, unicode, modstate, gamekey), true)]
    case KeyUp(sym, unicode, _, modstate) =>
      [KeyEvent(KeyEventKey(sym, unicode, modstate, gamekey), false)]
    case MouseButton(button, pressed) =>
      (match MouseButtonKey(button) case Some(k) => [KeyEvent(k, pressed)] case None => [])
    case JoyButton(button, pressed) =>
      (match JoyButtonKey(button) case Some(k) => [KeyEvent(k, pressed)] case None => [])
    case _ => []
  }

  /** The SDL events IN_SendKeyEvents handles; key events carry the event's and the current modifiers. */
  datatype Event =
    | ActiveEvent(focusOrActive: bool, gain: bool)
    | KeyDown(sym: int, unicode: int, mods: Mods, modstate: Mods)
    | KeyUp(sym: int, unicode: int, mods: Mods, modstate: Mods)
    | MouseButton(button: int, pressed: bool)
    | MouseMotion(xrel: int, yrel: int)
    | JoyHatMotion
    | JoyBallMotion(bxrel: int, byrel: int)
    | JoyAxisMotion(axis: int, value: int)
    | JoyButton(button: int, pressed: bool)
    | QuitEvent
    | OtherEvent
  {
    /** The ranges of SDL's field types: SDLKey, Uint16 unicode, Uint8 axis and button, Sint16 value. */
    predicate WellFormed()
    {
      && ((KeyDown? || KeyUp?) ==> 0 <= sym && 0 <= unicode < 0x10000)
      && ((MouseButton? || JoyButton?) ==> 0 <= button < 256)
      && (JoyAxisMotion? ==> 0 <= axis < 256 && SINT16_MIN <= value <= SINT16_MAX)
    }

    /** Alt+Enter toggles fullscreen and Shift+Escape the console, on key press only. */
    predicate Toggles()
    {
      KeyDown? && ((sym == SDLK_RETURN && mods.alt) || (sym == SDLK_ESCAPE && mods.shift))
    }
  }

  class InputState {
    var totalDx: int
    var totalDy: int
    var raw: DualAxis
    /** cl.aimangles */
    var aim: Angles
    var gamekey: bool
    var prevGamekey: bool
    /** The number of Key_ClearStates calls. */
    var keyStateClears: nat
    /** Whether SDL reports unicode values with key events. */
    var unicodeEnabled: bool
    /** The number of V_StopPitchDrift calls. */
    var pitchDriftStops: nat
    /** The Key_Event calls so far. */
    var keyEvents: seq<KeyEvent>
    var videoToggles: nat
    var consoleToggles: nat
    var soundBlocked: bool
    var quit: bool
    const noMouse: bool

    /** IN_Init: the game-key mode in force is recorded and unicode is enabled outside it. */
    constructor(noMouse: bool, gamekeyNow: bool)
      ensures this.noMouse == noMouse
      ensures totalDx == 0 && totalDy == 0
      ensures raw == DualAxis(JoyAxis(0.0, 0.0), JoyAxis(0.0, 0.0), JoyAxis(0.0, 0.0), JoyAxis(0.0, 0.0))
      ensures prevGamekey == gamekeyNow && unicodeEnabled == !gamekeyNow && !gamekey
      ensures keyEvents == [] && keyStateClears == 0 && pitchDriftStops == 0
      ensures videoToggles == 0 && consoleToggles == 0 && !soundBlocked && !quit
    {
      this.noMouse := noMouse;
      totalDx, totalDy := 0, 0;
      raw := DualAxis(JoyAxis(0.0, 0.0), JoyAxis(0.0, 0.0), JoyAxis(0.0, 0.0), JoyAxis(0.0, 0.0));
      aim := Zero;
      gamekey := false;
      prevGamekey := gamekeyNow;
      unicodeEnabled := !gamekeyNow;
      keyStateClears, pitchDriftStops := 0, 0;
      keyEvents := [];
      videoToggles, consoleToggles := 0, 0;
      soundBlocked, quit := false, false;
    }

    /** IN_MouseMove: the deltas accumulate until IN_Move consumes them. */
    method MouseMove(dx: int, dy: int)
      modifies this`totalDx, this`totalDy
      ensures totalDx == old(totalDx) + dx && totalDy == old(totalDy) + dy
    {
      totalDx := totalDx + dx;
      totalDy := totalDy + dy;
    }

    /** IN_Activate: unless the mouse is disabled, pending motion is discarded. */
    method Activate()
      modifies this`totalDx, this`totalDy
      ensures noMouse ==> totalDx == old(totalDx) && totalDy == old(totalDy)
      ensures !noMouse ==> totalDx == 0 && totalDy == 0
    {
      if noMouse {
        return;
      }
      totalDx := 0;
      totalDy := 0;
    }

    /** IN_JoyAxisMove */
    method JoyAxisMove(axis: int, value: int, c: AxisCvars)
      requires 0 <= axis < 256 && SINT16_MIN <= value <= SINT16_MAX
      modifies this`raw
      ensures raw == AxisWrite(old(raw), axis, Normalize(value), c)
    {
      var axisValue := Normalize(value);
      var axisMap := [AxisIndex(c.moveX), AxisIndex(c.moveY), AxisIndex(c.lookX), AxisIndex(c.lookY)];
      if axisMap[0] == axis {
        raw := raw.(left := raw.left.(x := axisValue));
      } else if axisMap[1] == axis {
        raw := raw.(left := raw.left.(y := axisValue));
      } else if axisMap[2] == axis {
        raw := raw.(right := raw.right.(x := axisValue));
      } else if axisMap[3] == axis {
        raw := raw.(right := raw.right.(y := axisValue));
      }
    }

    /**
     * IN_Move: the joystick sticks (filtered, curved, deadzoned) move the
     * player and add to the look totals, the speed key scales the motion,
     * then the accumulated mouse motion is consumed by MouseLook.
     */
    method Move(cmd: Usercmd, cv: MoveCvars, b: Buttons, noclipAnglehack: bool,
                deadzone: JoyAxis -> JoyAxis, sine: real -> real) returns (out: Usercmd)
      modifies this`totalDx, this`totalDy, this`raw, this`aim, this`pitchDriftStops
      ensures totalDx == 0 && totalDy == 0
      ensures raw == old(raw).(oldLeft := old(raw).left, oldRight := old(raw).right)
      ensures var s := ApplyCurve(Filter(old(raw), cv.joyFilter), cv.joyFunction, sine);
              var left := deadzone(s.left);
              var right := deadzone(s.right);
              var dmx := MouseDelta(LookTotal(old(totalDx), right.x, cv.joySensitivity), cv.sensitivity);
              var dmy := MouseDelta(LookTotal(old(totalDy), right.y, cv.joySensitivity), cv.sensitivity);
              var r := MouseLook(SpeedKey(JoyMove(cmd, left, cv), cv, b.speed), old(aim), dmx, dmy, cv, b, noclipAnglehack);
              out == r.cmd && aim == r.aim
              && pitchDriftStops == old(pitchDriftStops) + (if b.mlook && (dmx != 0 || dmy != 0) then 1 else 0)
      ensures b.mlook && !b.strafe && cv.minPitch <= cv.maxPitch ==> cv.minPitch <= aim.pitch <= cv.maxPitch
      ensures aim.roll == old(aim.roll)
    {
      var moveDualAxis := Filter(raw, cv.joyFilter);
      raw := raw.(oldLeft := raw.left, oldRight := raw.right);
      moveDualAxis := ApplyCurve(moveDualAxis, cv.joyFunction, sine);
      moveDualAxis := Sticks(deadzone(moveDualAxis.left), deadzone(moveDualAxis.right));

      var c := JoyMove(cmd, moveDualAxis.left, cv);
      c := SpeedKey(c, cv, b.speed);

      totalDx := LookTotal(totalDx, moveDualAxis.right.x, cv.joySensitivity);
      totalDy := LookTotal(totalDy, moveDualAxis.right.y, cv.joySensitivity);

      var dmx := MouseDelta(totalDx, cv.sensitivity);
      var dmy := MouseDelta(totalDy, cv.sensitivity);
      totalDx := 0;
      totalDy := 0;

      if b.mlook && (dmx != 0 || dmy != 0) {
        pitchDriftStops := pitchDriftStops + 1;
      }

      var look := MouseLook(c, aim, dmx, dmy, cv, b, noclipAnglehack);
      aim := look.aim;
      out := look.cmd;
    }

    /**
     * IN_UpdateForKeydest: the game-key mode follows the key destination;
     * only a change of mode clears the key states and switches unicode.
     */
    method UpdateForKeydest(keyDestGame: bool, conForcedup: bool, bindGrab: bool)
      modifies this`gamekey, this`prevGamekey, this`keyStateClears, this`unicodeEnabled
      ensures gamekey == ((keyDestGame && !conForcedup) || bindGrab)
      ensures prevGamekey == gamekey
      ensures keyStateClears == old(keyStateClears) + (if gamekey != old(prevGamekey) then 1 else 0)
      ensures unicodeEnabled == (if gamekey != old(prevGamekey) then !gamekey else old(unicodeEnabled))
    {
      gamekey := (keyDestGame && !conForcedup) || bindGrab;
      if gamekey != prevGamekey {
        prevGamekey := gamekey;
        keyStateClears := keyStateClears + 1;
        unicodeEnabled := !gamekey;
      }
    }

    /**
     * One iteration of IN_SendKeyEvents' loop: focus changes block or
     * unblock sound, key and button events become Key_Event calls, motion
     * events feed the accumulators and the joystick axes.
     */
    method HandleEvent(e: Event, c: AxisCvars)
      requires e.WellFormed()
      modifies this`soundBlocked, this`keyEvents, this`videoToggles, this`consoleToggles,
               this`totalDx, this`totalDy, this`raw, this`quit
      ensures soundBlocked == (if e.ActiveEvent? && e.focusOrActive then !e.gain else old(soundBlocked))
      ensures keyEvents == old(keyEvents) + EventKeys(e, gamekey)
      ensures videoToggles == old(videoToggles) + (if e.KeyDown? && e.sym == SDLK_RETURN && e.mods.alt then 1 else 0)
      ensures consoleToggles == old(consoleToggles)
                + (if e.KeyDown? && !(e.sym == SDLK_RETURN && e.mods.alt) && e.sym == SDLK_ESCAPE && e.mods.shift then 1 else 0)
      ensures totalDx == old(totalDx) + (if e.MouseMotion? then e.xrel else if e.JoyBallMotion? then e.bxrel else 0)
      ensures totalDy == old(totalDy) + (if e.MouseMotion? then e.yrel else if e.JoyBallMotion? then e.byrel else 0)
      ensures raw == (if e.JoyAxisMotion? then AxisWrite(old(raw), e.axis, Normalize(e.value), c) else old(raw))
      ensures quit == (old(quit) || e.QuitEvent?)
    {
      match e
      case ActiveEvent(focusOrActive, gain) =>
        if focusOrActive {
          soundBlocked := !gain;
        }
      case KeyDown(sym, unicode, mods, modstate) =>
        if sym == SDLK_RETURN && mods.alt {
          videoToggles := videoToggles + 1;
        } else if sym == SDLK_ESCAPE && mods.shift {
          consoleToggles := consoleToggles + 1;
        } else {
          keyEvents := keyEvents + [KeyEvent(KeyEventKey(sym, unicode, modstate, gamekey), true)];
        }
      case KeyUp(sym, unicode, _, modstate) =>
        keyEvents := keyEvents + [KeyEvent(KeyEventKey(sym, unicode, modstate, gamekey), false)];
      case MouseButton(button, pressed) =>
        var k := MouseButtonKey(button);
        if k.Some? {
          keyEvents := keyEvents + [KeyEvent(k.value, pressed)];
        }
      case MouseMotion(xrel, yrel) =>
        MouseMove(xrel, yrel);
      case JoyHatMotion =>
      case JoyBallMotion(xrel, yrel) =>
        MouseMove(xrel, yrel);
      case JoyAxisMotion(axis, value) =>
        JoyAxisMove(axis, value, c);
      case JoyButton(button, pressed) =>
        var k := JoyButtonKey(button);
        if k.Some? {
          keyEvents := keyEvents + [KeyEvent(k.value, pressed)];
        }
      case QuitEvent =>
        quit := true;
      case OtherEvent =>
    }
  }

  /**
   * Mouse motion is consumed by the move that follows it: with the
   * joystick at rest, a second move does not turn the aim yaw again.
   */
  method MotionConsumedOnce(input: InputState, cmd: Usercmd, cv: MoveCvars, b: Buttons,
                            deadzone: JoyAxis -> JoyAxis, sine: real -> real, dx: int)
      returns (firstYaw: real, secondYaw: real)
    requires input.raw == DualAxis(JoyAxis(0.0, 0.0), JoyAxis(0.0, 0.0), JoyAxis(0.0, 0.0), JoyAxis(0.0, 0.0))
    requires deadzone(JoyAxis(0.0, 0.0)) == JoyAxis(0.0, 0.0)
    requires cv.joyFunction == 0.0
    modifies input
    ensures secondYaw == firstYaw
  {
    input.MouseMove(dx, 0);
    var _ := input.Move(cmd, cv, b, false, deadzone, sine);
    firstYaw := input.aim.yaw;
    var _ := input.Move(cmd, cv, b, false, deadzone, sine);
    secondYaw := input.aim.yaw;
  }
}
