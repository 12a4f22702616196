# Quakespasm-Rift: head-mounted display, input, audio and renderer logic in Dafny

This project models the parts of Quakespasm-Rift, a Quake engine with Oculus
Rift support, that decide what the engine does, as opposed to the parts that
talk to the GPU, the vendor SDK or SDL. It covers these pieces:

- **Head-pose fusion** (`vr_pose.dfy`, module `VrPose`). Each frame the head
  orientation is blended into the client's aim and view angles according to
  the aim mode of `Quake/vr.c`.
- **The VR subsystem** (`vr.dfy`, module `Vr`): enabling and disabling the
  display, the extension table, the two eye framebuffers with their swap
  rings, the per-eye render, and the angle setters.
- **The earlier HMD renderer** (`render_hmd.dfy`, module `RenderHmd`) of
  `Quake/r_renderhmd.c`: eye set-up, the projection matrices, release, the
  per-eye render with save and restore, and its own two aim modes.
- **The VR options menu** (`vr_menu.dfy`, module `VrMenu`): the cursor,
  the steppers and the labels.
- **SDL input** (`sdl_input.dfy` and `sdl_keys.dfy`, modules `SdlInput` and
  `SdlKeys`): mouse and joystick accumulation, mouse look, joystick
  filtering, curves and axis routing, and the translation of SDL key, mouse
  button and joystick button events into Quake keys.
- **The SDL sound back end** (`snd_sdl.dfy`, module `SndSdl`): sizing the DMA
  ring, the audio callback's circular read, and shutdown.
- **Renderer decisions** (`gl_rmain.dfy`, module `GlRmain`): plane sign bits,
  box-versus-frustum culling, entity bounds, the cheat-safe draw modes,
  frustum widening, the anaglyph stereo pass, and the opaque/alpha pass
  filter.
- **Renderer callbacks and resets** (`gl_rmisc.dfy`, module `GlRmisc`): the
  Rift cvar callbacks, the clear-colour index, player skin colours and skin
  validation, and the per-game and per-map resets.
- **Shared helpers** (`common.dfy`, module `QCommon`): CLAMP, C's
  float-to-int truncation, and Euler angles.

How the C code is represented:

- Floats are reals.
- Every C integer conversion is written out: `(int)x` is truncation toward zero (`QCommon.Trunc`), and `& 0xFF` on an int is a reduction modulo 256.
- Global state that the C code updates in place becomes a class with fields. Pure logic becomes functions and lemmas.
- Calls into the SDK, OpenGL and SDL are parameters (their outcomes), or records of the calls made (`scenes`, `keyEvents`, `liveFbos`).

These are points where the code does something its comments, menu or cvar names do not suggest.
Each one has a lemma:

- **Zero deadzone.** With a deadzone of 0 the blended aim mode does not recouple for a view/aim difference under one degree, because `abs` is the integer `abs` (`VrPose.BlendedZeroDeadzoneSubDegree`).
- **No yaw wrap-around.** The yaw difference is not wrapped into (-180, 180] (`VrPose.BlendedNoWrapAround`).
- **Mode 6.** The menu offers aim mode 6, but `vr.c` has no case for it, so it falls to the default branch: head aiming (`VrPose.BlendedNoPitchIsHeadAim`).
- **SDK start failure.** When the SDK fails to start, `R_InitHMDRenderer` returns false but leaves the renderer enabled with both framebuffers allocated. The `r_oculusrift` callback then stores 0 directly in the cvar (`RenderHmd.SdkFailureLeavesRendererEnabled`, `GlRmisc.SdkFailureDisagrees`).
- **`lastYaw` goes stale.** The old renderer updates `lastYaw` only in mode 2, so a switch from mode 1 to mode 2 jumps the aim by the whole head yaw (`RenderHmd.HmdStaleLastYaw`).
- **Sample and byte units in the audio callback.** The final check of the audio callback compares `samplepos`, a sample count, with `buffersize`, a byte count. With 16-bit samples it can never fire (`SndSdl.SixteenBitFinalCheckNeverFires`). This is harmless: a read that ends exactly at the buffer's end leaves the position there, and the next callback's wrap-around test restarts the read at 0 (`SndSdl.PositionLeftAtEnd`).
- **HMD settings.** `R_InitHMDRenderer` is declared to take the HMD settings, but its callers pass none. The model takes them as an explicit parameter.

## Model

| member | source | states |
|---|---|---|
| QCommon.DeadzoneWrite | Quake/vr.c:195-201 | the deadzone callback writes back only a value outside [0, 70], and what it writes is that value clamped into [0, 70] (0 below, 70 above) |
| QCommon.DeadzoneWriteSettles | Quake/vr.c:198-200 | the write-back re-runs the callback, which then finds nothing to write: the callback chain stops after one round |
| QCommon.Clamp | Quake/vr.c:198 | CLAMP on floats: the result lies in [lo, hi], equals x inside the range, lo below it and hi above it |
| QCommon.ClampInt | Quake/vr_menu.c:154 | CLAMP on ints, with the same three cases |
| QCommon.Trunc | Quake/vr.c:346 | a float-to-int conversion rounds toward zero: it stays within one unit of the value, on the zero side |
| QCommon.TruncDiv | Quake/r_renderhmd.c:548-549 | C integer division by a positive divisor rounds the quotient toward zero |
| QCommon.Abs | Quake/vr.c:386 | integer abs returns n or -n and is never negative |
| QCommon.TruncTowardZero | Quake/vr.c:386 | the magnitude of a truncated float lies in (abs(x) - 1, abs(x)] |
| VrPose.Fuse | Quake/vr.c:346-400 | one frame of pose fusion, mode by mode: roll is the head's in every mode; modes 1 and default set aim and view pitch to the head pitch and move both yaws by the head-yaw delta; mode 2 adds both deltas; modes 3 and 4 never write the aim; the blended mode integrates the head-pitch delta into the aim, and moves the aim yaw by the head-yaw delta only when the truncated view/aim difference exceeds half the deadzone, the view then also taking up the aim's own change; afterwards lastOrientation is the head and lastAim is the aim |
| VrPose.HeadAimTelescopes | Quake/vr.c:348-353 | over any number of frames of head aiming, aim yaw is the initial aim yaw plus final minus baseline head yaw, aim pitch is the last head pitch, and view yaw equals aim yaw |
| VrPose.HeadAimPitchTelescopes | Quake/vr.c:355-359 | in mode 2 both aim pitch and aim yaw telescope to their initial value plus the total head change |
| VrPose.MouseAimIsolated | Quake/vr.c:361-371 | in modes 3 and 4 the aim is untouched over any number of frames, and the view yaw is the aim yaw plus the last head yaw, with no dependence on lastOrientation |
| VrPose.BlendedPitchTelescopes | Quake/vr.c:376 | in the blended mode aim pitch integrates the head-pitch deltas over any number of frames, and view pitch is the last head pitch |
| VrPose.BlendedWithinDeadzoneKeepsAim | Quake/vr.c:384-391 | when the view/aim difference lies within plus or minus half the deadzone, the aim yaw does not move |
| VrPose.BlendedBeyondDeadzoneRecouples | Quake/vr.c:384-391 | when the difference exceeds half the deadzone by a degree, the aim yaw gains the head delta |
| VrPose.BlendedZeroDeadzoneSubDegree | Quake/vr.c:386 | with deadzone 0, a half-degree view/aim difference does not recouple |
| VrPose.BlendedNoWrapAround | Quake/vr.c:384-386 | a view at 179 degrees and an aim at -179 degrees are 358 degrees apart for the deadzone test |
| VrPose.BlendedViewFollowsHead | Quake/vr.c:375-390 | if the aim has not changed since the last frame, the blended view yaw moves by exactly the head-yaw delta whether or not it recouples |
| VrPose.MouseAimViewIsAimPlusHead | Quake/vr.c:361-371 | the mode 4 view is exactly VR_AddOrientationToViewAngles applied to the aim; mode 3 differs only in taking the head pitch |
| VrPose.BlendedNoPitchIsHeadAim | Quake/vr.c:346-353 | mode 6, offered by the menu, behaves exactly as mode 1 |
| VrPose.MouseYawScenario | Quake/vr.c:361-365 | two frames of mouse aiming with a steady head leave the aim at 90 degrees and the view at aim plus head |
| VrPose.HeadYawScenario | Quake/vr.c:348-353 | a ten-degree head turn in head aiming moves both aim and view yaw by ten degrees |
| Vr.FirstMissing | Quake/vr.c:88-94 | the index where the resolution loop stops: every earlier entry is resolved and the entry there is not |
| Vr.TransposeInvolution | Quake/vr.c:168-176 | transposing a 4x4 matrix twice gives it back |
| Vr.TransposeMatrix | Quake/vr.c:168-176 | the output's entry [x][y] is the input's [y][x] for every index pair |
| Vr.VrSystem.constructor | Quake/vr.c:72-77 | the start-up state: the cvar defaults vr_enabled 0, vr_aimmode 1, vr_deadzone 30, nothing initialised and no framebuffers |
| Vr.VrSystem.InitOpenGLExtensions | Quake/vr.c:80-98 | succeeds once memoised or when every entry resolves; a failure stops at the first missing entry, and the pointers before it are still written |
| Vr.VrSystem.Enable | Quake/vr.c:80-263 | succeeds exactly when the SDK, the device and the extensions all succeed; on failure no eye framebuffer exists; on success each eye gets a fresh framebuffer of the SDK's size and its field of view, and the name counter moves on by two; the extension memo becomes set once the SDK and device start and every entry point resolves, and stays set; the resolved table is untouched unless resolution actually runs; the pose, cvars, refdef angles, field of view, seed, scene record and screen size are left unchanged |
| Vr.VrSystem.CreateEyeFbos | Quake/vr.c:246-254 | the two eyes get framebuffers named by the next two fresh names, each of the SDK's size with a swap ring at slot 0, and with the SDK's field of view; those two are the only live framebuffers |
| Vr.VrSystem.Disable | Quake/vr.c:265-278 | leaves the display uninitialised with both eye framebuffers released, and changes nothing when it was not initialised; no other state changes |
| Vr.VrSystem.EnabledChanged | Quake/vr.c:182-191 | disables first; afterwards the display is initialised exactly when the cvar is nonzero, and a failed enable writes 0 back; the extension memo, resolved table and name counter end as the enable left them, and unchanged when the cvar was 0; the pose, the other cvars, refdef angles, field of view, seed, scene record and screen size are left unchanged |
| Vr.VrSystem.DeadzoneChanged | Quake/vr.c:195-201 | leaves vr_deadzone in [0, 70], unchanged when it already was |
| Vr.VrSystem.RenderScreenForCurrentEye | Quake/vr.c:280-319 | advances only this eye's swap ring by one modulo its length, renders with this eye's size, field of view and the frame's seed, and writes the eye's size into the render size for the scene call, then restores it |
| Vr.VrSystem.UpdateScreenContent | Quake/vr.c:321-419 | the new pose is Fuse of the old pose, the refresh takes the new angles, both eyes render in order with their rings advanced, and the render size and cvars are unchanged |
| Vr.VrSystem.FusePose | Quake/vr.c:346-403 | the pose becomes Fuse of the old pose for the truncated aim mode, and r_refdef takes the fused view and aim |
| Vr.VrSystem.RenderEyes | Quake/vr.c:416-419 | the left eye then the right eye are rendered, each ring advanced once |
| Vr.VrSystem.SetAngles | Quake/vr.c:593-598 | aim, view and lastAim all become the given angles, and lastOrientation is kept |
| Vr.VrSystem.ResetOrientation | Quake/vr.c:600-608 | aim pitch and yaw snap to the view's; lastAim is re-baselined and the tracker recentred only while vr_enabled is set |
| Vr.EnableThenDisable | Quake/vr.c:221-278 | enable followed by disable leaves no eye framebuffer, whatever the enable's outcome |
| Vr.ReenableSkipsResolution | Quake/vr.c:80-278 | after a successful enable and a disable, a second enable succeeds whatever the entry points now resolve to, because the static memo survives the disable |
| RenderHmd.SetUpEye | Quake/r_renderhmd.c:443-450 | an eye takes the given offset, lens shift and framebuffer name, and keeps its viewport |
| RenderHmd.LensRadiusIsShiftedLensShift | Quake/r_renderhmd.c:431-437 | the lens radius r equals -1 minus the lens shift |
| RenderHmd.EyeOffsetIsHalfIpd | Quake/r_renderhmd.c:443-448 | each eye sits half the interpupillary distance from the centre, at 32 world units per metre |
| RenderHmd.OculusRiftHmdIsSane | Quake/r_renderhmd.c:178-188 | the compiled-in device settings make every quotient of the eye set-up defined |
| RenderHmd.ViewportsTile | Quake/r_renderhmd.c:191-192 | the two eye viewports split the unit square into two equal halves without overlap |
| RenderHmd.Perspective | Quake/r_renderhmd.c:366-385 | the projection is a 4x4 matrix flattened to sixteen entries; its meaning is stated by PerspectiveMirrored and PerspectiveDepthRange |
| RenderHmd.PerspectiveMirrored | Quake/r_renderhmd.c:446-451 | the two eyes' matrices differ only in entry 8, which is mirrored |
| RenderHmd.PerspectiveDepthRange | Quake/r_renderhmd.c:379-383 | points on the near plane map to depth -1 and points on the far plane to +1 |
| RenderHmd.CreatePerspectiveMatrix | Quake/r_renderhmd.c:366-385 | fills all sixteen entries of the output array with the perspective matrix |
| RenderHmd.SetColumn | Quake/r_renderhmd.c:366-385 | writes the four entries of one column and leaves the other twelve entries unchanged |
| RenderHmd.FuseHmd | Quake/r_renderhmd.c:599-613 | mode 1 sets the view to aim plus head for pitch and yaw and leaves the aim alone; mode 2 sets view pitch to the head pitch and moves aim and view yaw by the head yaw minus lastYaw, then updates lastYaw; any other mode writes only the view roll |
| RenderHmd.HmdHeadYawTelescopes | Quake/r_renderhmd.c:604-611 | over any number of mode 2 frames the aim yaw moves by the final head yaw minus the first lastYaw, and aim pitch stays |
| RenderHmd.HmdMouseAimIsolated | Quake/r_renderhmd.c:599-603 | over any number of mode 1 frames the aim and lastYaw are untouched |
| RenderHmd.HmdStaleLastYaw | Quake/r_renderhmd.c:599-611 | after head turns in mode 1, switching to mode 2 moves the aim by the whole head yaw at once |
| RenderHmd.Screen2d | Quake/r_renderhmd.c:546-549 | the overlay's width is at most a quarter of the eye's width and its height at most half its height; with no eye offset it starts at width / 2.6 |
| RenderHmd.EyeScene | Quake/r_renderhmd.c:521-552 | the scene renderer sees this eye's offset, projection and framebuffer, the shared field of view and seed, and a render size unchanged when the supersampling factor is 1 |
| RenderHmd.HmdRenderer.constructor | Quake/r_renderhmd.c:191-194 | the renderer starts disabled, with the eye viewports of the two halves and no projection published |
| RenderHmd.HmdRenderer.InitShaderExtension | Quake/r_renderhmd.c:268-327 | the result is memoised: true once it has succeeded, otherwise whether all entry points resolved |
| RenderHmd.HmdRenderer.SetUpEyes | Quake/r_renderhmd.c:429-451 | the left eye gets offset -d and lens shift s, the right eye +d and -s, each a fresh framebuffer, and the projections use h and -h |
| RenderHmd.HmdRenderer.Init | Quake/r_renderhmd.c:393-478 | succeeds exactly when the extensions, the shader compile and the SDK all succeed; the renderer is enabled, with both eyes set up, whenever the first two succeed; the prediction (ms/1000) and the truncated drift flag reach the SDK only on success |
| RenderHmd.HmdRenderer.Release | Quake/r_renderhmd.c:480-493 | always leaves the renderer disabled with no shader and no framebuffers, and asks for a refdef recalculation |
| RenderHmd.HmdRenderer.SetPredictionTime | Quake/r_renderhmd.c:495-501 | hands ms/1000 to the SDK only while enabled |
| RenderHmd.HmdRenderer.SetDriftCorrection | Quake/r_renderhmd.c:503-508 | hands the truncated flag to the SDK only while enabled |
| RenderHmd.HmdRenderer.DrawScene | Quake/r_renderhmd.c:552 | the scene renderer records the globals in force when it is called |
| RenderHmd.HmdRenderer.RenderScreenForEye | Quake/r_renderhmd.c:517-563 | the view rectangle and render size are restored on exit, the projection is cleared and the offset is 0, the field of view stays at the viewport's, and the scene was drawn with this eye's scaled sizes |
| RenderHmd.HmdRenderer.UpdateScreenContent | Quake/r_renderhmd.c:592-620 | the pose becomes FuseHmd of the old pose, r_refdef takes the angles, the left then the right eye are drawn, and the sizes are restored |
| RenderHmd.InitThenCheckSymmetry | Quake/r_renderhmd.c:443-451 | after a successful set-up the two eyes have opposite offsets, opposite lens shifts, equal framebuffer sizes and mirrored projections |
| RenderHmd.SdkFailureLeavesRendererEnabled | Quake/r_renderhmd.c:468-473 | a failed SDK start after the framebuffers exist leaves the renderer enabled with both framebuffers |
| VrMenu.Step | Quake/vr_menu.c:152-181 | an int stepper's result lies in [lo, hi] and is one step from the truncated value whenever that is in range |
| VrMenu.AimmodeStep | Quake/vr_menu.c:157-161 | the aim mode stays in 1..6 and moves by at most one from a valid mode |
| VrMenu.AlphaStep | Quake/vr_menu.c:183-186 | the crosshair alpha stays in [0, 1] |
| VrMenu.AdjustOption | Quake/vr_menu.c:124-192 | each option writes only its own cvar, within its range (perfhud 0..4, aim mode 1..6, deadzone 0..180, crosshair 0..2, depth 0..4096, size 0..32, alpha 0..1); the checkbox toggles; an unknown option changes nothing |
| VrMenu.StepsUndo | Quake/vr_menu.c:152-181 | right then left restores any stepped option that did not saturate |
| VrMenu.ToggleTwice | Quake/vr_menu.c:146-150 | toggling the enable checkbox twice restores 0 or 1 |
| VrMenu.MenuDeadzoneSettlesInCallbackRange | Quake/vr_menu.c:163-166 | the deadzone the menu writes, after the VR callback's re-clamp, is in [0, 70] |
| VrMenu.PerfhudLabel | Quake/vr_menu.c:49-54 | values 1..4 have their own labels and any other value shows "off" |
| VrMenu.AimmodeLabel | Quake/vr_menu.c:56-78 | an unknown aim mode is shown as "BLENDED" |
| VrMenu.AimmodeLabelsDistinct | Quake/vr_menu.c:56-78 | the six aim modes have six different names |
| VrMenu.CrosshairLabel | Quake/vr_menu.c:87-95 | 2 shows "line", 1 "point", and every other value "off" |
| VrMenu.QuantityOrOff | Quake/vr_menu.c:79-86 | a positive value is shown with its unit, anything else as "off" |
| VrMenu.ShowOption | Quake/vr_menu.c:35-122 | the checkbox shows the truncated enable flag, the alpha a slider, the labelled options text, and an unknown option nothing |
| VrMenu.SteppedAimmodeShowsItsName | Quake/vr_menu.c:157-161 | after any aim-mode step the label shown is the name of the mode now set |
| VrMenu.VrMenuState.constructor | Quake/vr_menu.c:14 | the cursor starts at 0 |
| VrMenu.VrMenuState.Open | Quake/vr_menu.c:311-321 | the VR menu becomes the current menu, with the entry sound |
| VrMenu.VrMenuState.KeyOption | Quake/vr_menu.c:124-192 | the cvars become AdjustOption of the old ones, stepping left only for the left arrow |
| VrMenu.VrMenuState.MenuKey | Quake/vr_menu.c:194-236 | up and down move the cursor with wrap-around at both ends; left, right and Enter step the selected option without moving the cursor; Escape returns to the options menu; other keys change nothing |
| VrMenu.UpDownRoundTrip | Quake/vr_menu.c:203-217 | up then down, or down then up, restores the cursor and changes no cvar |
| SdlKeys.AsciiMask | Quake/in_sdl.c:590 | `(unicode & 0xFF80) == 0` holds exactly for the 16-bit values below 0x80 |
| SdlKeys.CharSym | Quake/in_sdl.c:588-612 | a missing or non-ASCII character keeps the key symbol; a replacement is always ASCII; in game mode only '`' and '~' replace it; Ctrl over a printable key adds 64 with Shift and 96 without |
| SdlKeys.ControlLettersRecovered | Quake/in_sdl.c:593-598 | Ctrl with a letter key outside game mode gives back the letter, upper case with Shift |
| SdlKeys.Keypad | Quake/in_sdl.c:707-795 | in game mode every keypad key except KP_EQUALS is a keypad key of its own and KP_EQUALS is ignored; outside game mode no keypad key results, and Num Lock turns the keypad digits into the digit keys |
| SdlKeys.TranslateKey | Quake/in_sdl.c:616-807 | the function keys map to F1..F12; symbols without a case pass through unless above 255 or international, which become 0; only game mode yields keypad keys |
| SdlKeys.KeypadArrowsMergeOnlyOutsideGame | Quake/in_sdl.c:717-760 | outside game mode with Num Lock off the keypad arrows equal the arrow keys, and in game mode every keypad key is distinct from its navigation twin |
| SdlKeys.KeyEventKey | Quake/in_sdl.c:583-809 | the full translation of a key event yields a code below the international range, and '`' and '~' always reach the console key in game mode |
| SdlKeys.MouseButtonKey | Quake/in_sdl.c:812-821 | mouse buttons 1..7 map to buttonremap[button - 1] and all others are ignored |
| SdlKeys.MouseButtonsDistinct | Quake/in_sdl.c:70-79 | distinct mouse buttons give distinct keys |
| SdlKeys.JoyButtonAsWritten | Quake/in_sdl.c:843-849 | as written, a joystick button is ignored only above 32, so button 32 reads one entry past the table |
| SdlKeys.JoyButton32ReadsPastTable | Quake/in_sdl.c:843-849 | button 32 passes the guard of the 32-entry table and indexes past its end |
| SdlKeys.JoyButtonKey | Quake/in_sdl.c:843-849 | corrected: exactly buttons 0..31 have a key, joyremap[button] |
| SdlKeys.JoyButtonFixAgrees | Quake/in_sdl.c:843-849 | the corrected guard agrees with the written one on every button except 32 |
| SdlInput.JoyConvert | Quake/in_sdl.c:156 | `(Uint16)(32768 + input)` never wraps for a Sint16: it lies in [0, 65535] |
| SdlInput.Normalize | Quake/in_sdl.c:154-159 | an axis reading maps into [-1, 1], with the extreme readings at -1 and 1, and is positive exactly for non-negative readings |
| SdlInput.NormalizeAntisymmetric | Quake/in_sdl.c:154-159 | a reading and its bitwise complement normalise to opposite values |
| SdlInput.AxisIndex | Quake/in_sdl.c:405-410 | `(Uint8)` of a cvar lies in 0..255 and is its floor when in range |
| SdlInput.AxisWrite | Quake/in_sdl.c:414-422 | the reading goes to the first stick component whose cvar names the axis, and nowhere when none does; the previous values are kept |
| SdlInput.AxisWriteChangesOneComponent | Quake/in_sdl.c:414-422 | an axis event changes at most one of the four stick components |
| SdlInput.Filter | Quake/in_sdl.c:440-448 | with joy_filter each component is the mean of its current and previous reading, otherwise the current reading |
| SdlInput.DualOdd | Quake/in_sdl.c:50-54 | dualfunc makes every curve odd: a reading and its negation come out opposite |
| SdlInput.PowerInUnit | Quake/in_sdl.c:44-47 | on (0, 1] every power from the first stays positive and no larger than its base |
| SdlInput.CurvesPreserveSign | Quake/in_sdl.c:44-54 | the polynomial curves keep the sign of every reading in [-1, 1] and never grow its magnitude |
| SdlInput.ApplyCurve | Quake/in_sdl.c:453-461 | joy_function 1..5 applies dualfunc to all four components, any other value leaves them |
| SdlInput.JoyMove | Quake/in_sdl.c:467-473 | the left stick adds x times cl_sidespeed to sidemove and subtracts y times cl_forwardspeed from forwardmove |
| SdlInput.SpeedKey | Quake/in_sdl.c:475-485 | without always-run the speed key scales all three motions; with always-run it scales forward motion back down when held, and scales only sideways and up motion when not held; a zero cl_movespeedkey skips the division, so always-run then leaves the command as it is when the key is held and zeroes all three motions when it is not |
| SdlInput.LookTotal | Quake/in_sdl.c:488-489 | the look total moves by the stick times the sensitivity, truncated: within one unit |
| SdlInput.MouseDelta | Quake/in_sdl.c:501-502 | the scaled mouse delta is 0 for no motion and keeps the motion's sign for a non-negative sensitivity |
| SdlInput.MouseLook | Quake/in_sdl.c:507-533 | horizontal motion strafes under +strafe or lookstrafe with +mlook, and otherwise turns the yaw by -m_yaw * dmx; under +mlook without +strafe the pitch is the moved pitch when that is in range and ends in [cl_minpitch, cl_maxpitch] whenever the limits are ordered, and nothing moves forward or up; otherwise vertical motion moves up or forward |
| SdlInput.InvertedPitchLimitsGiveMin | Quake/in_sdl.c:518-526 | with cl_minpitch above cl_maxpitch the pitch always ends at cl_minpitch |
| SdlInput.EventKeys | Quake/in_sdl.c:569-849 | each event yields at most one Key_Event: translated key presses and releases, except for the Alt+Enter and Shift+Escape toggles; mouse and joystick buttons through their tables when in range |
| SdlInput.InputState.constructor | Quake/in_sdl.c:325-380 | start-up: accumulators zero, sticks at rest, unicode enabled exactly outside game mode |
| SdlInput.InputState.MouseMove | Quake/in_sdl.c:396-400 | the deltas are added to the accumulators |
| SdlInput.InputState.Activate | Quake/in_sdl.c:261-291 | pending mouse motion is discarded unless the mouse is disabled |
| SdlInput.InputState.JoyAxisMove | Quake/in_sdl.c:402-430 | the normalised reading is routed by AxisWrite |
| SdlInput.InputState.Move | Quake/in_sdl.c:432-534 | the accumulators are consumed and left at 0, the previous stick values become the current ones, the filtered and curved sticks move the player, and the pitch ends within ordered limits under mouse look |
| SdlInput.InputState.UpdateForKeydest | Quake/in_sdl.c:540-549 | game mode follows the key destination; only a change clears the key states and switches unicode |
| SdlInput.InputState.HandleEvent | Quake/in_sdl.c:556-858 | focus events block or unblock sound, key events append their Key_Event, mouse and joystick-ball motion feeds the accumulators, axis events route through AxisWrite, quit is remembered |
| SdlInput.MotionConsumedOnce | Quake/in_sdl.c:501-510 | with the joystick at rest, a second move does not turn the yaw again: motion is consumed by the move that follows it |
| SndSdl.DesiredSamples | Quake/snd_sdl.c:107-116 | the callback size is one of 256..4096, 256 exactly up to 11025 Hz and 4096 exactly above 56000 Hz |
| SndSdl.DesiredSamplesMonotone | Quake/snd_sdl.c:107-116 | a higher rate never asks for a smaller callback buffer |
| SndSdl.DesiredSpec | Quake/snd_sdl.c:104-116 | the requested spec is stereo, U8 or S16SYS by loadas8bit, with the callback size for the truncated rate |
| SndSdl.SupportedFormatWidths | Quake/snd_sdl.c:166-188 | the accepted formats have 8 or 16 bits per sample, i.e. one or two bytes |
| SndSdl.NextPowerOfTwo | Quake/snd_sdl.c:195-202 | the doubling loop ends at the smallest power of two not below its input |
| SndSdl.Dma.constructor | Quake/snd_sdl.c:184 | the DMA block starts zeroed: no buffer, read position 0 |
| SndSdl.StartPos | Quake/snd_sdl.c:55-57 | the callback reads from the byte position of samplepos, or from 0 once that reaches the buffer's end |
| SndSdl.RingRead | Quake/snd_sdl.c:59-78 | a ring read returns exactly len bytes |
| SndSdl.RingReadIsModular | Quake/snd_sdl.c:59-78 | byte i of the read comes from offset (pos + i) modulo the buffer size |
| SndSdl.NextSampleposInBuffer | Quake/snd_sdl.c:71-82 | after a callback the read position, counted in bytes, lies within the buffer |
| SndSdl.AdvancedInBuffer | Quake/snd_sdl.c:71-79 | the advanced position never passes the buffer's end |
| SndSdl.SixteenBitFinalCheckNeverFires | Quake/snd_sdl.c:81-82 | with 16-bit samples the final check, which compares a sample count with a byte count, never fires |
| SndSdl.PositionLeftAtEnd | Quake/snd_sdl.c:55-82 | a 16-bit read ending at the buffer's end leaves the position there, and the next callback restarts at 0 |
| SndSdl.ReadsAreContiguous | Quake/snd_sdl.c:55-82 | when whole samples are read, the next callback starts where this one ended, modulo the buffer |
| SndSdl.SdlAudio.constructor | Quake/snd_sdl.c:37-39 | the driver starts with no DMA block and no device open |
| SndSdl.SdlAudio.ZeroFill | Quake/snd_sdl.c:51 | the first len bytes become 0 and the rest of the stream is untouched |
| SndSdl.SdlAudio.CopyBytes | Quake/snd_sdl.c:69-77 | memcpy: the destination range equals the source range and nothing else changes |
| SndSdl.SdlAudio.ReadRing | Quake/snd_sdl.c:69-77 | the two copies fill the stream with the ring read from pos |
| SndSdl.SdlAudio.PaintAudio | Quake/snd_sdl.c:44-83 | with no DMA block the stream is silenced; otherwise it receives the ring read from the start position and the read position advances; the block's format, size and chunk are left unchanged |
| SndSdl.SdlAudio.SplitRead | Quake/snd_sdl.c:55-67 | the read is split at the buffer's end into len1 bytes from pos and len2 from the start, len1 + len2 = len |
| SndSdl.SdlAudio.PaintFromRing | Quake/snd_sdl.c:55-82 | the stream receives exactly the ring read and the read position becomes NextSamplepos |
| SndSdl.SdlAudio.FillBlock | Quake/snd_sdl.c:184-205 | the block takes the obtained rate and channels, samplebits is the low byte of the format, and samples is samples * channels * 10 rounded up to a power of two |
| SndSdl.SdlAudio.Init | Quake/snd_sdl.c:90-246 | succeeds exactly when the subsystem starts, the device opens, the format is S8, U8 or S16SYS and the buffer is allocated; then buffersize is samples * samplebits / 8; a failed allocation leaves no block |
| SndSdl.SdlAudio.Shutdown | Quake/snd_sdl.c:253-269 | closes the device, frees the buffer and leaves no block; without a block it does nothing |
| SndSdl.ShutdownTwice | Quake/snd_sdl.c:253-269 | a second shutdown is a no-op |
| GlRmain.SignbitsForPlane | Quake/gl_rmain.c:254-267 | the result lies in 0..7 and its bit j is set exactly when normal[j] is negative |
| GlRmain.TestedCorner | Quake/gl_rmain.c:140-175 | the corner takes emins on each axis whose sign bit is set and emaxs otherwise; default is case 0 |
| GlRmain.CornerMaximises | Quake/gl_rmain.c:137-175 | when the sign bits match the normal, no point of the box has a larger dot product than the tested corner |
| GlRmain.CornerFollowsSigns | Quake/gl_rmain.c:140-175 | when the sign bits match the normal, the tested corner takes emins on exactly the axes where the normal is negative |
| GlRmain.DotBelowSignCorner | Quake/gl_rmain.c:137-175 | the box corner that takes emins on the negative axes of a normal and emaxs on the others has the largest dot product with that normal over the box |
| GlRmain.CornerBehindIffBoxBehind | Quake/gl_rmain.c:130-178 | the tested corner is behind a plane exactly when the whole non-empty box is |
| GlRmain.CullBoxMeansOutside | Quake/gl_rmain.c:130-178 | a box is culled exactly when some plane has the whole box strictly behind it: "completely outside the frustum" |
| GlRmain.KeptBoxReachesEveryPlane | Quake/gl_rmain.c:133-178 | a box not culled by a plane has a point on or in front of it |
| GlRmain.EntityBox | Quake/gl_rmain.c:188-202 | rotated bounds for pitch or roll, yaw bounds for yaw alone, plain bounds with no rotation, each offset by the origin |
| GlRmain.EntityBoxTranslates | Quake/gl_rmain.c:188-202 | moving the entity moves its box by the same amount |
| GlRmain.CheatSafeFlags | Quake/gl_rmain.c:466-475 | in multiplayer only drawworld is safe; at most one of drawflat, fullbright and lightmap is ever set; in single player each follows its cvar in priority order |
| GlRmain.WidenedFov | Quake/gl_rmain.c:301-305 | fovx grows by 10 with stereo, 25 with the Rift, 35 with both |
| GlRmain.WideningIsAdditive | Quake/gl_rmain.c:301-305 | the two widenings add |
| GlRmain.FrustumTurns | Quake/gl_rmain.c:307-310 | the left and right planes turn by opposite angles, as do bottom and top |
| GlRmain.WideningTurnsSidesOut | Quake/gl_rmain.c:301-310 | widening turns both side planes further out |
| GlRmain.StereoSkew | Quake/gl_rmain.c:846-854 | with eyesep clamped to [-8, 8] and the depth to [32, 1024], the skew lies in [-0.5, 0.5] and has the sign of r_stereo |
| GlRmain.Renderer.constructor | Quake/gl_rmain.c:327 | four frustum planes, no skew, all colour channels |
| GlRmain.Renderer.SetFrustum | Quake/gl_rmain.c:297-318 | each plane gets its normal, the distance of the view origin along it, and matching sign bits |
| GlRmain.Renderer.CullBox | Quake/gl_rmain.c:133-178 | culled exactly when some frustum plane has the tested corner behind it |
| GlRmain.Renderer.CullModelForEntity | Quake/gl_rmain.c:184-205 | culls the entity's box chosen by rotation |
| GlRmain.Renderer.SetupCheatSafe | Quake/gl_rmain.c:466-475 | the four globals become CheatSafeFlags of the inputs |
| GlRmain.Renderer.RenderView | Quake/gl_rmain.c:818-877 | with norefresh nothing changes; in stereo the red eye renders at -0.5e with the skew and the cyan eye at +0.5e with the opposite skew, both with the same seed, then vieworg, skew and mask are restored; otherwise vieworg moves by the HMD view offset and one scene renders |
| GlRmain.EyeShiftsAdd | Quake/gl_rmain.c:853-870 | successive VectorMA shifts along one direction add |
| GlRmain.StereoEyesSymmetric | Quake/gl_rmain.c:853-870 | the shifts -0.5e, +1.0e and -0.5e place the eyes symmetrically and return to the start |
| GlRmain.DrawnInPass | Quake/gl_rmain.c:504-506 | the opaque pass draws alpha >= 1 and the alpha pass every alpha other than 1 |
| GlRmain.PassesPartition | Quake/gl_rmain.c:504-506 | for alpha in [0, 1] an entity is drawn in exactly one pass |
| GlRmain.AlphaAboveOneDrawnTwice | Quake/gl_rmain.c:504-506 | an alpha above 1 would be drawn in both passes |
| GlRmain.DrawEntitiesOnList | Quake/gl_rmain.c:490-526 | with r_drawentities off nothing is drawn; otherwise exactly the entities that pass the filter, in list order |
| GlRmain.DrawEntityPasses | Quake/gl_rmain.c:793-797 | the opaque and alpha passes together draw every entity exactly once when all alphas are in [0, 1] |
| GlRmain.OriginNeverCulled | Quake/gl_rmain.c:315-316 | planes pass through the view origin, so a box around the origin is never culled |
| GlRmisc.RiftCvars.constructor | Quake/gl_rmain.c:107-117 | r_oculusrift starts at 0 and r_oculusrift_deadzone at 30 |
| GlRmisc.RiftCvars.OculusRiftChanged | Quake/gl_rmisc.c:118-127 | always releases first; stays released when the cvar is 0; otherwise initialises and writes 0 to the cvar when initialisation fails |
| GlRmisc.RiftCvars.ReinitIfActive | Quake/gl_rmisc.c:129-145 | the supersample and chromabr callbacks re-initialise only while r_oculusrift is set |
| GlRmisc.RiftCvars.PredictionChanged | Quake/gl_rmisc.c:146-151 | the prediction reaches the SDK only while r_oculusrift is set and the renderer is enabled |
| GlRmisc.RiftCvars.DriftCorrectChanged | Quake/gl_rmisc.c:153-158 | the drift flag reaches the SDK only while r_oculusrift is set and the renderer is enabled |
| GlRmisc.RiftCvars.DeadzoneChanged | Quake/gl_rmisc.c:168-175 | r_oculusrift_deadzone ends in [0, 70], clamped and written only when out of range |
| GlRmisc.SdkFailureDisagrees | Quake/gl_rmisc.c:118-127 | after an SDK failure the cvar reads 0 while the renderer stays enabled with both framebuffers |
| GlRmisc.ClearColorIndex | Quake/gl_rmisc.c:97 | `(int)value & 0xFF` lies in 0..255, is the truncated value when that is in range, and is congruent to it modulo 256 |
| GlRmisc.ClearColorWraps | Quake/gl_rmisc.c:97 | adding a multiple of 256 to a non-negative value selects the same palette entry |
| GlRmisc.ClearColorMinusOne | Quake/gl_rmisc.c:97 | -1 and -1.5 both select entry 255 (two's complement) |
| GlRmisc.ClearColor | Quake/gl_rmisc.c:92-100 | the clear colour is the selected palette entry scaled into [0, 1] with alpha 0 |
| GlRmisc.SkinColors | Quake/gl_rmisc.c:287-288 | top and bottom lie in 0..15 and recombine to the colour byte |
| GlRmisc.SkinColorsRoundTrip | Quake/gl_rmisc.c:287-288 | splitting top * 16 + bottom gives back top and bottom |
| GlRmisc.SkinColorsLowByte | Quake/gl_rmisc.c:287-288 | only the low byte of the colours matters |
| GlRmisc.ValidSkin | Quake/gl_rmisc.c:321-325 | a skin number outside [0, numskins) becomes 0, and a valid one is kept |
| GlRmisc.ValidSkinIdempotent | Quake/gl_rmisc.c:321-325 | validating twice is validating once |
| GlRmisc.RenderGlobals.constructor | Quake/gl_rmisc.c:64 | MAX_SCOREBOARD player textures and 256 light styles |
| GlRmisc.RenderGlobals.TranslatePlayerSkin | Quake/gl_rmisc.c:283-294 | a reload with the split colours happens exactly when gl_nocolors is off and the player has a texture |
| GlRmisc.RenderGlobals.TranslateNewPlayerSkin | Quake/gl_rmisc.c:303-336 | non-alias models change nothing; otherwise the player's texture is uploaded from the validated skin and recoloured |
| GlRmisc.RenderGlobals.NewGame | Quake/gl_rmisc.c:343-350 | every player texture slot is cleared |
| GlRmisc.RenderGlobals.NewMap | Quake/gl_rmisc.c:357-381 | all 256 light styles become 264, the first numleafs leaves lose their efrags and later entries are untouched, the frame counters are 0, the view leaf is cleared and the subdivide size is latched |

## Left out

- SDK, OpenGL and SDL calls are not modelled; their outcomes are parameters. This covers session and device creation, framebuffer and texture creation, shader compile and link, uniform upload, frame submission, the mirror blit and `ovr_CalcEyePoses`.
- Drawing is not modelled: `RenderEyeOnScreen`, the crosshair and status bar routines, `R_RenderScene`'s contents, and the menu drawing beyond the value shown per option.
- `QuatToYawPitchRoll`, `Vec3RotateZ`, `TurnVector`, `AngleVectors` and the `tan`/`atan`/`atan2`/`pow` field-of-view numerics are not modelled: they are floating-point trigonometry. The head orientation, the frustum normals, `vright`, the viewport field of view and the cotangent enter as parameters. `f = 1/tan(fovy/2)` is computed exactly, using tan(atan2(y, x)) = y / x for x > 0.
- `SdlInput.InputState.Move`: `ApplyJoyDeadzone` (a square root) and the `sine` curve (a cosine) are parameters, so the contract says nothing about their results.
- IEEE float rounding is not modelled; floats are reals. For example, the stereo block's restore of `vieworg` is exact in the model.
- Mouse totals and cvar-to-int conversions are unbounded integers; 32-bit overflow of `total_dx`/`total_dy` is not modelled.
- `SdlInput.EventKeys` follows the corrected joystick guard (`SdlKeys.JoyButtonKey`). So button 32, which in_sdl.c:843-849 passes on to `Key_Event(joyremap[32])`, yields no key event here. The out-of-bounds read itself is shown by `SdlKeys.JoyButton32ReadsPastTable`.
- `SdlInput.InputState.HandleEvent` appends the keys of `SdlInput.EventKeys`, so it also follows the corrected joystick guard: button 32 appends no key event.
- The SDL event polling loop is not modelled. `SdlInput.InputState.HandleEvent` is one iteration of it.
- The audio callback runs on SDL's audio thread; its concurrency with the mixer is not modelled.
- The SDL 2 device selection branch of `SNDDMA_Init` is not modelled; the SDL 1.2 path is.
- `AUDIO_S16SYS` is taken as the little-endian value 0x8010.
- `tmp & (tmp - 1)` in `SNDDMA_Init` is modelled by its meaning: zero exactly for powers of two.
- `SNDDMA_GetDMAPos`, `SNDDMA_LockBuffer`, `SNDDMA_Submit`, `SNDDMA_BlockSound` and `SNDDMA_UnblockSound` are not modelled: each only reads the position or calls SDL.
- The Mac OS X and QNX special cases of key translation are not modelled; they are compiled only on those platforms.
- The Quake key codes are symbolic: keys.h is not part of this model.
- Console output (`Con_Printf`) and sounds are not modelled.
- `R_OculusRift_IPD_f` is not modelled: `R_SetHMDIPD`, which it calls, is not part of this model.
- `ENTALPHA_DECODE` is not modelled: protocol.h is not part of this model. The pass filter is stated over the decoded alpha.
- The chasecam pitch scaling in `R_DrawEntitiesOnList` is not modelled.
- `RenderHmd.HmdRenderer.Init` and `RenderHmd.HmdRenderer.SetUpEyes` require `gl_farclip` to differ from the near clip distance 4. `CreatePerspectiveMatrix` (r_renderhmd.c:368) divides by `nearf - farf` with no guard, so in C a far clip of 4 gives infinite matrix entries. Reals have no infinity, so the model excludes that value. `GlRmisc.RiftCvars.OculusRiftChanged` inherits the requirement through `HmdInit.Usable`.
- `PLANE_ANYZ` plane typing is not modelled.
- The `Sys_Error` that `R_RenderView` raises on a NULL world model (gl_rmain.c:824-825) is not modelled: it ends the program, and the model assumes a loaded map.
- The mirror texture and `mirror_fbo` created by `VR_Enable` (vr.c:239-244) are not modelled. `VR_Disable` destroys the mirror texture but never deletes `mirror_fbo`, so that framebuffer leaks on every disable. The model's `liveFbos` tracks only the eye framebuffers.
- The failure returns of `VR_Enable` (vr.c:224-237) do not call `ovr_Shutdown` or destroy an HMD already created. The SDK session is not modelled, so this leak is not captured: `Vr.VrSystem.Enable` only states that no eye framebuffer exists after a failure.
- `r_speeds` timing, particles, lightmaps, sky and fog set-up in `R_NewMap`, `R_NoLerpList_f` and the water-warp field of view are not modelled.
- `MAX_SCOREBOARD` is 16, the value in quakedef.h, which is not part of this model.
- `GlRmisc.RenderGlobals.TranslateNewPlayerSkin` requires at least one skin for alias models. The model loader guarantees this, and it is not part of this model.
- The drift-correction path of the vendor glue (`vr_ovr.cpp`) and `main_sdl.c` are not modelled: they are SDK and OS plumbing.

## Findings

| source | as written | input that shows it | evidently intended | confidence | as-written member | corrected member |
|---|---|---|---|---|---|---|
| Quake/in_sdl.c:843-849 | a joystick button is ignored only when `button > 32`, then `joyremap[button]` is read from a 32-entry table | button 32 reads `joyremap[32]`, one past the end | ignore buttons `>= 32` | not executed | SdlKeys.JoyButton32ReadsPastTable | SdlKeys.JoyButtonFixAgrees |
