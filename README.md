# imgui_toggle: a verified model of one toggle-switch frame

imgui_toggle is a Dear ImGui widget: an on/off switch with a sliding knob. It can
animate, and it can draw borders around the frame and the knob. The host calls it once
per UI frame. In that call, `ToggleInternal` (imgui_toggle.cpp) does the following:

- normalises its arguments;
- returns early when the window skips items or the host rejects the item;
- flips the bound `bool` on a press and returns the press;
- computes the interpolation progress `t`, the frame colour and the frame, knob and
  label geometry;
- appends draw commands to the window's draw list, and writes a log glyph when
  logging is on.

The model has five modules:

- `ToggleFlags`, `ToggleConstants` and `ToggleConfigs` (toggle_header.dfy) hold
  imgui_toggle.h's data model:
  - the flag bits as `bv32`, with their shorthands, proved to be disjoint single bits;
  - the limit and default constants;
  - the default-constructed `ImGuiToggleConfig`.
- `ImMath` (im_math.dfy) holds the few Dear ImGui maths helpers the widget uses:
  `ImMax`, `ImClamp`, `ImSaturate` and `ImLerp`. Vectors have exact `real` components.
- `Toggle` (toggle.dfy) models the five public overloads and `ToggleInternal`:
  - Every host service is one input record, `HostFrame`. It holds `SkipItems`, the
    `ItemAdd` verdict, the `ButtonBehavior` press, `HoveredId == id`, `LastActiveId == id`,
    `LastActiveIdTimer`, the mixed-value item flag, the frame height, the cursor position,
    the label size, the style spacing and padding, the theme colours and `LogEnabled`.
  - Every effect of the call is one result record, `Output`. It holds the return value,
    the new `*v`, whether `MarkItemEdited` was called, the `ItemSize` request, the draw
    commands in order (`AddRectFilled`, `AddRect`, `AddCircleFilled`, `AddCircle`,
    `RenderText`) and the `LogRenderedText` line.
  - `ToggleInternal` is a method, like the source. It reassigns its normalised
    parameters and applies the press. It then calls `DrawToggle`, which builds the
    draw list step by step through `DrawFrame`, `DrawKnob` and `DrawLabel`.
  - Each method's postcondition ties its result to specification functions. These are
    `Normalize`, `Progress`, `FrameColor`, `TotalBox`, `DrawPlan` and `LogGlyph`, and
    the lemmas are proved about them.
- `ToggleScenarios` (scenarios.dfy) holds two end-to-end frames of a default toggle:
  - a click on an off toggle, mixed or not, turns it on and paints the frame in the
    "on" colour;
  - a mixed toggle that is on draws its knob halfway along the track (progress 0.5)
    and logs `[~]`.

`ImGuiToggleFlags_Static` is used by imgui_toggle.cpp but not declared in
imgui_toggle.h. The model gives it bit 9, which is not a bit of any declared flag.

Some behaviour of imgui_toggle.cpp is easy to misread. The model states it as the code
has it:

- **Frame colour without animation.** It is the "on" or "off" slot chosen by `*v`
  (imgui_toggle.cpp:160 and 166), not by `t`. A mixed toggle without animation
  therefore shows its value's colour.
- **Total box height.** It is the label height plus twice the frame padding
  (imgui_toggle.cpp:107). The frame height does not enter it.
- **Mixed value under animation.** When the toggle animates and is the last active
  item, the animation ramp replaces the mixed value's 0.5 (imgui_toggle.cpp:137-141).
- **Hard-coded geometry.** The width ratio 1.55, the knob offset 1.5 and the speed
  scaler 0.08 are fixed constants (imgui_toggle.cpp:69-72). The code has no palette
  resolution, knob inset, configurable width ratio, explicit size or accessibility label.
- **One animation switch.** Any one of the three animation bits turns on both the knob
  travel and the frame-colour interpolation, because `is_animated` is computed once
  (imgui_toggle.cpp:87) and used for both (lines 137 and 158).
- **Knob colour.** The knob is always drawn in the theme's Text colour
  (imgui_toggle.cpp:145), whatever the value.

## Model

| member | source | states |
|---|---|---|
| ToggleFlags.SinglesAreDistinctBits | imgui_toggle.h:37-44 | the seven individual flags (Static included) are each a single bit and pairwise disjoint |
| ToggleFlags.AnimatedIsUnion | imgui_toggle.h:46-48 | a flag word meets Animated iff it has one of the three animation bits, and contains all of Animated iff it has all three |
| ToggleFlags.BorderedIsUnion | imgui_toggle.h:45 | a flag word meets Bordered iff it has the frame or the knob border bit, and contains Bordered iff it has both |
| ToggleFlags.ShorthandsDisjoint | imgui_toggle.h:44-48 | A11yLabels and Static belong to neither shorthand, and Animated and Bordered share no bit |
| ToggleFlags.DefaultIsNone | imgui_toggle.h:49 | Default is None, so replacing no flags by the default flags is the identity |
| ToggleConstants.DefaultsWithinLimits | imgui_toggle.h:70-104 | frame rounding, knob rounding, width ratio and knob inset each have Minimum <= Default <= Maximum, and the default speed is at least the minimum |
| ToggleConstants.AnimationSpeedConstants | imgui_toggle.h:61-68 | the minimum speed equals the disabling speed 0, and the default speed is 1 |
| ToggleConfigs.DefaultConfigFields | imgui_toggle.h:111-153 | a default config takes each numeric field from its constant, has zero size and knob offset, labels "1" and "0", no palette, and lies within the limits |
| ImMath.Max | imgui_toggle.cpp:56 | the result is one of the two arguments and at least both of them |
| ImMath.Clamp | imgui_toggle.cpp:59-60 | the result lies in the range, equals the input inside it, and equals the nearer bound outside it |
| ImMath.Saturate | imgui_toggle.cpp:140 | the result lies in [0,1], equals the input inside it, and saturates outside it |
| ImMath.SaturateMonotone | imgui_toggle.cpp:140 | saturation preserves order |
| ImMath.Lerp4 | imgui_toggle.cpp:158-166 | the colour interpolation is the first colour at t = 0 and the second at t = 1 |
| ImMath.Lerp4Between | imgui_toggle.cpp:158-166 | for t in [0,1], every component of the interpolated colour lies between the two endpoint colours' components |
| Toggle.ImplyAnimated | imgui_toggle.cpp:31 | the speed overloads' rewrite clears Static, sets every Animated bit and keeps every other bit |
| Toggle.OverloadArgs | imgui_toggle.cpp:18-45 | each overload passes its own flags, speed and roundings and the defaults otherwise; the speed overloads pass the rewritten flags |
| Toggle.SpeedOverloadsAnimate | imgui_toggle.cpp:28-45 | both speed overloads always hand on animated, non-static flags, so the consistency assertion holds for them |
| Toggle.KnobShapeExclusive | imgui_toggle.cpp:84-93 | for every real knob rounding exactly one of circle and rectangle knob holds, so for real arguments the double-mode assertion and the no-knob assertion cannot fire |
| Toggle.Normalize | imgui_toggle.cpp:49-60 | normalised arguments have speed >= 0.001 and both roundings in [0,1]; in-range values are kept, a low speed becomes 0.001, a rounding below 0 becomes 0, a frame rounding above 1 becomes 1, and the knob rounding becomes 1 exactly when it was >= 1 |
| Toggle.NormalizeFixedPoints | imgui_toggle.cpp:49-60 | normalisation leaves an argument set unchanged iff it is already normalised, and is idempotent |
| Toggle.BackgroundRoundingScales | imgui_toggle.cpp:100-104 | for every real frame rounding, after normalisation the frame's corner radius is height times frame rounding, so the half-height branch is dead for real arguments |
| Toggle.TotalBox | imgui_toggle.cpp:106-107 | the item box starts at the cursor; it is the toggle width plus, for a non-empty label, the spacing and label width wide, and label height plus twice the frame padding tall |
| Toggle.LabelFitsTotalBox | imgui_toggle.cpp:221 | a non-empty label ends exactly at the item box's right edge with one frame padding below it; without a label the box is exactly the toggle's width |
| Toggle.CircleKnobTravel | imgui_toggle.cpp:181-184 | width is 1.55 times height and radius 0.5 times height; for t in [0,1], the circle knob's centre runs from pos.x+radius at t=0 to pos.x+width-radius at t=1 and stays between them, at height pos.y+radius; the drawn disc of radius radius-1.5 keeps 1.5 from every frame edge |
| Toggle.CircleKnobMonotone | imgui_toggle.cpp:183 | the circle knob's centre moves rightwards as t grows |
| Toggle.RectangleKnobShape | imgui_toggle.cpp:197-204 | the rectangle knob is always 2*radius-3 wide and spans 1.5 to height-1.5 below the top; for t in [0,1] it moves from 1.5 inside the left edge to 1.5 inside the right edge |
| Toggle.RestingProgress | imgui_toggle.cpp:133-135 | the resting progress is 0.5 iff mixed, 1 iff not mixed and on, 0 iff not mixed and off |
| Toggle.AnimationDuration | imgui_toggle.cpp:139-140 | the ramp length is positive, and for a positive speed it is 0.08 divided by the speed |
| Toggle.AnimationRamp | imgui_toggle.cpp:140 | the ramp lies in [0,1] |
| Toggle.Progress | imgui_toggle.cpp:133-142 | t lies in [0,1]; without animation it rests; when animating it is the ramp for an on value and one minus the ramp for an off value, whatever the mixed flag |
| Toggle.AnimationRampMonotone | imgui_toggle.cpp:140 | the ramp never decreases as the active-id timer runs |
| Toggle.AnimationRampSaturates | imgui_toggle.cpp:137-141 | for a normalised speed the ramp is 0 iff the timer is <= 0, is 1 iff the timer reaches 0.08/speed, and is timer*speed/0.08 in between |
| Toggle.AnimationEndpoints | imgui_toggle.cpp:137-142 | an animation starts at the extreme opposite the new value and ends at the value's own extreme |
| Toggle.FrameColor | imgui_toggle.cpp:153-167 | without animation the frame colour is the (hovered) on or off slot chosen by the value; with animation it is the linear interpolation of the off and on slots by t: the off slot at t=0, the on slot at t=1, and between them for t in [0,1] |
| Toggle.StaticFrameColorIgnoresProgress | imgui_toggle.cpp:158-166 | a non-animated frame colour does not depend on t, and differs between on and off only if the two slots differ |
| Toggle.FrameProgress | imgui_toggle.cpp:127-142 | the progress of a drawn toggle lies in [0,1] |
| Toggle.KnobFillPrimitive | imgui_toggle.cpp:181-214 | a circle knob rounding selects a filled circle and any lower rounding a filled rectangle |
| Toggle.FrameCmdsSegment | imgui_toggle.cpp:172-179 | the frame segment is the fill, then the border exactly when the frame is bordered |
| Toggle.KnobCmdsSegment | imgui_toggle.cpp:181-214 | the knob segment is the given fill, then the border exactly when the knob is bordered |
| Toggle.LabelCmdsPaints | imgui_toggle.cpp:228-231 | the label is drawn, once, exactly when its width is positive |
| Toggle.DrawPlanOrder | imgui_toggle.cpp:169-231 | the draw commands come in strict frame fill, frame border, knob fill, knob border, label order; the frame fill comes first with the frame colour and rounding; each border and the label appear exactly when enabled; the knob fill follows the frame in the selected shape; the count is 2 plus the enabled optional parts |
| Toggle.LogGlyph | imgui_toggle.cpp:223-226 | the log glyph is "[~]" iff mixed, "[x]" iff not mixed and on, "[ ]" iff not mixed and off |
| Toggle.ToggleInternal | imgui_toggle.cpp:47-235 | the call returns the host's press exactly when it gets past both early exits, and negates the value and marks it edited exactly then; a skipped window requests no layout, and a skipped or rejected item draws and logs nothing; otherwise it reserves the total box, draws the plan for the normalised arguments and post-press value, and logs the glyph at the label position when logging is on |
| Toggle.DrawToggle | imgui_toggle.cpp:125-231 | the draw list of an accepted item is the draw plan at the frame's progress and colour |
| Toggle.DrawFrame | imgui_toggle.cpp:169-179 | the frame's fill and optional border are the frame segment |
| Toggle.DrawKnob | imgui_toggle.cpp:181-219 | the draw list gains exactly the knob segment for the selected shape; for a real knob rounding the no-knob branch is unreachable |
| Toggle.DrawLabel | imgui_toggle.cpp:221-231 | the draw list gains the label text exactly when the label has width |
| Toggle.Toggle | imgui_toggle.cpp:18-45 | each public overload presses, flips, reserves layout, logs and draws as ToggleInternal does for its arguments; for a speed overload the frame fill is the linear interpolation of the off and on slots by t |
| ToggleScenarios.ClickDefaultToggle | imgui_toggle.cpp:115-173 | a click on an off default toggle, mixed or not, turns it on, returns true, marks it edited and fills the frame with the on slot |
| ToggleScenarios.MixedDefaultToggle | imgui_toggle.cpp:127-226 | a mixed default toggle that is on and not pressed stays on, draws its circle knob with its centre halfway along the track (progress 0.5), and logs "[~]" rather than "[x]" |

## Left out

- The Dear ImGui host is not part of this model. This covers `GetCurrentWindow`,
  `GetID`, `CalcTextSize`, `GetStyle`, `ItemSize`/`ItemAdd`, `ButtonBehavior` hit
  testing, `MarkItemEdited`, draw-list execution, `RenderText` and `LogRenderedText`.
  Their results are fields of `HostFrame`, and their effects are fields of `Output`.
- `ButtonBehavior`'s `held` output is not modelled, because the widget never reads it.
- `IMGUI_TEST_ENGINE_ITEM_INFO` hooks are not modelled. They only report to a test
  engine.
- `GetColorU32` packing and the style alpha are not modelled. Colours stay as
  four-component real vectors, which are the values the widget selects or interpolates.
- IEEE single-precision rounding is not modelled. All arithmetic is exact `real`, and
  the source's float literals (0.001, 0.08, 1.55, 1.5) are taken as exact decimals.
- NaN and infinite arguments are not modelled, because every argument is a `real`.
  In the source, a NaN knob rounding passes `ImClamp` unchanged. It then fails both
  knob-mode tests (imgui_toggle.cpp:85-86) and reaches the no-knob assertion
  (line 218). A NaN frame rounding fails the test at line 102 and takes the
  half-height rounding (line 104).
- The relative order of the log line and the label's `RenderText` is not modelled. The
  log line is a separate `Output` field, not an entry in the draw list.
- Some declarations are not modelled beyond the config record. These are the palette,
  knob inset, knob offset, width ratio, explicit size, border thicknesses, accessibility
  labels, and the size and config overloads. imgui_toggle.h declares them (lines 24-29,
  110-188), but imgui_toggle.cpp neither defines nor reads them.
- imgui_toggle_presets.cpp is not part of this model. It only assigns constants, some
  of them to fields that imgui_toggle.h does not declare.
- Toggle.ToggleInternal: the debug assertion that a toggle is not both animated and
  static becomes a precondition on every call whose window does not skip items,
  including calls that `ItemAdd` rejects. It is not an abort.
- Toggle.Toggle: the contract states the first draw command's colour only for the
  speed overloads, where animation is certain. For the others, the plan equality and
  `FrameColor`'s contract give it.
