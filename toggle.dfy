/**
 * The per-frame behaviour of imgui_toggle.cpp: the public Toggle overloads and
 * ToggleInternal, which normalises its arguments, flips the bound value on a press,
 * computes the animation progress `t`, the frame colour and the frame, knob and
 * label geometry, and emits an ordered list of draw commands.
 *
 * Every service of the Dear ImGui host (window state, item ids, hit testing, hover
 * and active ids, the active-id timer, text measurement, style and colours,
 * logging) is an explicit input, `HostFrame`; every effect on the host (layout
 * space reserved, value edited, drawing, log text) is part of the result, `Output`.
 */
module Toggle {

  import opened Wrappers
  import opened ImMath
  import ToggleFlags

  type Flags = ToggleFlags.Flags

  // Defaults the overloads pass on.
  const ToggleDefaultAnimationSpeed: real := 1.0
  const ToggleFrameRoundingDefault: real := 1.0
  const ToggleKnobRoundingDefault: real := 1.0

  /** The smallest animation speed ToggleInternal accepts; lower speeds are raised to it. */
  const MinimumSpeed: real := 0.001

  // Layout and timing constants of ToggleInternal.
  const ToggleAnimationSpeedScaler: real := 0.08
  const ToggleWidthRatio: real := 1.55
  const ToggleRadiusRatio: real := 0.5
  const ToggleKnobOffset: real := 1.5
  const ToggleKnobDoubleOffset: real := ToggleKnobOffset * 2.0

  // ---------------------------------------------------------------------------
  // Arguments and the public overloads
  // ---------------------------------------------------------------------------

  /** What ToggleInternal receives besides the label and the value. */
  datatype Args = Args(flags: Flags, speed: real, frameRounding: real, knobRounding: real)

  /** The five public Toggle overloads that imgui_toggle.cpp defines, by their extra parameters. */
  datatype Overload =
    | Plain
    | WithFlags(flags: Flags)
    | WithSpeed(flags: Flags, speed: real)
    | WithRounding(flags: Flags, frameRounding: real, knobRounding: real)
    | WithSpeedAndRounding(flags: Flags, speed: real, frameRounding: real, knobRounding: real)
  {
    /** The overloads that take a speed, which imply animation. */
    predicate TakesSpeed()
    {
      WithSpeed? || WithSpeedAndRounding?
    }
  }

  /** The flag rewrite of the speed overloads: Static is cleared and every animation bit set. */
  function ImplyAnimated(flags: Flags): (r: Flags)
    ensures r & ToggleFlags.Static == 0
    ensures r & ToggleFlags.Animated == ToggleFlags.Animated
    ensures r & !(ToggleFlags.Static | ToggleFlags.Animated) == flags & !(ToggleFlags.Static | ToggleFlags.Animated)
  {
    (flags & !ToggleFlags.Static) | ToggleFlags.Animated
  }

  /** The arguments each overload hands to ToggleInternal. */
  function OverloadArgs(o: Overload): (a: Args)
    ensures o.Plain? ==> a.flags == ToggleFlags.Default
    ensures o.WithFlags? || o.WithRounding? ==> a.flags == o.flags
    ensures o.TakesSpeed() ==> a.flags == ImplyAnimated(o.flags) && a.speed == o.speed
    ensures !o.TakesSpeed() ==> a.speed == ToggleDefaultAnimationSpeed
    ensures o.WithRounding? || o.WithSpeedAndRounding? ==>
              a.frameRounding == o.frameRounding && a.knobRounding == o.knobRounding
    ensures !(o.WithRounding? || o.WithSpeedAndRounding?) ==>
              a.frameRounding == ToggleFrameRoundingDefault && a.knobRounding == ToggleKnobRoundingDefault
  {
    match o
    case Plain =>
      Args(ToggleFlags.Default, ToggleDefaultAnimationSpeed, ToggleFrameRoundingDefault, ToggleKnobRoundingDefault)
    case WithFlags(f) =>
      Args(f, ToggleDefaultAnimationSpeed, ToggleFrameRoundingDefault, ToggleKnobRoundingDefault)
    case WithSpeed(f, s) =>
      Args(ImplyAnimated(f), s, ToggleFrameRoundingDefault, ToggleKnobRoundingDefault)
    case WithRounding(f, fr, kr) =>
      Args(f, ToggleDefaultAnimationSpeed, fr, kr)
    case WithSpeedAndRounding(f, s, fr, kr) =>
      Args(ImplyAnimated(f), s, fr, kr)
  }

  // ---------------------------------------------------------------------------
  // Modes
  // ---------------------------------------------------------------------------

  predicate IsCircleKnob(knobRounding: real)
  {
    knobRounding >= 1.0
  }

  predicate IsRectangleKnob(knobRounding: real)
  {
    knobRounding < 1.0
  }

  predicate IsAnimated(flags: Flags)
  {
    flags & ToggleFlags.Animated != 0
  }

  predicate IsStatic(flags: Flags)
  {
    flags & ToggleFlags.Static != 0
  }

  predicate HasBorderedFrame(flags: Flags)
  {
    flags & ToggleFlags.BorderedFrame != 0
  }

  predicate HasBorderedKnob(flags: Flags)
  {
    flags & ToggleFlags.BorderedKnob != 0
  }

  /** The debug assertion that a toggle is not both animated and static (checked once the window does not skip items). */
  predicate ModesConsistent(flags: Flags)
  {
    !IsAnimated(flags) || !IsStatic(flags)
  }

  /** The overloads that take a speed always produce animated, non-static, consistent flags. */
  lemma SpeedOverloadsAnimate(o: Overload)
    requires o.TakesSpeed()
    ensures IsAnimated(OverloadArgs(o).flags)
    ensures !IsStatic(OverloadArgs(o).flags)
    ensures ModesConsistent(OverloadArgs(o).flags)
  {
  }

  /** Whatever the knob rounding, exactly one knob shape is selected. */
  lemma KnobShapeExclusive(knobRounding: real)
    ensures IsCircleKnob(knobRounding) != IsRectangleKnob(knobRounding)
  {
  }

  // ---------------------------------------------------------------------------
  // Normalisation
  // ---------------------------------------------------------------------------

  /** The ranges ToggleInternal's normalisation brings its arguments into. */
  predicate Normalized(a: Args)
  {
    a.speed >= MinimumSpeed && 0.0 <= a.frameRounding <= 1.0 && 0.0 <= a.knobRounding <= 1.0
  }

  /**
   * No flags become the default flags (which are no flags), the speed is floored at
   * MinimumSpeed and both roundings are clamped to the unit interval.
   */
  function Normalize(a: Args): (n: Args)
    ensures Normalized(n)
    ensures n.flags == a.flags
    ensures a.speed >= MinimumSpeed ==> n.speed == a.speed
    ensures a.speed < MinimumSpeed ==> n.speed == MinimumSpeed
    ensures 0.0 <= a.frameRounding <= 1.0 ==> n.frameRounding == a.frameRounding
    ensures 0.0 <= a.knobRounding <= 1.0 ==> n.knobRounding == a.knobRounding
    ensures a.frameRounding < 0.0 ==> n.frameRounding == 0.0
    ensures a.frameRounding > 1.0 ==> n.frameRounding == 1.0
    ensures a.knobRounding < 0.0 ==> n.knobRounding == 0.0
    ensures a.knobRounding >= 1.0 <==> n.knobRounding == 1.0
  {
    Args(
      if a.flags == ToggleFlags.None then ToggleFlags.Default else a.flags,
      Max(a.speed, MinimumSpeed),
      Clamp(a.frameRounding, 0.0, 1.0),
      Clamp(a.knobRounding, 0.0, 1.0))
  }

  /** Normalisation leaves exactly the normalised arguments unchanged, so it is idempotent. */
  lemma NormalizeFixedPoints(a: Args)
    ensures Normalize(a) == a <==> Normalized(a)
    ensures Normalize(Normalize(a)) == Normalize(a)
  {
  }

  // ---------------------------------------------------------------------------
  // Host inputs
  // ---------------------------------------------------------------------------

  /** The style variables ToggleInternal reads. */
  datatype StyleVars = StyleVars(itemInnerSpacing: Vec2, framePadding: Vec2)

  /** The theme colour slots ToggleInternal reads. */
  datatype Theme = Theme(text: Vec4, frameBg: Vec4, frameBgHovered: Vec4, button: Vec4, buttonHovered: Vec4, border: Vec4)

  /** What the host reports during one call, for the item identified by the label. */
  datatype HostFrame = HostFrame(
    skipItems: bool,         // the current window skips items
    itemAdded: bool,         // ItemAdd(total_bb, id) accepted the item
    pressed: bool,           // ButtonBehavior reported a press (on click-down)
    hovered: bool,           // HoveredId == id
    lastActive: bool,        // LastActiveId == id
    lastActiveTimer: real,   // LastActiveIdTimer, seconds
    mixed: bool,             // the item carries the mixed-value item flag
    frameHeight: real,       // GetFrameHeight()
    cursorPos: Vec2,         // the window's cursor position
    labelSize: Vec2,         // CalcTextSize(caption, NULL, true)
    style: StyleVars,
    theme: Theme,
    logEnabled: bool)

  /** Whether the call gets past both early exits and draws. */
  predicate Drawn(host: HostFrame)
  {
    !host.skipItems && host.itemAdded
  }

  // ---------------------------------------------------------------------------
  // Geometry
  // ---------------------------------------------------------------------------

  function ToggleWidth(height: real): real
  {
    height * ToggleWidthRatio
  }

  function ToggleRadius(height: real): real
  {
    height * ToggleRadiusRatio
  }

  /** The frame's corner radius; the half-height branch applies only to a negative rounding. */
  function BackgroundRounding(height: real, frameRounding: real): real
  {
    if frameRounding >= 0.0 then height * frameRounding else height * 0.5
  }

  /** After normalisation the frame's corner radius is always height times frame rounding. */
  lemma BackgroundRoundingScales(height: real, a: Args)
    ensures BackgroundRounding(height, Normalize(a).frameRounding) == height * Normalize(a).frameRounding
  {
  }

  /** The box the whole widget occupies: the toggle, then the label with its spacing. */
  function TotalBox(pos: Vec2, width: real, labelSize: Vec2, style: StyleVars): (bb: Rect)
    ensures bb.min == pos
    ensures bb.max.x - bb.min.x == width + (if labelSize.x > 0.0 then style.itemInnerSpacing.x + labelSize.x else 0.0)
    ensures bb.max.y - bb.min.y == labelSize.y + style.framePadding.y * 2.0
  {
    Rect(pos, Add(pos, Vec2(width + (if labelSize.x > 0.0 then style.itemInnerSpacing.x + labelSize.x else 0.0),
                              labelSize.y + style.framePadding.y * 2.0)))
  }

  /** Where the label (and the log text) goes: right of the toggle box, one frame padding down. */
  function LabelPos(pos: Vec2, width: real, style: StyleVars): Vec2
  {
    Vec2(pos.x + width + style.itemInnerSpacing.x, pos.y + style.framePadding.y)
  }

  /**
   * A non-empty label ends exactly at the right edge of the total box and leaves one
   * frame padding below it; a widget without a label is exactly as wide as the toggle.
   */
  lemma LabelFitsTotalBox(pos: Vec2, width: real, labelSize: Vec2, style: StyleVars)
    ensures labelSize.x > 0.0 ==>
              LabelPos(pos, width, style).x + labelSize.x == TotalBox(pos, width, labelSize, style).max.x
    ensures LabelPos(pos, width, style).y + labelSize.y + style.framePadding.y == TotalBox(pos, width, labelSize, style).max.y
    ensures labelSize.x <= 0.0 ==> TotalBox(pos, width, labelSize, style).max.x == pos.x + width
  {
  }

  /** The centre of a circle knob at progress `t`. */
  function CircleKnobCenter(pos: Vec2, width: real, radius: real, t: real): Vec2
  {
    Vec2(pos.x + radius + t * (width - radius * 2.0), pos.y + radius)
  }

  /** The radius a circle knob is drawn with. */
  function CircleKnobRadius(radius: real): real
  {
    radius - ToggleKnobOffset
  }

  /**
   * The circle knob travels from `radius` right of the frame's left edge at t = 0 to
   * `radius` left of its right edge at t = 1 and never leaves that interval; the drawn
   * disc stays inside the frame with a margin of ToggleKnobOffset on every side.
   */
  lemma CircleKnobTravel(pos: Vec2, height: real, t: real)
    requires 0.0 <= height && 0.0 <= t <= 1.0
    ensures ToggleWidth(height) == 1.55 * height && ToggleRadius(height) == 0.5 * height
    ensures var c := CircleKnobCenter(pos, ToggleWidth(height), ToggleRadius(height), t);
            pos.x + ToggleRadius(height) <= c.x <= pos.x + ToggleWidth(height) - ToggleRadius(height) &&
            c.y == pos.y + ToggleRadius(height) &&
            (t == 0.0 ==> c.x == pos.x + ToggleRadius(height)) &&
            (t == 1.0 ==> c.x == pos.x + ToggleWidth(height) - ToggleRadius(height))
    ensures var c := CircleKnobCenter(pos, ToggleWidth(height), ToggleRadius(height), t);
            var r := CircleKnobRadius(ToggleRadius(height));
            pos.x + ToggleKnobOffset <= c.x - r && c.x + r <= pos.x + ToggleWidth(height) - ToggleKnobOffset &&
            c.y - r == pos.y + ToggleKnobOffset && c.y + r == pos.y + height - ToggleKnobOffset
  {
  }

  /** The circle knob moves rightwards as `t` grows. */
  lemma CircleKnobMonotone(pos: Vec2, height: real, t1: real, t2: real)
    requires 0.0 <= height && t1 <= t2
    ensures CircleKnobCenter(pos, ToggleWidth(height), ToggleRadius(height), t1).x
         <= CircleKnobCenter(pos, ToggleWidth(height), ToggleRadius(height), t2).x
  {
  }

  /** The box of a rectangle knob at progress `t`. */
  function RectangleKnobBox(pos: Vec2, height: real, width: real, radius: real, t: real): Rect
  {
    var left := t * (width - radius * 2.0) + ToggleKnobOffset;
    var top := ToggleKnobOffset;
    var bottom := height - ToggleKnobOffset;
    var right := left + radius * 2.0 - ToggleKnobDoubleOffset;
    Rect(Add(pos, Vec2(left, top)), Add(pos, Vec2(right, bottom)))
  }

  /** The corner radius of a rectangle knob. */
  function RectangleKnobRounding(height: real, knobRounding: real): real
  {
    height * knobRounding
  }

  /**
   * A rectangle knob is always `2 * radius - 3` wide and spans from 1.5 to
   * `height - 1.5` below the frame's top; over the unit interval of `t` it moves
   * from 1.5 right of the frame's left edge to 1.5 left of its right edge.
   */
  lemma RectangleKnobShape(pos: Vec2, height: real, t: real)
    ensures var b := RectangleKnobBox(pos, height, ToggleWidth(height), ToggleRadius(height), t);
            b.max.x - b.min.x == 2.0 * ToggleRadius(height) - 3.0 &&
            b.min.y == pos.y + 1.5 && b.max.y == pos.y + height - 1.5
    ensures var b := RectangleKnobBox(pos, height, ToggleWidth(height), ToggleRadius(height), t);
            0.0 <= height && 0.0 <= t <= 1.0 ==>
              pos.x + ToggleKnobOffset <= b.min.x && b.max.x <= pos.x + ToggleWidth(height) - ToggleKnobOffset &&
              (t == 0.0 ==> b.min.x == pos.x + ToggleKnobOffset) &&
              (t == 1.0 ==> b.max.x == pos.x + ToggleWidth(height) - ToggleKnobOffset)
  {
    if 0.0 <= height && 0.0 <= t <= 1.0 {
      MulUnitBounds(ToggleWidth(height) - ToggleRadius(height) * 2.0, t);
    }
  }

  // ---------------------------------------------------------------------------
  // Progress
  // ---------------------------------------------------------------------------

  /** The resting progress: 0.5 when mixed, else 1 for on and 0 for off. */
  function RestingProgress(mixed: bool, v: bool): (t: real)
    ensures t == 0.5 <==> mixed
    ensures t == 1.0 <==> !mixed && v
    ensures t == 0.0 <==> !mixed && !v
  {
    if mixed then 0.5 else if v then 1.0 else 0.0
  }

  /** How long the animation ramp lasts: the speed scaler divided by the (guarded) speed. */
  function AnimationDuration(speed: real): (d: real)
    ensures d > 0.0
    ensures speed > 0.0 ==> d == ToggleAnimationSpeedScaler / speed
  {
    var speedMul := 1.0 / (if speed > 0.0 then speed else 1.0);
    speedMul * ToggleAnimationSpeedScaler
  }

  /** The saturated linear ramp over the active-id timer. */
  function AnimationRamp(timer: real, speed: real): (tAnim: real)
    ensures 0.0 <= tAnim <= 1.0
  {
    Saturate(timer / AnimationDuration(speed))
  }

  /**
   * The progress `t` of the knob and colour interpolation. When the toggle animates
   * and is the last active item the ramp decides, measured from the value's
   * opposite extreme, and overrides the mixed state; otherwise `t` rests.
   */
  function Progress(mixed: bool, v: bool, animating: bool, timer: real, speed: real): (t: real)
    ensures 0.0 <= t <= 1.0
    ensures !animating ==> t == RestingProgress(mixed, v)
    ensures animating && v ==> t == AnimationRamp(timer, speed)
    ensures animating && !v ==> t == 1.0 - AnimationRamp(timer, speed)
  {
    var t := RestingProgress(mixed, v);
    if animating then (if v then AnimationRamp(timer, speed) else 1.0 - AnimationRamp(timer, speed)) else t
  }

  /** The ramp never decreases as the timer runs. */
  lemma AnimationRampMonotone(timer1: real, timer2: real, speed: real)
    requires timer1 <= timer2
    ensures AnimationRamp(timer1, speed) <= AnimationRamp(timer2, speed)
  {
  }

  /**
   * For a normalised speed the ramp is 0 exactly until the timer starts, is
   * linear in between, and is 1 exactly once the timer reaches the speed scaler
   * divided by the speed.
   */
  lemma AnimationRampSaturates(timer: real, speed: real)
    requires speed >= MinimumSpeed
    ensures AnimationRamp(timer, speed) == 0.0 <==> timer <= 0.0
    ensures AnimationRamp(timer, speed) == 1.0 <==> timer >= ToggleAnimationSpeedScaler / speed
    ensures 0.0 <= timer <= ToggleAnimationSpeedScaler / speed ==>
              AnimationRamp(timer, speed) == timer * speed / ToggleAnimationSpeedScaler
  {
  }

  /**
   * An animation starts at the extreme opposite to the new value and ends at the
   * value's own extreme, mixed or not.
   */
  lemma AnimationEndpoints(mixed: bool, v: bool, timer: real, speed: real)
    requires speed >= MinimumSpeed
    ensures timer <= 0.0 ==> Progress(mixed, v, true, timer, speed) == (if v then 0.0 else 1.0)
    ensures timer >= ToggleAnimationSpeedScaler / speed ==> Progress(mixed, v, true, timer, speed) == (if v then 1.0 else 0.0)
  {
    AnimationRampSaturates(timer, speed);
  }

  // ---------------------------------------------------------------------------
  // Colours
  // ---------------------------------------------------------------------------

  function FrameOffColor(theme: Theme, hovered: bool): Vec4
  {
    if hovered then theme.frameBgHovered else theme.frameBg
  }

  function FrameOnColor(theme: Theme, hovered: bool): Vec4
  {
    if hovered then theme.buttonHovered else theme.button
  }

  /**
   * The frame's fill colour: the hovered or plain slot pair; interpolated by `t`
   * when animated, otherwise chosen by the value.
   */
  function FrameColor(theme: Theme, hovered: bool, animated: bool, v: bool, t: real): (c: Vec4)
    ensures !animated ==> c == (if v then FrameOnColor(theme, hovered) else FrameOffColor(theme, hovered))
    ensures animated ==> c == Lerp4(FrameOffColor(theme, hovered), FrameOnColor(theme, hovered), t)
    ensures animated && t == 0.0 ==> c == FrameOffColor(theme, hovered)
    ensures animated && t == 1.0 ==> c == FrameOnColor(theme, hovered)
    ensures animated && 0.0 <= t <= 1.0 ==> Between(FrameOffColor(theme, hovered), FrameOnColor(theme, hovered), c)
  {
    var c := if hovered
      then (if animated then Lerp4(theme.frameBgHovered, theme.buttonHovered, t)
            else if v then theme.buttonHovered else theme.frameBgHovered)
      else (if animated then Lerp4(theme.frameBg, theme.button, t)
            else if v then theme.button else theme.frameBg);
    if animated && 0.0 <= t <= 1.0 then
      Lerp4Between(FrameOffColor(theme, hovered), FrameOnColor(theme, hovered), t);
      c
    else
      c
  }

  /** A non-animated frame colour depends on the value and not on `t`, so mixed shows the value's colour. */
  lemma StaticFrameColorIgnoresProgress(theme: Theme, hovered: bool, v: bool, t1: real, t2: real)
    ensures FrameColor(theme, hovered, false, v, t1) == FrameColor(theme, hovered, false, v, t2)
    ensures FrameColor(theme, hovered, false, v, t1) != FrameColor(theme, hovered, false, !v, t1) ==>
              FrameOnColor(theme, hovered) != FrameOffColor(theme, hovered)
  {
  }

  // ---------------------------------------------------------------------------
  // Draw plan
  // ---------------------------------------------------------------------------

  /** Which part of the widget a draw command paints. */
  datatype Part = FrameFill | FrameBorder | KnobFill | KnobBorder | LabelText

  /** The painting order of the parts. */
  function Rank(p: Part): nat
  {
    match p
    case FrameFill => 0
    case FrameBorder => 1
    case KnobFill => 2
    case KnobBorder => 3
    case LabelText => 4
  }

  /** The draw-list primitives ToggleInternal uses, plus RenderText. */
  datatype Primitive =
    | RectFilled(min: Vec2, max: Vec2, color: Vec4, rounding: real)    // AddRectFilled
    | RectStroke(min: Vec2, max: Vec2, color: Vec4, rounding: real)    // AddRect
    | CircleFilled(center: Vec2, radius: real, color: Vec4)            // AddCircleFilled
    | CircleStroke(center: Vec2, radius: real, color: Vec4)            // AddCircle
    | Text(pos: Vec2, text: string)                                    // RenderText

  datatype DrawCmd = DrawCmd(part: Part, prim: Primitive)

  /** Parts are painted in strictly increasing rank: each at most once, frame before knob before label. */
  predicate InDrawOrder(plan: seq<DrawCmd>)
  {
    forall i, j :: 0 <= i < j < |plan| ==> Rank(plan[i].part) < Rank(plan[j].part)
  }

  predicate Paints(plan: seq<DrawCmd>, p: Part)
  {
    exists i :: 0 <= i < |plan| && plan[i].part == p
  }

  /** The frame's fill and optional border. */
  function FrameCmds(pos: Vec2, height: real, rounding: real, bg: Vec4, bordered: bool, border: Vec4): seq<DrawCmd>
  {
    var frameMin := pos;
    var frameMax := Vec2(pos.x + ToggleWidth(height), pos.y + height);
    [DrawCmd(FrameFill, RectFilled(frameMin, frameMax, bg, rounding))] +
    (if bordered then [DrawCmd(FrameBorder, RectStroke(frameMin, frameMax, border, rounding))] else [])
  }

  /** The knob's fill primitive, a circle or a rectangle by the knob rounding. */
  function KnobFillPrimitive(pos: Vec2, height: real, knobRounding: real, t: real, color: Vec4): (p: Primitive)
    ensures IsCircleKnob(knobRounding) ==> p.CircleFilled?
    ensures IsRectangleKnob(knobRounding) ==> p.RectFilled?
  {
    if IsCircleKnob(knobRounding) then
      CircleFilled(CircleKnobCenter(pos, ToggleWidth(height), ToggleRadius(height), t), CircleKnobRadius(ToggleRadius(height)), color)
    else
      var b := RectangleKnobBox(pos, height, ToggleWidth(height), ToggleRadius(height), t);
      RectFilled(b.min, b.max, color, RectangleKnobRounding(height, knobRounding))
  }

  /** The outline drawn over a knob fill: the same shape, in the border colour. */
  function Outline(fill: Primitive, border: Vec4): Primitive
  {
    match fill
    case CircleFilled(c, r, _) => CircleStroke(c, r, border)
    case RectFilled(mn, mx, _, rounding) => RectStroke(mn, mx, border, rounding)
    case _ => fill
  }

  /** The knob's fill and optional border. */
  function KnobCmds(fill: Primitive, bordered: bool, border: Vec4): seq<DrawCmd>
  {
    [DrawCmd(KnobFill, fill)] + (if bordered then [DrawCmd(KnobBorder, Outline(fill, border))] else [])
  }

  function LabelCmds(caption: string, labelSize: Vec2, labelPos: Vec2): seq<DrawCmd>
  {
    if labelSize.x > 0.0 then [DrawCmd(LabelText, Text(labelPos, caption))] else []
  }

  /** The draw commands of one drawn toggle, for normalised arguments `n`, progress `t` and frame colour `bg`. */
  function DrawPlan(caption: string, host: HostFrame, n: Args, t: real, bg: Vec4): seq<DrawCmd>
  {
    var pos := host.cursorPos;
    var height := host.frameHeight;
    FrameCmds(pos, height, BackgroundRounding(height, n.frameRounding), bg, HasBorderedFrame(n.flags), host.theme.border) +
    KnobCmds(KnobFillPrimitive(pos, height, n.knobRounding, t, host.theme.text), HasBorderedKnob(n.flags), host.theme.border) +
    LabelCmds(caption, host.labelSize, LabelPos(pos, ToggleWidth(height), host.style))
  }

  function Count(b: bool): nat
  {
    if b then 1 else 0
  }

  /** Every command of `s` paints a part ranked between `lo` and `hi`. */
  predicate PartsIn(s: seq<DrawCmd>, lo: nat, hi: nat)
  {
    forall i :: 0 <= i < |s| ==> lo <= Rank(s[i].part) <= hi
  }

  /** The parts of a plan segment: what it paints, in order, within a rank range. */
  predicate Segment(s: seq<DrawCmd>, lo: nat, hi: nat, mandatory: Part, optional: Part, present: bool)
  {
    InDrawOrder(s) && PartsIn(s, lo, hi) &&
    |s| == 1 + Count(present) && s[0].part == mandatory &&
    Paints(s, mandatory) && (Paints(s, optional) <==> present)
  }

  lemma FrameCmdsSegment(pos: Vec2, height: real, rounding: real, bg: Vec4, bordered: bool, border: Vec4)
    ensures Segment(FrameCmds(pos, height, rounding, bg, bordered, border), 0, 1, FrameFill, FrameBorder, bordered)
  {
    var f := FrameCmds(pos, height, rounding, bg, bordered, border);
    assert f[0].part == FrameFill;
    if bordered {
      assert f[1].part == FrameBorder;
    }
  }

  lemma KnobCmdsSegment(fill: Primitive, bordered: bool, border: Vec4)
    ensures Segment(KnobCmds(fill, bordered, border), 2, 3, KnobFill, KnobBorder, bordered)
    ensures KnobCmds(fill, bordered, border)[0].prim == fill
  {
    var k := KnobCmds(fill, bordered, border);
    assert k[0].part == KnobFill;
    if bordered {
      assert k[1].part == KnobBorder;
    }
  }

  lemma LabelCmdsPaints(caption: string, labelSize: Vec2, labelPos: Vec2)
    ensures var l := LabelCmds(caption, labelSize, labelPos);
            InDrawOrder(l) && PartsIn(l, 4, 4) && |l| == Count(labelSize.x > 0.0) &&
            (Paints(l, LabelText) <==> labelSize.x > 0.0)
  {
    if labelSize.x > 0.0 {
      assert LabelCmds(caption, labelSize, labelPos)[0].part == LabelText;
    }
  }

  /**
   * A plan paints the frame first, its border only when bordered, then the knob in
   * the selected shape, the knob's border only when bordered, and the label last and
   * only when it has width; each border right after its fill.
   */
  lemma DrawPlanOrder(caption: string, host: HostFrame, n: Args, t: real, bg: Vec4)
    ensures var plan := DrawPlan(caption, host, n, t, bg);
            InDrawOrder(plan) &&
            |plan| == 2 + Count(HasBorderedFrame(n.flags)) + Count(HasBorderedKnob(n.flags)) + Count(host.labelSize.x > 0.0) &&
            plan[0] == DrawCmd(FrameFill, RectFilled(host.cursorPos, Vec2(host.cursorPos.x + ToggleWidth(host.frameHeight), host.cursorPos.y + host.frameHeight),
                                                     bg, BackgroundRounding(host.frameHeight, n.frameRounding))) &&
            (Paints(plan, FrameBorder) <==> HasBorderedFrame(n.flags)) &&
            Paints(plan, KnobFill) &&
            (Paints(plan, KnobBorder) <==> HasBorderedKnob(n.flags)) &&
            (Paints(plan, LabelText) <==> host.labelSize.x > 0.0)
    ensures var plan := DrawPlan(caption, host, n, t, bg);
            var k := 1 + Count(HasBorderedFrame(n.flags));
            k < |plan| && plan[k].part == KnobFill &&
            (IsCircleKnob(n.knobRounding) ==> plan[k].prim.CircleFilled?) &&
            (IsRectangleKnob(n.knobRounding) ==> plan[k].prim.RectFilled?)
  {
    var pos := host.cursorPos;
    var height := host.frameHeight;
    var fill := KnobFillPrimitive(pos, height, n.knobRounding, t, host.theme.text);
    var f := FrameCmds(pos, height, BackgroundRounding(height, n.frameRounding), bg, HasBorderedFrame(n.flags), host.theme.border);
    var k := KnobCmds(fill, HasBorderedKnob(n.flags), host.theme.border);
    var l := LabelCmds(caption, host.labelSize, LabelPos(pos, ToggleWidth(height), host.style));
    FrameCmdsSegment(pos, height, BackgroundRounding(height, n.frameRounding), bg, HasBorderedFrame(n.flags), host.theme.border);
    KnobCmdsSegment(fill, HasBorderedKnob(n.flags), host.theme.border);
    LabelCmdsPaints(caption, host.labelSize, LabelPos(pos, ToggleWidth(height), host.style));
    InDrawOrderConcat(f, 0, 1, k, 2, 3);
    InDrawOrderConcat(f + k, 0, 3, l, 4, 4);
    assert DrawPlan(caption, host, n, t, bg) == (f + k) + l;
    PaintsConcat(f, k, FrameBorder);
    PaintsConcat(f + k, l, FrameBorder);
    NotPaintedOutside(k, 2, 3, FrameBorder);
    NotPaintedOutside(l, 4, 4, FrameBorder);
    PaintsConcat(f, k, KnobFill);
    PaintsConcat(f + k, l, KnobFill);
    PaintsConcat(f, k, KnobBorder);
    PaintsConcat(f + k, l, KnobBorder);
    NotPaintedOutside(f, 0, 1, KnobBorder);
    NotPaintedOutside(l, 4, 4, KnobBorder);
    PaintsConcat(f, k, LabelText);
    PaintsConcat(f + k, l, LabelText);
    NotPaintedOutside(f, 0, 1, LabelText);
    NotPaintedOutside(k, 2, 3, LabelText);
    assert ((f + k) + l)[|f|] == k[0];
  }

  /** Two ordered segments whose ranks do not overlap make an ordered plan. */
  lemma InDrawOrderConcat(a: seq<DrawCmd>, aLo: nat, aHi: nat, b: seq<DrawCmd>, bLo: nat, bHi: nat)
    requires InDrawOrder(a) && PartsIn(a, aLo, aHi)
    requires InDrawOrder(b) && PartsIn(b, bLo, bHi)
    requires aLo <= aHi < bLo <= bHi
    ensures InDrawOrder(a + b) && PartsIn(a + b, aLo, bHi)
  {
  }

  /** A concatenation paints a part exactly when one of its halves does. */
  lemma PaintsConcat(a: seq<DrawCmd>, b: seq<DrawCmd>, p: Part)
    ensures Paints(a + b, p) <==> Paints(a, p) || Paints(b, p)
  {
    if Paints(a + b, p) {
      var i :| 0 <= i < |a + b| && (a + b)[i].part == p;
      if i < |a| {
        assert a[i] == (a + b)[i];
      } else {
        assert b[i - |a|] == (a + b)[i];
      }
    }
    if Paints(a, p) {
      var i :| 0 <= i < |a| && a[i].part == p;
      assert (a + b)[i] == a[i];
    }
    if Paints(b, p) {
      var i :| 0 <= i < |b| && b[i].part == p;
      assert (a + b)[|a| + i] == b[i];
    }
  }

  lemma NotPaintedOutside(s: seq<DrawCmd>, lo: nat, hi: nat, p: Part)
    requires PartsIn(s, lo, hi) && !(lo <= Rank(p) <= hi)
    ensures !Paints(s, p)
  {
  }

  // ---------------------------------------------------------------------------
  // Log text
  // ---------------------------------------------------------------------------

  /** The glyph written to the log: "[~]" mixed, "[x]" on, "[ ]" off. */
  function LogGlyph(mixed: bool, v: bool): (s: string)
    ensures s == "[~]" <==> mixed
    ensures s == "[x]" <==> !mixed && v
    ensures s == "[ ]" <==> !mixed && !v
  {
    if mixed then "[~]" else if v then "[x]" else "[ ]"
  }

  // ---------------------------------------------------------------------------
  // ToggleInternal
  // ---------------------------------------------------------------------------

  /** ItemSize's request: the box to reserve and the text baseline offset. */
  datatype LayoutRequest = LayoutRequest(bb: Rect, textBaselineY: real)

  /** LogRenderedText's arguments. */
  datatype LogLine = LogLine(pos: Vec2, text: string)

  /** The result of one call, and everything it asks of the host. */
  datatype Output = Output(
    pressed: bool,                   // the return value
    value: bool,                     // *v after the call
    edited: bool,                    // MarkItemEdited(id) was called
    itemSize: Option<LayoutRequest>, // ItemSize(total_bb, FramePadding.y), if called
    plan: seq<DrawCmd>,              // the window draw list's additions, then RenderText
    log: Option<LogLine>)            // LogRenderedText, if called

  /** The progress of a drawn toggle after the press has been applied to `value`. */
  function FrameProgress(host: HostFrame, n: Args, value: bool): (t: real)
    ensures 0.0 <= t <= 1.0
  {
    Progress(host.mixed, value, IsAnimated(n.flags) && host.lastActive, host.lastActiveTimer, n.speed)
  }

  /** The frame colour of a drawn toggle after the press has been applied to `value`. */
  function FrameBackground(host: HostFrame, n: Args, value: bool): Vec4
  {
    FrameColor(host.theme, host.hovered, IsAnimated(n.flags), value, FrameProgress(host, n, value))
  }

  /**
   * One frame of the toggle. The value is negated exactly when the host reports a
   * press on an item that got past both early exits, and the press is returned;
   * a skipped or rejected item returns false, keeps the value and draws nothing.
   */
  method ToggleInternal(caption: string, v: bool, flags: Flags, speed: real, frameRounding: real, knobRounding: real, host: HostFrame)
    returns (out: Output)
    requires !host.skipItems ==> ModesConsistent(flags)
    ensures out.pressed == (Drawn(host) && host.pressed)
    ensures out.value == (if out.pressed then !v else v)
    ensures out.edited == out.pressed
    ensures !Drawn(host) ==> out.plan == [] && out.log == None
    ensures host.skipItems ==> out.itemSize == None
    ensures var n := Normalize(Args(flags, speed, frameRounding, knobRounding));
            !host.skipItems ==>
              out.itemSize == Some(LayoutRequest(TotalBox(host.cursorPos, ToggleWidth(host.frameHeight), host.labelSize, host.style),
                                                 host.style.framePadding.y))
    ensures var n := Normalize(Args(flags, speed, frameRounding, knobRounding));
            Drawn(host) ==>
              out.plan == DrawPlan(caption, host, n, FrameProgress(host, n, out.value), FrameBackground(host, n, out.value))
    ensures Drawn(host) ==>
              out.log == (if host.logEnabled
                          then Some(LogLine(LabelPos(host.cursorPos, ToggleWidth(host.frameHeight), host.style), LogGlyph(host.mixed, out.value)))
                          else None)
  {
    ghost var n := Normalize(Args(flags, speed, frameRounding, knobRounding));

    // Normalise the arguments.
    var flags := flags;
    if flags == ToggleFlags.None {
      flags := ToggleFlags.Default;
    }
    var speed := Max(speed, MinimumSpeed);
    var frameRounding := Clamp(frameRounding, 0.0, 1.0);
    var knobRounding := Clamp(knobRounding, 0.0, 1.0);
    assert n == Args(flags, speed, frameRounding, knobRounding);

    if host.skipItems {
      return Output(false, v, false, None, [], None);
    }

    var pos := host.cursorPos;
    var height := host.frameHeight;
    var width := ToggleWidth(height);

    var totalBB := TotalBox(pos, width, host.labelSize, host.style);
    var itemSize := Some(LayoutRequest(totalBB, host.style.framePadding.y));
    if !host.itemAdded {
      return Output(false, v, false, itemSize, [], None);
    }

    // The press flips the value.
    var pressed := host.pressed;
    var value := v;
    var edited := false;
    if pressed {
      value := !value;
      edited := true;
    }

    var plan := DrawToggle(caption, host, Args(flags, speed, frameRounding, knobRounding), value);

    var log := None;
    if host.logEnabled {
      log := Some(LogLine(LabelPos(pos, width, host.style), LogGlyph(host.mixed, value)));
    }
    out := Output(pressed, value, edited, itemSize, plan, log);
  }

  /**
   * The drawing half of one frame, for an item the host accepted: the animation
   * progress, the frame colour, then the frame, the knob and the label, in that order.
   */
  method DrawToggle(caption: string, host: HostFrame, n: Args, value: bool) returns (plan: seq<DrawCmd>)
    ensures plan == DrawPlan(caption, host, n, FrameProgress(host, n, value), FrameBackground(host, n, value))
  {
    var theme := host.theme;
    var pos := host.cursorPos;

    // Modes.
    var isAnimated := IsAnimated(n.flags);
    var hasBorderedFrame := HasBorderedFrame(n.flags);
    var hasBorderedKnob := HasBorderedKnob(n.flags);

    // Sizes.
    var height := host.frameHeight;
    var width := ToggleWidth(height);
    var radius := ToggleRadius(height);
    var backgroundRounding := BackgroundRounding(height, n.frameRounding);

    // Progress.
    var t := Progress(host.mixed, value, isAnimated && host.lastActive, host.lastActiveTimer, n.speed);

    // Frame colour.
    var backgroundColor := FrameColor(theme, host.hovered, isAnimated, value, t);

    // Frame, then knob, then label.
    plan := DrawFrame(pos, width, height, backgroundColor, backgroundRounding, hasBorderedFrame, theme.border);
    plan := DrawKnob(plan, pos, height, width, radius, t, n.knobRounding, theme.text, hasBorderedKnob, theme.border);
    plan := DrawLabel(plan, caption, host.labelSize, LabelPos(pos, width, host.style));
  }

  /** Appends the label text to the draw list unless the label is empty. */
  method DrawLabel(drawList: seq<DrawCmd>, caption: string, labelSize: Vec2, labelPos: Vec2) returns (drawList': seq<DrawCmd>)
    ensures drawList' == drawList + LabelCmds(caption, labelSize, labelPos)
  {
    drawList' := drawList;
    if labelSize.x > 0.0 {
      drawList' := drawList' + [DrawCmd(LabelText, Text(labelPos, caption))];
    }
  }

  /** Starts the draw list with the frame's fill and, when bordered, its outline. */
  method DrawFrame(pos: Vec2, width: real, height: real, color: Vec4, rounding: real, bordered: bool, border: Vec4)
    returns (drawList': seq<DrawCmd>)
    requires width == ToggleWidth(height)
    ensures drawList' == FrameCmds(pos, height, rounding, color, bordered, border)
  {
    var frameMin := pos;
    var frameMax := Vec2(pos.x + width, pos.y + height);
    drawList' := [DrawCmd(FrameFill, RectFilled(frameMin, frameMax, color, rounding))];
    if bordered {
      drawList' := drawList' + [DrawCmd(FrameBorder, RectStroke(frameMin, frameMax, border, rounding))];
    }
  }

  /**
   * Appends the knob to the draw list: a circle when the knob rounding selects one,
   * otherwise a rectangle, followed by the same shape's outline when bordered.
   */
  method DrawKnob(drawList: seq<DrawCmd>, pos: Vec2, height: real, width: real, radius: real, t: real,
                  knobRounding: real, color: Vec4, bordered: bool, border: Vec4)
    returns (drawList': seq<DrawCmd>)
    requires width == ToggleWidth(height) && radius == ToggleRadius(height)
    ensures drawList' == drawList + KnobCmds(KnobFillPrimitive(pos, height, knobRounding, t, color), bordered, border)
  {
    var isCircleKnob := IsCircleKnob(knobRounding);
    var isRectangleKnob := IsRectangleKnob(knobRounding);
    drawList' := drawList;
    if isCircleKnob {
      var knobCenter := CircleKnobCenter(pos, width, radius, t);
      var knobRadius := CircleKnobRadius(radius);
      drawList' := drawList' + [DrawCmd(KnobFill, CircleFilled(knobCenter, knobRadius, color))];
      if bordered {
        drawList' := drawList' + [DrawCmd(KnobBorder, CircleStroke(knobCenter, knobRadius, border))];
      }
    } else if isRectangleKnob {
      var knobRoundedHeight := RectangleKnobRounding(height, knobRounding);
      var knob := RectangleKnobBox(pos, height, width, radius, t);
      drawList' := drawList' + [DrawCmd(KnobFill, RectFilled(knob.min, knob.max, color, knobRoundedHeight))];
      if bordered {
        drawList' := drawList' + [DrawCmd(KnobBorder, RectStroke(knob.min, knob.max, border, knobRoundedHeight))];
      }
    } else {
      assert false;
    }
  }

  /** The public Toggle entry points: each hands its arguments on to ToggleInternal. */
  method Toggle(caption: string, v: bool, o: Overload, host: HostFrame) returns (out: Output)
    requires !host.skipItems ==> ModesConsistent(OverloadArgs(o).flags)
    ensures out.pressed == (Drawn(host) && host.pressed)
    ensures out.value == (out.pressed != v)
    ensures out.edited == out.pressed
    ensures !Drawn(host) ==> out.plan == [] && out.log == None
    ensures host.skipItems ==> out.itemSize == None
    ensures !host.skipItems ==>
              out.itemSize == Some(LayoutRequest(TotalBox(host.cursorPos, ToggleWidth(host.frameHeight), host.labelSize, host.style),
                                                 host.style.framePadding.y))
    ensures Drawn(host) ==>
              out.log == (if host.logEnabled
                          then Some(LogLine(LabelPos(host.cursorPos, ToggleWidth(host.frameHeight), host.style), LogGlyph(host.mixed, out.value)))
                          else None)
    ensures var n := Normalize(OverloadArgs(o));
            Drawn(host) ==>
              out.plan == DrawPlan(caption, host, n, FrameProgress(host, n, out.value), FrameBackground(host, n, out.value))
    ensures o.TakesSpeed() && Drawn(host) ==>
              out.plan[0].prim.color == Lerp4(FrameOffColor(host.theme, host.hovered), FrameOnColor(host.theme, host.hovered),
                                              FrameProgress(host, Normalize(OverloadArgs(o)), out.value))
  {
    var a := OverloadArgs(o);
    out := ToggleInternal(caption, v, a.flags, a.speed, a.frameRounding, a.knobRounding, host);
    if o.TakesSpeed() {
      SpeedOverloadsAnimate(o);
    }
  }
}
