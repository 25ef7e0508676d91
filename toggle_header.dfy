/**
 * The declarations of imgui_toggle.h that the widget rests on: the
 * ImGuiToggleFlags_ bit set, the ImGuiToggleConstants limits and defaults, the
 * ImGuiToggleConfig default and the ImGuiTogglePalette record.
 */

/** ImGuiToggleFlags_: the C `int` flag word, as a 32-bit vector. */
module ToggleFlags {

  type Flags = bv32

  const None: Flags := 0
  const AnimatedKnob: Flags := 1 << 0
  const AnimatedFrameColor: Flags := 1 << 1
  const AnimatedKnobColor: Flags := 1 << 2
  const BorderedFrame: Flags := 1 << 3
  const BorderedKnob: Flags := 1 << 4
  // Bits 5 to 7 are reserved.
  const A11yLabels: Flags := 1 << 8
  const Bordered: Flags := BorderedFrame | BorderedKnob
  const Animated: Flags := AnimatedKnob | AnimatedFrameColor | AnimatedKnobColor
  const Default: Flags := None

  /**
   * ImGuiToggleFlags_Static is read by imgui_toggle.cpp but not declared by the
   * header that comes with it; here it is one more bit, distinct from every other.
   */
  const Static: Flags := 1 << 9

  /** The individual (non-shorthand) flags in declaration order, Static last. */
  const Singles: seq<Flags> := [AnimatedKnob, AnimatedFrameColor, AnimatedKnobColor, BorderedFrame, BorderedKnob, A11yLabels, Static]

  /** Exactly one bit of `f` is set. */
  predicate SingleBit(f: Flags)
  {
    f != 0 && f & (f - 1) == 0
  }

  /** Every flag of `fs` is a single bit and no two share a bit. */
  predicate DistinctSingleBits(fs: seq<Flags>)
  {
    (forall i :: 0 <= i < |fs| ==> SingleBit(fs[i])) &&
    (forall i, j :: 0 <= i < j < |fs| ==> fs[i] & fs[j] == 0)
  }

  /** The individual flags are pairwise-disjoint single bits. */
  lemma SinglesAreDistinctBits()
    ensures |Singles| == 7
    ensures DistinctSingleBits(Singles)
  {
  }

  /** A flag word has some animation bit exactly when it meets the Animated shorthand. */
  lemma AnimatedIsUnion(f: Flags)
    ensures (f & Animated != 0) <==> (f & AnimatedKnob != 0 || f & AnimatedFrameColor != 0 || f & AnimatedKnobColor != 0)
    ensures (f & Animated == Animated) <==> (f & AnimatedKnob != 0 && f & AnimatedFrameColor != 0 && f & AnimatedKnobColor != 0)
  {
  }

  /** A flag word has some border bit exactly when it meets the Bordered shorthand. */
  lemma BorderedIsUnion(f: Flags)
    ensures (f & Bordered != 0) <==> (f & BorderedFrame != 0 || f & BorderedKnob != 0)
    ensures (f & Bordered == Bordered) <==> (f & BorderedFrame != 0 && f & BorderedKnob != 0)
  {
  }

  /** The accessibility-label bit and Static belong to neither shorthand, and the shorthands are disjoint. */
  lemma ShorthandsDisjoint()
    ensures A11yLabels & Animated == 0 && A11yLabels & Bordered == 0
    ensures Static & Animated == 0 && Static & Bordered == 0
    ensures Animated & Bordered == 0
  {
  }

  /** The default flag word is the empty one, so replacing "no flags" by "default flags" changes nothing. */
  lemma DefaultIsNone(f: Flags)
    ensures Default == None
    ensures (if f == None then Default else f) == f
  {
  }
}

/** ImGuiToggleConstants: defaults and limits for ImGuiToggleConfig. */
module ToggleConstants {

  /** The golden ratio, with the digits the header writes. */
  const Phi: real := 1.6180339887498948482045
  const DiameterToRadiusRatio: real := 0.5
  const AnimationSpeedDisabled: real := 0.0
  const AnimationSpeedDefault: real := 1.0
  const AnimationSpeedMinimum: real := AnimationSpeedDisabled
  const FrameRoundingDefault: real := 1.0
  const FrameRoundingMinimum: real := 0.0
  const FrameRoundingMaximum: real := 1.0
  const KnobRoundingDefault: real := 1.0
  const KnobRoundingMinimum: real := 0.0
  const KnobRoundingMaximum: real := 1.0
  const WidthRatioDefault: real := Phi
  const WidthRatioMinimum: real := 1.0
  const WidthRatioMaximum: real := 10.0
  const KnobInsetDefault: real := 1.5
  const KnobInsetMinimum: real := -100.0
  const KnobInsetMaximum: real := 100.0
  const BorderThicknessDefault: real := 1.0

  /** Every limited quantity has its default inside its limits. */
  lemma DefaultsWithinLimits()
    ensures FrameRoundingMinimum <= FrameRoundingDefault <= FrameRoundingMaximum
    ensures KnobRoundingMinimum <= KnobRoundingDefault <= KnobRoundingMaximum
    ensures WidthRatioMinimum <= WidthRatioDefault <= WidthRatioMaximum
    ensures KnobInsetMinimum <= KnobInsetDefault <= KnobInsetMaximum
    ensures AnimationSpeedMinimum <= AnimationSpeedDefault
  {
  }

  /** The lowest animation speed is the one that disables animation, and the default is unit speed. */
  lemma AnimationSpeedConstants()
    ensures AnimationSpeedMinimum == AnimationSpeedDisabled == 0.0
    ensures AnimationSpeedDefault == 1.0
  {
  }
}

/** ImGuiToggleConfig and ImGuiTogglePalette as value records. */
module ToggleConfigs {

  import opened Wrappers
  import opened ImMath
  import ToggleFlags
  import opened ToggleConstants

  /** Ten colour slots; an all-zero slot means "use the theme colour". */
  datatype TogglePalette = TogglePalette(
    knobOff: Vec4, knobOffHover: Vec4, knobOn: Vec4, knobOnHover: Vec4,
    frameOff: Vec4, frameOffHover: Vec4, frameOn: Vec4, frameOnHover: Vec4,
    frameBorder: Vec4, knobBorder: Vec4)

  /** ImGuiToggleConfig; the palette pointer is `None` when null. */
  datatype ToggleConfig = ToggleConfig(
    flags: ToggleFlags.Flags,
    animationSpeed: real,
    frameRounding: real,
    knobRounding: real,
    widthRatio: real,
    knobInset: real,
    frameBorderThickness: real,
    knobBorderThickness: real,
    onLabel: string,
    offLabel: string,
    size: Vec2,
    knobOffset: Vec2,
    palette: Option<TogglePalette>)

  /** A default-constructed ImGuiToggleConfig. */
  const DefaultConfig: ToggleConfig := ToggleConfig(
    ToggleFlags.Default,
    AnimationSpeedDefault,
    FrameRoundingDefault,
    KnobRoundingDefault,
    WidthRatioDefault,
    KnobInsetDefault,
    BorderThicknessDefault,
    BorderThicknessDefault,
    "1",
    "0",
    Vec2(0.0, 0.0),
    Vec2(0.0, 0.0),
    None)

  /** The config's limited quantities lie within the header's limits. */
  predicate WithinLimits(c: ToggleConfig)
  {
    AnimationSpeedMinimum <= c.animationSpeed &&
    FrameRoundingMinimum <= c.frameRounding <= FrameRoundingMaximum &&
    KnobRoundingMinimum <= c.knobRounding <= KnobRoundingMaximum &&
    WidthRatioMinimum <= c.widthRatio <= WidthRatioMaximum &&
    KnobInsetMinimum <= c.knobInset <= KnobInsetMaximum
  }

  /**
   * A default-constructed config takes every numeric field from its constant, has
   * zero size and knob offset, the labels "1" and "0", no palette, no flags, and
   * lies within the limits.
   */
  lemma DefaultConfigFields()
    ensures DefaultConfig.flags == ToggleFlags.None
    ensures DefaultConfig.animationSpeed == AnimationSpeedDefault == 1.0
    ensures DefaultConfig.frameRounding == FrameRoundingDefault && DefaultConfig.knobRounding == KnobRoundingDefault
    ensures DefaultConfig.widthRatio == Phi && DefaultConfig.knobInset == KnobInsetDefault
    ensures DefaultConfig.frameBorderThickness == DefaultConfig.knobBorderThickness == BorderThicknessDefault
    ensures DefaultConfig.size == Vec2(0.0, 0.0) && DefaultConfig.knobOffset == Vec2(0.0, 0.0)
    ensures DefaultConfig.onLabel == "1" && DefaultConfig.offLabel == "0"
    ensures DefaultConfig.palette.None?
    ensures WithinLimits(DefaultConfig)
  {
  }
}
