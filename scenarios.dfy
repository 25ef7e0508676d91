/**
 * Two end-to-end frames of a default toggle labelled "Enabled": a click on an
 * off toggle, and a frame of a mixed toggle that is on.
 */
module ToggleScenarios {

  import opened Toggle

  /** A click on an off default toggle turns it on, reports the press and paints the frame in the "on" colour. */
  method ClickDefaultToggle(host: HostFrame) returns (out: Output)
    requires Drawn(host) && host.pressed
    ensures out.pressed && out.value && out.edited
    ensures |out.plan| >= 2 && out.plan[0].part == FrameFill
    ensures out.plan[0].prim.RectFilled? && out.plan[0].prim.color == FrameOnColor(host.theme, host.hovered)
  {
    out := Toggle.Toggle("Enabled", false, Plain, host);
    var n := Normalize(OverloadArgs(Plain));
    DrawPlanOrder("Enabled", host, n, FrameProgress(host, n, out.value), FrameBackground(host, n, out.value));
  }

  /**
   * A mixed default toggle that is on draws its circle knob halfway along the track
   * (progress 0.5) and logs "[~]" rather than "[x]".
   */
  method MixedDefaultToggle(host: HostFrame) returns (out: Output)
    requires Drawn(host) && !host.pressed && host.mixed && host.logEnabled
    ensures out.value && !out.pressed
    ensures |out.plan| >= 2 && out.plan[1].part == KnobFill && out.plan[1].prim.CircleFilled?
    ensures out.plan[1].prim.center.x == host.cursorPos.x + ToggleWidth(host.frameHeight) / 2.0
    ensures out.log.Some? && out.log.value.text == "[~]"
  {
    out := Toggle.Toggle("Enabled", true, Plain, host);
    var n := Normalize(OverloadArgs(Plain));
    DrawPlanOrder("Enabled", host, n, FrameProgress(host, n, out.value), FrameBackground(host, n, out.value));
  }
}
