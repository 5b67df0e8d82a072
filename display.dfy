/**
 * The display window's per-frame logic (src/main.rs, `CCDisplay::update`):
 * apply the window title once, close on Ctrl-C or Escape, and hide the cursor
 * after the pointer has rested on the image for three seconds.
 */
module Display {
  import opened Prelude

  /** Three seconds, in nanoseconds: the time times are measured in here. */
  const HIDE_DELAY: nat := 3_000_000_000

  /** `HoverState`; `StartedHovering` holds the time hovering started. */
  datatype HoverState = NotHovering | StartedHovering(since: nat) | Hidden

  /** What one frame observes: the time, the pointer over the image, the pointer's motion, Ctrl-C and Escape. */
  datatype FrameInput = FrameInput(now: nat, hovered: bool, still: bool, moving: bool, ctrlC: bool, escape: bool)

  /** What one frame does to the window. */
  datatype FrameOutput = FrameOutput(title: Option<string>, close: bool, hideCursor: bool)

  /** `Instant::elapsed`: saturates at zero if the clock reads earlier than `since`. */
  function Elapsed(since: nat, now: nat): nat {
    if now >= since then now - since else 0
  }

  /** The `match self.hover_state` of one frame: the next state, and whether the cursor is hidden this frame. */
  function HoverStep(s: HoverState, f: FrameInput): (HoverState, bool) {
    if s == NotHovering then (if f.hovered && f.still then StartedHovering(f.now) else NotHovering, false)
    else if !f.hovered || f.moving then (NotHovering, false)
    else if s == Hidden then (Hidden, true)
    else (if Elapsed(s.since, f.now) >= HIDE_DELAY then Hidden else s, false)
  }

  /** From `NotHovering`, hovering starts exactly when the pointer is over the image and still. */
  lemma StartHoveringIff(f: FrameInput)
    ensures var s := HoverStep(NotHovering, f).0;
      !HoverStep(NotHovering, f).1 && (s.StartedHovering? <==> f.hovered && f.still) && (s.StartedHovering? ==> s.since == f.now)
      && (!s.StartedHovering? ==> s == NotHovering)
  {
  }

  /** Once hovering started or the cursor is hidden, leaving the image or moving the pointer resets to `NotHovering`. */
  lemma LeavingResets(s: HoverState, f: FrameInput)
    requires s != NotHovering && (!f.hovered || f.moving)
    ensures HoverStep(s, f) == (NotHovering, false)
  {
  }

  /** Hovering still turns into `Hidden` once three seconds have elapsed, and otherwise stays put. */
  lemma HidesAfterDelay(since: nat, f: FrameInput)
    requires f.hovered && !f.moving
    ensures HoverStep(StartedHovering(since), f) ==
      (if Elapsed(since, f.now) >= HIDE_DELAY then Hidden else StartedHovering(since), false)
  {
  }

  /** The cursor is hidden in a frame exactly when the state is `Hidden` and the pointer rests on the image. */
  lemma CursorHiddenIff(s: HoverState, f: FrameInput)
    ensures HoverStep(s, f).1 <==> s == Hidden && f.hovered && !f.moving
    ensures s == Hidden && f.hovered && !f.moving ==> HoverStep(s, f).0 == Hidden
  {
  }

  /** The hover state after a sequence of frames. */
  function RunHover(s: HoverState, frames: seq<FrameInput>): HoverState
    decreases |frames|
  {
    if frames == [] then s else HoverStep(RunHover(s, frames[..|frames| - 1]), frames[|frames| - 1]).0
  }

  /** The pointer rested on the image through frames `k..` of `frames`. */
  predicate RestingFrom(frames: seq<FrameInput>, k: nat) {
    forall j :: k < j < |frames| ==> frames[j].hovered && !frames[j].moving
  }

  /**
   * From `NotHovering`, the state records when the current rest began: hovering
   * started at frame `k`, where the pointer was over the image and still, and has
   * rested there since; and the state is `Hidden` only if, at some frame `j` of
   * that rest, three seconds had elapsed since frame `k`.
   */
  lemma {:induction false} HoverHistory(frames: seq<FrameInput>) returns (k: nat, j: nat)
    ensures var s := RunHover(NotHovering, frames);
      s != NotHovering ==>
        && k < |frames| && frames[k].hovered && frames[k].still && RestingFrom(frames, k)
        && (s.StartedHovering? ==> s.since == frames[k].now)
        && (s == Hidden ==> k < j < |frames| && Elapsed(frames[k].now, frames[j].now) >= HIDE_DELAY)
    decreases |frames|
  {
    if frames == [] {
      return 0, 0;
    }
    var init := frames[..|frames| - 1];
    var last := frames[|frames| - 1];
    var before := RunHover(NotHovering, init);
    var k', j' := HoverHistory(init);
    assert forall i :: 0 <= i < |init| ==> init[i] == frames[i];
    match before {
      case NotHovering =>
        k, j := |frames| - 1, 0;
      case StartedHovering(since) =>
        k, j := k', |frames| - 1;
      case Hidden =>
        k, j := k', j';
    }
  }

  /** The window's own state between frames. */
  datatype DisplayModel = DisplayModel(windowTitle: Option<string>, hoverState: HoverState)

  /** One call of `update`. */
  function DisplayStep(m: DisplayModel, f: FrameInput): (DisplayModel, FrameOutput) {
    var step := HoverStep(m.hoverState, f);
    (DisplayModel(None, step.0), FrameOutput(m.windowTitle, f.ctrlC || f.escape, step.1))
  }

  /** The outputs of a sequence of frames. */
  function Outputs(m: DisplayModel, frames: seq<FrameInput>): seq<FrameOutput>
    decreases |frames|
  {
    if frames == [] then []
    else
      var step := DisplayStep(m, frames[0]);
      [step.1] + Outputs(step.0, frames[1..])
  }

  /**
   * Over any run of frames, the title is applied in the first frame (when one
   * was given) and never again, and each frame asks to close exactly when
   * Ctrl-C was seen or Escape pressed in it.
   */
  lemma {:induction false} TitleOnceCloseIff(m: DisplayModel, frames: seq<FrameInput>)
    ensures |Outputs(m, frames)| == |frames|
    ensures |frames| > 0 ==> Outputs(m, frames)[0].title == m.windowTitle
    ensures forall i :: 0 < i < |frames| ==> Outputs(m, frames)[i].title == None
    ensures forall i :: 0 <= i < |frames| ==> (Outputs(m, frames)[i].close <==> frames[i].ctrlC || frames[i].escape)
    decreases |frames|
  {
    if frames != [] {
      var m' := DisplayStep(m, frames[0]).0;
      TitleOnceCloseIff(m', frames[1..]);
      if |frames| > 1 {
        TitleOnceCloseIff(m'.(windowTitle := None), frames[1..][1..]);
      }
      forall i | 0 < i < |frames|
        ensures Outputs(m, frames)[i] == Outputs(m', frames[1..])[i - 1]
        ensures frames[i] == frames[1..][i - 1]
      {
      }
    }
  }

  /** `CCDisplay`'s fields that `update` reads and writes. */
  class CCDisplay {
    var windowTitle: Option<string>
    var hoverState: HoverState

    ghost function Model(): DisplayModel
      reads this
    {
      DisplayModel(windowTitle, hoverState)
    }

    /** `CCDisplay::new`: the title from the command line, and not hovering. */
    constructor (windowTitle: Option<string>)
      ensures Model() == DisplayModel(windowTitle, NotHovering)
    {
      this.windowTitle := windowTitle;
      hoverState := NotHovering;
    }

    /** `update`, without the rendering. */
    method Update(f: FrameInput) returns (out: FrameOutput)
      modifies this
      ensures Model() == DisplayStep(old(Model()), f).0 && out == DisplayStep(old(Model()), f).1
    {
      var title := windowTitle;
      windowTitle := None;
      var close := f.ctrlC || f.escape;
      var hideCursor := false;
      match hoverState {
        case NotHovering =>
          if f.hovered && f.still {
            hoverState := StartedHovering(f.now);
          }
        case StartedHovering(since) =>
          if !f.hovered || f.moving {
            hoverState := NotHovering;
          } else if Elapsed(since, f.now) >= HIDE_DELAY {
            hoverState := Hidden;
          }
        case Hidden =>
          if !f.hovered || f.moving {
            hoverState := NotHovering;
          } else {
            hideCursor := true;
          }
      }
      out := FrameOutput(title, close, hideCursor);
    }
  }
}
