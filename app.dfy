/**
 * The library object (src/lib.rs): the list of displays and the list of
 * frames, both addressed by 1-based handles, and the render pass that
 * redraws every display that is due.
 */
module App {
  import opened Wrappers
  import opened Events
  import opened Styles
  import opened Frames
  import opened Tty
  import opened Compose

  /**
   * A display as the render pass sees it: every field of the display and of
   * its output that can change, and the constants the pass reads.
   */
  datatype Panel = Panel(
    flags: Flags,
    displayId: DisplayID,
    focusedFrame: FrameID,
    frameMap: Option<seq<FrameID>>,
    writes: seq<string>,
    lastRefresh: nat,
    nextRefresh: nat,
    mainFrame: FrameID,
    offsX: int, offsY: int,
    sizeX: nat, sizeY: nat)

  function PanelOf(d: Display): Panel
    reads d, d.output
  {
    Panel(d.flags, d.displayId, d.focusedFrame, d.mapOfFrames, d.output.writes, d.lastRefresh, d.nextRefresh, d.mainFrame,
          d.offsX, d.offsY, d.sizeX, d.sizeY)
  }

  /** The displays in the list and their outputs. */
  ghost function Footprint(ds: seq<Option<Display>>): set<object> {
    (set i | 0 <= i < |ds| && ds[i].Some? :: ds[i].value as object)
    + (set i | 0 <= i < |ds| && ds[i].Some? :: ds[i].value.output as object)
  }

  function PanelsOf(ds: seq<Option<Display>>): (ps: seq<Option<Panel>>)
    reads Footprint(ds)
    ensures |ps| == |ds|
  {
    seq(|ds|, i requires 0 <= i < |ds| reads Footprint(ds) =>
      if ds[i].Some? then Some(PanelOf(ds[i].value)) else None)
  }

  lemma InFootprint(ds: seq<Option<Display>>, i: nat)
    requires i < |ds| && ds[i].Some?
    ensures ds[i].value in Footprint(ds) && ds[i].value.output in Footprint(ds)
  {
  }

  /** No display and no output is in the list twice; the source owns each display in one slot. */
  predicate Distinct(ds: seq<Option<Display>>) {
    forall i, j :: 0 <= i < j < |ds| && ds[i].Some? && ds[j].Some? ==>
      ds[i].value != ds[j].value && ds[i].value.output != ds[j].value.output
  }

  // ---------------------------------------------------------------------
  // The render pass
  // ---------------------------------------------------------------------

  /** A display is due when a refresh or remap is requested and more than its interval has passed. */
  predicate Due(p: Panel, now: nat) {
    p.flags & MaskRefresh != DisplayNone && now - p.lastRefresh > p.nextRefresh
  }

  /**
   * The clock has not gone back for any display the pass will time: the
   * source takes `elapsed().unwrap()` and panics otherwise.
   */
  predicate ClockOk(ps: seq<Option<Panel>>, now: nat) {
    forall i :: 0 <= i < |ps| && ps[i].Some? ==> ClockOkFor(ps[i].value, now)
  }

  predicate ClockOkFor(p: Panel, now: nat) {
    p.flags & MaskRefresh != DisplayNone ==> p.lastRefresh <= now
  }

  /**
   * One display in the render pass: a due display has its refresh request
   * cleared, draws its main frame over its whole screen from its offset,
   * and records the time.
   */
  function RenderStep(frames: seq<Option<Frame>>, p: Panel, now: nat): (r: (seq<Option<Frame>>, Panel))
    requires AllOk(frames)
    ensures AllOk(r.0)
  {
    if Due(p, now) then
      var c := Drawn(Canvas(frames, p.flags & !NeedRefresh, p.frameMap, p.writes), p.sizeX, p.sizeY,
                     Placement(p.mainFrame, p.offsX, p.offsY, p.sizeX, p.sizeY));
      (c.frames, p.(flags := c.flags, frameMap := c.frameMap, writes := c.writes, lastRefresh := now))
    else (frames, p)
  }

  /** The due branch of RenderStep, from its parts. */
  lemma DrawnPanel(p: Panel, c: Canvas, done: Canvas, now: nat, q: Panel)
    requires c == Canvas(c.frames, p.flags & !NeedRefresh, p.frameMap, p.writes) && AllOk(c.frames)
    requires Due(p, now)
    requires done == Drawn(c, p.sizeX, p.sizeY, Placement(p.mainFrame, p.offsX, p.offsY, p.sizeX, p.sizeY))
    requires q == p.(flags := done.flags, frameMap := done.frameMap, writes := done.writes, lastRefresh := now)
    ensures (done.frames, q) == RenderStep(c.frames, p, now)
  {
  }

  /** One slot in the render pass: an empty slot is passed over. */
  function StepSlot(frames: seq<Option<Frame>>, slot: Option<Panel>, now: nat): (r: (seq<Option<Frame>>, Option<Panel>))
    requires AllOk(frames)
    ensures AllOk(r.0) && (r.1.Some? <==> slot.Some?)
  {
    if slot.Some? then var s := RenderStep(frames, slot.value, now); (s.0, Some(s.1)) else (frames, None)
  }

  /** The render pass over the displays in order, the frame list passed from one to the next. */
  function Rendered(frames: seq<Option<Frame>>, ps: seq<Option<Panel>>, now: nat): (r: (seq<Option<Frame>>, seq<Option<Panel>>))
    requires AllOk(frames)
    ensures AllOk(r.0) && |r.1| == |ps|
    decreases |ps|
  {
    if |ps| == 0 then (frames, [])
    else
      var first := StepSlot(frames, ps[0], now);
      var rest := Rendered(first.0, ps[1..], now);
      (rest.0, [first.1] + rest.1)
  }

  /** The render loop's invariant: displays before i are done, and the rest of the pass is still to come. */
  predicate RenderedUpTo(frames0: seq<Option<Frame>>, panels0: seq<Option<Panel>>, now: nat,
                         i: nat, frames: seq<Option<Frame>>, panels: seq<Option<Panel>>)
    requires AllOk(frames0) && AllOk(frames) && i <= |panels0|
  {
    |panels| == |panels0| && panels[i..] == panels0[i..]
    && Rendered(frames0, panels0, now)
       == (Rendered(frames, panels0[i..], now).0, panels[..i] + Rendered(frames, panels0[i..], now).1)
  }

  lemma RenderedUpToStart(frames0: seq<Option<Frame>>, panels0: seq<Option<Panel>>, now: nat)
    requires AllOk(frames0)
    ensures RenderedUpTo(frames0, panels0, now, 0, frames0, panels0)
  {
    assert panels0[0..] == panels0;
    var r := Rendered(frames0, panels0, now);
    assert panels0[..0] + r.1 == r.1;
  }

  lemma RenderedUpToStep(frames0: seq<Option<Frame>>, panels0: seq<Option<Panel>>, now: nat,
                         i: nat, frames: seq<Option<Frame>>, panels: seq<Option<Panel>>,
                         frames2: seq<Option<Frame>>, panels2: seq<Option<Panel>>)
    requires AllOk(frames0) && AllOk(frames) && i < |panels0| == |panels2|
    requires RenderedUpTo(frames0, panels0, now, i, frames, panels)
    requires (frames2, panels2[i]) == StepSlot(frames, panels0[i], now)
    requires forall j :: 0 <= j < |panels2| && j != i ==> panels2[j] == panels[j]
    ensures AllOk(frames2)
    ensures RenderedUpTo(frames0, panels0, now, i + 1, frames2, panels2)
  {
    var ps := panels0[i..];
    assert ps[0] == panels0[i] && ps[1..] == panels0[i + 1..];
    var rest := Rendered(frames2, panels0[i + 1..], now);
    assert Rendered(frames, ps, now) == (rest.0, [panels2[i]] + rest.1);
    assert panels2[..i + 1] == panels[..i] + [panels2[i]];
    assert panels2[..i + 1] + rest.1 == panels[..i] + ([panels2[i]] + rest.1);
    assert panels2[i + 1..] == panels[i + 1..];
  }

  lemma RenderedUpToEnd(frames0: seq<Option<Frame>>, panels0: seq<Option<Panel>>, now: nat,
                        frames: seq<Option<Frame>>, panels: seq<Option<Panel>>)
    requires AllOk(frames0) && AllOk(frames)
    requires RenderedUpTo(frames0, panels0, now, |panels0|, frames, panels)
    ensures (frames, panels) == Rendered(frames0, panels0, now)
  {
    assert panels0[|panels0|..] == [];
    assert panels[..|panels0|] + [] == panels;
  }

  /**
   * After one render step no display is due at the same instant. A due
   * display is no longer asked to refresh, it carries the new time, its
   * output has only grown and its flags differ at most in the remap
   * request; a display that is not due is untouched. No display's handle
   * or focused frame changes. The frame list changes only by grid placement.
   */
  lemma RenderStepEffect(frames: seq<Option<Frame>>, p: Panel, now: nat)
    requires AllOk(frames)
    ensures var (fs, q) := RenderStep(frames, p, now);
            Touched(frames, fs) && !Due(q, now)
            && (Due(p, now) ==>
                  q.flags & NeedRefresh == DisplayNone && q.lastRefresh == now && p.writes <= q.writes
                  && FlagsEvolve(p.flags & !NeedRefresh, q.flags)
                  && q.mainFrame == p.mainFrame && q.nextRefresh == p.nextRefresh)
            && (!Due(p, now) ==> fs == frames && q == p)
            && q.displayId == p.displayId && q.focusedFrame == p.focusedFrame
  {
    if Due(p, now) {
      var c := Canvas(frames, p.flags & !NeedRefresh, p.frameMap, p.writes);
      DrawnEvolves(c, p.sizeX, p.sizeY, Placement(p.mainFrame, p.offsX, p.offsY, p.sizeX, p.sizeY));
      RefreshCleared(p.flags);
    }
  }

  /** Clearing the refresh request survives clearing the remap request. */
  lemma RefreshCleared(f: Flags)
    ensures (f & !NeedRefresh) & NeedRefresh == DisplayNone
    ensures ((f & !NeedRefresh) & !NeedRemap) & NeedRefresh == DisplayNone
  {
  }

  /**
   * Rendering twice at the same instant draws nothing the second time: every
   * display drawn by the first pass is stamped with that instant, and the
   * others were not due.
   */
  lemma {:induction false} RenderedTwice(frames: seq<Option<Frame>>, ps: seq<Option<Panel>>, now: nat)
    requires AllOk(frames)
    ensures var r := Rendered(frames, ps, now);
            Rendered(r.0, r.1, now) == r
    decreases |ps|
  {
    if |ps| > 0 {
      var first := StepSlot(frames, ps[0], now);
      RenderedTwice(first.0, ps[1..], now);
      var rest := Rendered(first.0, ps[1..], now);
      var r := Rendered(frames, ps, now);
      assert r == (rest.0, [first.1] + rest.1);
      assert r.1[1..] == rest.1;
      if ps[0].Some? {
        RenderStepEffect(frames, ps[0].value, now);
        assert !Due(first.1.value, now);
      }
    }
  }

  /** What the render pass never changes about a display. */
  predicate SameDisplay(a: Option<Panel>, b: Option<Panel>) {
    (a.Some? <==> b.Some?)
    && (a.Some? ==>
          b.value.displayId == a.value.displayId && b.value.focusedFrame == a.value.focusedFrame
          && b.value.mainFrame == a.value.mainFrame && b.value.nextRefresh == a.value.nextRefresh
          && b.value.offsX == a.value.offsX && b.value.offsY == a.value.offsY
          && b.value.sizeX == a.value.sizeX && b.value.sizeY == a.value.sizeY)
  }

  /**
   * Rendering keeps every slot of the display list as it was filled, and
   * every display keeps its handle, its focused and main frame, its
   * refresh interval and its place on the screen.
   */
  lemma {:induction false} RenderedKeeps(frames: seq<Option<Frame>>, ps: seq<Option<Panel>>, now: nat)
    requires AllOk(frames)
    ensures forall i :: 0 <= i < |ps| ==> SameDisplay(ps[i], Rendered(frames, ps, now).1[i])
    decreases |ps|
  {
    if |ps| > 0 {
      var first := StepSlot(frames, ps[0], now);
      RenderedKeeps(first.0, ps[1..], now);
      var rest := Rendered(first.0, ps[1..], now);
      var r := Rendered(frames, ps, now);
      assert r.1 == [first.1] + rest.1;
      if ps[0].Some? {
        RenderStepEffect(frames, ps[0].value, now);
      }
      forall i | 0 <= i < |ps|
        ensures SameDisplay(ps[i], r.1[i])
      {
        if i > 0 {
          assert ps[i] == ps[1..][i - 1] && r.1[i] == rest.1[i - 1];
        }
      }
    }
  }

  /** When no display is due, the render pass changes nothing. */
  lemma {:induction false} RenderedIdle(frames: seq<Option<Frame>>, ps: seq<Option<Panel>>, now: nat)
    requires AllOk(frames)
    requires forall i :: 0 <= i < |ps| && ps[i].Some? ==> !Due(ps[i].value, now)
    ensures Rendered(frames, ps, now) == (frames, ps)
    decreases |ps|
  {
    if |ps| > 0 {
      RenderedIdle(frames, ps[1..], now);
      assert ps == [ps[0]] + ps[1..];
    }
  }

  // ---------------------------------------------------------------------
  // The library object
  // ---------------------------------------------------------------------

  /** Ferrocene: the displays and frames, addressed by handles that count from 1. */
  class Ferrocene {
    var listOfDisplays: seq<Option<Display>>
    var listOfFrames: seq<Option<Frame>>

    predicate Valid()
      reads this
    {
      AllOk(listOfFrames) && Distinct(listOfDisplays)
    }

    /** Ferrocene::new: no displays and no frames. The event channel is not modelled. */
    constructor ()
      ensures listOfDisplays == [] && listOfFrames == []
      ensures Valid()
    {
      listOfDisplays := [];
      listOfFrames := [];
    }

    /**
     * addDisplay: the display takes the next handle, one more than the
     * number of displays so far, and learns it.
     */
    method AddDisplay(display: Display) returns (id: DisplayID)
      requires Valid()
      requires forall i :: 0 <= i < |listOfDisplays| && listOfDisplays[i].Some? ==>
                 listOfDisplays[i].value != display && listOfDisplays[i].value.output != display.output
      modifies this`listOfDisplays, display`displayId
      ensures Valid()
      ensures id == |old(listOfDisplays)| + 1
      ensures listOfDisplays == old(listOfDisplays) + [Some(display)]
      ensures display.displayId == id
      ensures AccessDisplay(id) == Ok(display)
    {
      id := |listOfDisplays| + 1;
      display.displayId := id;
      listOfDisplays := listOfDisplays + [Some(display)];
    }

    /** addFrame: the frame goes into a new slot at the end, whose 1-based position is its handle. */
    method AddFrame(frame: Frame) returns (id: FrameID)
      requires Valid() && FrameOk(frame)
      modifies this`listOfFrames
      ensures Valid()
      ensures listOfFrames == old(listOfFrames) + [Some(frame)]
      ensures id == |listOfFrames|
      ensures AccessFrame(id) == Ok(frame)
    {
      listOfFrames := listOfFrames + [Some(frame)];
      id := |listOfFrames|;
    }

    /** addStatusFrame: addFrame of Frame::newStatusFrame. */
    method AddStatusFrame(flags: Flags, offs: int, text: string, bgChar: char) returns (id: FrameID)
      requires Valid()
      modifies this`listOfFrames
      ensures Valid() && AccessFrame(id) == Ok(NewStatusFrame(flags, offs, text, bgChar))
      ensures listOfFrames == old(listOfFrames) + [Some(NewStatusFrame(flags, offs, text, bgChar))]
    {
      id := AddFrame(NewStatusFrame(flags, offs, text, bgChar));
    }

    /** addTextFrame: addFrame of Frame::newTextFrame. */
    method AddTextFrame(flags: Flags, offsX: int, offsY: int, lines: seq<string>, bgChar: char) returns (id: FrameID)
      requires Valid()
      modifies this`listOfFrames
      ensures Valid() && AccessFrame(id) == Ok(NewTextFrame(flags, offsX, offsY, lines, bgChar))
      ensures listOfFrames == old(listOfFrames) + [Some(NewTextFrame(flags, offsX, offsY, lines, bgChar))]
    {
      id := AddFrame(NewTextFrame(flags, offsX, offsY, lines, bgChar));
    }

    /** addEditorFrame: addFrame of Frame::newEditorFrame. */
    method AddEditorFrame(flags: Flags, offsX: int, offsY: int, lines: seq<seq<StyledToken>>, bgChar: char)
      returns (id: FrameID)
      requires Valid()
      modifies this`listOfFrames
      ensures Valid() && AccessFrame(id) == Ok(NewEditorFrame(flags, offsX, offsY, lines, bgChar))
      ensures listOfFrames == old(listOfFrames) + [Some(NewEditorFrame(flags, offsX, offsY, lines, bgChar))]
    {
      id := AddFrame(NewEditorFrame(flags, offsX, offsY, lines, bgChar));
    }

    /** addPixelFrame: addFrame of Frame::newPixelFrame (without the scale). */
    method AddPixelFrame(offsX: int, offsY: int, sizeX: nat, sizeY: nat, ground: Colour,
                         input: PixelEncoding, output: PixelEncoding) returns (id: FrameID)
      requires Valid()
      modifies this`listOfFrames
      ensures Valid() && AccessFrame(id) == Ok(NewPixelFrame(offsX, offsY, sizeX, sizeY, ground, input, output))
      ensures listOfFrames == old(listOfFrames) + [Some(NewPixelFrame(offsX, offsY, sizeX, sizeY, ground, input, output))]
    {
      id := AddFrame(NewPixelFrame(offsX, offsY, sizeX, sizeY, ground, input, output));
    }

    /** addParentFrame: addFrame of Frame::newParentFrame, which needs a border on each axis. */
    method AddParentFrame(tiling: Tiling, listOfInstances: seq<Instance>,
                          gridBordersX: seq<int>, gridBordersY: seq<int>,
                          gridMinimumX: seq<nat>, gridMinimumY: seq<nat>, pivotFrame: FrameID) returns (id: FrameID)
      requires Valid()
      requires |gridBordersX| >= 1 && |gridBordersY| >= 1
      modifies this`listOfFrames
      ensures Valid()
      ensures AccessFrame(id) == Ok(NewParentFrame(tiling, listOfInstances, gridBordersX, gridBordersY,
                                                    gridMinimumX, gridMinimumY, pivotFrame))
      ensures listOfFrames == old(listOfFrames) + [Some(NewParentFrame(tiling, listOfInstances, gridBordersX, gridBordersY,
                                                                        gridMinimumX, gridMinimumY, pivotFrame))]
    {
      id := AddFrame(NewParentFrame(tiling, listOfInstances, gridBordersX, gridBordersY,
                                    gridMinimumX, gridMinimumY, pivotFrame));
    }

    /**
     * accessFrame: the frame behind a handle, or why there is none. Handle 0
     * and handles past the list are refused, and so is a handle whose slot
     * is empty.
     */
    function AccessFrame(frame: FrameID): (r: Result<Frame, string>)
      reads this
      ensures r.Ok? <==> 0 < frame <= |listOfFrames| && listOfFrames[frame - 1].Some?
      ensures r.Ok? ==> Some(r.value) == listOfFrames[frame - 1]
      ensures frame == 0 ==> r == Err("UID of frame cannot be zero")
      ensures frame > |listOfFrames| ==> r == Err("UID of frame too high")
      ensures 0 < frame <= |listOfFrames| && listOfFrames[frame - 1].None? ==> r == Err("UID of frame invalidated.")
    {
      if frame == 0 then Err("UID of frame cannot be zero")
      else if frame > |listOfFrames| then Err("UID of frame too high")
      else if listOfFrames[frame - 1].Some? then Ok(listOfFrames[frame - 1].value)
      else Err("UID of frame invalidated.")
    }

    /** accessDisplay: the display behind a handle, or why there is none. */
    function AccessDisplay(display: DisplayID): (r: Result<Display, string>)
      reads this
      ensures r.Ok? <==> 0 < display <= |listOfDisplays| && listOfDisplays[display - 1].Some?
      ensures r.Ok? ==> Some(r.value) == listOfDisplays[display - 1]
      ensures display == 0 ==> r == Err("UID of display cannot be zero")
      ensures display > |listOfDisplays| ==> r == Err("UID of display too high")
      ensures 0 < display <= |listOfDisplays| && listOfDisplays[display - 1].None? ==> r == Err("UID of display invalidated.")
    {
      if display == 0 then Err("UID of display cannot be zero")
      else if display > |listOfDisplays| then Err("UID of display too high")
      else if listOfDisplays[display - 1].Some? then Ok(listOfDisplays[display - 1].value)
      else Err("UID of display invalidated.")
    }

    /** setDisplayTitle: the display's backend writes the new title. The handle must be good (the source unwraps). */
    method SetDisplayTitle(display: DisplayID, title: string)
      requires AccessDisplay(display).Ok?
      modifies AccessDisplay(display).value.output
      ensures var d := AccessDisplay(display).value;
              d.output.writes == old(d.output.writes) + [TitleOutput(title)]
    {
      var d := AccessDisplay(display).value;
      d.ChangeTitle(title);
    }

    /**
     * turnOnDisplay: a refresh and a remap are requested, the frame becomes
     * the main and the focused frame, the terminal is switched on with the
     * title, and the main frame is returned. The handle must be good (the
     * source unwraps).
     */
    method TurnOnDisplay(display: DisplayID, frame: FrameID, title: string) returns (r: Result<FrameID, string>)
      requires AccessDisplay(display).Ok?
      modifies AccessDisplay(display).value, AccessDisplay(display).value.output
      ensures var d := AccessDisplay(display).value;
              d.flags == old(d.flags) | MaskRefresh && d.flags & NeedRemap != DisplayNone
              && d.mainFrame == frame && d.focusedFrame == frame
              && d.mapOfFrames == old(d.mapOfFrames) && d.lastRefresh == old(d.lastRefresh)
              && d.displayId == old(d.displayId)
              && d.output.writes == old(d.output.writes) + [TurnOnOutput(title)]
      ensures r == Ok(frame)
    {
      var d := AccessDisplay(display).value;
      d.flags := d.flags | MaskRefresh;
      d.mainFrame := frame;
      d.focusedFrame := frame;
      d.TurnOn(title);
      r := Ok(d.mainFrame);
    }

    /** turnOffDisplay: the terminal is reset and the main frame is returned. */
    method TurnOffDisplay(display: DisplayID) returns (r: Result<FrameID, string>)
      requires AccessDisplay(display).Ok?
      modifies AccessDisplay(display).value.output
      ensures var d := AccessDisplay(display).value;
              d.output.writes == old(d.output.writes) + [TurnOffOutput] && r == Ok(d.mainFrame)
    {
      var d := AccessDisplay(display).value;
      var frame := d.mainFrame;
      d.TurnOff();
      r := Ok(frame);
    }

    /**
     * render: every display that is due draws its main frame, in the order
     * of the list, all at the one instant now. Panel holds every field of a
     * display and of its output that can change, so the ensures fixes the
     * whole new state of every listed display (see RenderedKeeps for what
     * no display loses).
     */
    method Render(now: nat)
      requires Valid() && ClockOk(PanelsOf(listOfDisplays), now)
      modifies this`listOfFrames, Footprint(listOfDisplays)
      ensures Valid()
      ensures (listOfFrames, PanelsOf(listOfDisplays)) == Rendered(old(listOfFrames), old(PanelsOf(listOfDisplays)), now)
    {
      ghost var frames0 := listOfFrames;
      ghost var panels0 := PanelsOf(listOfDisplays);
      RenderedUpToStart(frames0, panels0, now);
      var i := 0;
      while i < |listOfDisplays|
        invariant 0 <= i <= |listOfDisplays|
        invariant Valid()
        invariant RenderedUpTo(frames0, panels0, now, i, listOfFrames, PanelsOf(listOfDisplays))
      {
        ghost var before := PanelsOf(listOfDisplays);
        ghost var framesBefore := listOfFrames;
        assert before[i] == panels0[i];
        var slot := listOfDisplays[i];
        if slot.Some? {
          InFootprint(listOfDisplays, i);
          RefreshDisplay(slot.value, now);
        }
        ghost var after := PanelsOf(listOfDisplays);
        assert forall j :: 0 <= j < |after| && j != i ==> after[j] == before[j];
        RenderedUpToStep(frames0, panels0, now, i, framesBefore, before, listOfFrames, after);
        i := i + 1;
      }
      RenderedUpToEnd(frames0, panels0, now, listOfFrames, PanelsOf(listOfDisplays));
    }

    /** The body of render for one display. */
    method RefreshDisplay(d: Display, now: nat)
      requires AllOk(listOfFrames)
      requires ClockOkFor(PanelOf(d), now)
      modifies this`listOfFrames, d, d.output
      ensures AllOk(listOfFrames)
      ensures (listOfFrames, PanelOf(d)) == RenderStep(old(listOfFrames), old(PanelOf(d)), now)
    {
      var p0 := PanelOf(d);
      if Due(p0, now) {
        d.flags := d.flags & !NeedRefresh;
        ghost var c := d.CanvasOf(listOfFrames);
        assert c == Canvas(old(listOfFrames), p0.flags & !NeedRefresh, p0.frameMap, p0.writes);
        var place := Placement(d.mainFrame, d.offsX, d.offsY, d.sizeX, d.sizeY);
        listOfFrames := d.Draw(listOfFrames, place);
        ghost var done := d.CanvasOf(listOfFrames);
        assert done == Drawn(c, p0.sizeX, p0.sizeY, Placement(p0.mainFrame, p0.offsX, p0.offsY, p0.sizeX, p0.sizeY));
        d.lastRefresh := now;
        assert PanelOf(d) == p0.(flags := done.flags, frameMap := done.frameMap, writes := done.writes, lastRefresh := now);
        DrawnPanel(p0, c, done, now, PanelOf(d));
      }
    }
  }
}
