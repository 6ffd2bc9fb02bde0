/**
 * The compositing pass of a display (src/display/mod.rs): a frame's box is
 * clipped against the screen, the map of frames is rebuilt on request, grid
 * parents place their children, and parent and layer frames draw their
 * children recursively while their own slot is taken out of the frame list.
 */
module Compose {
  import opened Wrappers
  import opened Numeric
  import opened Events
  import opened Frames
  import opened Tty

  // The DisplayFlag bit flags.
  const DisplayNone: Flags := 0
  const RealTime: Flags := 0x1
  const NeedRefresh: Flags := 0x4000_0000
  const NeedRemap: Flags := 0x8000_0000
  const MaskRefresh: Flags := NeedRefresh | NeedRemap

  /** A request to draw frame `frame` into the box of lenX × lenY cells at (posX, posY). */
  datatype Placement = Placement(frame: FrameID, posX: int, posY: int, lenX: nat, lenY: nat)

  /**
   * The part of the screen a frame is drawn into: columns minX .. maxX and
   * rows minY .. maxY, lenX × lenY cells, with the first cutX columns and
   * cutY rows of the frame's box lying left of and above the screen.
   */
  datatype Region = Region(minX: nat, minY: nat, maxX: nat, maxY: nat, lenX: nat, lenY: nat, cutX: nat, cutY: nat)

  predicate Covers(lo: int, hi: int, v: int) {
    lo <= v < hi
  }

  // ---------------------------------------------------------------------
  // Clipping
  // ---------------------------------------------------------------------

  /** The guard of draw: a box that starts right of or below the screen is ignored. */
  predicate StartsOnScreen(p: Placement, sizeX: nat, sizeY: nat) {
    p.posX <= sizeX && p.posY <= sizeY
  }

  /** A box that ends left of or above the screen is ignored as well (see ClipAsWritten). */
  predicate EndsOnScreen(p: Placement) {
    p.posX + p.lenX >= 0 && p.posY + p.lenY >= 0
  }

  /** Whether draw handles the placement: a valid 1-based frame handle and a box that meets the screen. */
  predicate Accepts(p: Placement, count: nat, sizeX: nat, sizeY: nat) {
    0 < p.frame <= count && StartsOnScreen(p, sizeX, sizeY) && EndsOnScreen(p)
  }

  /**
   * The box clipped to the sizeX × sizeY screen. Its columns are exactly the
   * box's columns that are on the screen, and the cut is the part of the box
   * left of (above) the screen.
   */
  function Clip(p: Placement, sizeX: nat, sizeY: nat): (r: Region)
    requires StartsOnScreen(p, sizeX, sizeY) && EndsOnScreen(p)
    ensures r.minX <= r.maxX <= sizeX && r.minY <= r.maxY <= sizeY
    ensures r.lenX == r.maxX - r.minX && r.lenY == r.maxY - r.minY
    ensures forall x :: Covers(r.minX, r.maxX, x) <==> Covers(p.posX, p.posX + p.lenX, x) && Covers(0, sizeX, x)
    ensures forall y :: Covers(r.minY, r.maxY, y) <==> Covers(p.posY, p.posY + p.lenY, y) && Covers(0, sizeY, y)
    ensures r.minX == p.posX + r.cutX && r.minY == p.posY + r.cutY
  {
    var cutX: nat := if p.posX < 0 then -p.posX else 0;
    var cutY: nat := if p.posY < 0 then -p.posY else 0;
    var minX: nat := if p.posX < 0 then 0 else p.posX;
    var minY: nat := if p.posY < 0 then 0 else p.posY;
    var maxX: nat := if p.posX + p.lenX > sizeX then sizeX else p.posX + p.lenX;
    var maxY: nat := if p.posY + p.lenY > sizeY then sizeY else p.posY + p.lenY;
    Region(minX, minY, maxX, maxY, maxX - minX, maxY - minY, cutX, cutY)
  }

  /**
   * The clipping of draw as written: the clamped right (bottom) edge is cast
   * to usize whatever its sign, and so is the width.
   */
  function ClipAsWritten(p: Placement, sizeX: nat, sizeY: nat): Region
    requires StartsOnScreen(p, sizeX, sizeY)
  {
    var cutX: nat := if p.posX < 0 then -p.posX else 0;
    var cutY: nat := if p.posY < 0 then -p.posY else 0;
    var minX: nat := if p.posX < 0 then 0 else p.posX;
    var minY: nat := if p.posY < 0 then 0 else p.posY;
    var maxX := ToUsize(if p.posX + p.lenX > sizeX then sizeX else p.posX + p.lenX);
    var maxY := ToUsize(if p.posY + p.lenY > sizeY then sizeY else p.posY + p.lenY);
    Region(minX, minY, maxX, maxY, ToUsize(maxX - minX), ToUsize(maxY - minY), cutX, cutY)
  }

  /** For a box that meets the screen, the clipping as written is the clipping of the model. */
  lemma ClipAsWrittenAgrees(p: Placement, sizeX: nat, sizeY: nat)
    requires StartsOnScreen(p, sizeX, sizeY) && EndsOnScreen(p)
    requires sizeX < UsizeModulus && sizeY < UsizeModulus
    ensures ClipAsWritten(p, sizeX, sizeY) == Clip(p, sizeX, sizeY)
  {
  }

  /**
   * A box of 10 columns at column -20 lies wholly left of an 80 × 24
   * screen, yet as written its width wraps to 2^64 - 10 columns, which the
   * remap loop and the leaf renderers then run over.
   */
  lemma ClipAsWrittenWraps()
    ensures ClipAsWritten(Placement(1, -20, 0, 10, 1), 80, 24).lenX == UsizeModulus - 10
    ensures ClipAsWritten(Placement(1, -20, 0, 10, 1), 80, 24).lenX > 80
  {
  }

  /** A box partly left of and above the screen keeps the visible part and records the cut. */
  lemma ClipExample()
    ensures Clip(Placement(1, -3, -2, 10, 5), 80, 24) == Region(0, 0, 7, 3, 7, 3, 3, 2)
  {
  }

  // ---------------------------------------------------------------------
  // The map of frames
  // ---------------------------------------------------------------------

  /**
   * The map a remap builds: sizeX × sizeY cells in row-major order, holding
   * frame d on the cells of region r and 0 elsewhere.
   */
  function FrameMap(sizeX: nat, sizeY: nat, r: Region, d: FrameID): seq<FrameID> {
    seq(sizeX * sizeY, i =>
      if sizeX > 0 && Covers(r.minX, r.maxX, i % sizeX) && Covers(r.minY, r.maxY, i / sizeX) then d else 0)
  }

  /** Cell (x, y) of the map holds d exactly when it lies in the region. */
  lemma FrameMapCells(sizeX: nat, sizeY: nat, r: Region, d: FrameID)
    ensures |FrameMap(sizeX, sizeY, r, d)| == sizeX * sizeY
    ensures forall x: nat, y: nat | x < sizeX && y < sizeY ::
              CellIndex(x, y, sizeX) < sizeX * sizeY &&
              FrameMap(sizeX, sizeY, r, d)[CellIndex(x, y, sizeX)]
                == if Covers(r.minX, r.maxX, x) && Covers(r.minY, r.maxY, y) then d else 0
  {
    forall x: nat, y: nat | x < sizeX && y < sizeY
      ensures CellIndex(x, y, sizeX) < sizeX * sizeY
      ensures FrameMap(sizeX, sizeY, r, d)[CellIndex(x, y, sizeX)]
                == if Covers(r.minX, r.maxX, x) && Covers(r.minY, r.maxY, y) then d else 0
    {
      CellIndexBounds(x, y, sizeX, sizeY);
      CellIndexParts(x, y, sizeX);
    }
  }

  /**
   * The cells the remap loop has stamped when it is at column x of row y:
   * the region's cells in the rows before y and those left of x in row y.
   */
  predicate Stamped(i: int, width: nat, r: Region, y: nat, x: nat) {
    width > 0 && Covers(r.minX, r.maxX, i % width) && r.minY <= i / width
    && (i / width < y || (i / width == y && i % width < x))
  }

  /** Stamping cell (x, y) adds exactly that cell. */
  lemma StampStep(i: int, width: nat, r: Region, y: nat, x: nat)
    requires r.minX <= x < r.maxX <= width && r.minY <= y
    ensures Stamped(i, width, r, y, x + 1) <==> Stamped(i, width, r, y, x) || i == CellIndex(x, y, width)
  {
    CellIndexParts(x, y, width);
    if i % width == x && i / width == y {
      assert i == (i / width) * width + i % width;
    }
  }

  /** The cells hold d on the stamped cells and 0 on all others. */
  predicate Marked(cells: seq<FrameID>, width: nat, r: Region, y: nat, x: nat, d: FrameID) {
    forall i :: 0 <= i < |cells| ==> cells[i] == if Stamped(i, width, r, y, x) then d else 0
  }

  /** Before the first row nothing is stamped. */
  lemma MarkedNone(n: nat, width: nat, r: Region, d: FrameID)
    ensures Marked(seq(n, _ => 0), width, r, r.minY, r.minX, d)
  {
  }

  /** Stamping cell (x, y) with d moves the loop one column on. */
  lemma MarkCell(cells: seq<FrameID>, width: nat, r: Region, y: nat, x: nat, d: FrameID)
    requires r.minX <= x < r.maxX <= width && r.minY <= y
    requires CellIndex(x, y, width) < |cells|
    requires Marked(cells, width, r, y, x, d)
    ensures Marked(cells[CellIndex(x, y, width) := d], width, r, y, x + 1, d)
  {
    var stamped := cells[CellIndex(x, y, width) := d];
    forall i | 0 <= i < |cells|
      ensures stamped[i] == if Stamped(i, width, r, y, x + 1) then d else 0
    {
      StampStep(i, width, r, y, x);
    }
  }

  /** A finished row is the start of the next one. */
  lemma MarkRow(cells: seq<FrameID>, width: nat, r: Region, y: nat, d: FrameID)
    requires r.minX <= r.maxX
    requires Marked(cells, width, r, y, r.maxX, d)
    ensures Marked(cells, width, r, y + 1, r.minX, d)
  {
  }

  /** The map the remap loop has built once it has stamped every row of the region. */
  lemma MarkedAll(sizeX: nat, sizeY: nat, r: Region, d: FrameID, cells: seq<FrameID>)
    requires |cells| == sizeX * sizeY
    requires Marked(cells, sizeX, r, r.maxY, r.minX, d)
    ensures cells == FrameMap(sizeX, sizeY, r, d)
  {
  }

  // ---------------------------------------------------------------------
  // Grid placement
  // ---------------------------------------------------------------------

  /**
   * What draw does to one instance of a grid parent: an instance whose
   * origin lies on the grid and whose spans are positive has its spans cut
   * back to the grid, and is placed at the borders of its first cell with
   * the extent up to the border after its last cell. Other instances keep
   * their placement.
   */
  function PlaceInstance(inst: Instance, bordersX: seq<int>, bordersY: seq<int>): Instance
    requires |bordersX| >= 1 && |bordersY| >= 1
  {
    var countX := |bordersX| - 1;
    var countY := |bordersY| - 1;
    if inst.gridOriginX <= countX && inst.gridOriginY <= countY && inst.gridLengthX > 0 && inst.gridLengthY > 0 then
      var spanX := if inst.gridOriginX + inst.gridLengthX > countX then countX - inst.gridOriginX else inst.gridLengthX;
      var spanY := if inst.gridOriginY + inst.gridLengthY > countY then countY - inst.gridOriginY else inst.gridLengthY;
      var posX := bordersX[inst.gridOriginX];
      var posY := bordersY[inst.gridOriginY];
      inst.(gridLengthX := spanX, gridLengthY := spanY, posX := posX, posY := posY,
            lenX := ToUsize(bordersX[inst.gridOriginX + spanX] - posX),
            lenY := ToUsize(bordersY[inst.gridOriginY + spanY] - posY))
    else inst
  }

  /** Whether an instance passes the test draw applies before placing it on the grid. */
  predicate OnGrid(inst: Instance, bordersX: seq<int>, bordersY: seq<int>) {
    inst.gridOriginX + 1 <= |bordersX| && inst.gridOriginY + 1 <= |bordersY|
    && inst.gridLengthX > 0 && inst.gridLengthY > 0
  }

  /**
   * An instance on the grid ends up within the grid, between the borders of
   * its first and its last cell (sorted borders, as newParentFrame leaves
   * them, give a width that needs no wrap-around); its frame never changes,
   * and an instance off the grid is left alone.
   */
  lemma PlaceInstanceFits(inst: Instance, bordersX: seq<int>, bordersY: seq<int>)
    requires |bordersX| >= 1 && |bordersY| >= 1
    ensures PlaceInstance(inst, bordersX, bordersY).frame == inst.frame
    ensures !OnGrid(inst, bordersX, bordersY) ==> PlaceInstance(inst, bordersX, bordersY) == inst
    ensures OnGrid(inst, bordersX, bordersY) ==>
      var r := PlaceInstance(inst, bordersX, bordersY);
      r.gridOriginX == inst.gridOriginX && r.gridOriginY == inst.gridOriginY
      && r.gridOriginX + r.gridLengthX < |bordersX| && r.gridOriginY + r.gridLengthY < |bordersY|
      && r.gridLengthX <= inst.gridLengthX && r.gridLengthY <= inst.gridLengthY
      && r.posX == bordersX[r.gridOriginX] && r.posY == bordersY[r.gridOriginY]
      && (SortedAsc(bordersX) && bordersX[r.gridOriginX + r.gridLengthX] - r.posX < UsizeModulus ==>
            r.posX + r.lenX == bordersX[r.gridOriginX + r.gridLengthX])
      && (SortedAsc(bordersY) && bordersY[r.gridOriginY + r.gridLengthY] - r.posY < UsizeModulus ==>
            r.posY + r.lenY == bordersY[r.gridOriginY + r.gridLengthY])
  {
  }

  /** Placing an instance a second time changes nothing: every draw of a grid parent is stable. */
  lemma PlaceInstanceIdempotent(inst: Instance, bordersX: seq<int>, bordersY: seq<int>)
    requires |bordersX| >= 1 && |bordersY| >= 1
    ensures PlaceInstance(PlaceInstance(inst, bordersX, bordersY), bordersX, bordersY)
            == PlaceInstance(inst, bordersX, bordersY)
  {
  }

  /** Every instance of the list placed on the grid. */
  function PlaceAll(insts: seq<Instance>, bordersX: seq<int>, bordersY: seq<int>): seq<Instance>
    requires |bordersX| >= 1 && |bordersY| >= 1
  {
    seq(|insts|, i requires 0 <= i < |insts| => PlaceInstance(insts[i], bordersX, bordersY))
  }

  /** A frame as draw leaves it: a grid parent gets its instances placed; any other frame is unchanged. */
  function Resolve(f: Frame): (g: Frame)
    requires FrameOk(f)
    ensures FrameOk(g)
  {
    if f.Parent? && f.parent.typeOfTiling == Grid then
      Parent(f.parent.(listOfInstances := PlaceAll(f.parent.listOfInstances, f.parent.gridBordersX, f.parent.gridBordersY)))
    else f
  }

  lemma ResolveIdempotent(f: Frame)
    requires FrameOk(f)
    ensures Resolve(Resolve(f)) == Resolve(f)
  {
    if f.Parent? && f.parent.typeOfTiling == Grid {
      var p := f.parent;
      var once := PlaceAll(p.listOfInstances, p.gridBordersX, p.gridBordersY);
      var twice := PlaceAll(once, p.gridBordersX, p.gridBordersY);
      forall i | 0 <= i < |once|
        ensures twice[i] == once[i]
      {
        PlaceInstanceIdempotent(p.listOfInstances[i], p.gridBordersX, p.gridBordersY);
      }
    }
  }

  // ---------------------------------------------------------------------
  // Children and leaves
  // ---------------------------------------------------------------------

  /** The children of a parent: each instance's frame at the parent's position plus the instance's, at the instance's size. */
  function InstancePlacements(insts: seq<Instance>, p: Placement): seq<Placement> {
    seq(|insts|, i requires 0 <= i < |insts| =>
      Placement(insts[i].frame, p.posX + insts[i].posX, p.posY + insts[i].posY, insts[i].lenX, insts[i].lenY))
  }

  /** The layers of a layer frame as draw places them: at the frame's position, with the clipped size. */
  function LayerPlacementsAsWritten(layers: seq<FrameID>, p: Placement, r: Region): seq<Placement> {
    seq(|layers|, i requires 0 <= i < |layers| => Placement(layers[i], p.posX, p.posY, r.lenX, r.lenY))
  }

  /** The layers placed over the frame's own box, which the model uses. */
  function LayerPlacements(layers: seq<FrameID>, p: Placement): seq<Placement> {
    seq(|layers|, i requires 0 <= i < |layers| => Placement(layers[i], p.posX, p.posY, p.lenX, p.lenY))
  }

  /**
   * A layer frame 10 columns wide at column -3 of an 80 × 24 screen shows
   * columns 0 .. 7, but as written its layers get the position -3 with the
   * clipped width 7 and show only columns 0 .. 4.
   */
  lemma LayerPlacementsAsWrittenShrink()
    ensures Clip(Placement(1, -3, 0, 10, 1), 80, 24).maxX == 7
    ensures Clip(LayerPlacementsAsWritten([2], Placement(1, -3, 0, 10, 1), Clip(Placement(1, -3, 0, 10, 1), 80, 24))[0], 80, 24).maxX == 4
  {
  }

  /** Every layer covers exactly the region of its layer frame, with the same cut. */
  lemma LayersShareRegion(layers: seq<FrameID>, p: Placement, sizeX: nat, sizeY: nat)
    requires StartsOnScreen(p, sizeX, sizeY) && EndsOnScreen(p)
    ensures forall i :: 0 <= i < |layers| ==>
      var q := LayerPlacements(layers, p)[i];
      StartsOnScreen(q, sizeX, sizeY) && EndsOnScreen(q) && Clip(q, sizeX, sizeY) == Clip(p, sizeX, sizeY)
  {
  }

  /** What draw recurses into after drawing a frame itself. */
  function Children(shown: Frame, p: Placement): seq<Placement> {
    match shown
    case Parent(f) => InstancePlacements(f.listOfInstances, p)
    case Layers(f) => LayerPlacements(f.listOfLayers, p)
    case _ => []
  }

  /**
   * What the TTY backend writes for a leaf frame drawn into region r. draw
   * passes maxY where the renderers take maxX; they do not read it.
   */
  function LeafWrites(shown: Frame, r: Region): seq<string> {
    match shown
    case Status(f) => StatusWrites(f, r.lenX, r.lenY, r.minX, r.minY, r.maxY, r.maxY, r.cutX, r.cutY)
    case Text(f) => TextWrites(f, r.lenX, r.lenY, r.minX, r.minY, r.maxY, r.maxY, r.cutX, r.cutY)
    case Editor(f) => EditorWrites(f, r.lenX, r.lenY, r.minX, r.minY, r.maxY, r.maxY, r.cutX, r.cutY)
    case _ => []
  }

  // ---------------------------------------------------------------------
  // The frame list
  // ---------------------------------------------------------------------

  /** The number of frame slots that hold a frame. */
  function Filled(frames: seq<Option<Frame>>): nat
    decreases |frames|
  {
    if |frames| == 0 then 0
    else Filled(frames[..|frames| - 1]) + (if frames[|frames| - 1].Some? then 1 else 0)
  }

  /** Two frame lists of one length whose slots are filled alike. */
  predicate SameSlots(a: seq<Option<Frame>>, b: seq<Option<Frame>>) {
    |a| == |b| && forall i :: 0 <= i < |a| ==> (a[i].Some? <==> b[i].Some?)
  }

  /** Every stored frame can be drawn: a grid parent has borders on both axes. */
  predicate AllOk(frames: seq<Option<Frame>>) {
    forall i :: 0 <= i < |frames| && frames[i].Some? ==> FrameOk(frames[i].value)
  }

  lemma {:induction false} TakeFilled(frames: seq<Option<Frame>>, k: nat)
    requires k < |frames| && frames[k].Some?
    ensures Filled(frames[k := None]) + 1 == Filled(frames)
    decreases |frames|
  {
    var n := |frames| - 1;
    var taken := frames[k := None];
    if k == n {
      assert taken[..n] == frames[..n];
    } else {
      assert taken[..n] == frames[..n][k := None];
      TakeFilled(frames[..n], k);
    }
  }

  lemma {:induction false} SameSlotsFilled(a: seq<Option<Frame>>, b: seq<Option<Frame>>)
    requires SameSlots(a, b)
    ensures Filled(a) == Filled(b)
    decreases |a|
  {
    if |a| > 0 {
      SameSlotsFilled(a[..|a| - 1], b[..|b| - 1]);
    }
  }

  // ---------------------------------------------------------------------
  // Drawing
  // ---------------------------------------------------------------------

  /** What draw reads and changes: the frame list, the display's flags and map, and the output. */
  datatype Canvas = Canvas(frames: seq<Option<Frame>>, flags: Flags, frameMap: Option<seq<FrameID>>, writes: seq<string>)

  /** The remap step: on a pending remap request, a fresh map for this region and the request cleared. */
  function Remapped(flags: Flags, frameMap: Option<seq<FrameID>>, sizeX: nat, sizeY: nat, r: Region, d: FrameID): (Flags, Option<seq<FrameID>>) {
    if flags & NeedRemap != DisplayNone then (flags & !NeedRemap, Some(FrameMap(sizeX, sizeY, r, d)))
    else (flags, frameMap)
  }

  /** Whether draw goes ahead with placement p: it accepts it and the frame is in its slot. */
  predicate Proceeds(c: Canvas, sizeX: nat, sizeY: nat, p: Placement) {
    Accepts(p, |c.frames|, sizeX, sizeY) && c.frames[p.frame - 1].Some?
  }

  /** The frame draw shows and puts back: the stored one, with its grid instances placed. */
  function Shown(c: Canvas, sizeX: nat, sizeY: nat, p: Placement): Frame
    requires AllOk(c.frames) && Proceeds(c, sizeX, sizeY, p)
  {
    Resolve(c.frames[p.frame - 1].value)
  }

  /**
   * The canvas once draw has taken the frame out of its slot, rebuilt the
   * map if requested and drawn the frame itself.
   */
  function Entered(c: Canvas, sizeX: nat, sizeY: nat, p: Placement): (t: Canvas)
    requires AllOk(c.frames) && Proceeds(c, sizeX, sizeY, p)
    ensures AllOk(t.frames) && Filled(t.frames) + 1 == Filled(c.frames)
  {
    TakeFilled(c.frames, p.frame - 1);
    var reg := Clip(p, sizeX, sizeY);
    var remapped := Remapped(c.flags, c.frameMap, sizeX, sizeY, reg, p.frame);
    Canvas(c.frames[p.frame - 1 := None], remapped.0, remapped.1, c.writes + LeafWrites(Shown(c, sizeX, sizeY, p), reg))
  }

  /** Entered, from its parts. */
  lemma EnteredParts(c: Canvas, sizeX: nat, sizeY: nat, p: Placement,
                     shown: Frame, reg: Region, remapped: (Flags, Option<seq<FrameID>>), taken: Canvas)
    requires AllOk(c.frames) && Proceeds(c, sizeX, sizeY, p)
    requires shown == Shown(c, sizeX, sizeY, p) && reg == Clip(p, sizeX, sizeY)
    requires remapped == Remapped(c.flags, c.frameMap, sizeX, sizeY, reg, p.frame)
    requires taken == Canvas(c.frames[p.frame - 1 := None], remapped.0, remapped.1, c.writes + LeafWrites(shown, reg))
    ensures taken == Entered(c, sizeX, sizeY, p)
  {
  }

  /**
   * Drawing placement p on a sizeX × sizeY display. An accepted frame is
   * taken out of its slot, the map is rebuilt if requested, a leaf frame is
   * written out and a parent or layer frame draws its children, and then
   * the frame, with its grid instances placed, goes back into its slot.
   * A frame met again while its slot is empty is skipped.
   */
  function Drawn(c: Canvas, sizeX: nat, sizeY: nat, p: Placement): (r: Canvas)
    requires AllOk(c.frames)
    ensures SameSlots(c.frames, r.frames) && AllOk(r.frames)
    decreases Filled(c.frames), 0, 0
  {
    if !Proceeds(c, sizeX, sizeY, p) then c
    else
      var shown := Shown(c, sizeX, sizeY, p);
      var done := DrawnAll(Entered(c, sizeX, sizeY, p), sizeX, sizeY, Children(shown, p));
      done.(frames := done.frames[p.frame - 1 := Some(shown)])
  }

  /** Drawing the placements one after the other. */
  function DrawnAll(c: Canvas, sizeX: nat, sizeY: nat, ps: seq<Placement>): (r: Canvas)
    requires AllOk(c.frames)
    ensures SameSlots(c.frames, r.frames) && AllOk(r.frames)
    decreases Filled(c.frames), 1, |ps|
  {
    if |ps| == 0 then c
    else
      var next := Drawn(c, sizeX, sizeY, ps[0]);
      SameSlotsFilled(c.frames, next.frames);
      DrawnAll(next, sizeX, sizeY, ps[1..])
  }

  // ---------------------------------------------------------------------
  // What a draw changes
  // ---------------------------------------------------------------------

  /** Every slot of b holds what a holds, or the frame of a with its grid instances placed. */
  predicate Touched(a: seq<Option<Frame>>, b: seq<Option<Frame>>) {
    |a| == |b| &&
    forall i :: 0 <= i < |a| ==>
      b[i] == a[i] || (a[i].Some? && FrameOk(a[i].value) && b[i] == Some(Resolve(a[i].value)))
  }

  /** The display flags after a draw: as before, or with the remap request cleared. */
  predicate FlagsEvolve(before: Flags, after: Flags) {
    after == before || after == before & !NeedRemap
  }

  /** What any draw may change, and how. */
  predicate Evolves(c: Canvas, r: Canvas) {
    Touched(c.frames, r.frames)
    && c.writes <= r.writes
    && FlagsEvolve(c.flags, r.flags)
    && (c.flags & NeedRemap == DisplayNone ==> r.flags == c.flags && r.frameMap == c.frameMap)
  }

  lemma TouchedTrans(a: seq<Option<Frame>>, b: seq<Option<Frame>>, c: seq<Option<Frame>>)
    requires Touched(a, b) && Touched(b, c)
    ensures Touched(a, c)
  {
    forall i | 0 <= i < |a|
      ensures c[i] == a[i] || (a[i].Some? && FrameOk(a[i].value) && c[i] == Some(Resolve(a[i].value)))
    {
      if b[i] != a[i] && c[i] != b[i] {
        ResolveIdempotent(a[i].value);
      }
    }
  }

  /** The bit facts behind FlagsEvolve: clearing the remap request once is clearing it for good. */
  lemma ClearRemap(f: Flags)
    ensures (f & !NeedRemap) & NeedRemap == DisplayNone
    ensures (f & !NeedRemap) & !NeedRemap == f & !NeedRemap
    ensures f & NeedRemap == DisplayNone ==> f & !NeedRemap == f
  {
  }

  lemma FlagsEvolveTrans(a: Flags, b: Flags, c: Flags)
    requires FlagsEvolve(a, b) && FlagsEvolve(b, c)
    ensures FlagsEvolve(a, c)
  {
    ClearRemap(a);
  }

  lemma EvolvesTrans(a: Canvas, b: Canvas, c: Canvas)
    requires Evolves(a, b) && Evolves(b, c)
    ensures Evolves(a, c)
  {
    TouchedTrans(a.frames, b.frames, c.frames);
    FlagsEvolveTrans(a.flags, b.flags, c.flags);
  }

  /**
   * The frame taken out of slot k and put back placed: if the canvas with
   * the slot emptied evolves into done, the canvas evolves into done with
   * the placed frame back in slot k.
   */
  lemma RestoreEvolves(c: Canvas, taken: Canvas, done: Canvas, k: nat)
    requires AllOk(c.frames) && k < |c.frames| && c.frames[k].Some?
    requires taken.frames == c.frames[k := None]
    requires c.writes <= taken.writes && FlagsEvolve(c.flags, taken.flags)
    requires c.flags & NeedRemap == DisplayNone ==> taken.flags == c.flags && taken.frameMap == c.frameMap
    requires Evolves(taken, done)
    ensures Evolves(c, done.(frames := done.frames[k := Some(Resolve(c.frames[k].value))]))
  {
    FlagsEvolveTrans(c.flags, taken.flags, done.flags);
  }

  /**
   * A draw changes the frame list only by placing grid instances, only
   * appends to the output, and at most clears the remap request, leaving
   * flags and map alone when no remap was requested.
   */
  lemma {:induction false} DrawnEvolves(c: Canvas, sizeX: nat, sizeY: nat, p: Placement)
    requires AllOk(c.frames)
    ensures Evolves(c, Drawn(c, sizeX, sizeY, p))
    decreases Filled(c.frames), 0, 0
  {
    if Proceeds(c, sizeX, sizeY, p) {
      var taken := Entered(c, sizeX, sizeY, p);
      var children := Children(Shown(c, sizeX, sizeY, p), p);
      DrawnAllEvolves(taken, sizeX, sizeY, children);
      ClearRemap(c.flags);
      RestoreEvolves(c, taken, DrawnAll(taken, sizeX, sizeY, children), p.frame - 1);
    }
  }

  lemma {:induction false} DrawnAllEvolves(c: Canvas, sizeX: nat, sizeY: nat, ps: seq<Placement>)
    requires AllOk(c.frames)
    ensures Evolves(c, DrawnAll(c, sizeX, sizeY, ps))
    decreases Filled(c.frames), 1, |ps|
  {
    if |ps| > 0 {
      var next := Drawn(c, sizeX, sizeY, ps[0]);
      DrawnEvolves(c, sizeX, sizeY, ps[0]);
      SameSlotsFilled(c.frames, next.frames);
      DrawnAllEvolves(next, sizeX, sizeY, ps[1..]);
      EvolvesTrans(c, next, DrawnAll(next, sizeX, sizeY, ps[1..]));
    }
  }

  /**
   * Drawing a frame while a remap is requested clears the request and leaves
   * the map holding that frame on its clipped region: the children drawn
   * afterwards see no request and do not stamp the map.
   */
  lemma DrawnMap(c: Canvas, sizeX: nat, sizeY: nat, p: Placement)
    requires AllOk(c.frames)
    requires Accepts(p, |c.frames|, sizeX, sizeY) && c.frames[p.frame - 1].Some?
    requires c.flags & NeedRemap != DisplayNone
    ensures Drawn(c, sizeX, sizeY, p).flags == c.flags & !NeedRemap
    ensures Drawn(c, sizeX, sizeY, p).frameMap == Some(FrameMap(sizeX, sizeY, Clip(p, sizeX, sizeY), p.frame))
  {
    var taken := Entered(c, sizeX, sizeY, p);
    ClearRemap(c.flags);
    DrawnAllEvolves(taken, sizeX, sizeY, Children(Shown(c, sizeX, sizeY, p), p));
  }

  /** A placement draw rejects leaves everything as it was. */
  lemma DrawnRejected(c: Canvas, sizeX: nat, sizeY: nat, p: Placement)
    requires AllOk(c.frames)
    requires !Accepts(p, |c.frames|, sizeX, sizeY)
    ensures Drawn(c, sizeX, sizeY, p) == c
  {
  }

  /**
   * A status frame draws nothing but its own row: the output grows by the
   * writes of drawStatusFrame for the clipped region, and the frame list is
   * as before.
   */
  lemma DrawnStatus(c: Canvas, sizeX: nat, sizeY: nat, p: Placement)
    requires AllOk(c.frames)
    requires Accepts(p, |c.frames|, sizeX, sizeY) && c.frames[p.frame - 1].Some? && c.frames[p.frame - 1].value.Status?
    ensures Drawn(c, sizeX, sizeY, p).frames == c.frames
    ensures Drawn(c, sizeX, sizeY, p).writes == c.writes + StatusWrites(c.frames[p.frame - 1].value.status,
              Clip(p, sizeX, sizeY).lenX, Clip(p, sizeX, sizeY).lenY, Clip(p, sizeX, sizeY).minX,
              Clip(p, sizeX, sizeY).minY, Clip(p, sizeX, sizeY).maxY, Clip(p, sizeX, sizeY).maxY,
              Clip(p, sizeX, sizeY).cutX, Clip(p, sizeX, sizeY).cutY)
  {
    var k := p.frame - 1;
    assert c.frames[k := None][k := c.frames[k]] == c.frames;
  }

  /**
   * A layer frame that lists itself as its only layer is drawn once: the
   * inner draw finds the frame's slot empty and skips it, so the cycle ends
   * and nothing is written.
   */
  lemma SelfLayer(c: Canvas, sizeX: nat, sizeY: nat, p: Placement)
    requires AllOk(c.frames)
    requires Accepts(p, |c.frames|, sizeX, sizeY)
    requires c.frames[p.frame - 1] == Some(Layers(LayerFrame([p.frame])))
    ensures Drawn(c, sizeX, sizeY, p).frames == c.frames
    ensures Drawn(c, sizeX, sizeY, p).writes == c.writes
  {
    var taken := Entered(c, sizeX, sizeY, p);
    assert taken.writes == c.writes + [];
    var ps := Children(Shown(c, sizeX, sizeY, p), p);
    assert ps == [p];
    assert Drawn(taken, sizeX, sizeY, ps[0]) == taken;
    assert DrawnAll(taken, sizeX, sizeY, ps) == taken;
    assert c.frames[p.frame - 1 := None][p.frame - 1 := c.frames[p.frame - 1]] == c.frames;
  }

  // ---------------------------------------------------------------------
  // The display
  // ---------------------------------------------------------------------

  /**
   * The grid pass of draw over a grid parent: each instance placed in turn,
   * in place.
   */
  method PlaceGrid(f: ParentFrame) returns (g: ParentFrame)
    requires |f.gridBordersX| >= 1 && |f.gridBordersY| >= 1
    ensures g == f.(listOfInstances := PlaceAll(f.listOfInstances, f.gridBordersX, f.gridBordersY))
  {
    var insts := f.listOfInstances;
    var i := 0;
    while i < |insts|
      invariant 0 <= i <= |insts| == |f.listOfInstances|
      invariant forall j :: 0 <= j < i ==> insts[j] == PlaceInstance(f.listOfInstances[j], f.gridBordersX, f.gridBordersY)
      invariant forall j :: i <= j < |insts| ==> insts[j] == f.listOfInstances[j]
    {
      var inst := PlaceOne(insts[i], f.gridBordersX, f.gridBordersY);
      insts := insts[i := inst];
      i := i + 1;
    }
    g := f.(listOfInstances := insts);
  }

  /** The body of the grid pass for one instance. */
  method PlaceOne(instance: Instance, bordersX: seq<int>, bordersY: seq<int>) returns (inst: Instance)
    requires |bordersX| >= 1 && |bordersY| >= 1
    ensures inst == PlaceInstance(instance, bordersX, bordersY)
  {
    var countX := |bordersX| - 1;
    var countY := |bordersY| - 1;
    inst := instance;
    if inst.gridOriginX <= countX && inst.gridOriginY <= countY && inst.gridLengthX > 0 && inst.gridLengthY > 0 {
      if inst.gridOriginX + inst.gridLengthX > countX {
        inst := inst.(gridLengthX := countX - inst.gridOriginX);
      }
      if inst.gridOriginY + inst.gridLengthY > countY {
        inst := inst.(gridLengthY := countY - inst.gridOriginY);
      }
      inst := inst.(posX := bordersX[inst.gridOriginX], posY := bordersY[inst.gridOriginY]);
      inst := inst.(lenX := ToUsize(bordersX[inst.gridOriginX + inst.gridLengthX] - inst.posX),
                    lenY := ToUsize(bordersY[inst.gridOriginY + inst.gridLengthY] - inst.posY));
    }
  }

  /**
   * A display driven by the TTY backend. Its size, offset and cursor are
   * fixed once it exists; draw updates its flags and its map of frames, and
   * the library sets its handle, main and focused frame and refresh time.
   */
  class Display {
    var flags: Flags
    var displayId: DisplayID
    const offsX: int
    const offsY: int
    const sizeX: nat
    const sizeY: nat
    const cursorX: nat
    const cursorY: nat
    var mapOfFrames: Option<seq<FrameID>>
    var mainFrame: FrameID
    var focusedFrame: FrameID
    /** When the display was last drawn, and the interval between draws, in nanoseconds. */
    var lastRefresh: nat
    const nextRefresh: nat
    const output: TtyDisplay

    /** The part of the world draw works on, with the frame list fs. */
    function CanvasOf(fs: seq<Option<Frame>>): Canvas
      reads this, output
    {
      Canvas(fs, flags, mapOfFrames, output.writes)
    }

    /**
     * TTYDisplay::new once the terminal size is known: both a refresh and a
     * remap are requested, there is no map yet, no main or focused frame,
     * and the display has no handle until the library adds it.
     */
    constructor (initialFlags: Flags, offsX: int, offsY: int, sizeX: nat, sizeY: nat,
                 cursorX: nat, cursorY: nat, now: nat, refreshRate: nat)
      ensures flags == initialFlags | NeedRefresh | NeedRemap
      ensures flags & MaskRefresh == MaskRefresh
      ensures displayId == 0 && mapOfFrames == None && mainFrame == 0 && focusedFrame == 0
      ensures this.offsX == offsX && this.offsY == offsY && this.sizeX == sizeX && this.sizeY == sizeY
      ensures this.cursorX == cursorX && this.cursorY == cursorY
      ensures lastRefresh == now && nextRefresh == refreshRate
      ensures fresh(output) && output.writes == []
    {
      flags := initialFlags | NeedRefresh | NeedRemap;
      displayId := 0;
      this.offsX := offsX;
      this.offsY := offsY;
      this.sizeX := sizeX;
      this.sizeY := sizeY;
      this.cursorX := cursorX;
      this.cursorY := cursorY;
      mapOfFrames := None;
      mainFrame := 0;
      focusedFrame := 0;
      lastRefresh := now;
      nextRefresh := refreshRate;
      output := new TtyDisplay();
    }

    /**
     * Display::draw on the frame list frames, returning the list as draw
     * leaves it.
     */
    method Draw(frames: seq<Option<Frame>>, p: Placement) returns (after: seq<Option<Frame>>)
      requires AllOk(frames)
      modifies this`flags, this`mapOfFrames, output
      ensures CanvasOf(after) == Drawn(old(CanvasOf(frames)), sizeX, sizeY, p)
      decreases Filled(frames), 0
    {
      ghost var c0 := CanvasOf(frames);
      after := frames;
      if p.frame == 0 || p.frame > |frames| {
        return;
      } else if p.posX > sizeX || p.posY > sizeY {
        return;
      } else if p.posX + p.lenX < 0 || p.posY + p.lenY < 0 {
        return;
      } else if frames[p.frame - 1].None? {
        return;
      }
      var shown;
      after, shown := Enter(frames, p);
      after := DrawChildren(after, Children(shown, p));
      after := after[p.frame - 1 := Some(shown)];
    }

    /**
     * The first half of an accepted draw: the frame taken out of its slot,
     * the map rebuilt if requested, grid instances placed and the frame
     * itself drawn. Returns the list with the slot empty and the frame.
     */
    method Enter(frames: seq<Option<Frame>>, p: Placement) returns (after: seq<Option<Frame>>, shown: Frame)
      requires AllOk(frames) && Proceeds(CanvasOf(frames), sizeX, sizeY, p)
      modifies this`flags, this`mapOfFrames, output
      ensures CanvasOf(after) == Entered(old(CanvasOf(frames)), sizeX, sizeY, p)
      ensures shown == Shown(old(CanvasOf(frames)), sizeX, sizeY, p)
    {
      ghost var c0 := CanvasOf(frames);
      var k := p.frame - 1;
      after := frames[k := None];
      var reg := Clip(p, sizeX, sizeY);
      ghost var remapped := Remapped(flags, mapOfFrames, sizeX, sizeY, reg, p.frame);
      RemapIfRequested(reg, p.frame);
      shown := PlaceFrame(frames[k].value);
      DrawLeaf(shown, reg);
      EnteredParts(c0, sizeX, sizeY, p, shown, reg, remapped, CanvasOf(after));
    }

    /** The remap step of draw: only when the flags request it. */
    method RemapIfRequested(r: Region, d: FrameID)
      requires r.minX <= r.maxX <= sizeX && r.minY <= r.maxY <= sizeY
      modifies this`flags, this`mapOfFrames
      ensures (flags, mapOfFrames) == Remapped(old(flags), old(mapOfFrames), sizeX, sizeY, r, d)
    {
      if flags & NeedRemap != DisplayNone {
        Remap(r, d);
      }
    }

    /** The grid step of draw: a grid parent has its instances placed. */
    static method PlaceFrame(frame: Frame) returns (shown: Frame)
      requires FrameOk(frame)
      ensures shown == Resolve(frame)
    {
      shown := frame;
      if frame.Parent? && frame.parent.typeOfTiling == Grid {
        var placed := PlaceGrid(frame.parent);
        shown := Parent(placed);
      }
    }

    /** The loops of draw over the children of a parent or layer frame. */
    method DrawChildren(frames: seq<Option<Frame>>, children: seq<Placement>) returns (after: seq<Option<Frame>>)
      requires AllOk(frames)
      modifies this`flags, this`mapOfFrames, output
      ensures CanvasOf(after) == DrawnAll(old(CanvasOf(frames)), sizeX, sizeY, children)
      decreases Filled(frames), 1
    {
      ghost var start := CanvasOf(frames);
      after := frames;
      var i := 0;
      while i < |children|
        invariant 0 <= i <= |children|
        invariant AllOk(after) && SameSlots(start.frames, after)
        invariant DrawnAll(start, sizeX, sizeY, children) == DrawnAll(CanvasOf(after), sizeX, sizeY, children[i..])
      {
        SameSlotsFilled(start.frames, after);
        assert children[i..][1..] == children[i + 1..];
        after := Draw(after, children[i]);
        i := i + 1;
      }
      assert children[i..] == [];
    }

    /** The remap of draw: a fresh zeroed map with the frame d stamped on region r, row by row. */
    method Remap(r: Region, d: FrameID)
      requires r.minX <= r.maxX <= sizeX && r.minY <= r.maxY <= sizeY
      modifies this`flags, this`mapOfFrames
      ensures flags == old(flags) & !NeedRemap
      ensures mapOfFrames == Some(FrameMap(sizeX, sizeY, r, d))
    {
      var cells := new FrameID[sizeX * sizeY](_ => 0);
      MarkedNone(sizeX * sizeY, sizeX, r, d);
      assert cells[..] == seq(sizeX * sizeY, _ => 0);
      var y := r.minY;
      while y < r.maxY
        modifies cells
        invariant r.minY <= y <= r.maxY
        invariant Marked(cells[..], sizeX, r, y, r.minX, d)
      {
        var x := r.minX;
        while x < r.maxX
          modifies cells
          invariant r.minX <= x <= r.maxX
          invariant Marked(cells[..], sizeX, r, y, x, d)
        {
          CellIndexBounds(x, y, sizeX, sizeY);
          MarkCell(cells[..], sizeX, r, y, x, d);
          cells[CellIndex(x, y, sizeX)] := d;
          x := x + 1;
        }
        MarkRow(cells[..], sizeX, r, y, d);
        y := y + 1;
      }
      MarkedAll(sizeX, sizeY, r, d, cells[..]);
      flags := flags & !NeedRemap;
      mapOfFrames := Some(cells[..]);
    }

    /** The leaf renderers: the TTY backend draws a status, text or editor frame; pixel and plot frames draw nothing. */
    method DrawLeaf(shown: Frame, r: Region)
      modifies output
      ensures output.writes == old(output.writes) + LeafWrites(shown, r)
    {
      match shown {
        case Status(f) => output.DrawStatusFrame(f, r.lenX, r.lenY, r.minX, r.minY, r.maxY, r.maxY, r.cutX, r.cutY);
        case Text(f) => output.DrawTextFrame(f, r.lenX, r.lenY, r.minX, r.minY, r.maxY, r.maxY, r.cutX, r.cutY);
        case Editor(f) => output.DrawEditorFrame(f, r.lenX, r.lenY, r.minX, r.minY, r.maxY, r.maxY, r.cutX, r.cutY);
        case _ =>
      }
    }

    method ChangeTitle(title: string)
      modifies output
      ensures output.writes == old(output.writes) + [TitleOutput(title)]
    {
      output.ChangeTitle(title);
    }

    method TurnOn(title: string)
      modifies output
      ensures output.writes == old(output.writes) + [TurnOnOutput(title)]
    {
      output.TurnOn(title);
    }

    method TurnOff()
      modifies output
      ensures output.writes == old(output.writes) + [TurnOffOutput]
    {
      output.TurnOff();
    }
  }
}
