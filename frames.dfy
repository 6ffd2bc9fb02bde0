/** Frame variants, instances and their constructors (src/frame/mod.rs). */
module Frames {
  import opened Events
  import opened Styles

  // The FrameFlag bit flags: only None is defined.
  const FrameNone: Flags := 0

  datatype StatusFrame = StatusFrame(flags: Flags, offs: int, text: string, bgChar: char)

  datatype TextFrame = TextFrame(flags: Flags, offsX: int, offsY: int, lines: seq<string>, bgChar: char)

  datatype EditorFrame = EditorFrame(flags: Flags, offsX: int, offsY: int, lines: seq<seq<StyledToken>>, bgChar: char)

  datatype PixelEncoding =
    | NoEncoding
    | RGB(red: byte, green: byte, blue: byte)
    | RGBA(red: byte, green: byte, blue: byte, alpha: byte)
    | Sixel(data: string)

  /** The `scale: f64` field of the source is not part of this model. */
  datatype PixelFrame = PixelFrame(
    offsX: int, offsY: int,
    sizeX: nat, sizeY: nat,
    ground: Colour,
    changed: bool,
    input: PixelEncoding, output: PixelEncoding)

  /** `Tiling::None` (caller-positioned instances) and `Tiling::Grid`. */
  datatype Tiling = NoTiling | Grid

  /** A child placement; the grid fields are used only under Grid tiling. */
  datatype Instance = Instance(
    frame: FrameID,
    posX: int, posY: int,
    lenX: nat, lenY: nat,
    minX: nat, minY: nat,
    maxX: nat, maxY: nat,
    gridOriginX: nat, gridOriginY: nat,
    gridLengthX: nat, gridLengthY: nat)

  datatype ParentFrame = ParentFrame(
    typeOfTiling: Tiling,
    listOfInstances: seq<Instance>,
    gridBordersX: seq<int>,
    gridBordersY: seq<int>,
    gridMinimumX: seq<nat>,
    gridMinimumY: seq<nat>,
    pivotFrame: FrameID)

  datatype LayerFrame = LayerFrame(listOfLayers: seq<FrameID>)

  datatype Frame =
    | Status(status: StatusFrame)
    | Text(text: TextFrame)
    | Editor(editor: EditorFrame)
    | Pixel(pixel: PixelFrame)
    | Plot
    | Parent(parent: ParentFrame)
    | Layers(layers: LayerFrame)

  /**
   * What drawing a frame demands of it: a Grid parent takes `len() - 1` of
   * both border arrays on a usize, so both must be non-empty.
   */
  predicate FrameOk(f: Frame) {
    f.Parent? && f.parent.typeOfTiling == Grid ==>
      |f.parent.gridBordersX| >= 1 && |f.parent.gridBordersY| >= 1
  }

  function NewStatusFrame(flags: Flags, offs: int, text: string, bgChar: char): (f: Frame)
    ensures f == Status(StatusFrame(flags, offs, text, bgChar))
    ensures FrameOk(f)
  {
    Status(StatusFrame(flags, offs, text, bgChar))
  }

  function NewTextFrame(flags: Flags, offsX: int, offsY: int, lines: seq<string>, bgChar: char): (f: Frame)
    ensures f.Text? && f.text.flags == flags && f.text.offsX == offsX && f.text.offsY == offsY
    ensures f.text.lines == lines && f.text.bgChar == bgChar
    ensures FrameOk(f)
  {
    Text(TextFrame(flags, offsX, offsY, lines, bgChar))
  }

  function NewEditorFrame(flags: Flags, offsX: int, offsY: int, lines: seq<seq<StyledToken>>, bgChar: char): (f: Frame)
    ensures f.Editor? && f.editor.flags == flags && f.editor.offsX == offsX && f.editor.offsY == offsY
    ensures f.editor.lines == lines && f.editor.bgChar == bgChar
    ensures FrameOk(f)
  {
    Editor(EditorFrame(flags, offsX, offsY, lines, bgChar))
  }

  /** Copies its arguments and marks the bitmap as changed. */
  function NewPixelFrame(offsX: int, offsY: int, sizeX: nat, sizeY: nat, ground: Colour,
                         input: PixelEncoding, output: PixelEncoding): (f: Frame)
    ensures f.Pixel? && f.pixel.changed
    ensures f.pixel.offsX == offsX && f.pixel.offsY == offsY
    ensures f.pixel.sizeX == sizeX && f.pixel.sizeY == sizeY && f.pixel.ground == ground
    ensures f.pixel.input == input && f.pixel.output == output
    ensures FrameOk(f)
  {
    Pixel(PixelFrame(offsX, offsY, sizeX, sizeY, ground, true, input, output))
  }

  function NewInstance(frame: FrameID, posX: int, posY: int, lenX: nat, lenY: nat,
                       minX: nat, minY: nat, maxX: nat, maxY: nat,
                       gridOriginX: nat, gridOriginY: nat, gridLengthX: nat, gridLengthY: nat): (i: Instance)
    ensures i.frame == frame && i.posX == posX && i.posY == posY && i.lenX == lenX && i.lenY == lenY
    ensures i.minX == minX && i.minY == minY && i.maxX == maxX && i.maxY == maxY
    ensures i.gridOriginX == gridOriginX && i.gridOriginY == gridOriginY
    ensures i.gridLengthX == gridLengthX && i.gridLengthY == gridLengthY
  {
    Instance(frame, posX, posY, lenX, lenY, minX, minY, maxX, maxY,
             gridOriginX, gridOriginY, gridLengthX, gridLengthY)
  }

  predicate SortedAsc(s: seq<int>) {
    forall i, j :: 0 <= i < j < |s| ==> s[i] <= s[j]
  }

  predicate AllAtLeast(lo: int, s: seq<int>) {
    forall k :: 0 <= k < |s| ==> lo <= s[k]
  }

  /** A lower bound on every element survives any rearrangement. */
  lemma AllAtLeastPermutation(lo: int, u: seq<int>, t: seq<int>)
    requires AllAtLeast(lo, u) && multiset(t) == multiset(u)
    ensures AllAtLeast(lo, t)
  {
    forall k | 0 <= k < |t| ensures lo <= t[k] {
      assert t[k] in multiset(u);
      var j :| 0 <= j < |u| && u[j] == t[k];
    }
  }

  lemma SortedCons(h: int, t: seq<int>)
    requires SortedAsc(t) && AllAtLeast(h, t)
    ensures SortedAsc([h] + t)
  {
    forall i, j | 0 <= i < j < |[h] + t| ensures ([h] + t)[i] <= ([h] + t)[j] {
      if i > 0 { assert ([h] + t)[i] == t[i - 1]; }
      assert ([h] + t)[j] == t[j - 1];
    }
  }

  /** Inserts x into a sorted sequence. */
  function Insert(x: int, s: seq<int>): (r: seq<int>)
    requires SortedAsc(s)
    ensures SortedAsc(r)
    ensures multiset(r) == multiset(s) + multiset{x}
    ensures |r| == |s| + 1
  {
    if |s| == 0 then [x]
    else if x <= s[0] then
      InsertFront(x, s);
      [x] + s
    else
      SortedTail(s);
      var tail := Insert(x, s[1..]);
      InsertBehind(x, s, tail);
      [s[0]] + tail
  }

  lemma InsertFront(x: int, s: seq<int>)
    requires SortedAsc(s) && |s| > 0 && x <= s[0]
    ensures SortedAsc([x] + s) && multiset([x] + s) == multiset(s) + multiset{x}
  {
    assert AllAtLeast(x, s) by {
      forall k | 0 <= k < |s| ensures x <= s[k] {
        if k > 0 { assert s[0] <= s[k]; }
      }
    }
    SortedCons(x, s);
  }

  lemma InsertBehind(x: int, s: seq<int>, tail: seq<int>)
    requires SortedAsc(s) && |s| > 0 && s[0] < x
    requires SortedAsc(tail) && multiset(tail) == multiset(s[1..]) + multiset{x}
    ensures SortedAsc([s[0]] + tail) && multiset([s[0]] + tail) == multiset(s) + multiset{x}
  {
    var rest := s[1..];
    assert s == [s[0]] + rest;
    assert multiset(tail) == multiset(rest + [x]);
    assert AllAtLeast(s[0], rest + [x]) by {
      forall k | 0 <= k < |rest + [x]| ensures s[0] <= (rest + [x])[k] {
        if k < |rest| { assert (rest + [x])[k] == s[k + 1]; }
      }
    }
    AllAtLeastPermutation(s[0], rest + [x], tail);
    SortedCons(s[0], tail);
  }

  /**
   * What `Vec::sort` leaves in a vector of integers: the same elements in
   * ascending order (insertion sort here; the library's algorithm is not modelled).
   */
  function SortAsc(s: seq<int>): (r: seq<int>)
    ensures SortedAsc(r)
    ensures multiset(r) == multiset(s)
    ensures |r| == |s|
  {
    if |s| == 0 then []
    else
      assert s == [s[0]] + s[1..];
      Insert(s[0], SortAsc(s[1..]))
  }

  /** `Vec::resize(n, 0)`: truncates, or pads with zeros. */
  function Resize(s: seq<nat>, n: nat): (r: seq<nat>)
    ensures |r| == n
    ensures forall i :: 0 <= i < n && i < |s| ==> r[i] == s[i]
    ensures forall i :: |s| <= i < n ==> r[i] == 0
  {
    if n <= |s| then s[..n] else s + seq(n - |s|, _ => 0)
  }

  /**
   * `Frame::newParentFrame`: sorts both border arrays and gives each
   * minimum-size array one entry per grid cell. The border arrays must be
   * non-empty because `len() - 1` is taken on a usize.
   */
  function NewParentFrame(tiling: Tiling, listOfInstances: seq<Instance>,
                          gridBordersX: seq<int>, gridBordersY: seq<int>,
                          gridMinimumX: seq<nat>, gridMinimumY: seq<nat>,
                          pivotFrame: FrameID): (f: Frame)
    requires |gridBordersX| >= 1 && |gridBordersY| >= 1
    ensures f.Parent? && FrameOk(f)
    ensures f.parent.typeOfTiling == tiling
    ensures f.parent.listOfInstances == listOfInstances
    ensures f.parent.pivotFrame == pivotFrame
    ensures SortedAsc(f.parent.gridBordersX) && multiset(f.parent.gridBordersX) == multiset(gridBordersX)
    ensures SortedAsc(f.parent.gridBordersY) && multiset(f.parent.gridBordersY) == multiset(gridBordersY)
    ensures |f.parent.gridMinimumX| == |gridBordersX| - 1
    ensures |f.parent.gridMinimumY| == |gridBordersY| - 1
    ensures forall i :: 0 <= i < |gridBordersX| - 1 ==>
              f.parent.gridMinimumX[i] == (if i < |gridMinimumX| then gridMinimumX[i] else 0)
    ensures forall i :: 0 <= i < |gridBordersY| - 1 ==>
              f.parent.gridMinimumY[i] == (if i < |gridMinimumY| then gridMinimumY[i] else 0)
  {
    var bx := SortAsc(gridBordersX);
    var sy := SortAsc(gridBordersY);
    Parent(ParentFrame(tiling, listOfInstances, bx, sy,
                       Resize(gridMinimumX, |bx| - 1), Resize(gridMinimumY, |sy| - 1),
                       pivotFrame))
  }

  /** A sorted permutation is unique, so the normalised border arrays depend only on the multiset of borders. */
  lemma MultisetTail(a: seq<int>, b: seq<int>)
    requires |a| > 0 && |b| > 0 && a[0] == b[0] && multiset(a) == multiset(b)
    ensures multiset(a[1..]) == multiset(b[1..])
  {
    assert a == [a[0]] + a[1..];
    assert b == [b[0]] + b[1..];
    calc {
      multiset(a[1..]);
      multiset(a) - multiset{a[0]};
      multiset(b) - multiset{b[0]};
      multiset(b[1..]);
    }
  }

  lemma SortedTail(a: seq<int>)
    requires |a| > 0 && SortedAsc(a)
    ensures SortedAsc(a[1..]) && AllAtLeast(a[0], a)
  {
  }

  lemma {:induction false} SortedPermutationUnique(a: seq<int>, b: seq<int>)
    requires SortedAsc(a) && SortedAsc(b) && multiset(a) == multiset(b)
    ensures a == b
    decreases |a|
  {
    assert |a| == |multiset(a)| == |multiset(b)| == |b|;
    if |a| > 0 {
      SortedTail(a);
      SortedTail(b);
      AllAtLeastPermutation(a[0], a, b);
      AllAtLeastPermutation(b[0], b, a);
      assert a[0] == b[0];
      MultisetTail(a, b);
      SortedPermutationUnique(a[1..], b[1..]);
      assert a == [a[0]] + a[1..] && b == [b[0]] + b[1..];
    }
  }

  /** Normalising twice changes nothing: newParentFrame is idempotent on its own output. */
  lemma NewParentFrameIdempotent(tiling: Tiling, listOfInstances: seq<Instance>,
                                 gridBordersX: seq<int>, gridBordersY: seq<int>,
                                 gridMinimumX: seq<nat>, gridMinimumY: seq<nat>, pivotFrame: FrameID)
    requires |gridBordersX| >= 1 && |gridBordersY| >= 1
    ensures var f := NewParentFrame(tiling, listOfInstances, gridBordersX, gridBordersY,
                                    gridMinimumX, gridMinimumY, pivotFrame);
            NewParentFrame(tiling, listOfInstances, f.parent.gridBordersX, f.parent.gridBordersY,
                           f.parent.gridMinimumX, f.parent.gridMinimumY, pivotFrame) == f
  {
    var f := NewParentFrame(tiling, listOfInstances, gridBordersX, gridBordersY,
                            gridMinimumX, gridMinimumY, pivotFrame);
    var p := f.parent;
    SortedPermutationUnique(SortAsc(p.gridBordersX), p.gridBordersX);
    SortedPermutationUnique(SortAsc(p.gridBordersY), p.gridBordersY);
    ResizeSame(p.gridMinimumX, |p.gridBordersX| - 1);
    ResizeSame(p.gridMinimumY, |p.gridBordersY| - 1);
  }

  lemma ResizeSame(s: seq<nat>, n: nat)
    requires |s| == n
    ensures Resize(s, n) == s
  {
    assert s[..n] == s;
  }
}
