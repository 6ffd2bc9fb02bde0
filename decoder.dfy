/**
 * The terminal input decoder `TTYState::nextState` (src/display/tty.rs) and the
 * reply loop of `getTerminalSize`.
 *
 * The decoder is a byte-driven state machine. Besides its own state it keeps a
 * mouse-button mask, a list of numeric parameters, the parameter being read
 * and a prefix that says which introducer started the parameters. `Step` is
 * the pure specification of one call; `InputParser.NextState` is the
 * imperative version that updates the five pieces of state in place.
 */
module Decoder {
  import opened Wrappers
  import opened Events
  import opened Decimal
  import opened Numeric
  import opened Seqs

  datatype TTYState = ExpectByte | Escape | CSI | ParseArgument

  datatype TTYPrefix = NoPrefix | EscapePrefix | CSIPrefix | MousePrefix

  /** Everything `nextState` reads and writes besides its arguments. */
  datatype Parser = Parser(
    state: TTYState,
    mouse: Flags,
    params: seq<nat>,
    current: nat,
    prefix: TTYPrefix)

  /** The state the listener thread and the size probe start from. */
  const Start: Parser := Parser(ExpectByte, MouseNone, [], 0, NoPrefix)

  /**
   * The caller's data: the focused frame (if a focus cell is given), the
   * display id, the map of frames (if one is given) and its dimensions.
   */
  datatype Context = Context(
    focus: Option<FrameID>,
    display: DisplayID,
    frames: Option<seq<FrameID>>,
    width: nat,
    height: nat)

  /** What `getTerminalSize` passes: no focus, display 0, no map, size 0 × 0. */
  const ProbeContext: Context := Context(None, 0, None, 0, 0)

  datatype Stepped = Stepped(parser: Parser, event: Option<Event>)

  const EscByte: byte := 0x1b
  const BracketByte: byte := 0x5b
  const LessByte: byte := 0x3c
  const SemicolonByte: byte := 0x3b
  const PressByte: byte := 0x4d
  const ReleaseByte: byte := 0x6d
  const ReportByte: byte := 0x52

  predicate IsDigitByte(b: byte) {
    0x30 <= b <= 0x39
  }

  function DigitOf(b: byte): (d: nat)
    requires IsDigitByte(b)
    ensures d < 10
  {
    b as int - 0x30
  }

  predicate IsPrintable(b: byte) {
    0x20 <= b <= 0x7e
  }

  function CharOf(b: byte): char {
    (b as int) as char
  }

  /** The frame held by the focus cell, or 0 when no focus cell is given. */
  function Focused(ctx: Context): FrameID {
    if ctx.focus.Some? then ctx.focus.value else 0
  }

  /** The mask bit of the button that mouse codes 0, 1 and 2 name. */
  function ButtonBit(code: nat): Flags
    requires code < 3
  {
    if code == 0 then LeftDown else if code == 1 then MiddleDown else RightDown
  }

  /** The invariant the decoder keeps: only button bits in the mask, and a prefix whenever parameters are read. */
  predicate Wf(p: Parser) {
    ButtonsOnly(p.mouse)
    && (p.state == ParseArgument ==> p.prefix != NoPrefix)
  }

  datatype MouseEffect = MouseEffect(kind: EventType, mouse: Flags)

  /** Codes of motion and wheel reports, which leave the button mask alone. */
  predicate IsMotionCode(code: nat) {
    code == 32 || code == 33 || code == 34 || code == 35 || code == 64 || code == 65
  }

  /** The event kind of an `M` report by button code: presses, motion with a button held, plain motion, wheel. */
  function PressKind(code: nat): (k: Option<EventType>)
    ensures k.Some? <==> code < 3 || IsMotionCode(code)
  {
    if code == 0 then Some(MouseLeftButtonPressed)
    else if code == 1 then Some(MouseMiddleButtonPressed)
    else if code == 2 then Some(MouseRightButtonPressed)
    else if code == 32 then Some(MouseMoveWithLeftButton)
    else if code == 33 then Some(MouseMoveWithMiddleButton)
    else if code == 34 then Some(MouseMoveWithRightButton)
    else if code == 35 then Some(MouseOver)
    else if code == 64 then Some(MouseWheelUp)
    else if code == 65 then Some(MouseWheelDown)
    else None
  }

  /** The event kind of an `m` report by button code: releases only. */
  function ReleaseKind(code: nat): (k: Option<EventType>)
    ensures k.Some? <==> code < 3
  {
    if code == 0 then Some(MouseLeftButtonReleased)
    else if code == 1 then Some(MouseMiddleButtonReleased)
    else if code == 2 then Some(MouseRightButtonReleased)
    else None
  }

  const AllButtons: Flags := LeftDown | MiddleDown | RightDown

  /** The mask holds button bits and nothing else. */
  predicate ButtonsOnly(mouse: Flags) {
    mouse & AllButtons == mouse
  }

  /** The `!` of a bitflags type: the complement within the declared flags. */
  function Complement(f: Flags): Flags {
    AllButtons & !f
  }

  /** The mask after an `M` report: a press sets its button's bit. */
  function PressedMask(code: nat, mouse: Flags): Flags {
    if code == 0 then mouse | LeftDown
    else if code == 1 then mouse | MiddleDown
    else if code == 2 then mouse | RightDown
    else mouse
  }

  /** The mask after an `m` report: a release clears its button's bit. */
  function ReleasedMask(code: nat, mouse: Flags): Flags {
    if code == 0 then mouse & Complement(LeftDown)
    else if code == 1 then mouse & Complement(MiddleDown)
    else if code == 2 then mouse & Complement(RightDown)
    else mouse
  }

  /**
   * The event an SGR mouse report produces and the new button mask, by final
   * byte (`M` press/motion, `m` release) and button code; None for codes the
   * decoder does not know, which leave the mask alone.
   */
  function MouseEffectOf(final: byte, code: nat, mouse: Flags): (r: Option<MouseEffect>)
    requires final == PressByte || final == ReleaseByte
    ensures r.Some? <==> code < 3 || (final == PressByte && IsMotionCode(code))
    ensures code >= 3 && r.Some? ==> r.value.mouse == mouse
  {
    if final == PressByte then
      match PressKind(code)
      case None => None
      case Some(k) => Some(MouseEffect(k, PressedMask(code, mouse)))
    else
      match ReleaseKind(code)
      case None => None
      case Some(k) => Some(MouseEffect(k, ReleasedMask(code, mouse)))
  }

  /** A press sets exactly its button's bit; every other bit of the mask is kept. */
  lemma PressSetsButton(code: nat, mouse: Flags)
    requires code < 3
    ensures PressedMask(code, mouse) & ButtonBit(code) == ButtonBit(code)
    ensures PressedMask(code, mouse) & Complement(ButtonBit(code)) == mouse & Complement(ButtonBit(code))
  {
    if code == 0 {
    } else if code == 1 {
    } else {
    }
  }

  /** A release clears exactly its button's bit and keeps the other button bits. */
  lemma ReleaseClearsButton(code: nat, mouse: Flags)
    requires code < 3
    ensures ReleasedMask(code, mouse) & ButtonBit(code) == 0
    ensures ReleasedMask(code, mouse) & Complement(ButtonBit(code)) == mouse & Complement(ButtonBit(code))
  {
    if code == 0 {
    } else if code == 1 {
    } else {
    }
  }

  /** A press or a release of a mask of button bits leaves a mask of button bits. */
  lemma MasksStayButtons(code: nat, mouse: Flags)
    ensures ButtonsOnly(mouse) ==> ButtonsOnly(PressedMask(code, mouse)) && ButtonsOnly(ReleasedMask(code, mouse))
  {
    if code == 0 {
    } else if code == 1 {
    } else if code == 2 {
    }
  }

  /** Pressing and then releasing a button restores a mask of button bits in which that button was up. */
  lemma PressThenRelease(code: nat, mouse: Flags)
    requires code < 3 && mouse & ButtonBit(code) == 0 && ButtonsOnly(mouse)
    ensures ReleasedMask(code, PressedMask(code, mouse)) == mouse
  {
    if code == 0 {
    } else if code == 1 {
    } else {
    }
  }

  /** The byte terminates an SGR mouse report: prefix Mouse and two parameters already pushed. */
  predicate CompletesMouse(p: Parser, b: byte) {
    p.state == ParseArgument && (b == PressByte || b == ReleaseByte)
    && |p.params| == 2 && p.prefix == MousePrefix
  }

  /** The byte terminates a Cursor Position Report: prefix CSI and one parameter already pushed. */
  predicate CompletesReport(p: Parser, b: byte) {
    p.state == ParseArgument && b == ReportByte && |p.params| == 1 && p.prefix == CSIPrefix
  }

  /**
   * The map lookup of a mouse report does not underflow (`col - 1`, `row - 1`
   * on a usize) nor index past the map.
   */
  predicate MouseLookupOk(col: nat, row: nat, ctx: Context) {
    ctx.frames.Some? ==>
      col >= 1 && row >= 1
      && (col - 1 < ctx.width && row - 1 < ctx.height ==>
            CellIndex(col - 1, row - 1, ctx.width) < |ctx.frames.value|)
  }

  /** The map has one entry per cell of the width × height screen. */
  predicate MapFits(ctx: Context) {
    ctx.frames.Some? ==> |ctx.frames.value| == ctx.width * ctx.height
  }

  lemma MapFitsLookup(col: nat, row: nat, ctx: Context)
    requires MapFits(ctx) && col >= 1 && row >= 1
    ensures MouseLookupOk(col, row, ctx)
  {
    if ctx.frames.Some? && col - 1 < ctx.width && row - 1 < ctx.height {
      CellIndexBounds(col - 1, row - 1, ctx.width, ctx.height);
    }
  }

  /** The frame under the mouse: the map entry of cell (col-1, row-1) when it is on screen, otherwise 0. */
  function MouseFrame(col: nat, row: nat, ctx: Context): FrameID
    requires MouseLookupOk(col, row, ctx)
  {
    if ctx.frames.None? then 0
    else if col - 1 < ctx.width && row - 1 < ctx.height then ctx.frames.value[CellIndex(col - 1, row - 1, ctx.width)]
    else 0
  }

  /** What the source needs to avoid a usize underflow or an index out of bounds on this byte. */
  predicate StepDefined(p: Parser, b: byte, ctx: Context) {
    CompletesMouse(p, b) ==>
      MouseLookupOk(p.params[1], p.current, ctx)
      && (MouseEffectOf(b, p.params[0], p.mouse).Some? ==> p.params[1] >= 1 && p.current >= 1)
  }

  function MouseStep(p: Parser, b: byte, ctx: Context): (r: Stepped)
    requires CompletesMouse(p, b) && StepDefined(p, b, ctx)
    ensures r.parser.state == ExpectByte && r.parser.params == p.params + [p.current]
    ensures r.parser.prefix == p.prefix
    ensures Wf(p) ==> Wf(r.parser)
  {
    var ps := p.params + [p.current];
    var frame := MouseFrame(ps[1], ps[2], ctx);
    MasksStayButtons(ps[0], p.mouse);
    match MouseEffectOf(b, ps[0], p.mouse)
    case None => Stepped(p.(state := ExpectByte, params := ps), None)
    case Some(m) =>
      Stepped(p.(state := ExpectByte, params := ps, mouse := m.mouse),
              Some(Event(m.kind, ctx.display, frame, ps[2] - 1, ps[1] - 1, m.mouse)))
  }

  /** One call of `nextState`: the new decoder state and the event it emits, if any. */
  function Step(p: Parser, b: byte, ctx: Context): (r: Stepped)
    requires StepDefined(p, b, ctx)
    ensures Wf(p) ==> Wf(r.parser)
    ensures r.event.Some? ==> r.event.value.display == ctx.display
    ensures r.event.Some? ==>
              r.parser.state == ExpectByte || (r.parser.state == TTYState.Escape && b == EscByte)
    ensures r.parser.mouse != p.mouse ==> CompletesMouse(p, b)
    ensures r.event.Some? && r.event.value.event == CursorPosition ==> CompletesReport(p, b)
  {
    match p.state
    case ExpectByte =>
      if b == EscByte then Stepped(p.(state := TTYState.Escape), None)
      else if IsPrintable(b) then
        Stepped(p, Some(Event(Character(CharOf(b)), ctx.display, Focused(ctx), 0, 0, p.mouse)))
      else Stepped(p, None)
    case Escape =>
      if IsDigitByte(b) then
        Stepped(p.(state := ParseArgument, prefix := EscapePrefix, params := [], current := DigitOf(b)), None)
      else if b == BracketByte then Stepped(p.(state := CSI), None)
      else
        var e := Event(EventType.Escape, ctx.display, Focused(ctx), 0, 0, p.mouse);
        Stepped(if b == EscByte then p else p.(state := ExpectByte), Some(e))
    case CSI =>
      if IsDigitByte(b) then
        Stepped(p.(state := ParseArgument, prefix := CSIPrefix, params := [], current := DigitOf(b)), None)
      else if b == LessByte then
        Stepped(p.(state := ParseArgument, prefix := MousePrefix, params := [], current := 0), None)
      else Stepped(p.(state := ExpectByte), None)
    case ParseArgument =>
      if IsDigitByte(b) then Stepped(p.(current := p.current * 10 + DigitOf(b)), None)
      else if b == SemicolonByte then Stepped(p.(params := p.params + [p.current], current := 0), None)
      else if CompletesMouse(p, b) then MouseStep(p, b, ctx)
      else if CompletesReport(p, b) then
        var ps := p.params + [p.current];
        Stepped(p.(state := ExpectByte, params := ps),
                Some(Event(CursorPosition, ctx.display, 0, ps[1], ps[0], p.mouse)))
      else Stepped(p.(state := ExpectByte), None)
  }

  function EventsOf(o: Option<Event>): seq<Event> {
    if o.Some? then [o.value] else []
  }

  datatype Fed = Fed(parser: Parser, events: seq<Event>)

  /** No byte of the input makes the decoder underflow or index out of bounds. */
  predicate FeedDefined(p: Parser, bytes: seq<byte>, ctx: Context)
    decreases |bytes|
  {
    |bytes| == 0
    || (StepDefined(p, bytes[0], ctx) && FeedDefined(Step(p, bytes[0], ctx).parser, bytes[1..], ctx))
  }

  /** The decoder run over a byte stream: the final state and the events emitted, in order. */
  function Feed(p: Parser, bytes: seq<byte>, ctx: Context): (r: Fed)
    requires FeedDefined(p, bytes, ctx)
    ensures Wf(p) ==> Wf(r.parser)
    ensures |r.events| <= |bytes|
    decreases |bytes|
  {
    if |bytes| == 0 then Fed(p, [])
    else
      var s := Step(p, bytes[0], ctx);
      var rest := Feed(s.parser, bytes[1..], ctx);
      Fed(rest.parser, EventsOf(s.event) + rest.events)
  }

  /** Every event decoded from a display's input is tagged with that display. */
  lemma {:induction false} FeedTagsDisplay(p: Parser, bytes: seq<byte>, ctx: Context)
    requires FeedDefined(p, bytes, ctx)
    ensures forall i :: 0 <= i < |Feed(p, bytes, ctx).events| ==> Feed(p, bytes, ctx).events[i].display == ctx.display
    decreases |bytes|
  {
    if |bytes| > 0 {
      FeedTagsDisplay(Step(p, bytes[0], ctx).parser, bytes[1..], ctx);
    }
  }

  /** `nextState` as a function value: the new state and the events, or None where it would panic. */
  function StepFn(ctx: Context): (Parser, byte) -> Option<(Parser, seq<Event>)> {
    (q: Parser, b: byte) =>
      if StepDefined(q, b, ctx) then Some((Step(q, b, ctx).parser, EventsOf(Step(q, b, ctx).event))) else None
  }

  /** Feed is Run with `nextState`. */
  lemma {:induction false} FeedIsRun(p: Parser, bytes: seq<byte>, ctx: Context)
    ensures FeedDefined(p, bytes, ctx) == RunDefined(StepFn(ctx), p, bytes)
    ensures FeedDefined(p, bytes, ctx) ==> Feed(p, bytes, ctx) == Fed(Run(StepFn(ctx), p, bytes).0, Run(StepFn(ctx), p, bytes).1)
    decreases |bytes|
  {
    if |bytes| > 0 && StepDefined(p, bytes[0], ctx) {
      FeedIsRun(Step(p, bytes[0], ctx).parser, bytes[1..], ctx);
    }
  }

  /** Feeding two chunks one after the other is feeding their concatenation. */
  lemma FeedAppend(p: Parser, a: seq<byte>, b: seq<byte>, ctx: Context)
    requires FeedDefined(p, a, ctx) && FeedDefined(Feed(p, a, ctx).parser, b, ctx)
    ensures FeedDefined(p, a + b, ctx)
    ensures Feed(p, a + b, ctx)
            == Fed(Feed(Feed(p, a, ctx).parser, b, ctx).parser,
                   Feed(p, a, ctx).events + Feed(Feed(p, a, ctx).parser, b, ctx).events)
  {
    FeedIsRun(p, a, ctx);
    FeedIsRun(Feed(p, a, ctx).parser, b, ctx);
    RunAppend(StepFn(ctx), p, a, b);
    FeedIsRun(p, a + b, ctx);
  }

  /** A chunk that emits nothing can be skipped over by jumping to the state it leaves. */
  lemma FeedSilent(p: Parser, a: seq<byte>, q: Parser, b: seq<byte>, ctx: Context)
    requires FeedDefined(p, a, ctx) && Feed(p, a, ctx) == Fed(q, [])
    requires FeedDefined(q, b, ctx)
    ensures FeedDefined(p, a + b, ctx) && Feed(p, a + b, ctx) == Feed(q, b, ctx)
  {
    FeedAppend(p, a, b, ctx);
  }

  lemma FeedOne(p: Parser, b: byte, ctx: Context)
    requires StepDefined(p, b, ctx)
    ensures FeedDefined(p, [b], ctx)
    ensures Feed(p, [b], ctx) == Fed(Step(p, b, ctx).parser, EventsOf(Step(p, b, ctx).event))
  {
    assert [b][1..] == [];
  }

  // ---- single-byte behaviour ----

  /** A printable byte in ExpectByte emits one Character event and changes no state. */
  lemma PrintableByte(p: Parser, b: byte, ctx: Context)
    requires p.state == ExpectByte && IsPrintable(b)
    ensures StepDefined(p, b, ctx)
    ensures Step(p, b, ctx) == Stepped(p, Some(Event(Character(CharOf(b)), ctx.display, Focused(ctx), 0, 0, p.mouse)))
  {
  }

  /** Any other byte except ESC is ignored in ExpectByte. */
  lemma IgnoredByte(p: Parser, b: byte, ctx: Context)
    requires p.state == ExpectByte && !IsPrintable(b) && b != EscByte
    ensures StepDefined(p, b, ctx) && Step(p, b, ctx) == Stepped(p, None)
  {
  }

  /** In Escape, a byte that is not a digit, `[` or ESC emits one Escape event, is dropped, and returns to ExpectByte. */
  lemma EscapeThenOther(p: Parser, b: byte, ctx: Context)
    requires p.state == TTYState.Escape && !IsDigitByte(b) && b != BracketByte && b != EscByte
    ensures StepDefined(p, b, ctx)
    ensures Step(p, b, ctx)
            == Stepped(p.(state := ExpectByte), Some(Event(EventType.Escape, ctx.display, Focused(ctx), 0, 0, p.mouse)))
  {
  }

  /** Entering ParseArgument clears the parameters and seeds the accumulator; the prefix records the introducer. */
  lemma EnterParameters(p: Parser, b: byte, ctx: Context)
    requires p.state == TTYState.Escape || p.state == CSI
    requires IsDigitByte(b) || (p.state == CSI && b == LessByte)
    ensures StepDefined(p, b, ctx)
    ensures var q := Step(p, b, ctx).parser;
            q.state == ParseArgument && q.params == [] && q.mouse == p.mouse
            && Step(p, b, ctx).event.None?
            && q.prefix == (if p.state == CSI && b == LessByte then MousePrefix
                            else if p.state == CSI then CSIPrefix else EscapePrefix)
            && q.current == (if IsDigitByte(b) then DigitOf(b) else 0)
  {
  }

  /** In ParseArgument, a byte that is neither digit nor `;` nor a valid terminator returns to ExpectByte silently. */
  lemma UnrecognisedTerminator(p: Parser, b: byte, ctx: Context)
    requires p.state == ParseArgument && !IsDigitByte(b) && b != SemicolonByte
    requires !CompletesMouse(p, b) && !CompletesReport(p, b)
    ensures StepDefined(p, b, ctx) && Step(p, b, ctx) == Stepped(p.(state := ExpectByte), None)
  {
  }

  /** `;` pushes the accumulator and resets it. */
  lemma Separator(p: Parser, ctx: Context)
    requires p.state == ParseArgument
    ensures StepDefined(p, SemicolonByte, ctx)
    ensures Step(p, SemicolonByte, ctx) == Stepped(p.(params := p.params + [p.current], current := 0), None)
  {
  }

  // ---- byte strings ----

  predicate IsAscii(s: string) {
    forall i :: 0 <= i < |s| ==> (s[i] as int) < 256
  }

  function Ascii(s: string): (r: seq<byte>)
    requires IsAscii(s)
    ensures |r| == |s| && forall i :: 0 <= i < |s| ==> r[i] as int == s[i] as int
  {
    seq(|s|, i requires 0 <= i < |s| => (s[i] as int) as byte)
  }

  /** The bytes of the decimal numeral of n. */
  function Digits(n: nat): (r: seq<byte>)
    ensures |r| >= 1 && forall i :: 0 <= i < |r| ==> IsDigitByte(r[i])
  {
    FormatDigits(n);
    Ascii(Format(n))
  }

  function Repeat(b: byte, k: nat): (r: seq<byte>)
    ensures |r| == k && forall i :: 0 <= i < k ==> r[i] == b
  {
    seq(k, _ => b)
  }

  // ---- runs of input ----

  function EscapeEvent(p: Parser, ctx: Context): Event {
    Event(EventType.Escape, ctx.display, Focused(ctx), 0, 0, p.mouse)
  }

  lemma {:induction false} EscapeRun(p: Parser, k: nat, ctx: Context)
    requires p.state == TTYState.Escape
    ensures FeedDefined(p, Repeat(EscByte, k), ctx)
    ensures Feed(p, Repeat(EscByte, k), ctx) == Fed(p, seq(k, _ => EscapeEvent(p, ctx)))
    decreases k
  {
    if k > 0 {
      assert Repeat(EscByte, k)[1..] == Repeat(EscByte, k - 1);
      EscapeRun(p, k - 1, ctx);
      assert [EscapeEvent(p, ctx)] + seq(k - 1, _ => EscapeEvent(p, ctx)) == seq(k, _ => EscapeEvent(p, ctx));
    }
  }

  /**
   * From ExpectByte, k >= 1 ESC bytes emit exactly k - 1 Escape events and
   * leave the decoder in Escape, so a following `[` still opens a CSI sequence.
   */
  lemma RepeatedEscape(p: Parser, k: nat, ctx: Context)
    requires p.state == ExpectByte && k >= 1
    ensures FeedDefined(p, Repeat(EscByte, k), ctx)
    ensures Feed(p, Repeat(EscByte, k), ctx)
            == Fed(p.(state := TTYState.Escape), seq(k - 1, _ => EscapeEvent(p, ctx)))
    ensures Step(p.(state := TTYState.Escape), BracketByte, ctx) == Stepped(p.(state := CSI), None)
  {
    var q := p.(state := TTYState.Escape);
    assert Repeat(EscByte, k) == [EscByte] + Repeat(EscByte, k - 1);
    FeedOne(p, EscByte, ctx);
    EscapeRun(q, k - 1, ctx);
    FeedSilent(p, [EscByte], q, Repeat(EscByte, k - 1), ctx);
  }

  /** Digits in ParseArgument accumulate as a decimal numeral: acc := acc * 10 + d. */
  lemma {:induction false} FeedDigits(p: Parser, ds: string, ctx: Context)
    requires p.state == ParseArgument && AllDigits(ds)
    ensures IsAscii(ds) && FeedDefined(p, Ascii(ds), ctx)
    ensures Feed(p, Ascii(ds), ctx) == Fed(p.(current := Accumulate(p.current, ds)), [])
    decreases |ds|
  {
    assert IsAscii(ds);
    if |ds| > 0 {
      var b := Ascii(ds)[0];
      assert IsDigitByte(b) && DigitOf(b) == DigitValue(ds[0]);
      assert Ascii(ds)[1..] == Ascii(ds[1..]);
      var q := p.(current := p.current * 10 + DigitOf(b));
      assert Step(p, b, ctx) == Stepped(q, None);
      FeedDigits(q, ds[1..], ctx);
      assert Accumulate(q.current, ds[1..]) == Accumulate(p.current, ds);
    }
  }

  lemma FeedNumber(p: Parser, n: nat, ctx: Context)
    requires p.state == ParseArgument && p.current == 0
    ensures FeedDefined(p, Digits(n), ctx) && Feed(p, Digits(n), ctx) == Fed(p.(current := n), [])
  {
    FormatDigits(n);
    FeedDigits(p, Format(n), ctx);
    AccumulateFormat(n);
  }

  // ---- SGR mouse reports ----

  /** The bytes `ESC [ < code ; col ; row` followed by the final byte. */
  function MouseReport(code: nat, col: nat, row: nat, final: byte): seq<byte> {
    [EscByte, BracketByte, LessByte] + Digits(code) + [SemicolonByte] + Digits(col)
      + [SemicolonByte] + Digits(row) + [final]
  }

  /** A numeral and a `;` in ParseArgument push the number and leave the accumulator at 0. */
  lemma FeedParameter(q: Parser, n: nat, rest: seq<byte>, ctx: Context)
    requires q.state == ParseArgument && q.current == 0
    requires FeedDefined(q.(params := q.params + [n]), rest, ctx)
    ensures FeedDefined(q, Digits(n) + ([SemicolonByte] + rest), ctx)
    ensures Feed(q, Digits(n) + ([SemicolonByte] + rest), ctx) == Feed(q.(params := q.params + [n]), rest, ctx)
  {
    var q1 := q.(current := n);
    var q2 := q.(params := q.params + [n]);
    assert FeedDefined(q, Digits(n), ctx) && Feed(q, Digits(n), ctx) == Fed(q1, []) by {
      FeedNumber(q, n, ctx);
    }
    assert FeedDefined(q1, [SemicolonByte] + rest, ctx) && Feed(q1, [SemicolonByte] + rest, ctx) == Feed(q2, rest, ctx) by {
      Separator(q1, ctx);
      FeedOne(q1, SemicolonByte, ctx);
      FeedSilent(q1, [SemicolonByte], q2, rest, ctx);
    }
    FeedSilent(q, Digits(n), q1, [SemicolonByte] + rest, ctx);
  }

  /** ESC, `[` and one more byte from ExpectByte: the introducer of a CSI sequence. */
  lemma FeedIntroducer(p: Parser, b: byte, q: Parser, rest: seq<byte>, ctx: Context)
    requires p.state == ExpectByte
    requires StepDefined(p.(state := CSI), b, ctx) && Step(p.(state := CSI), b, ctx) == Stepped(q, None)
    requires FeedDefined(q, rest, ctx)
    ensures FeedDefined(p, [EscByte, BracketByte, b] + rest, ctx)
    ensures Feed(p, [EscByte, BracketByte, b] + rest, ctx) == Feed(q, rest, ctx)
  {
    var p1 := p.(state := TTYState.Escape);
    var p2 := p.(state := CSI);
    FeedOne(p2, b, ctx);
    FeedSilent(p2, [b], q, rest, ctx);
    FeedOne(p1, BracketByte, ctx);
    FeedSilent(p1, [BracketByte], p2, [b] + rest, ctx);
    FeedOne(p, EscByte, ctx);
    FeedSilent(p, [EscByte], p1, [BracketByte] + ([b] + rest), ctx);
    assert [EscByte, BracketByte, b] + rest == [EscByte] + ([BracketByte] + ([b] + rest));
  }

  /** The events a mouse report emits when it completes, per the effect table and the map lookup. */
  function MouseOutcome(mouse: Flags, code: nat, col: nat, row: nat, final: byte, ctx: Context): Fed
    requires final == PressByte || final == ReleaseByte
    requires col >= 1 && row >= 1 && MouseLookupOk(col, row, ctx)
  {
    var q := Parser(ExpectByte, mouse, [code, col, row], row, MousePrefix);
    match MouseEffectOf(final, code, mouse)
    case None => Fed(q, [])
    case Some(m) => Fed(q.(mouse := m.mouse), [Event(m.kind, ctx.display, MouseFrame(col, row, ctx), row - 1, col - 1, m.mouse)])
  }

  /** The final byte of a mouse report, once all three numbers are in. */
  lemma MouseReportFinal(mouse: Flags, code: nat, col: nat, row: nat, final: byte, ctx: Context)
    requires final == PressByte || final == ReleaseByte
    requires col >= 1 && row >= 1 && MouseLookupOk(col, row, ctx)
    ensures var q := Parser(ParseArgument, mouse, [code, col], row, MousePrefix);
            StepDefined(q, final, ctx)
            && Fed(Step(q, final, ctx).parser, EventsOf(Step(q, final, ctx).event))
               == MouseOutcome(mouse, code, col, row, final, ctx)
  {
    var q := Parser(ParseArgument, mouse, [code, col], row, MousePrefix);
    assert CompletesMouse(q, final);
    assert Step(q, final, ctx) == MouseStep(q, final, ctx);
    MouseStepOutcome(mouse, code, col, row, final, ctx);
  }

  lemma MouseStepOutcome(mouse: Flags, code: nat, col: nat, row: nat, final: byte, ctx: Context)
    requires final == PressByte || final == ReleaseByte
    requires col >= 1 && row >= 1 && MouseLookupOk(col, row, ctx)
    ensures var q := Parser(ParseArgument, mouse, [code, col], row, MousePrefix);
            CompletesMouse(q, final) && StepDefined(q, final, ctx)
            && Fed(MouseStep(q, final, ctx).parser, EventsOf(MouseStep(q, final, ctx).event))
               == MouseOutcome(mouse, code, col, row, final, ctx)
  {
    var q := Parser(ParseArgument, mouse, [code, col], row, MousePrefix);
    assert (q.params + [q.current]) == [code, col, row];
  }

  lemma MouseReportTail(mouse: Flags, code: nat, col: nat, row: nat, final: byte, ctx: Context)
    requires final == PressByte || final == ReleaseByte
    requires col >= 1 && row >= 1 && MouseLookupOk(col, row, ctx)
    ensures var q := Parser(ParseArgument, mouse, [code, col], 0, MousePrefix);
            FeedDefined(q, Digits(row) + [final], ctx)
            && Feed(q, Digits(row) + [final], ctx) == MouseOutcome(mouse, code, col, row, final, ctx)
  {
    var q := Parser(ParseArgument, mouse, [code, col], 0, MousePrefix);
    FeedNumber(q, row, ctx);
    MouseReportFinal(mouse, code, col, row, final, ctx);
    FeedOne(q.(current := row), final, ctx);
    FeedSilent(q, Digits(row), q.(current := row), [final], ctx);
  }

  /**
   * A whole SGR mouse report, read from ExpectByte: one event (or none for an
   * unknown code) routed to the frame under cell (col-1, row-1), with cursorX
   * the row and cursorY the column, both 0-based; the decoder returns to ExpectByte.
   */
  lemma SgrMouseReport(p: Parser, code: nat, col: nat, row: nat, final: byte, ctx: Context)
    requires p.state == ExpectByte
    requires final == PressByte || final == ReleaseByte
    requires col >= 1 && row >= 1 && MouseLookupOk(col, row, ctx)
    ensures FeedDefined(p, MouseReport(code, col, row, final), ctx)
    ensures Feed(p, MouseReport(code, col, row, final), ctx) == MouseOutcome(p.mouse, code, col, row, final, ctx)
  {
    var q3 := Parser(ParseArgument, p.mouse, [], 0, MousePrefix);
    var s1 := Digits(code) + ([SemicolonByte] + (Digits(col) + ([SemicolonByte] + (Digits(row) + [final]))));
    MouseReportSplit(code, col, row, final);
    assert Step(p.(state := CSI), LessByte, ctx) == Stepped(q3, None);
    MouseReportNumbers(p.mouse, code, col, row, final, ctx);
    FeedIntroducer(p, LessByte, q3, s1, ctx);
  }

  lemma MouseReportSplit(code: nat, col: nat, row: nat, final: byte)
    ensures MouseReport(code, col, row, final)
            == [EscByte, BracketByte, LessByte]
               + (Digits(code) + ([SemicolonByte] + (Digits(col) + ([SemicolonByte] + (Digits(row) + [final])))))
  {
  }

  /** The three numbers and the final byte of a mouse report, after `ESC [ <`. */
  lemma MouseReportNumbers(mouse: Flags, code: nat, col: nat, row: nat, final: byte, ctx: Context)
    requires final == PressByte || final == ReleaseByte
    requires col >= 1 && row >= 1 && MouseLookupOk(col, row, ctx)
    ensures var q := Parser(ParseArgument, mouse, [], 0, MousePrefix);
            var s := Digits(code) + ([SemicolonByte] + (Digits(col) + ([SemicolonByte] + (Digits(row) + [final]))));
            FeedDefined(q, s, ctx) && Feed(q, s, ctx) == MouseOutcome(mouse, code, col, row, final, ctx)
  {
    var q3 := Parser(ParseArgument, mouse, [], 0, MousePrefix);
    var s3 := Digits(row) + [final];
    var s2 := Digits(col) + ([SemicolonByte] + s3);
    MouseReportTail(mouse, code, col, row, final, ctx);
    assert q3.(params := [code]).(params := [code] + [col]) == Parser(ParseArgument, mouse, [code, col], 0, MousePrefix);
    FeedParameter(q3.(params := [code]), col, s3, ctx);
    assert q3.(params := [] + [code]) == q3.(params := [code]);
    FeedParameter(q3, code, s2, ctx);
  }

  /**
   * The worked example: a left press at column 6, row 24 on an 80 × 24 map
   * whose cell (5, 23) holds frame 7 reaches frame 7 with cursorX 23 and
   * cursorY 5, and sets LeftDown.
   */
  lemma LeftPressExample(display: DisplayID)
    ensures var cells := seq(80 * 24, i => if i == CellIndex(5, 23, 80) then 7 else 0);
            var ctx := Context(None, display, Some(cells), 80, 24);
            FeedDefined(Start, MouseReport(0, 6, 24, PressByte), ctx)
            && Feed(Start, MouseReport(0, 6, 24, PressByte), ctx).events
               == [Event(MouseLeftButtonPressed, display, 7, 23, 5, LeftDown)]
  {
    var cells := seq(80 * 24, i => if i == CellIndex(5, 23, 80) then 7 else 0);
    var ctx := Context(None, display, Some(cells), 80, 24);
    MapFitsLookup(6, 24, ctx);
    SgrMouseReport(Start, 0, 6, 24, PressByte, ctx);
  }

  // ---- Cursor Position Reports ----

  /** The bytes `ESC [ row ; col R`. */
  function CursorReport(row: nat, col: nat): seq<byte> {
    [EscByte, BracketByte] + Digits(row) + [SemicolonByte] + Digits(col) + [ReportByte]
  }

  /** After a seeding digit, the remaining digits of a numeral bring the accumulator to its value. */
  lemma SeededDigits(mouse: Flags, n: nat, ctx: Context)
    ensures var s := Format(n);
            |s| >= 1 && AllDigits(s)
            && (var q := Parser(ParseArgument, mouse, [], DigitValue(s[0]), CSIPrefix);
                AllDigits(s[1..]) && IsAscii(s[1..]) && FeedDefined(q, Ascii(s[1..]), ctx)
                && Feed(q, Ascii(s[1..]), ctx) == Fed(q.(current := n), []))
  {
    FormatDigits(n);
    AccumulateFormat(n);
    var s := Format(n);
    var q := Parser(ParseArgument, mouse, [], DigitValue(s[0]), CSIPrefix);
    var t := s[1..];
    assert AllDigits(t) by {
      forall i | 0 <= i < |t| ensures IsDigit(t[i]) { assert t[i] == s[i + 1]; }
    }
    assert Accumulate(0, s) == Accumulate(DigitValue(s[0]), t);
    FeedDigits(q, t, ctx);
    assert q.(current := Accumulate(q.current, t)) == q.(current := n);
  }

  lemma CursorReportFinal(p: Parser, row: nat, col: nat, ctx: Context)
    ensures var q := Parser(ParseArgument, p.mouse, [row], col, CSIPrefix);
            StepDefined(q, ReportByte, ctx)
            && Step(q, ReportByte, ctx)
               == Stepped(Parser(ExpectByte, p.mouse, [row, col], col, CSIPrefix),
                          Some(Event(CursorPosition, ctx.display, 0, col, row, p.mouse)))
  {
    var q := Parser(ParseArgument, p.mouse, [row], col, CSIPrefix);
    assert CompletesReport(q, ReportByte) && !CompletesMouse(q, ReportByte);
    assert q.params + [q.current] == [row, col];
  }

  lemma CursorReportTail(p: Parser, row: nat, col: nat, ctx: Context)
    ensures var q := Parser(ParseArgument, p.mouse, [row], 0, CSIPrefix);
            FeedDefined(q, Digits(col) + [ReportByte], ctx)
            && Feed(q, Digits(col) + [ReportByte], ctx)
               == Fed(Parser(ExpectByte, p.mouse, [row, col], col, CSIPrefix),
                      [Event(CursorPosition, ctx.display, 0, col, row, p.mouse)])
  {
    var q := Parser(ParseArgument, p.mouse, [row], 0, CSIPrefix);
    FeedNumber(q, col, ctx);
    CursorReportFinal(p, row, col, ctx);
    FeedOne(q.(current := col), ReportByte, ctx);
    FeedSilent(q, Digits(col), q.(current := col), [ReportByte], ctx);
  }

  /**
   * A Cursor Position Report read from ExpectByte emits one CursorPosition
   * event for frame 0 whose cursorX is the column and cursorY the row, both
   * as sent, and returns to ExpectByte.
   */
  lemma CursorPositionReport(p: Parser, row: nat, col: nat, ctx: Context)
    requires p.state == ExpectByte
    ensures FeedDefined(p, CursorReport(row, col), ctx)
    ensures Feed(p, CursorReport(row, col), ctx)
            == Fed(Parser(ExpectByte, p.mouse, [row, col], col, CSIPrefix),
                   [Event(CursorPosition, ctx.display, 0, col, row, p.mouse)])
  {
    var digits := Digits(row);
    var rest := digits[1..] + ([SemicolonByte] + (Digits(col) + [ReportByte]));
    var seeded := Parser(ParseArgument, p.mouse, [], DigitValue(Format(row)[0]), CSIPrefix);
    CursorReportBody(p, row, col, ctx);
    assert Step(p.(state := CSI), digits[0], ctx) == Stepped(seeded, None) by {
      assert DigitOf(digits[0]) == DigitValue(Format(row)[0]);
    }
    FeedIntroducer(p, digits[0], seeded, rest, ctx);
    CursorReportSplit(row, col);
  }

  lemma CursorReportSplit(row: nat, col: nat)
    ensures CursorReport(row, col)
            == [EscByte, BracketByte, Digits(row)[0]] + (Digits(row)[1..] + ([SemicolonByte] + (Digits(col) + [ReportByte])))
  {
    var digits := Digits(row);
    assert digits == [digits[0]] + digits[1..];
  }

  /** Everything of a Cursor Position Report after the first digit of the row. */
  lemma CursorReportBody(p: Parser, row: nat, col: nat, ctx: Context)
    ensures var digits := Digits(row);
            var rest := digits[1..] + ([SemicolonByte] + (Digits(col) + [ReportByte]));
            var seeded := Parser(ParseArgument, p.mouse, [], DigitValue(Format(row)[0]), CSIPrefix);
            FeedDefined(seeded, rest, ctx)
            && Feed(seeded, rest, ctx)
               == Fed(Parser(ExpectByte, p.mouse, [row, col], col, CSIPrefix),
                      [Event(CursorPosition, ctx.display, 0, col, row, p.mouse)])
  {
    var q := Parser(ParseArgument, p.mouse, [row], 0, CSIPrefix);
    var s3 := Digits(col) + [ReportByte];
    var s2 := [SemicolonByte] + s3;
    var digits := Digits(row);
    var text := Format(row);
    var seeded := Parser(ParseArgument, p.mouse, [], DigitValue(text[0]), CSIPrefix);
    var p3 := seeded.(current := row);
    CursorReportTail(p, row, col, ctx);
    SeededDigits(p.mouse, row, ctx);
    FeedOne(p3, SemicolonByte, ctx);
    FeedSilent(p3, [SemicolonByte], q, s3, ctx);
    assert digits[1..] == Ascii(text[1..]);
    FeedSilent(seeded, digits[1..], p3, s2, ctx);
  }

  // ---- the size probe of getTerminalSize ----

  /** The bytes up to and including the first one that emits an event are all decodable. */
  predicate ProbeDefined(p: Parser, bytes: seq<byte>, ctx: Context)
    decreases |bytes|
  {
    |bytes| == 0
    || (StepDefined(p, bytes[0], ctx)
        && (Step(p, bytes[0], ctx).event.None? ==> ProbeDefined(Step(p, bytes[0], ctx).parser, bytes[1..], ctx)))
  }

  /** The first event the decoder emits on the input, if any. */
  function FirstEvent(p: Parser, bytes: seq<byte>, ctx: Context): Option<Event>
    requires ProbeDefined(p, bytes, ctx)
    decreases |bytes|
  {
    if |bytes| == 0 then None
    else
      var s := Step(p, bytes[0], ctx);
      if s.event.Some? then s.event else FirstEvent(s.parser, bytes[1..], ctx)
  }

  lemma {:induction false} FirstEventOfFeed(p: Parser, a: seq<byte>, ctx: Context)
    requires FeedDefined(p, a, ctx)
    ensures ProbeDefined(p, a, ctx)
    ensures FirstEvent(p, a, ctx) == (if |Feed(p, a, ctx).events| > 0 then Some(Feed(p, a, ctx).events[0]) else None)
    decreases |a|
  {
    if |a| > 0 {
      FirstEventOfFeed(Step(p, a[0], ctx).parser, a[1..], ctx);
    }
  }

  /** Bytes after the first event are never read. */
  lemma {:induction false} FirstEventIgnoresRest(p: Parser, a: seq<byte>, b: seq<byte>, ctx: Context)
    requires ProbeDefined(p, a, ctx) && FirstEvent(p, a, ctx).Some?
    ensures ProbeDefined(p, a + b, ctx) && FirstEvent(p, a + b, ctx) == FirstEvent(p, a, ctx)
    decreases |a|
  {
    assert (a + b)[0] == a[0];
    assert (a + b)[1..] == a[1..] + b;
    if Step(p, a[0], ctx).event.None? {
      FirstEventIgnoresRest(Step(p, a[0], ctx).parser, a[1..], b, ctx);
    }
  }

  /** The outcome of the size probe. "No reply" stands for input that ends before any event, where the source keeps waiting. */
  datatype Probe = Size(columns: nat, rows: nat) | WrongReply | NoReply

  /**
   * The answer of `getTerminalSize` after the cursor has been sent to the far
   * corner and its position requested: the first decoded event must be a
   * Cursor Position Report, read as (cursorX as u16, cursorY as u16).
   */
  function ProbeSize(bytes: seq<byte>): (r: Probe)
    requires ProbeDefined(Start, bytes, ProbeContext)
    ensures r.Size? ==> r.columns < U16Modulus && r.rows < U16Modulus
    ensures r.NoReply? <==> FirstEvent(Start, bytes, ProbeContext).None?
    ensures r.Size? <==> FirstEvent(Start, bytes, ProbeContext).Some? && FirstEvent(Start, bytes, ProbeContext).value.event == CursorPosition
  {
    match FirstEvent(Start, bytes, ProbeContext)
    case None => NoReply
    case Some(e) => if e.event == CursorPosition then Size(U16(e.cursorX), U16(e.cursorY)) else WrongReply
  }

  /** A reply `ESC [ rows ; cols R` gives (cols, rows), whatever follows it. */
  lemma ProbeReadsReport(rows: nat, cols: nat, rest: seq<byte>)
    requires rows < U16Modulus && cols < U16Modulus
    ensures ProbeDefined(Start, CursorReport(rows, cols) + rest, ProbeContext)
    ensures ProbeSize(CursorReport(rows, cols) + rest) == Size(cols, rows)
  {
    CursorPositionReport(Start, rows, cols, ProbeContext);
    FirstEventOfFeed(Start, CursorReport(rows, cols), ProbeContext);
    FirstEventIgnoresRest(Start, CursorReport(rows, cols), rest, ProbeContext);
  }

  /** A reply that starts with a printable byte is not a size. */
  lemma ProbeRejectsCharacter(b: byte, rest: seq<byte>)
    requires IsPrintable(b)
    ensures ProbeDefined(Start, [b] + rest, ProbeContext)
    ensures ProbeSize([b] + rest) == WrongReply
  {
    assert ([b] + rest)[0] == b;
  }

  /** The decoder's mutable state, updated in place as `nextState` does through `&mut self` and its `&mut` arguments. */
  class InputParser {
    var state: TTYState
    var mouseState: Flags
    var listOfParameters: seq<nat>
    var currentParameter: nat
    var parameterPrefix: TTYPrefix

    function Snapshot(): Parser
      reads this
    {
      Parser(state, mouseState, listOfParameters, currentParameter, parameterPrefix)
    }

    constructor ()
      ensures Snapshot() == Start
    {
      state := ExpectByte;
      mouseState := MouseNone;
      listOfParameters := [];
      currentParameter := 0;
      parameterPrefix := NoPrefix;
    }

    /** Consumes one byte and returns the event it completes, if any. */
    method NextState(b: byte, ctx: Context) returns (e: Option<Event>)
      requires StepDefined(Snapshot(), b, ctx)
      modifies this
      ensures Snapshot() == Step(old(Snapshot()), b, ctx).parser
      ensures e == Step(old(Snapshot()), b, ctx).event
    {
      match state {
        case ExpectByte => e := ExpectByteNext(b, ctx);
        case Escape => e := EscapeNext(b, ctx);
        case CSI => e := CSINext(b);
        case ParseArgument =>
          if (b == PressByte || b == ReleaseByte) && |listOfParameters| == 2 && parameterPrefix == MousePrefix {
            e := MouseReportNext(b, ctx);
          } else {
            e := ArgumentNext(b, ctx);
          }
      }
    }

    method ExpectByteNext(b: byte, ctx: Context) returns (e: Option<Event>)
      requires state == ExpectByte
      modifies this
      ensures Snapshot() == Step(old(Snapshot()), b, ctx).parser
      ensures e == Step(old(Snapshot()), b, ctx).event
    {
      e := None;
      if b == EscByte {
        state := TTYState.Escape;
      } else if IsPrintable(b) {
        e := Some(Event(Character(CharOf(b)), ctx.display, Focused(ctx), 0, 0, mouseState));
      }
    }

    method EscapeNext(b: byte, ctx: Context) returns (e: Option<Event>)
      requires state == TTYState.Escape
      modifies this
      ensures Snapshot() == Step(old(Snapshot()), b, ctx).parser
      ensures e == Step(old(Snapshot()), b, ctx).event
    {
      e := None;
      if IsDigitByte(b) {
        parameterPrefix := EscapePrefix;
        listOfParameters := [];
        currentParameter := DigitOf(b);
        state := ParseArgument;
      } else if b == BracketByte {
        state := CSI;
      } else {
        e := Some(Event(EventType.Escape, ctx.display, Focused(ctx), 0, 0, mouseState));
        if b != EscByte {
          state := ExpectByte;
        }
      }
    }

    method CSINext(b: byte) returns (e: Option<Event>)
      requires state == CSI
      modifies this
      ensures forall ctx :: Snapshot() == Step(old(Snapshot()), b, ctx).parser
      ensures forall ctx :: e == Step(old(Snapshot()), b, ctx).event
    {
      e := None;
      if IsDigitByte(b) {
        parameterPrefix := CSIPrefix;
        listOfParameters := [];
        currentParameter := DigitOf(b);
        state := ParseArgument;
      } else if b == LessByte {
        parameterPrefix := MousePrefix;
        listOfParameters := [];
        currentParameter := 0;
        state := ParseArgument;
      } else {
        state := ExpectByte;
      }
    }

    /** Digits, `;`, the Cursor Position Report terminator, and anything else that is not a mouse terminator. */
    method ArgumentNext(b: byte, ctx: Context) returns (e: Option<Event>)
      requires state == ParseArgument && !CompletesMouse(Snapshot(), b)
      modifies this
      ensures Snapshot() == Step(old(Snapshot()), b, ctx).parser
      ensures e == Step(old(Snapshot()), b, ctx).event
    {
      e := None;
      if IsDigitByte(b) {
        currentParameter := currentParameter * 10 + DigitOf(b);
      } else if b == SemicolonByte {
        listOfParameters := listOfParameters + [currentParameter];
        currentParameter := 0;
      } else if b == ReportByte && |listOfParameters| == 1 && parameterPrefix == CSIPrefix {
        listOfParameters := listOfParameters + [currentParameter];
        state := ExpectByte;
        e := Some(Event(CursorPosition, ctx.display, 0, listOfParameters[1], listOfParameters[0], mouseState));
      } else {
        state := ExpectByte;
      }
    }

    /** The terminator of an SGR mouse report: push the row, look up the frame, update the mask. */
    method MouseReportNext(b: byte, ctx: Context) returns (e: Option<Event>)
      requires CompletesMouse(Snapshot(), b) && StepDefined(Snapshot(), b, ctx)
      modifies this
      ensures Snapshot() == Step(old(Snapshot()), b, ctx).parser
      ensures e == Step(old(Snapshot()), b, ctx).event
    {
      ghost var before := Snapshot();
      assert Step(before, b, ctx) == MouseStep(before, b, ctx);
      listOfParameters := listOfParameters + [currentParameter];
      var frame := MouseFrame(listOfParameters[1], listOfParameters[2], ctx);
      var theEvent, mask := MouseButtons(b, listOfParameters[0], mouseState);
      mouseState := mask;
      state := ExpectByte;
      e := None;
      if theEvent.Some? {
        e := Some(Event(theEvent.value, ctx.display, frame,
                        listOfParameters[2] - 1, listOfParameters[1] - 1, mouseState));
      }
      assert Snapshot() == MouseStep(before, b, ctx).parser && e == MouseStep(before, b, ctx).event;
    }

  }

  /** The event kind and new mask of a mouse report, by final byte and button code. */
  method MouseButtons(final: byte, code: nat, mouse: Flags) returns (kind: Option<EventType>, mask: Flags)
    requires final == PressByte || final == ReleaseByte
    ensures var effect := MouseEffectOf(final, code, mouse);
            (effect.Some? <==> kind.Some?)
            && (effect.Some? ==> effect.value == MouseEffect(kind.value, mask))
            && (effect.None? ==> mask == mouse)
  {
    if final == PressByte {
      kind, mask := PressButton(code, mouse);
    } else {
      kind, mask := ReleaseButton(code, mouse);
    }
  }

  /** The press and motion codes of an `M` report: sets the pressed button's bit. */
  method PressButton(code: nat, mouse: Flags) returns (kind: Option<EventType>, mask: Flags)
    ensures kind == PressKind(code) && mask == PressedMask(code, mouse)
  {
    mask := mouse;
    kind := None;
    match code {
      case 0 => mask := mask | LeftDown; kind := Some(MouseLeftButtonPressed);
      case 1 => mask := mask | MiddleDown; kind := Some(MouseMiddleButtonPressed);
      case 2 => mask := mask | RightDown; kind := Some(MouseRightButtonPressed);
      case 32 => kind := Some(MouseMoveWithLeftButton);
      case 33 => kind := Some(MouseMoveWithMiddleButton);
      case 34 => kind := Some(MouseMoveWithRightButton);
      case 35 => kind := Some(MouseOver);
      case 64 => kind := Some(MouseWheelUp);
      case 65 => kind := Some(MouseWheelDown);
      case _ =>
    }
  }

  /** The release codes of an `m` report: clears the released button's bit. */
  method ReleaseButton(code: nat, mouse: Flags) returns (kind: Option<EventType>, mask: Flags)
    ensures kind == ReleaseKind(code) && mask == ReleasedMask(code, mouse)
  {
    mask := mouse;
    kind := None;
    match code {
      case 0 => mask := mask & Complement(LeftDown); kind := Some(MouseLeftButtonReleased);
      case 1 => mask := mask & Complement(MiddleDown); kind := Some(MouseMiddleButtonReleased);
      case 2 => mask := mask & Complement(RightDown); kind := Some(MouseRightButtonReleased);
      case _ =>
    }
  }

  /**
   * The reply loop of `getTerminalSize`: feeds bytes to a fresh decoder until
   * it returns an event, then accepts only a Cursor Position Report.
   */
  method GetTerminalSize(input: seq<byte>) returns (r: Probe)
    requires ProbeDefined(Start, input, ProbeContext)
    ensures r == ProbeSize(input)
  {
    var parser := new InputParser();
    var returnValue: Option<Event> := None;
    var i := 0;
    while returnValue.None? && i < |input|
      invariant 0 <= i <= |input|
      invariant returnValue.None? ==>
                  ProbeDefined(parser.Snapshot(), input[i..], ProbeContext)
                  && FirstEvent(Start, input, ProbeContext) == FirstEvent(parser.Snapshot(), input[i..], ProbeContext)
      invariant returnValue.Some? ==> FirstEvent(Start, input, ProbeContext) == returnValue
      decreases |input| - i
    {
      assert input[i..][0] == input[i] && input[i..][1..] == input[i + 1..];
      returnValue := parser.NextState(input[i], ProbeContext);
      i := i + 1;
    }
    if returnValue.None? {
      r := NoReply;
    } else if returnValue.value.event == CursorPosition {
      r := Size(U16(returnValue.value.cursorX), U16(returnValue.value.cursorY));
    } else {
      r := WrongReply;
    }
  }
}
