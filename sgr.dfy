/**
 * The Select Graphic Rendition parameters (SGR, ECMA-48 section 8.3.117) that
 * drawEditorFrame in src/display/tty.rs writes before each styled word: the
 * colour codes of both planes and the style codes of the font and the flags.
 */
module Sgr {
  import opened Wrappers
  import opened Events
  import opened Styles
  import opened Decimal
  import opened Seqs

  /**
   * The foreground SGR parameters of a colour, as drawEditorFrame's match
   * lists them; "" for an out-of-range palette colour.
   */
  function FgTable(c: Colour): string {
    match c
    case RGB(r, g, b) => "38;2;" + (Format(r as nat) + (";" + (Format(g as nat) + (";" + Format(b as nat)))))
    case Standard(k) => if k < 8 then "38;5;" + Format(k as nat) else ""
    case Bright(k) => if k < 8 then "38;5;" + Format(k as nat + 8) else ""
    case Cube(r, g, b) =>
      if r < 6 && g < 6 && b < 6 then "38;5;" + Format(16 + 36 * r as nat + 6 * g as nat + b as nat) else ""
    case Grey(k) => if k < 24 then "38;5;" + Format(k as nat + 232) else ""
    case Default => "39"
    case Black => "30"
    case Red => "31"
    case Green => "32"
    case Brown => "33"
    case Blue => "34"
    case Purple => "35"
    case Cyan => "36"
    case LightGrey => "37"
    case DarkGrey => "1;30"
    case LightRed => "1;31"
    case LightGreen => "1;32"
    case Yellow => "1;33"
    case LightBlue => "1;34"
    case LightPurple => "1;35"
    case LightCyan => "1;36"
    case White => "1;37"
    case FaintBlack => "2;30"
    case FaintRed => "2;31"
    case FaintGreen => "2;32"
    case FaintYellow => "2;33"
    case FaintBlue => "2;34"
    case FaintPurple => "2;35"
    case FaintCyan => "2;36"
    case FaintWhite => "2;37"
    case BrightBlack => "90"
    case BrightRed => "91"
    case BrightGreen => "92"
    case BrightYellow => "93"
    case BrightBlue => "94"
    case BrightPurple => "95"
    case BrightCyan => "96"
    case BrightWhite => "97"
  }

  /** The background SGR parameters of a colour; "" for an out-of-range palette colour. */
  function BgTable(c: Colour): string {
    match c
    case RGB(r, g, b) => "48;2;" + (Format(r as nat) + (";" + (Format(g as nat) + (";" + Format(b as nat)))))
    case Standard(k) => if k < 8 then "48;5;" + Format(k as nat) else ""
    case Bright(k) => if k < 8 then "48;5;" + Format(k as nat + 8) else ""
    case Cube(r, g, b) =>
      if r < 6 && g < 6 && b < 6 then "48;5;" + Format(16 + 36 * r as nat + 6 * g as nat + b as nat) else ""
    case Grey(k) => if k < 24 then "48;5;" + Format(k as nat + 232) else ""
    case Default => "49"
    case Black => "40"
    case Red => "41"
    case Green => "42"
    case Brown => "43"
    case Blue => "44"
    case Purple => "45"
    case Cyan => "46"
    case LightGrey => "47"
    case DarkGrey => "1;40"
    case LightRed => "1;41"
    case LightGreen => "1;42"
    case Yellow => "1;43"
    case LightBlue => "1;44"
    case LightPurple => "1;45"
    case LightCyan => "1;46"
    case White => "1;47"
    case FaintBlack => "2;40"
    case FaintRed => "2;41"
    case FaintGreen => "2;42"
    case FaintYellow => "2;43"
    case FaintBlue => "2;44"
    case FaintPurple => "2;45"
    case FaintCyan => "2;46"
    case FaintWhite => "2;47"
    case BrightBlack => "100"
    case BrightRed => "101"
    case BrightGreen => "102"
    case BrightYellow => "103"
    case BrightBlue => "104"
    case BrightPurple => "105"
    case BrightCyan => "106"
    case BrightWhite => "107"
  }

  /** The style flags in the order drawEditorFrame tests them, with their SGR parameters. */
  const StyleCodes: seq<(Flags, nat)> := [
    (Italic, 3), (Underline, 4), (SlowBlink, 5), (RapidBlink, 6),
    (Inverse, 7), (Conceal, 8), (CrossedOut, 9), (Fraktur, 20),
    (DoubleUnderline, 21), (Framed, 51), (Encircled, 52), (Overlined, 53)]

  /** Fonts 1-9 select SGR 11-19 (alternative fonts); any other font selects nothing. */
  function FontCode(font: byte): string {
    if 0 < font < 10 then Format(font as nat + 10) + ";" else ""
  }

  /** "code;" when the entry's flag is set. */
  function FlagCode(flags: Flags, entry: (Flags, nat)): string {
    if flags & entry.0 != 0 then Format(entry.1) + ";" else ""
  }

  /** One "code;" for each table entry whose flag is set, in table order. */
  function FlagCodes(flags: Flags, codes: seq<(Flags, nat)>): string
    decreases |codes|
  {
    if |codes| == 0 then ""
    else FlagCodes(flags, codes[..|codes| - 1]) + FlagCode(flags, codes[|codes| - 1])
  }

  /** The style part of a word's SGR sequence. */
  function StylePrefix(font: byte, flags: Flags): string {
    FontCode(font) + FlagCodes(flags, StyleCodes)
  }

  /**
   * The index a palette colour selects in the xterm 256-colour table:
   * 0-7 standard, 8-15 bright, 16-231 the 6x6x6 cube, 232-255 the grey ramp.
   * None when a component is out of range.
   */
  function PaletteIndex(c: Colour): (r: Option<nat>)
    ensures r.Some? ==> r.value < 256
  {
    match c
    case Standard(k) => if k < 8 then Some(k as nat) else None
    case Bright(k) => if k < 8 then Some(k as nat + 8) else None
    case Cube(red, green, blue) =>
      if red < 6 && green < 6 && blue < 6 then Some(16 + 36 * red as nat + 6 * green as nat + blue as nat) else None
    case Grey(k) => if k < 24 then Some(k as nat + 232) else None
    case _ => None
  }

  /**
   * Where a named colour sits among the sixteen-colour SGR selectors:
   * (intensity, block, hue). Block 30 with intensity 0 (no leading
   * parameter) is normal, 1 bold, 2 faint; block 90 is the bright range. Hues run black, red,
   * green, yellow, blue, magenta, cyan, white.
   */
  function NamedPosition(c: Colour): Option<(nat, nat, nat)> {
    match c
    case Black => Some((0, 30, 0))
    case Red => Some((0, 30, 1))
    case Green => Some((0, 30, 2))
    case Brown => Some((0, 30, 3))
    case Blue => Some((0, 30, 4))
    case Purple => Some((0, 30, 5))
    case Cyan => Some((0, 30, 6))
    case LightGrey => Some((0, 30, 7))
    case DarkGrey => Some((1, 30, 0))
    case LightRed => Some((1, 30, 1))
    case LightGreen => Some((1, 30, 2))
    case Yellow => Some((1, 30, 3))
    case LightBlue => Some((1, 30, 4))
    case LightPurple => Some((1, 30, 5))
    case LightCyan => Some((1, 30, 6))
    case White => Some((1, 30, 7))
    case BrightBlack => Some((0, 90, 0))
    case BrightRed => Some((0, 90, 1))
    case BrightGreen => Some((0, 90, 2))
    case BrightYellow => Some((0, 90, 3))
    case BrightBlue => Some((0, 90, 4))
    case BrightPurple => Some((0, 90, 5))
    case BrightCyan => Some((0, 90, 6))
    case BrightWhite => Some((0, 90, 7))
    case FaintBlack => Some((2, 30, 0))
    case FaintRed => Some((2, 30, 1))
    case FaintGreen => Some((2, 30, 2))
    case FaintYellow => Some((2, 30, 3))
    case FaintBlue => Some((2, 30, 4))
    case FaintPurple => Some((2, 30, 5))
    case FaintCyan => Some((2, 30, 6))
    case FaintWhite => Some((2, 30, 7))
    case _ => None
  }

  /**
   * An SGR colour selection. Basic selects one of the sixteen colours or the
   * default (selector 30-39 or 90-97, with an optional leading intensity 1 or
   * 2); Extended is selector 38 followed by form 2 (direct colour, three
   * components) or form 5 (an index into the 256-colour table). The
   * background selector is the foreground one plus 10.
   */
  datatype ColourSelect = Basic(intensity: nat, selector: nat) | Extended(form: nat, args: seq<nat>)

  /** The selection a colour stands for, built from its palette index or its position. */
  function Selection(c: Colour): Option<ColourSelect> {
    if c.RGB? then Some(Extended(2, [c.red as nat, c.green as nat, c.blue as nat]))
    else if c.Default? then Some(Basic(0, 39))
    else if PaletteIndex(c).Some? then Some(Extended(5, [PaletteIndex(c).value]))
    else if NamedPosition(c).Some? then
      var (intensity, block, hue) := NamedPosition(c).value;
      Some(Basic(intensity, block + hue))
    else None
  }

  /** Numbers separated by ';'. */
  function Params(ns: seq<nat>): (s: string)
    ensures |ns| >= 1 ==> |s| >= 1
    decreases |ns|
  {
    if |ns| == 0 then ""
    else if |ns| == 1 then Format(ns[0])
    else Format(ns[0]) + (";" + Params(ns[1..]))
  }

  /** The parameters of a selection on a plane: 0 for the foreground, 10 for the background. */
  function Render(s: Option<ColourSelect>, plane: nat): (r: string)
    ensures s.Some? ==> |r| >= 1
  {
    match s
    case None => ""
    case Some(Basic(intensity, selector)) =>
      (if intensity == 0 then "" else Format(intensity) + ";") + Format(selector + plane)
    case Some(Extended(form, args)) => Format(38 + plane) + (";" + Params([form] + args))
  }

  lemma ParamsCons(n: nat, ns: seq<nat>)
    requires |ns| >= 1
    ensures Params([n] + ns) == Format(n) + (";" + Params(ns))
  {
    assert ([n] + ns)[1..] == ns;
  }

  lemma SmallFormat(n: nat)
    requires n < 1000
    ensures n < 10 ==> Format(n) == [DigitChar(n)]
    ensures 10 <= n < 100 ==> Format(n) == [DigitChar(n / 10), DigitChar(n % 10)]
    ensures 100 <= n ==> Format(n) == [DigitChar(n / 100), DigitChar((n / 10) % 10), DigitChar(n % 10)]
  {
  }

  lemma RgbParams(r: nat, g: nat, b: nat)
    ensures Params([2] + [r, g, b]) == Format(2) + (";" + (Format(r) + (";" + (Format(g) + (";" + Format(b))))))
  {
    assert [2] + [r, g, b] == [2] + ([r] + ([g] + [b]));
    ParamsCons(g, [b]);
    ParamsCons(r, [g] + [b]);
    ParamsCons(2, [r] + ([g] + [b]));
  }

  lemma PaletteParams(i: nat)
    ensures Params([5] + [i]) == Format(5) + (";" + Format(i))
  {
    ParamsCons(5, [i]);
  }

  // The entries of the named colours follow the rule, two hues of one block at a time.

  lemma NormalHues01Tables(c: Colour)
    requires c.Black? || c.Red?
    ensures FgTable(c) == Render(Selection(c), 0)
    ensures BgTable(c) == Render(Selection(c), 10)
  {
    match c
    case Black => SmallFormat(30); SmallFormat(40);
    case Red => SmallFormat(31); SmallFormat(41);
    case _ =>
  }

  lemma NormalHues23Tables(c: Colour)
    requires c.Green? || c.Brown?
    ensures FgTable(c) == Render(Selection(c), 0)
    ensures BgTable(c) == Render(Selection(c), 10)
  {
    match c
    case Green => SmallFormat(32); SmallFormat(42);
    case Brown => SmallFormat(33); SmallFormat(43);
    case _ =>
  }

  lemma NormalHues45Tables(c: Colour)
    requires c.Blue? || c.Purple?
    ensures FgTable(c) == Render(Selection(c), 0)
    ensures BgTable(c) == Render(Selection(c), 10)
  {
    match c
    case Blue => SmallFormat(34); SmallFormat(44);
    case Purple => SmallFormat(35); SmallFormat(45);
    case _ =>
  }

  lemma NormalHues67Tables(c: Colour)
    requires c.Cyan? || c.LightGrey?
    ensures FgTable(c) == Render(Selection(c), 0)
    ensures BgTable(c) == Render(Selection(c), 10)
  {
    match c
    case Cyan => SmallFormat(36); SmallFormat(46);
    case LightGrey => SmallFormat(37); SmallFormat(47);
    case _ =>
  }

  lemma BoldHues01Tables(c: Colour)
    requires c.DarkGrey? || c.LightRed?
    ensures FgTable(c) == Render(Selection(c), 0)
    ensures BgTable(c) == Render(Selection(c), 10)
  {
    match c
    case DarkGrey => SmallFormat(30); SmallFormat(40);
    case LightRed => SmallFormat(31); SmallFormat(41);
    case _ =>
  }

  lemma BoldHues23Tables(c: Colour)
    requires c.LightGreen? || c.Yellow?
    ensures FgTable(c) == Render(Selection(c), 0)
    ensures BgTable(c) == Render(Selection(c), 10)
  {
    match c
    case LightGreen => SmallFormat(32); SmallFormat(42);
    case Yellow => SmallFormat(33); SmallFormat(43);
    case _ =>
  }

  lemma BoldHues45Tables(c: Colour)
    requires c.LightBlue? || c.LightPurple?
    ensures FgTable(c) == Render(Selection(c), 0)
    ensures BgTable(c) == Render(Selection(c), 10)
  {
    match c
    case LightBlue => SmallFormat(34); SmallFormat(44);
    case LightPurple => SmallFormat(35); SmallFormat(45);
    case _ =>
  }

  lemma BoldHues67Tables(c: Colour)
    requires c.LightCyan? || c.White?
    ensures FgTable(c) == Render(Selection(c), 0)
    ensures BgTable(c) == Render(Selection(c), 10)
  {
    match c
    case LightCyan => SmallFormat(36); SmallFormat(46);
    case White => SmallFormat(37); SmallFormat(47);
    case _ =>
  }

  lemma BrightHues01Tables(c: Colour)
    requires c.BrightBlack? || c.BrightRed?
    ensures FgTable(c) == Render(Selection(c), 0)
    ensures BgTable(c) == Render(Selection(c), 10)
  {
    match c
    case BrightBlack => SmallFormat(90); SmallFormat(100);
    case BrightRed => SmallFormat(91); SmallFormat(101);
    case _ =>
  }

  lemma BrightHues23Tables(c: Colour)
    requires c.BrightGreen? || c.BrightYellow?
    ensures FgTable(c) == Render(Selection(c), 0)
    ensures BgTable(c) == Render(Selection(c), 10)
  {
    match c
    case BrightGreen => SmallFormat(92); SmallFormat(102);
    case BrightYellow => SmallFormat(93); SmallFormat(103);
    case _ =>
  }

  lemma BrightHues45Tables(c: Colour)
    requires c.BrightBlue? || c.BrightPurple?
    ensures FgTable(c) == Render(Selection(c), 0)
    ensures BgTable(c) == Render(Selection(c), 10)
  {
    match c
    case BrightBlue => SmallFormat(94); SmallFormat(104);
    case BrightPurple => SmallFormat(95); SmallFormat(105);
    case _ =>
  }

  lemma BrightHues67Tables(c: Colour)
    requires c.BrightCyan? || c.BrightWhite?
    ensures FgTable(c) == Render(Selection(c), 0)
    ensures BgTable(c) == Render(Selection(c), 10)
  {
    match c
    case BrightCyan => SmallFormat(96); SmallFormat(106);
    case BrightWhite => SmallFormat(97); SmallFormat(107);
    case _ =>
  }

  lemma FaintHues01Tables(c: Colour)
    requires c.FaintBlack? || c.FaintRed?
    ensures FgTable(c) == Render(Selection(c), 0)
    ensures BgTable(c) == Render(Selection(c), 10)
  {
    match c
    case FaintBlack => SmallFormat(30); SmallFormat(40);
    case FaintRed => SmallFormat(31); SmallFormat(41);
    case _ =>
  }

  lemma FaintHues23Tables(c: Colour)
    requires c.FaintGreen? || c.FaintYellow?
    ensures FgTable(c) == Render(Selection(c), 0)
    ensures BgTable(c) == Render(Selection(c), 10)
  {
    match c
    case FaintGreen => SmallFormat(32); SmallFormat(42);
    case FaintYellow => SmallFormat(33); SmallFormat(43);
    case _ =>
  }

  lemma FaintHues45Tables(c: Colour)
    requires c.FaintBlue? || c.FaintPurple?
    ensures FgTable(c) == Render(Selection(c), 0)
    ensures BgTable(c) == Render(Selection(c), 10)
  {
    match c
    case FaintBlue => SmallFormat(34); SmallFormat(44);
    case FaintPurple => SmallFormat(35); SmallFormat(45);
    case _ =>
  }

  lemma FaintHues67Tables(c: Colour)
    requires c.FaintCyan? || c.FaintWhite?
    ensures FgTable(c) == Render(Selection(c), 0)
    ensures BgTable(c) == Render(Selection(c), 10)
  {
    match c
    case FaintCyan => SmallFormat(36); SmallFormat(46);
    case FaintWhite => SmallFormat(37); SmallFormat(47);
    case _ =>
  }

  lemma NamedTables(c: Colour)
    requires NamedPosition(c).Some?
    ensures FgTable(c) == Render(Selection(c), 0)
    ensures BgTable(c) == Render(Selection(c), 10)
  {
    match c
    case Black | Red => NormalHues01Tables(c);
    case Green | Brown => NormalHues23Tables(c);
    case Blue | Purple => NormalHues45Tables(c);
    case Cyan | LightGrey => NormalHues67Tables(c);
    case DarkGrey | LightRed => BoldHues01Tables(c);
    case LightGreen | Yellow => BoldHues23Tables(c);
    case LightBlue | LightPurple => BoldHues45Tables(c);
    case LightCyan | White => BoldHues67Tables(c);
    case BrightBlack | BrightRed => BrightHues01Tables(c);
    case BrightGreen | BrightYellow => BrightHues23Tables(c);
    case BrightBlue | BrightPurple => BrightHues45Tables(c);
    case BrightCyan | BrightWhite => BrightHues67Tables(c);
    case FaintBlack | FaintRed => FaintHues01Tables(c);
    case FaintGreen | FaintYellow => FaintHues23Tables(c);
    case FaintBlue | FaintPurple => FaintHues45Tables(c);
    case FaintCyan | FaintWhite => FaintHues67Tables(c);
  }

  lemma RgbTables(c: Colour)
    requires c.RGB?
    ensures FgTable(c) == Render(Selection(c), 0)
    ensures BgTable(c) == Render(Selection(c), 10)
  {
    RgbRender(c.red as nat, c.green as nat, c.blue as nat);
  }

  /** The rule writes a direct colour as selector 38 or 48, form 2 and the three components. */
  lemma RgbRender(r: nat, g: nat, b: nat)
    ensures Render(Some(Extended(2, [r, g, b])), 0) == "38;2;" + (Format(r) + (";" + (Format(g) + (";" + Format(b)))))
    ensures Render(Some(Extended(2, [r, g, b])), 10) == "48;2;" + (Format(r) + (";" + (Format(g) + (";" + Format(b)))))
  {
    var rest := Format(r) + (";" + (Format(g) + (";" + Format(b))));
    assert Format(38) == "38" && Format(48) == "48" && Format(2) == "2";
    RgbParams(r, g, b);
    LiteralPrefix("38", "2", rest);
    assert "38" + ";" + "2" + ";" == "38;2;";
    LiteralPrefix("48", "2", rest);
    assert "48" + ";" + "2" + ";" == "48;2;";
  }

  /** A selector, a form and what follows them, separated by ';'. */
  lemma LiteralPrefix(selector: string, form: string, rest: string)
    ensures selector + (";" + (form + (";" + rest))) == (selector + ";" + form + ";") + rest
  {
  }

  /** Both tables write a palette colour as form 5 and its index. */
  lemma PaletteCodes(c: Colour)
    requires PaletteIndex(c).Some?
    ensures FgTable(c) == "38;5;" + Format(PaletteIndex(c).value)
    ensures BgTable(c) == "48;5;" + Format(PaletteIndex(c).value)
  {
    match c
    case Standard(_) =>
    case Bright(_) =>
    case Cube(_, _, _) =>
    case Grey(_) =>
  }

  lemma PaletteTables(c: Colour)
    requires PaletteIndex(c).Some?
    ensures FgTable(c) == Render(Selection(c), 0)
    ensures BgTable(c) == Render(Selection(c), 10)
  {
    var i := PaletteIndex(c).value;
    assert Selection(c) == Some(Extended(5, [i]));
    PaletteCodes(c);
    PaletteRender(i);
  }

  /** Form 5 with index i renders as 38;5;i on the foreground and 48;5;i on the background. */
  lemma PaletteRender(i: nat)
    ensures Render(Some(Extended(5, [i])), 0) == "38;5;" + Format(i)
    ensures Render(Some(Extended(5, [i])), 10) == "48;5;" + Format(i)
  {
    SmallFormat(38);
    SmallFormat(48);
    SmallFormat(5);
    PaletteParams(i);
  }

  /** The two colour tables follow one rule: the background code is the foreground code with its selector plus 10. */
  lemma ColourTables(c: Colour)
    ensures FgTable(c) == Render(Selection(c), 0)
    ensures BgTable(c) == Render(Selection(c), 10)
  {
    if c.RGB? {
      RgbTables(c);
    } else if PaletteIndex(c).Some? {
      PaletteTables(c);
    } else if NamedPosition(c).Some? {
      NamedTables(c);
    } else if c.Default? {
      SmallFormat(39);
      SmallFormat(49);
    }
  }

  /** The SGR parameters of a colour on the foreground plane, by the rule the tables follow. */
  function FgCode(c: Colour): string {
    Render(Selection(c), 0)
  }

  /** The same on the background plane. */
  function BgCode(c: Colour): string {
    Render(Selection(c), 10)
  }

  /** A colour whose foreground code is empty has an empty background code, and the other way round. */
  lemma EmptyCodes(c: Colour)
    ensures FgTable(c) == "" <==> Selection(c).None?
    ensures BgTable(c) == "" <==> Selection(c).None?
  {
    ColourTables(c);
    RenderEmpty(Selection(c), 0);
    RenderEmpty(Selection(c), 10);
  }

  lemma RenderEmpty(s: Option<ColourSelect>, plane: nat)
    ensures Render(s, plane) == "" <==> s.None?
  {
  }

  /** Distinct in-range palette colours select distinct entries of the 256-colour table. */
  lemma PaletteIndexInjective(c: Colour, d: Colour)
    requires PaletteIndex(c).Some? && PaletteIndex(c) == PaletteIndex(d)
    ensures c == d
  {
    if c.Cube? && d.Cube? {
      var i := PaletteIndex(c).value - 16;
      assert c.red as nat == i / 36 == d.red as nat;
      assert c.green as nat == (i % 36) / 6 == d.green as nat;
      assert c.blue as nat == i % 6 == d.blue as nat;
    }
  }

  /** The blocks of the 256-colour table: standard, bright, cube and grey colours never share an index. */
  lemma PaletteBlocks(c: Colour)
    requires PaletteIndex(c).Some?
    ensures c.Standard? <==> PaletteIndex(c).value < 8
    ensures c.Bright? <==> 8 <= PaletteIndex(c).value < 16
    ensures c.Cube? <==> 16 <= PaletteIndex(c).value < 232
    ensures c.Grey? <==> 232 <= PaletteIndex(c).value
  {
  }

  lemma StyleStep(flags: Flags, k: nat, bit: Flags, code: nat, text: string, start: string, before: string, after: string)
    requires k < |StyleCodes| && StyleCodes[k] == (bit, code) && text == Format(code) + ";"
    requires before == start + FlagCodes(flags, StyleCodes[..k])
    requires after == before + (if flags & bit != 0 then text else "")
    ensures after == start + FlagCodes(flags, StyleCodes[..k + 1])
  {
    FlagCodesStep(flags, k);
    Assoc(start, FlagCodes(flags, StyleCodes[..k]), FlagCode(flags, StyleCodes[k]));
  }

  /** Appending the next table entry's code extends the codes of the table's prefix. */
  lemma FlagCodesStep(flags: Flags, k: nat)
    requires k < |StyleCodes|
    ensures FlagCodes(flags, StyleCodes[..k + 1]) == FlagCodes(flags, StyleCodes[..k]) + FlagCode(flags, StyleCodes[k])
  {
    assert StyleCodes[..k + 1][..k] == StyleCodes[..k];
  }

  /**
   * The style string of a word, built as drawEditorFrame builds it: the font
   * selector, then one test per style flag, in the order of the table.
   */
  method BuildStyle(font: byte, flags: Flags) returns (style: string)
    ensures style == StylePrefix(font, flags)
  {
    style := "";
    if 0 < font < 10 { style := Format(font as nat + 10) + ";"; }
    ghost var start := style;
    assert StyleCodes[..0] == [];
    for k := 0 to |StyleCodes|
      invariant style == start + FlagCodes(flags, StyleCodes[..k])
    {
      var (bit, code) := StyleCodes[k];
      ghost var before := style;
      if flags & bit != 0 { style := style + (Format(code) + ";"); }
      StyleStep(flags, k, bit, code, Format(code) + ";", start, before, style);
    }
    assert StyleCodes[..|StyleCodes|] == StyleCodes;
  }
}
