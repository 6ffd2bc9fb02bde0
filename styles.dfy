/** Text styles, colours and styled tokens of the editor frame (src/frame/style.rs). */
module Styles {
  import opened Events

  // The Style bit flags.
  const StyleNone: Flags := 0
  const Italic: Flags := 0x1
  const Underline: Flags := 0x2
  const SlowBlink: Flags := 0x4
  const RapidBlink: Flags := 0x8
  const Inverse: Flags := 0x10
  const Conceal: Flags := 0x20
  const CrossedOut: Flags := 0x40
  const Fraktur: Flags := 0x80
  const DoubleUnderline: Flags := 0x100
  const Framed: Flags := 0x200
  const Encircled: Flags := 0x400
  const Overlined: Flags := 0x800

  /**
   * A terminal colour. RGB components are 0-255; Standard and Bright are meant
   * to be 0-7, Cube components 0-5 and Grey 0-23, but nothing enforces that.
   */
  datatype Colour =
    | Default
    | RGB(red: byte, green: byte, blue: byte)
    | Standard(colour: byte)
    | Bright(colour: byte)
    | Cube(red: byte, green: byte, blue: byte)
    | Grey(colour: byte)
    | Black | Red | Green | Brown | Blue | Purple | Cyan | LightGrey
    | DarkGrey | LightRed | LightGreen | Yellow | LightBlue | LightPurple | LightCyan | White
    | BrightBlack | BrightRed | BrightGreen | BrightYellow | BrightBlue | BrightPurple | BrightCyan | BrightWhite
    | FaintBlack | FaintRed | FaintGreen | FaintYellow | FaintBlue | FaintPurple | FaintCyan | FaintWhite

  datatype StyledToken = StyledToken(
    word: string,
    flags: Flags,
    font: byte,
    fgColour: Colour,
    bgColour: Colour)

  /** `StyledToken::new`: every argument lands in the field of the same name. */
  function NewStyledToken(word: string, flags: Flags, font: byte, fgColour: Colour, bgColour: Colour): (t: StyledToken)
    ensures t.word == word && t.flags == flags && t.font == font
    ensures t.fgColour == fgColour && t.bgColour == bgColour
  {
    StyledToken(word, flags, font, fgColour, bgColour)
  }
}
