/**
 * The output side of the TTY backend (src/display/tty.rs): cursor
 * positioning, the leaf renderers of status, text and editor frames, and the
 * switching of the terminal on and off. The backend's output stream is kept
 * as the sequence of strings handed to `write!`, in order; what the terminal
 * receives is their concatenation (Seqs.Flatten). Each renderer is specified
 * by a pure function giving the writes it makes.
 */
module Tty {
  import opened Styles
  import opened Frames
  import opened Decimal
  import opened Numeric
  import opened Seqs
  import opened Sgr

  const Esc: char := '\U{1B}'
  const Bel: char := '\U{7}'

  /** The Control Sequence Introducer, ESC [. */
  const Csi: string := [Esc, '[']

  /** SGR 0: reset every rendition attribute. */
  const SgrReset: string := Csi + "0m"

  /** CUP (ECMA-48 section 8.3.21): move the cursor to a 1-based row and column. */
  function Cup(row: nat, col: nat): string {
    Csi + Format(row) + ";" + Format(col) + "H"
  }

  /** `c.to_string().repeat(n)`. */
  function Repeat(c: char, n: nat): (s: string)
    ensures |s| == n
    ensures forall i :: 0 <= i < n ==> s[i] == c
  {
    seq(n, _ => c)
  }

  /**
   * The characters that a loop writing each character of s, and stopping at
   * the first ESC, writes: the longest prefix of s without ESC.
   */
  function UntilEscape(s: string): (r: string)
    ensures |r| <= |s| && r == s[..|r|]
    ensures Esc !in r
    ensures |r| < |s| ==> s[|r|] == Esc
  {
    if |s| == 0 || s[0] == Esc then [] else [s[0]] + UntilEscape(s[1..])
  }

  /** The three properties of UntilEscape determine it: any ESC-free prefix ending at an ESC or at the end is it. */
  lemma UntilEscapeUnique(s: string, n: nat)
    requires n <= |s| && Esc !in s[..n]
    requires n == |s| || s[n] == Esc
    ensures UntilEscape(s) == s[..n]
  {
    var r := UntilEscape(s);
    forall k | 0 <= k < n
      ensures s[k] != Esc
    {
      assert s[..n][k] == s[k];
    }
    forall k | 0 <= k < |r|
      ensures s[k] != Esc
    {
      assert r[k] == s[k];
    }
    assert |r| == n;
  }

  /**
   * The characters of one line that a leaf renderer shows: at most take of
   * them, from position skip on, and never an ESC, so that a line's text
   * cannot start a control sequence of its own.
   */
  function Visible(s: string, skip: nat, take: nat): (r: string)
    ensures |r| <= take && Esc !in r
    ensures forall i :: 0 <= i < |r| ==> skip + i < |s| && r[i] == s[skip + i]
  {
    UntilEscape(Window(s, skip, take))
  }

  /** A negative frame offset shifts the text right by its magnitude ... */
  function Shift(offs: int): nat {
    if offs < 0 then -offs else 0
  }

  /** ... and a non-negative one skips that many characters or lines. */
  function Skip(offs: int): nat {
    if offs < 0 then 0 else offs
  }

  /** `write!("{}", c)` for each character of s: one write per character. */
  function Chars(s: string): (w: seq<string>)
    ensures |w| == |s|
    decreases |s|
  {
    if |s| == 0 then [] else Chars(s[..|s| - 1]) + [[s[|s| - 1]]]
  }

  /** Writing the characters one at a time puts exactly s on the stream. */
  lemma {:induction false} FlattenChars(s: string)
    ensures Flatten(Chars(s)) == s
    decreases |s|
  {
    if |s| > 0 {
      var n := |s| - 1;
      assert Chars(s)[..n] == Chars(s[..n]);
      FlattenChars(s[..n]);
      assert s[..n] + [s[n]] == s;
    }
  }

  // ---------------------------------------------------------------------
  // Status frames
  // ---------------------------------------------------------------------

  /**
   * The text part of drawStatusFrame: unless the shift pushes it out of the
   * box, a CUP to the shifted column and the visible characters of the text.
   * The text window is lenX wide whatever the shift, as in the source.
   */
  function StatusText(f: StatusFrame, lenX: nat, minX: nat, minY: nat, cutX: nat): seq<string> {
    StatusTextAt(Cup(U16(minY + 1), U16(minX + 1 + Shift(f.offs))), f, lenX, cutX)
  }

  /** The text part once the cursor movement cup to its start is known. */
  function StatusTextAt(cup: string, f: StatusFrame, lenX: nat, cutX: nat): seq<string> {
    if Shift(f.offs) < lenX then [cup] + Chars(Visible(f.text, Skip(f.offs) + cutX, lenX)) else []
  }

  /** What drawStatusFrame writes: one row of lenX background characters at (minY + 1, minX + 1), then the text. */
  function StatusWrites(f: StatusFrame, lenX: nat, lenY: nat, minX: nat, minY: nat,
                        maxX: nat, maxY: nat, cutX: nat, cutY: nat): seq<string>
  {
    [Cup(U16(minY + 1), U16(minX + 1)) + Repeat(f.bgChar, lenX)] + StatusText(f, lenX, minX, minY, cutX)
  }

  /**
   * What a status frame puts on the stream, whatever the two cursor
   * movements home and cup are (StatusWrites uses the CUPs to the box and to
   * the shifted text): the blank row, then, when the shift leaves room, at
   * most lenX characters of the text, none of them an ESC, starting at
   * character Skip(offs) + cutX.
   */
  lemma StatusStream(f: StatusFrame, lenX: nat, cutX: nat, home: string, cup: string)
    ensures Flatten([home + Repeat(f.bgChar, lenX)] + StatusTextAt(cup, f, lenX, cutX))
      == home + Repeat(f.bgChar, lenX)
         + (if Shift(f.offs) < lenX then cup + Visible(f.text, Skip(f.offs) + cutX, lenX) else "")
  {
    var row := home + Repeat(f.bgChar, lenX);
    FlattenOne(row);
    if Shift(f.offs) < lenX {
      var text := Visible(f.text, Skip(f.offs) + cutX, lenX);
      FlattenAppend([row], [cup] + Chars(text));
      FlattenAppend([cup], Chars(text));
      FlattenOne(cup);
      FlattenChars(text);
      Assoc(row, cup, text);
    } else {
      assert [row] + [] == [row];
    }
  }

  lemma FlattenOne(s: string)
    ensures Flatten([s]) == s
  {
    assert [s][..0] == [];
  }

  // ---------------------------------------------------------------------
  // Text frames
  // ---------------------------------------------------------------------

  /** `for row in from as u16 .. to as u16`: a CUP to (row, col) and the fill, one write each. */
  function FillWrites(lo: nat, hi: nat, col: nat, fill: string): (w: seq<string>)
    ensures |w| == (if hi <= lo then 0 else hi - lo)
    decreases hi
  {
    if hi <= lo then [] else FillWrites(lo, hi - 1, col, fill) + [Cup(hi - 1, col) + fill]
  }

  /**
   * The lines a text or editor frame shows: lenY of them from line
   * Skip(offsY) + cutY on, or none when a negative offset shifts the text
   * out of the box.
   */
  function ShownLines<T>(lines: seq<T>, offsX: int, offsY: int, lenX: nat, lenY: nat, cutY: nat): (r: seq<T>)
    ensures |r| <= lenY
    ensures r != [] ==> Shift(offsX) < lenX && Shift(offsY) < lenY
  {
    if Shift(offsX) < lenX && Shift(offsY) < lenY then Window(lines, Skip(offsY) + cutY, lenY) else []
  }

  /** One line of a text frame at (row, col): a CUP, then its visible characters one by one. */
  function TextLine(line: string, row: nat, col: nat, skip: nat, take: nat): seq<string> {
    [Cup(U16(row), U16(col))] + Chars(Visible(line, skip, take))
  }

  /** The loop body for line i of a text frame: the line goes to row + i. */
  function TextLineAt(row: nat, col: nat, skip: nat, take: nat): (nat, string) -> seq<string> {
    (i: nat, line: string) => TextLine(line, row + i, col, skip, take)
  }

  /** Line i of `lines` goes to row + i. */
  function TextLineWrites(lines: seq<string>, row: nat, col: nat, skip: nat, take: nat): seq<string> {
    ConcatMap(lines, TextLineAt(row, col, skip, take))
  }

  /** The lines a text frame shows, or nothing when a shift pushes them out of the box. */
  function TextBody(f: TextFrame, lenX: nat, lenY: nat, minX: nat, minY: nat, cutX: nat, cutY: nat): seq<string> {
    TextLineWrites(ShownLines(f.lines, f.offsX, f.offsY, lenX, lenY, cutY),
         minY + Shift(f.offsY) + 1, minX + Shift(f.offsX) + 1, Skip(f.offsX) + cutX, lenX)
  }

  /**
   * What drawTextFrame writes: the fill of rows minY + 1 .. maxY + 1, then,
   * when neither shift leaves the box, the lines from Skip(offsY) + cutY on.
   */
  function TextWrites(f: TextFrame, lenX: nat, lenY: nat, minX: nat, minY: nat,
                      maxX: nat, maxY: nat, cutX: nat, cutY: nat): seq<string>
  {
    FillWrites(U16(minY + 1), U16(maxY + 1), U16(minX + 1), Repeat(f.bgChar, lenX))
      + TextBody(f, lenX, lenY, minX, minY, cutX, cutY)
  }


  /** One more line of a text frame: the loop's step. */
  lemma TextLineStep(lines: seq<string>, index: nat, row: nat, col: nat, skip: nat, take: nat,
                     base: seq<string>, done: seq<string>, out: seq<string>)
    requires index < |lines|
    requires done == base + TextLineWrites(lines[..index], row, col, skip, take)
    requires out == done + TextLine(lines[index], row + index, col, skip, take)
    ensures out == base + TextLineWrites(lines[..index + 1], row, col, skip, take)
  {
    ConcatMapStep(lines, index, TextLineAt(row, col, skip, take), base, done, out);
  }

  // ---------------------------------------------------------------------
  // Editor frames
  // ---------------------------------------------------------------------

  /** The SGR sequence ahead of a word: its style, then its foreground and background colours. */
  function WordStyle(w: StyledToken): string {
    Csi + StylePrefix(w.font, w.flags) + FgCode(w.fgColour) + ";" + BgCode(w.bgColour) + "m"
  }

  /** One styled word: its SGR sequence, its visible characters one by one, then SGR 0. */
  function WordWrites(w: StyledToken, skip: nat, take: nat): seq<string> {
    [WordStyle(w)] + Chars(Visible(w.word, skip, take)) + [SgrReset]
  }

  /** The inner loop body: every word of a line gets the same window of characters. */
  function WordAt(skip: nat, take: nat): (nat, StyledToken) -> seq<string> {
    (_: nat, w: StyledToken) => WordWrites(w, skip, take)
  }

  /** The words of one line, one after the other. */
  function Words(words: seq<StyledToken>, skip: nat, take: nat): seq<string> {
    ConcatMap(words, WordAt(skip, take))
  }

  /** One line of an editor frame at (row, col): one CUP, then every word of the line. */
  function EditorLine(words: seq<StyledToken>, row: nat, col: nat, skip: nat, take: nat): seq<string> {
    [Cup(U16(row), U16(col))] + Words(words, skip, take)
  }

  /** The loop body for line i of an editor frame: the line goes to row + i. */
  function EditorLineAt(row: nat, col: nat, skip: nat, take: nat): (nat, seq<StyledToken>) -> seq<string> {
    (i: nat, words: seq<StyledToken>) => EditorLine(words, row + i, col, skip, take)
  }

  /** Line i of `lines` goes to row + i. */
  function EditorLineWrites(lines: seq<seq<StyledToken>>, row: nat, col: nat, skip: nat, take: nat): seq<string> {
    ConcatMap(lines, EditorLineAt(row, col, skip, take))
  }

  /** The lines an editor frame shows, or nothing when a shift pushes them out of the box. */
  function EditorBody(f: EditorFrame, lenX: nat, lenY: nat, minX: nat, minY: nat, cutX: nat, cutY: nat): seq<string> {
    EditorLineWrites(ShownLines(f.lines, f.offsX, f.offsY, lenX, lenY, cutY),
         minY + Shift(f.offsY) + 1, minX + Shift(f.offsX) + 1, Skip(f.offsX) + cutX, lenX)
  }

  /** What drawEditorFrame writes: the same fill and layout as a text frame, with styled words. */
  function EditorWrites(f: EditorFrame, lenX: nat, lenY: nat, minX: nat, minY: nat,
                        maxX: nat, maxY: nat, cutX: nat, cutY: nat): seq<string>
  {
    FillWrites(U16(minY + 1), U16(maxY + 1), U16(minX + 1), Repeat(f.bgChar, lenX))
      + EditorBody(f, lenX, lenY, minX, minY, cutX, cutY)
  }


  /** One more word of a line: the inner loop's step. */
  lemma WordStep(words: seq<StyledToken>, j: nat, skip: nat, take: nat,
                 base: seq<string>, done: seq<string>, out: seq<string>)
    requires j < |words|
    requires done == base + Words(words[..j], skip, take)
    requires out == done + WordWrites(words[j], skip, take)
    ensures out == base + Words(words[..j + 1], skip, take)
  {
    ConcatMapStep(words, j, WordAt(skip, take), base, done, out);
  }

  /** One more line of an editor frame: the outer loop's step. */
  lemma EditorLineStep(lines: seq<seq<StyledToken>>, index: nat, row: nat, col: nat, skip: nat, take: nat,
                       base: seq<string>, done: seq<string>, out: seq<string>)
    requires index < |lines|
    requires done == base + EditorLineWrites(lines[..index], row, col, skip, take)
    requires out == done + EditorLine(lines[index], row + index, col, skip, take)
    ensures out == base + EditorLineWrites(lines[..index + 1], row, col, skip, take)
  {
    ConcatMapStep(lines, index, EditorLineAt(row, col, skip, take), base, done, out);
  }

  /** Every styled word opens with its SGR sequence and is closed by SGR 0. */
  lemma WordResets(w: StyledToken, skip: nat, take: nat)
    ensures |WordWrites(w, skip, take)| == |Visible(w.word, skip, take)| + 2
    ensures WordWrites(w, skip, take)[0] == WordStyle(w)
    ensures WordWrites(w, skip, take)[|WordWrites(w, skip, take)| - 1] == SgrReset
  {
  }

  // ---------------------------------------------------------------------
  // Switching the terminal on and off
  // ---------------------------------------------------------------------

  /** OSC 0: set the window title. */
  function TitleOutput(title: string): string {
    [Esc] + "]0;" + title + [Bel]
  }

  /**
   * What turnOn writes: set the window title, clear the screen, home and
   * hide the cursor, and enable any-motion mouse tracking (mode 1003) with
   * SGR mouse reports (mode 1006).
   */
  function TurnOnOutput(title: string): string {
    TitleOutput(title) + Csi + "2J" + Csi + "1;1H" + Csi + "?25l" + Csi + "?1003h" + Csi + "?1006h"
  }

  /** What turnOff writes: RIS, reset to initial state. */
  const TurnOffOutput: string := [Esc, 'c']

  // ---------------------------------------------------------------------
  // The backend object
  // ---------------------------------------------------------------------

  /**
   * The TTY display's output stream. Only what is written is modelled; the
   * terminal settings, the input stream and the listener thread are not.
   */
  class TtyDisplay {
    /** The strings handed to `write!` so far, in order. */
    var writes: seq<string>

    /** What the terminal has received. */
    function Output(): string
      reads this
    {
      Flatten(writes)
    }

    constructor ()
      ensures writes == []
    {
      writes := [];
    }

    /** One `write!`. */
    method Write(s: string)
      modifies this
      ensures writes == old(writes) + [s]
    {
      writes := writes + [s];
    }

    /** Writes the characters of s.skip(skip).take(take) one by one, stopping at the first ESC. */
    method WriteVisible(s: string, skip: nat, take: nat)
      modifies this
      ensures writes == old(writes) + Chars(Visible(s, skip, take))
    {
      var chars := Window(s, skip, take);
      var i := 0;
      while i < |chars|
        invariant i <= |chars|
        invariant Esc !in chars[..i]
        invariant writes == old(writes) + Chars(chars[..i])
      {
        if chars[i] == Esc {
          break;
        }
        Write([chars[i]]);
        i := i + 1;
        assert chars[..i][..i - 1] == chars[..i - 1];
        Assoc(old(writes), Chars(chars[..i - 1]), [[chars[i - 1]]]);
      }
      UntilEscapeUnique(chars, i);
    }

    /**
     * The leaf renderers' treatment of an offset: a negative one becomes a
     * shift of its magnitude and no skip, a non-negative one a skip.
     */
    static method SplitOffset(offs: int) returns (shift: nat, skip: nat)
      ensures shift == Shift(offs) && skip == Skip(offs)
    {
      if offs < 0 {
        shift, skip := -offs, 0;
      } else {
        shift, skip := 0, offs;
      }
    }

    method DrawStatusFrame(f: StatusFrame, lenX: nat, lenY: nat, minX: nat, minY: nat,
                           maxX: nat, maxY: nat, cutX: nat, cutY: nat)
      modifies this
      ensures writes == old(writes) + StatusWrites(f, lenX, lenY, minX, minY, maxX, maxY, cutX, cutY)
    {
      var row := Cup(U16(minY + 1), U16(minX + 1)) + Repeat(f.bgChar, lenX);
      Write(row);
      WriteStatusText(f, lenX, minX, minY, cutX);
      Assoc(old(writes), [row], StatusText(f, lenX, minX, minY, cutX));
    }

    /** The text of a status frame, unless its shift pushes it out of the box. */
    method WriteStatusText(f: StatusFrame, lenX: nat, minX: nat, minY: nat, cutX: nat)
      modifies this
      ensures writes == old(writes) + StatusText(f, lenX, minX, minY, cutX)
    {
      var shift, offs := SplitOffset(f.offs);
      if shift < lenX {
        var cup := Cup(U16(minY + 1), U16(minX + 1 + shift));
        Write(cup);
        WriteVisible(f.text, offs + cutX, lenX);
        Assoc(old(writes), [cup], Chars(Visible(f.text, offs + cutX, lenX)));
        assert StatusTextAt(cup, f, lenX, cutX) == [cup] + Chars(Visible(f.text, offs + cutX, lenX));
      } else {
        assert StatusTextAt(Cup(U16(minY + 1), U16(minX + 1 + shift)), f, lenX, cutX) == [];
      }
    }

    /** The blank fill of rows from .. to at column col, shared by text and editor frames. */
    method FillBox(from: nat, to: nat, col: nat, empty: string)
      modifies this
      ensures writes == old(writes) + FillWrites(from, to, col, empty)
    {
      var row := from;
      while row < to
        invariant from <= row && (row <= to || row == from)
        invariant writes == old(writes) + FillWrites(from, row, col, empty)
      {
        Write(Cup(row, col) + empty);
        Assoc(old(writes), FillWrites(from, row, col, empty), [Cup(row, col) + empty]);
        row := row + 1;
      }
    }

    /** One line of a text frame: the CUP, then the line's visible characters. */
    method WriteTextLine(line: string, row: nat, col: nat, skip: nat, take: nat)
      modifies this
      ensures writes == old(writes) + TextLine(line, row, col, skip, take)
    {
      Write(Cup(U16(row), U16(col)));
      WriteVisible(line, skip, take);
      Assoc(old(writes), [Cup(U16(row), U16(col))], Chars(Visible(line, skip, take)));
    }

    /** The lines of a text frame, line i at row + i. */
    method WriteTextLines(lines: seq<string>, row: nat, col: nat, skip: nat, take: nat)
      modifies this
      ensures writes == old(writes) + TextLineWrites(lines, row, col, skip, take)
    {
      assert lines[..0] == [];
      var index := 0;
      while index < |lines|
        invariant index <= |lines|
        invariant writes == old(writes) + TextLineWrites(lines[..index], row, col, skip, take)
      {
        ghost var done := writes;
        WriteTextLine(lines[index], row + index, col, skip, take);
        TextLineStep(lines, index, row, col, skip, take, old(writes), done, writes);
        index := index + 1;
      }
      assert lines[..index] == lines;
    }

    /** The lines a text frame shows, placed by its shifts and skipped by its offsets and cuts. */
    method WriteTextBody(f: TextFrame, lenX: nat, lenY: nat, minX: nat, minY: nat, cutX: nat, cutY: nat)
      modifies this
      ensures writes == old(writes) + TextBody(f, lenX, lenY, minX, minY, cutX, cutY)
    {
      var shiftX, offsX := SplitOffset(f.offsX);
      var shiftY, offsY := SplitOffset(f.offsY);
      var lines: seq<string> := [];
      if shiftX < lenX && shiftY < lenY {
        lines := Window(f.lines, offsY + cutY, lenY);
      }
      assert lines == ShownLines(f.lines, f.offsX, f.offsY, lenX, lenY, cutY);
      WriteTextLines(lines, minY + shiftY + 1, minX + shiftX + 1, offsX + cutX, lenX);
    }

    method DrawTextFrame(f: TextFrame, lenX: nat, lenY: nat, minX: nat, minY: nat,
                         maxX: nat, maxY: nat, cutX: nat, cutY: nat)
      modifies this
      ensures writes == old(writes) + TextWrites(f, lenX, lenY, minX, minY, maxX, maxY, cutX, cutY)
    {
      var empty := Repeat(f.bgChar, lenX);
      FillBox(U16(minY + 1), U16(maxY + 1), U16(minX + 1), empty);
      WriteTextBody(f, lenX, lenY, minX, minY, cutX, cutY);
      Assoc(old(writes), FillWrites(U16(minY + 1), U16(maxY + 1), U16(minX + 1), empty),
            TextBody(f, lenX, lenY, minX, minY, cutX, cutY));
    }

    /** The two colour matches of drawEditorFrame, one per plane. */
    static method ColourCodes(fgColour: Colour, bgColour: Colour) returns (fg: string, bg: string)
      ensures fg == FgCode(fgColour) && bg == BgCode(bgColour)
    {
      fg := FgTable(fgColour);
      bg := BgTable(bgColour);
      ColourTables(fgColour);
      ColourTables(bgColour);
    }

    /** One styled word: its SGR sequence, its visible characters, then SGR 0. */
    method WriteWord(w: StyledToken, skip: nat, take: nat)
      modifies this
      ensures writes == old(writes) + WordWrites(w, skip, take)
    {
      var head := WordSgr(w);
      Write(head);
      ghost var styled := writes;
      WriteVisible(w.word, skip, take);
      ghost var shown := writes;
      Write(SgrReset);
      Assoc(old(writes), [head], Chars(Visible(w.word, skip, take)));
      Assoc(old(writes), [head] + Chars(Visible(w.word, skip, take)), [SgrReset]);
    }

    /** The SGR sequence of a word: CSI, the style codes, the foreground and background colours, then `m`. */
    static method WordSgr(w: StyledToken) returns (head: string)
      ensures head == WordStyle(w)
    {
      var style := BuildStyle(w.font, w.flags);
      var fg, bg := ColourCodes(w.fgColour, w.bgColour);
      head := Csi + style + fg + ";" + bg + "m";
    }

    /** One line of an editor frame: the CUP, then each word of the line. */
    method WriteEditorLine(words: seq<StyledToken>, row: nat, col: nat, skip: nat, take: nat)
      modifies this
      ensures writes == old(writes) + EditorLine(words, row, col, skip, take)
    {
      Write(Cup(U16(row), U16(col)));
      ghost var lineStart := writes;
      assert words[..0] == [];
      var j := 0;
      while j < |words|
        invariant j <= |words|
        invariant writes == lineStart + Words(words[..j], skip, take)
      {
        ghost var before := writes;
        WriteWord(words[j], skip, take);
        WordStep(words, j, skip, take, lineStart, before, writes);
        j := j + 1;
      }
      assert words[..j] == words;
      Assoc(old(writes), [Cup(U16(row), U16(col))], Words(words, skip, take));
    }

    /** The lines of an editor frame, line i at row + i. */
    method WriteEditorLines(lines: seq<seq<StyledToken>>, row: nat, col: nat, skip: nat, take: nat)
      modifies this
      ensures writes == old(writes) + EditorLineWrites(lines, row, col, skip, take)
    {
      assert lines[..0] == [];
      var index := 0;
      while index < |lines|
        invariant index <= |lines|
        invariant writes == old(writes) + EditorLineWrites(lines[..index], row, col, skip, take)
      {
        ghost var done := writes;
        WriteEditorLine(lines[index], row + index, col, skip, take);
        EditorLineStep(lines, index, row, col, skip, take, old(writes), done, writes);
        index := index + 1;
      }
      assert lines[..index] == lines;
    }

    /** The lines a editor frame shows, placed by its shifts and skipped by its offsets and cuts. */
    method WriteEditorBody(f: EditorFrame, lenX: nat, lenY: nat, minX: nat, minY: nat, cutX: nat, cutY: nat)
      modifies this
      ensures writes == old(writes) + EditorBody(f, lenX, lenY, minX, minY, cutX, cutY)
    {
      var shiftX, offsX := SplitOffset(f.offsX);
      var shiftY, offsY := SplitOffset(f.offsY);
      var lines: seq<seq<StyledToken>> := [];
      if shiftX < lenX && shiftY < lenY {
        lines := Window(f.lines, offsY + cutY, lenY);
      }
      assert lines == ShownLines(f.lines, f.offsX, f.offsY, lenX, lenY, cutY);
      WriteEditorLines(lines, minY + shiftY + 1, minX + shiftX + 1, offsX + cutX, lenX);
    }

    method DrawEditorFrame(f: EditorFrame, lenX: nat, lenY: nat, minX: nat, minY: nat,
                         maxX: nat, maxY: nat, cutX: nat, cutY: nat)
      modifies this
      ensures writes == old(writes) + EditorWrites(f, lenX, lenY, minX, minY, maxX, maxY, cutX, cutY)
    {
      var empty := Repeat(f.bgChar, lenX);
      FillBox(U16(minY + 1), U16(maxY + 1), U16(minX + 1), empty);
      WriteEditorBody(f, lenX, lenY, minX, minY, cutX, cutY);
      Assoc(old(writes), FillWrites(U16(minY + 1), U16(maxY + 1), U16(minX + 1), empty),
            EditorBody(f, lenX, lenY, minX, minY, cutX, cutY));
    }

    /** The write of changeTitle. */
    method ChangeTitle(title: string)
      modifies this
      ensures writes == old(writes) + [TitleOutput(title)]
    {
      Write([Esc] + "]0;" + title + [Bel]);
    }

    /** The write of turnOn; the terminal-mode switch and the listener thread are not modelled. */
    method TurnOn(title: string)
      modifies this
      ensures writes == old(writes) + [TurnOnOutput(title)]
    {
      Write([Esc] + "]0;" + title + [Bel] + Csi + "2J" + Csi + "1;1H" + Csi + "?25l" + Csi + "?1003h" + Csi + "?1006h");
    }

    /** The write of turnOff. */
    method TurnOff()
      modifies this
      ensures writes == old(writes) + [TurnOffOutput]
    {
      Write(TurnOffOutput);
    }
  }
}
