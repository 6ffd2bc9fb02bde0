# ferrocene: a compositing terminal UI, modelled in Dafny

ferrocene draws a tree of frames on one or more displays. The library object
(`Ferrocene`) keeps two lists addressed by 1-based handles: the displays and
the frames.

**Frames.** A frame is one of these:
- a leaf: status line, text, styled editor text, pixel or plot;
- a parent: a list of instances, optionally tiled on a grid;
- a layer frame: a list of frames drawn over one another.

**Drawing.** `Display::draw` clips a frame's box to the screen. When a remap is
requested, it rebuilds the per-display map of frames, which records which frame
owns each cell. Then it asks the TTY backend to write a leaf frame, or recurses
into the children. While the frame is being drawn it is taken out of its slot,
so a frame met again during its own draw is skipped.

**Rendering.** `render` redraws every display that asks for a refresh, once its
refresh interval has passed.

**Input.** The TTY backend decodes its input byte by byte (`TTYState::nextState`):
characters, escapes, SGR mouse reports and cursor-position reports. The frame
under the mouse is looked up in the map of frames. The same decoder reads the
reply of the terminal-size probe (`getTerminalSize`).

**Modules:**
- `Wrappers`, `Numeric`, `Seqs`, `Decimal`: Option/Result, machine-integer casts, sequence helpers, decimal numerals.
- `Events`, `Styles`: event types, mouse-button mask, colours and styled tokens.
- `Frames`: frame variants and their constructors (`src/frame/mod.rs`).
- `Decoder`: the input decoder and the size-probe loop (`src/display/tty.rs`).
- `Sgr`, `Tty`: what the TTY backend writes: cursor movement, the leaf renderers, SGR styles and colours, title and mode switches (`src/display/tty.rs`).
- `Compose`: `Display::draw`, the display flags and the map of frames (`src/display/mod.rs`).
- `App`: the `Ferrocene` object and its render pass (`src/lib.rs`).

**State and specifications.** The TTY output stream is a sequence of writes, one
per `write!`. Objects the source updates in place are classes: `Display`,
`TtyDisplay`, `InputParser` and `Ferrocene`. Each of their methods is proved
equal to a specification function:
- `Display.Draw` against `Drawn`;
- `NextState` against `Step`;
- `Render` against `Rendered`.

The properties are proved about those functions.

## Model

| member | source | states |
|---|---|---|
| Numeric.U16 | src/display/tty.rs:234-235 | `as u16` keeps the value modulo 2^16: below 2^16 and congruent to the input, the input itself when it fits |
| Numeric.ToUsize | src/display/mod.rs:154-159 | `as usize` keeps the value modulo 2^64: below 2^64 and congruent, the input itself when it fits |
| Numeric.CellIndexBounds | src/display/mod.rs:166-177 | every cell of a width × height screen has a map index below width * height |
| Numeric.CellIndexParts | src/display/tty.rs:1105-1110 | a row-major cell index splits back into its column (remainder) and its row (quotient) |
| Decimal.FormatDigits | src/display/tty.rs:1084-1087 | a printed number is a non-empty digit string without a leading zero |
| Decimal.AccumulateSnoc | src/display/tty.rs:1084-1087 | reading one more digit multiplies the accumulator by 10 and adds the digit |
| Decimal.AccumulateFormat | src/display/tty.rs:1084-1087 | the decoder's digit accumulation reads back every printed number |
| Decimal.FormatInjective | src/display/tty.rs:1084-1087 | distinct numbers print differently |
| Seqs.Window | src/display/tty.rs:603 | `skip(skip).take(take)` keeps at most take elements, from position skip on |
| Seqs.FlattenAppend | src/display/tty.rs:578-615 | two runs of writes put the first run's characters on the stream, then the second's |
| Styles.NewStyledToken | src/frame/style.rs:79-96 | every argument lands in the field of the same name |
| Frames.NewStatusFrame | src/frame/mod.rs:130-148 | the status frame holds exactly its arguments and can be drawn |
| Frames.NewTextFrame | src/frame/mod.rs:150-170 | the text frame holds exactly its arguments and can be drawn |
| Frames.NewEditorFrame | src/frame/mod.rs:172-192 | the editor frame holds exactly its arguments and can be drawn |
| Frames.NewPixelFrame | src/frame/mod.rs:194-221 | the pixel frame holds its arguments and is marked as changed |
| Frames.NewInstance | src/frame/mod.rs:223-256 | every argument lands in the field of the same name |
| Frames.SortAsc | src/frame/mod.rs:269-270 | the border array after `sort`: ascending, and a permutation of the input |
| Frames.Resize | src/frame/mod.rs:271-272 | `resize(n, 0)`: length n, the old entries kept, zeros after them |
| Frames.NewParentFrame | src/frame/mod.rs:258-286 | the borders sorted (as permutations); one minimum per grid cell, the old minima kept and zero-padded; tiling, instances and pivot copied |
| Frames.SortedPermutationUnique | src/frame/mod.rs:269-270 | two ascending permutations of one multiset are equal, so the sorted borders depend only on the borders |
| Frames.NewParentFrameIdempotent | src/frame/mod.rs:258-286 | normalising a parent frame's own arrays a second time changes nothing |
| Decoder.PressKind | src/display/tty.rs:1133-1175 | an `M` report yields an event exactly for codes 0-2 (presses) and 32-35, 64, 65 (motion, wheel) |
| Decoder.ReleaseKind | src/display/tty.rs:1237-1255 | an `m` report yields an event exactly for codes 0-2 (releases) |
| Decoder.MouseEffectOf | src/display/tty.rs:1131-1175 | a report has an effect exactly for the known codes; motion and wheel codes leave the button mask alone |
| Decoder.PressSetsButton | src/display/tty.rs:1135-1149 | a press sets its button's bit and keeps every other bit |
| Decoder.ReleaseClearsButton | src/display/tty.rs:1239-1253 | a release clears its button's bit and keeps every other bit |
| Decoder.PressThenRelease | src/display/tty.rs:1133-1255 | pressing then releasing a button that was up restores the mask |
| Decoder.MapFitsLookup | src/display/tty.rs:1099-1130 | with a map of one entry per cell, the lookup of any 1-based report position cannot underflow or index past the map |
| Decoder.MouseStep | src/display/tty.rs:1094-1197 | the mouse terminator pushes the last parameter, keeps the prefix and returns to ExpectByte |
| Decoder.Step | src/display/tty.rs:948-1311 | one `nextState` call keeps the decoder invariant (only button bits in the mask, a prefix whenever parameters are read); events carry the display; an event leaves the decoder in ExpectByte (or in Escape after ESC); only a mouse report changes the mask; only a complete cursor report yields CursorPosition |
| Decoder.Feed | src/display/tty.rs:198-220 | decoding a stream keeps the invariant (mask of button bits only, prefix set while reading parameters) and emits at most one event per byte |
| Decoder.MasksStayButtons | src/display/tty.rs:1133-1255 | pressing or releasing any button code on a mask of button bits leaves a mask of button bits |
| Decoder.FeedTagsDisplay | src/display/tty.rs:948-1311 | every event decoded from a display's input carries that display |
| Decoder.FeedAppend | src/display/tty.rs:198-220 | decoding a + b is decoding a, then b from the state a leaves |
| Decoder.FeedSilent | src/display/tty.rs:198-220 | a chunk that emits nothing can be skipped by starting from the state it leaves |
| Decoder.PrintableByte | src/display/tty.rs:975-1002 | in ExpectByte a printable byte emits one Character event for the focused frame and changes no state |
| Decoder.IgnoredByte | src/display/tty.rs:1003-1006 | in ExpectByte any other byte except ESC is dropped |
| Decoder.EscapeThenOther | src/display/tty.rs:1023-1053 | in Escape a byte other than a digit, `[` or ESC emits one Escape event and returns to ExpectByte |
| Decoder.EnterParameters | src/display/tty.rs:1012-1072 | a digit after ESC or CSI, or `<` after CSI, enters ParseArgument with cleared parameters, the prefix recorded and the accumulator seeded |
| Decoder.UnrecognisedTerminator | src/display/tty.rs:1302-1306 | any other terminator returns to ExpectByte silently |
| Decoder.Separator | src/display/tty.rs:1088-1093 | `;` pushes the accumulator and resets it to 0 |
| Decoder.RepeatedEscape | src/display/tty.rs:971-974 | k ESC bytes emit k - 1 Escape events and leave the decoder in Escape, so a following `[` still opens CSI |
| Decoder.FeedDigits | src/display/tty.rs:1084-1087 | digits accumulate as a decimal numeral |
| Decoder.FeedNumber | src/display/tty.rs:1084-1087 | the digits of n bring a zeroed accumulator to n |
| Decoder.SgrMouseReport | src/display/tty.rs:1094-1197 | a whole `ESC [ < code ; col ; row M/m` report emits the effect-table event for the frame under cell (col-1, row-1), with cursorX = row-1 and cursorY = col-1 |
| Decoder.LeftPressExample | src/display/tty.rs:1094-1197 | a left press at column 6, row 24 on an 80 × 24 map reaches the frame in cell (5, 23) and sets LeftDown |
| Decoder.CursorPositionReport | src/display/tty.rs:1278-1301 | a whole `ESC [ row ; col R` report emits one CursorPosition event with cursorX = col and cursorY = row and returns to ExpectByte |
| Decoder.FirstEventIgnoresRest | src/display/tty.rs:198-220 | the probe loop never reads past the first event |
| Decoder.ProbeSize | src/display/tty.rs:198-245 | the probe succeeds exactly when the first event is a cursor report, with both sizes below 2^16; it has no reply exactly when no event arrives |
| Decoder.ProbeReadsReport | src/display/tty.rs:175-245 | a reply `ESC [ rows ; cols R` gives (cols, rows), whatever follows it |
| Decoder.ProbeRejectsCharacter | src/display/tty.rs:228-244 | a reply that starts with a printable byte is not a size |
| Decoder.InputParser.constructor | src/display/tty.rs:182-189 | a fresh decoder: ExpectByte, no buttons down, no parameters, no prefix |
| Decoder.InputParser.NextState | src/display/tty.rs:948-1311 | the decoder's new state and returned event are those of `Step` |
| Decoder.InputParser.MouseReportNext | src/display/tty.rs:1094-1275 | the mouse-report terminator, in place, as `Step` |
| Decoder.MouseButtons | src/display/tty.rs:1131-1255 | the event kind and new mask of a report are those of the effect table |
| Decoder.GetTerminalSize | src/display/tty.rs:198-245 | the reply loop returns `ProbeSize` of its input |
| Sgr.PaletteIndex | src/display/tty.rs:784-793 | an in-range palette colour selects an entry below 256 |
| Sgr.PaletteIndexInjective | src/display/tty.rs:784-793 | distinct in-range palette colours select distinct entries |
| Sgr.PaletteBlocks | src/display/tty.rs:784-793 | standard, bright, cube and grey colours occupy the blocks 0-7, 8-15, 16-231 and 232-255 |
| Sgr.ColourTables | src/display/tty.rs:780-877 | both colour tables follow one rule: the background code is the foreground code with its selector raised by 10 |
| Sgr.NamedTables | src/display/tty.rs:794-826 | the named colours obey that rule |
| Sgr.PaletteTables | src/display/tty.rs:784-793 | the palette colours obey that rule |
| Sgr.RgbTables | src/display/tty.rs:783 | direct colours obey that rule |
| Sgr.EmptyCodes | src/display/tty.rs:827 | a colour has an empty foreground code exactly when it has an empty background code, and exactly when it selects nothing |
| Sgr.FlagCodesStep | src/display/tty.rs:768-779 | testing one more style flag appends that flag's code |
| Sgr.BuildStyle | src/display/tty.rs:765-779 | the style string built flag by flag is the font selector followed by the codes of the set flags, in table order |
| Tty.Repeat | src/display/tty.rs:578-586 | `repeat(n)` gives n copies of the character |
| Tty.UntilEscape | src/display/tty.rs:603-615 | the characters written before the first ESC: a prefix of the input, ESC-free, stopped only by an ESC |
| Tty.UntilEscapeUnique | src/display/tty.rs:603-615 | those three properties determine the written prefix |
| Tty.Visible | src/display/tty.rs:603-615 | at most take characters, from position skip on, never an ESC |
| Tty.FlattenChars | src/display/tty.rs:603-615 | writing the characters one at a time puts exactly the string on the stream |
| Tty.StatusStream | src/display/tty.rs:562-617 | a status frame puts a blank row on the stream, then, if the shift leaves room, at most lenX ESC-free characters of its text from Skip(offs) + cutX on |
| Tty.FillWrites | src/display/tty.rs:638-650 | the fill loop writes one CUP-and-fill per row of the range |
| Tty.ShownLines | src/display/tty.rs:653-673 | a text or editor frame shows at most lenY lines, and none when a shift pushes it out of the box |
| Tty.TextLineStep | src/display/tty.rs:673-697 | one more line of the text loop appends that line at the next row |
| Tty.WordResets | src/display/tty.rs:878-902 | every styled word opens with its SGR sequence and is closed by SGR 0 |
| Tty.EditorLineStep | src/display/tty.rs:754-906 | one more line of the editor loop appends that line at the next row |
| Tty.TtyDisplay.WriteVisible | src/display/tty.rs:603-615 | the character loop writes the visible characters one per write |
| Tty.TtyDisplay.SplitOffset | src/display/tty.rs:588-592 | a negative offset becomes a shift of its magnitude, a non-negative one a skip |
| Tty.TtyDisplay.DrawStatusFrame | src/display/tty.rs:562-617 | drawStatusFrame appends the blank row and the shifted, skipped text |
| Tty.TtyDisplay.DrawTextFrame | src/display/tty.rs:620-698 | drawTextFrame appends the fill and the shown lines |
| Tty.TtyDisplay.DrawEditorFrame | src/display/tty.rs:701-907 | drawEditorFrame appends the fill and the shown lines of styled words |
| Tty.TtyDisplay.ColourCodes | src/display/tty.rs:780-877 | the two colour matches give the codes of the colour rule |
| Tty.TtyDisplay.ChangeTitle | src/display/tty.rs:263-305 | changeTitle appends OSC 0 with the title |
| Tty.TtyDisplay.TurnOn | src/display/tty.rs:355-366 | turnOn appends the title, clear, home, hidden cursor and mouse modes 1003 and 1006 |
| Tty.TtyDisplay.TurnOff | src/display/tty.rs:459-466 | turnOff appends RIS |
| Compose.Clip | src/display/mod.rs:117-159 | the clipped region lies on the screen; its columns (rows) are exactly the box's columns (rows) on the screen; the cut is the part of the box left of (above) the screen |
| Compose.ClipAsWritten | src/display/mod.rs:117-159 | the clipping as written, with the `as usize` casts |
| Compose.ClipAsWrittenAgrees | src/display/mod.rs:117-159 | for a box that meets the screen, the clipping as written is `Clip` |
| Compose.ClipAsWrittenWraps | src/display/mod.rs:156-159 | a box wholly left of the screen gets a width of 2^64 - 10 as written |
| Compose.ClipExample | src/display/mod.rs:136-159 | a box partly off the top-left corner keeps its visible part and records the cut |
| Compose.FrameMapCells | src/display/mod.rs:164-177 | the rebuilt map has sizeX * sizeY cells, and cell (x, y) holds the frame exactly when it lies in the region, otherwise 0 |
| Compose.MarkedAll | src/display/mod.rs:172-179 | once the remap loop has stamped every row of the region, the cells are the map `FrameMap` |
| Compose.PlaceInstanceFits | src/display/mod.rs:239-261 | an instance on the grid is cut back to the grid and spans the borders of its first and last cells; its frame is kept; an instance off the grid is untouched |
| Compose.PlaceInstanceIdempotent | src/display/mod.rs:239-261 | placing an instance a second time changes nothing |
| Compose.Resolve | src/display/mod.rs:230-262 | the grid pass leaves a drawable frame |
| Compose.ResolveIdempotent | src/display/mod.rs:230-262 | the grid pass is stable: a second draw places nothing anew |
| Compose.LayerPlacementsAsWritten | src/display/mod.rs:281-294 | the layers as written: at the unclipped position with the clipped size |
| Compose.LayerPlacementsAsWrittenShrink | src/display/mod.rs:281-294 | a layer frame at column -3 shows columns 0-7, but as written its layer shows only 0-4 |
| Compose.LayersShareRegion | src/display/mod.rs:281-294 | every layer covers exactly its layer frame's region, with the same cut |
| Compose.TakeFilled | src/display/mod.rs:133 | taking a frame out of its slot leaves one filled slot fewer |
| Compose.Entered | src/display/mod.rs:131-227 | after the take, the remap and the leaf write, one filled slot fewer and every frame still drawable |
| Compose.Drawn | src/display/mod.rs:105-302 | a draw keeps every slot filled as it was, and every frame drawable; layers are placed on the layer frame's own box (the corrected placement, see Findings) |
| Compose.DrawnEvolves | src/display/mod.rs:105-302 | a draw changes frames only by grid placement, only appends to the output, at most clears the remap request, and leaves flags and map alone when no remap was requested |
| Compose.DrawnMap | src/display/mod.rs:160-187 | drawing under a remap request clears it and leaves the map of the top frame's clipped region; its children do not stamp the map |
| Compose.DrawnRejected | src/display/mod.rs:121-130 | a placement draw rejects changes nothing |
| Compose.DrawnStatus | src/display/mod.rs:188-197 | a status frame appends only drawStatusFrame's writes for the clipped region and keeps the frame list |
| Compose.SelfLayer | src/display/mod.rs:131-133 | a layer frame that lists itself is drawn once: its inner draw finds the slot empty, and nothing is written |
| Compose.PlaceGrid | src/display/mod.rs:235-261 | the grid loop places every instance in turn |
| Compose.PlaceOne | src/display/mod.rs:241-259 | the loop body places one instance as `PlaceInstance` |
| Compose.Display.constructor | src/display/tty.rs:120-149 | a new display requests a refresh and a remap, has no map, handle, main or focused frame, and an empty output |
| Compose.Display.Draw | src/display/mod.rs:105-302 | draw leaves the frame list, flags, map and output that `Drawn` gives, with layers on the layer frame's own box (see Findings) |
| Compose.Display.Enter | src/display/mod.rs:131-227 | the take, remap and leaf write of draw, as `Entered` |
| Compose.Display.RemapIfRequested | src/display/mod.rs:160-187 | remaps only when the remap flag is set, as `Remapped` |
| Compose.Display.PlaceFrame | src/display/mod.rs:230-262 | the grid pass, as `Resolve` |
| Compose.Display.DrawChildren | src/display/mod.rs:263-294 | the child loops, as `DrawnAll` |
| Compose.Display.Remap | src/display/mod.rs:160-187 | the remap loops leave the map `FrameMap` of the region and clear the remap request |
| Compose.Display.DrawLeaf | src/display/mod.rs:188-228 | the leaf dispatch appends the backend's writes; pixel and plot frames write nothing |
| Compose.Display.ChangeTitle | src/display/mod.rs:304-317 | forwards to the backend's changeTitle |
| Compose.Display.TurnOn | src/display/mod.rs:318-331 | forwards to the backend's turnOn |
| Compose.Display.TurnOff | src/display/mod.rs:332-343 | forwards to the backend's turnOff |
| App.RenderStepEffect | src/lib.rs:371-388 | after one step no display is due at that instant; a due display has its refresh request cleared, its time stamped, its output only grown and its flags changed at most in the remap request; a display that is not due is untouched; no display's handle or focused frame changes |
| App.RenderedUpToStep | src/lib.rs:366-390 | one more display of the loop extends the rendered prefix |
| App.RenderedTwice | src/lib.rs:360-392 | rendering twice at one instant draws nothing the second time |
| App.RenderedIdle | src/lib.rs:360-392 | when no display is due, render changes nothing |
| App.Ferrocene.constructor | src/lib.rs:76-88 | no displays and no frames |
| App.Ferrocene.AddDisplay | src/lib.rs:90-100 | the display gets the handle count + 1, learns it, and is reachable under it |
| App.Ferrocene.AddFrame | src/lib.rs:102-110 | the frame goes into a new last slot, and its handle is the new length and reaches it |
| App.Ferrocene.AddStatusFrame | src/lib.rs:142-161 | adds `NewStatusFrame` of the arguments |
| App.Ferrocene.AddTextFrame | src/lib.rs:163-183 | adds `NewTextFrame` of the arguments |
| App.Ferrocene.AddEditorFrame | src/lib.rs:185-205 | adds `NewEditorFrame` of the arguments |
| App.Ferrocene.AddPixelFrame | src/lib.rs:207-231 | adds `NewPixelFrame` of the arguments |
| App.Ferrocene.AddParentFrame | src/lib.rs:233-256 | adds `NewParentFrame` of the arguments |
| App.Ferrocene.AccessFrame | src/lib.rs:258-280 | Ok exactly for a handle of a filled slot, with that slot's frame; otherwise the source's error for handle 0, a handle too high, or an emptied slot |
| App.Ferrocene.AccessDisplay | src/lib.rs:282-304 | the same for displays |
| App.Ferrocene.SetDisplayTitle | src/lib.rs:306-316 | the display's output gets the title write |
| App.Ferrocene.TurnOnDisplay | src/lib.rs:318-345 | refresh and remap requested, main and focused frame set, the turn-on write appended, the main frame returned |
| App.Ferrocene.TurnOffDisplay | src/lib.rs:347-358 | the turn-off write appended, the main frame returned |
| App.Ferrocene.Render | src/lib.rs:360-392 | the frames and every field of every display (flags, handle, focused frame, map, output, time stamp) after render are those of `Rendered` over the displays in list order |
| App.RenderedKeeps | src/lib.rs:360-392 | render keeps every display slot as filled, and every display's handle, focused and main frame, refresh interval and screen box |
| App.Ferrocene.RefreshDisplay | src/lib.rs:371-388 | the body of render for one display: the frames and every field of the display (flags, handle, focused frame, map, output, time stamp) are those of `RenderStep` |

## Left out

- The terminal itself is not modelled: termios raw/cooked mode switches, `fcntl`, the `TIOCGWINSZ` ioctl and the listener thread. The output is modelled as the sequence of writes; `flush` adds nothing to it.
- Write and flush failures are not modelled; in the source they send Error events.
- The event channel is not modelled. Events that `nextState` would send on a channel are returned. The display's `render` and `draw` take no sender.
- Mutexes and their poisoning are not modelled. `turnOnDisplay`'s `Err("")` on a poisoned focus lock cannot occur in the model.
- The focus cell and the map are plain values, read when a byte is decoded.
- `SystemTime` is not modelled: the clock is a `now: nat` parameter, and one render pass uses one instant. `Duration::from_nanos` is the nanosecond count itself.
- App.Ferrocene.Render: requires that the clock has not gone back for any display it will time; the source unwraps `elapsed()` and panics otherwise.
- `addTTYDisplay` and `TTYDisplay::new` are covered only in part. The size probe (`Decoder.GetTerminalSize`) and the new display's fields (`Compose.Display.constructor`, with the size as a parameter) are modelled. Their termios and probe errors are not.
- `drawPixelFrame` and `drawPlotFrame` write nothing, in the source and in the model. The pixel frame's `f64` scale is left out: the frame stores no scale.
- `Vec::sort` is modelled by what it leaves (ascending order, a permutation), computed by insertion sort. The library's algorithm is not modelled.
- 64-bit `isize`/`usize` arithmetic is unbounded except where it matters: the `as u16` casts, and the `as usize` casts of the clipping finding.
- Compose.Display.Draw: also rejects a box that ends left of or above the screen (`EndsOnScreen`), which the source draws with wrapped widths (see Findings); and places the layers of a layer frame on that frame's own box (`LayerPlacements`), not at its unclipped position with its clipped size as src/display/mod.rs:281-294 does (see Findings).
- Compose.Drawn: places layers on the layer frame's own box, the corrected placement; the source's placement is modelled only by `LayerPlacementsAsWritten` (see Findings).
- App.Ferrocene.AddFrame: requires a drawable frame (a grid parent with borders on both axes). In the source the `len() - 1` of an empty border array panics later, inside `draw`.
- App.Ferrocene.AddParentFrame: requires a border on each axis. `Frame::newParentFrame` computes `len() - 1` on a usize and panics otherwise.
- App.Ferrocene.AccessFrame: returns the frame rather than a mutable reference. Callers change frames through the `Ferrocene` methods.
- App.Ferrocene.SetDisplayTitle: requires a good display handle; the source unwraps `accessDisplay`. TurnOnDisplay and TurnOffDisplay require the same.
- Decoder.Step: requires that a mouse report's positions are at least 1 and inside the map's bounds (`StepDefined`), where the source would underflow a usize or index out of bounds.
- Decoder.GetTerminalSize: an input that ends before any event is answered with `NoReply`; the source keeps reading forever.

## Findings

| source | as written | input that shows it | evidently intended | confidence | as-written member | corrected member |
|---|---|---|---|---|---|---|
| src/display/mod.rs:146-159 | a box that ends left of (or above) the screen is not rejected; its clamped right edge and its width are cast to usize and wrap | Placement(frame 1, posX -20, posY 0, lenX 10, lenY 1) on an 80 × 24 display: as written lenX is 2^64 - 10 | such a box is off screen and is skipped, like one that starts right of (below) the screen | not executed | Compose.ClipAsWrittenWraps | Compose.Display.Draw |
| src/display/mod.rs:281-294 | layers are drawn at the frame's unclipped position with the clipped size, so a frame cut on the left shows its layers shifted and shrunk | a layer frame at column -3, 10 wide, on an 80 × 24 display: the frame shows columns 0-7, its layer only 0-4 | every layer covers the layer frame's own box | not executed | Compose.LayerPlacementsAsWrittenShrink | Compose.LayersShareRegion |
