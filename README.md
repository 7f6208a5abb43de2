# SSD1306 text display, modelled in Dafny

This project models the display component of a small Go tool that prints a few lines of text, or a bitmap, on a
128x64 monochrome SSD1306 OLED screen attached over I²C. It also models the simulated screen the tool uses in place
of the hardware. The model covers three versions of the component together with the simulator:

- **v2** (`v2/display/display.go`). A display that is configured with builder methods. It keeps a line buffer of
  `lines` entries (default 5) and an `initialized` gate. It supports single-line writes, run writes and clearing,
  and a commit (`Update`) that draws each line on its baseline. `ShowImage` thresholds a grey image into a one-bit
  frame.
- **the middle version** (`display/display.go`). The same as v2 without `ClearScreen`, `SetFont` and `ShowImage`.
  Its baselines carry no descent term.
- **the internal version** (`internal/display/display.go`). It drives the I²C bus and the device directly and has
  no `initialized` gate. It can load its buffer from a text file. Its single-line write checks the index with `>`,
  where the later versions use `>=`.
- **the simulated SSD1306** (`v2/display/fakedriver/fakedriver.go`, `internal/fakedriver/fakedriver.go`). An RGBA
  frame buffer over the fixed bounds (0,0)-(128,64). `Open` paints it black, and `Draw` blits a one-bit image into
  it with clipping (white for On, black for anything else).

## How the model is built

- **Shared modules.**
  - `GoTypes` holds Go's 64-bit `uint` and `int` and the conversion `int(u)`, which wraps.
  - `Geometry` holds `image.Point`, `image.Rectangle` and `image.Rect`.
  - `Outcomes` says how a Go call can end: nil, one error per `fmt.Errorf` site, or a run-time panic. The panics
    are index out of range, nil dereference, and a `make` that is too large.
- **Line operations.** These are pure functions that return a `Step` (outcome and new buffer). `LineBuffer` holds
  the writes of v2 and the middle version. `InternalDisplay` holds the internal version's own writes
  (`SetLineAsWritten`, `SetRunInternal`), which differ in their checks. `BufferFile.Load` is the internal
  version's file load. Each display method that writes lines or loads the file is proved to have exactly the
  effect of one of these functions. Their meaning is then proved of the functions: all-or-nothing, pointwise
  contents, error cases.
- **Displays.** Each one is a `class` whose fields are the Go struct's fields.
  - Driver calls (v2, middle) and host, bus, device and file requests (internal) go into a ghost log.
  - A collaborator's answers are method parameters. These are the errors from `Open`, `Close`, `Draw`,
    `host.Init`, `i2creg.Open` and `ssd1306.NewI2C`, the bounds a driver reports, and the result of
    `os.ReadFile`. So every branch of the Go code can be reached.
- **Text rendering** (`Render`). A font face is reduced to its line height and descent. A drawn line is a `Stroke`
  (string and dot). A committed frame is a `Canvas` of strokes, or a `Bitmap` for `ShowImage`.
- **The buffer file** (`BufferFile`). `strings.Split(s, "\n")` is modelled with its real edge cases: "" gives
  `[""]`, and n separators give n+1 pieces. The file's truncation to the buffer length is modelled too.
- **The simulator.** `FakeRaster` holds the frame buffer loops shared by both simulators, over an `array2`. Each
  simulator is a `class` whose `buffer` is that array (null before `Open`).

Where the code and its tests disagree, the model follows the code:

- The `Update` test of the internal version (`internal/display/display_test.go:516-529`) expects the commit to
  write `strings.Join(buffer, "\n")` to the buffer file. No version of `Update` writes any file, so that save is
  not modelled. `BufferFile.Join` is that file format, and `BufferFile.SplitJoin` and `BufferFile.LoadJoin` prove
  that loading reads it back.
- The `Init` test of the internal version (`internal/display/display_test.go:239-240`) expects the buffer to have
  exactly `lines` entries after `Init`. In the code a buffer file with fewer lines shrinks the buffer
  (`internal/display/display.go:91-95`), and this is modelled as written. In v2 and the middle version,
  `WithLines` after `Init` changes `lines` without reallocating, also modelled as written.
- The internal version's test file constructs the display with a different `NewDisplay` signature than the code
  has. The code's parameterless constructor is modelled.

## Model

| member | source | states |
|---|---|---|
| GoTypes.Int | v2/display/display.go:118 | `int(u)` is `u` below 2^63 and exactly `u - 2^64` (so negative) above it, always within the int64 range |
| GoTypes.Wrap | v2/display/display.go:131 | int64 addition wraps: the result is in range and congruent to the exact sum modulo 2^64 |
| GoTypes.WrapInRange | v2/display/display.go:131 | a sum already within the int64 range is unchanged by wrapping |
| GoTypes.WrapJustAbove | v2/display/display.go:131 | a sum just past 2^63-1 wraps to a negative int |
| Geometry.Rect | v2/display/fakedriver/fakedriver.go:56 | `image.Rect` orders its corners: its min and max hold the given coordinates, min <= max |
| Outcomes.FromCause | v2/display/display.go:88-93 | a call whose only failure is its collaborator's error succeeds iff that error is nil, and fails with it otherwise |
| LineBuffer.Blank | v2/display/display.go:73 | `make([]string, n)` has n entries, all empty |
| LineBuffer.Overwrite | v2/display/display.go:135-137 | writing a run sets each `buf[start+i]` to `texts[i]` and leaves every other entry alone |
| LineBuffer.OverwriteUnique | v2/display/display.go:135-137 | any buffer agreeing with the run inside it and with the old buffer outside it is that overwrite |
| LineBuffer.WrittenCount | v2/display/display.go:135-136 | the loop completes k iterations; every index written is in range, and an unfinished loop stops at an out-of-range index |
| LineBuffer.WriteRun | v2/display/display.go:135-139 | the write loop ends normally iff the run is empty or fits in the buffer; otherwise it panics keeping the writes made so far |
| LineBuffer.SetLine | v2/display/display.go:118-123 | writing line `line` succeeds iff `line < len(buffer)`, then that entry is `text` and no other changes; beyond, the out-of-range error (or, for `line >= 2^63`, a panic) with the buffer unchanged |
| LineBuffer.SetRun | v2/display/display.go:131-139 | the run is rejected before any write exactly when the (wrapping) sum `line+len(text)` exceeds `lines`, with the "more than len(buffer) lines" error; otherwise it is the write loop |
| LineBuffer.SetRunAllOrNothing | v2/display/display.go:131-139 | with the buffer `lines` long and no overflow: success iff `line+len(text) <= lines`, then exactly the run is written; failure leaves the buffer unchanged |
| LineBuffer.SetRunOverflowPanics | v2/display/display.go:131-137 | with `line = 2^63-1` and one text the capacity check wraps and passes, and the write panics with the buffer unchanged |
| LineBuffer.LoopIndex | v2/display/display.go:135-136 | every index computed before the loop stops is `int(line)+i` exactly, with no wrap-around |
| LineBuffer.PartialStep | v2/display/display.go:135-137 | one iteration writes the next text at the next index and nothing else |
| LineBuffer.SetRunEnds | v2/display/display.go:131-139 | a loop that passed the check and stopped at the end of the run, or at an index outside the buffer, has had exactly the effect of `SetRun` |
| LineBuffer.Written | v2/display/display.go:135-137 | the buffer after the loop's completed iterations is the one `WriteRun` describes, and the run finished iff all of it was written |
| BufferFile.Split | internal/display/display.go:91 | `strings.Split` gives at least one piece and no piece holds a separator |
| BufferFile.Truncate | internal/display/display.go:92-94 | the result is the first `min(len, n)` lines |
| BufferFile.Load | internal/display/display.go:91-95 | the loaded buffer has at most `capacity` lines and at most one more line than the file has characters |
| BufferFile.SplitLength | internal/display/display.go:91 | a string of length n splits into at most n+1 pieces |
| BufferFile.SplitSingle | internal/display/display.go:91 | a string without a separator splits to itself |
| BufferFile.SplitSeparator | internal/display/display.go:91 | splitting `a + "\n" + b` gives `a` followed by the pieces of `b` |
| BufferFile.SplitJoin | internal/display/display.go:91 | joining single-line strings with "\n" and splitting gives them back |
| BufferFile.SplitJoinEmpty | internal/display/display.go:91 | an empty file splits to one empty line, not to none |
| BufferFile.LoadJoin | internal/display/display.go:91-95 | a file written as the joined lines loads back as those lines when they fit, and as the first `capacity` of them otherwise |
| BufferFile.Join | internal/display/display_test.go:525 | the joined file starts with the first line, and single-line strings give one separator fewer than there are lines |
| BufferFile.SeparatorsAppend | internal/display/display_test.go:525 | separators add up when strings are concatenated |
| BufferFile.NoSeparators | internal/display/display_test.go:525 | a single line holds no separator |
| BufferFile.SplitCountsSeparators | internal/display/display.go:91 | the number of pieces is one more than the number of separators |
| Render.Baseline | v2/display/display.go:155 | the first baseline is one line height less the descent; each next one is one line height lower |
| Render.BaselineIncreasing | v2/display/display.go:154-157 | with a positive line height, lines are stacked strictly top to bottom |
| Render.BaselineWithoutDescent | display/display.go:141 | the middle version's baselines are the v2 ones moved down by exactly the descent |
| Render.Layout | v2/display/display.go:154-157 | one stroke per buffer line |
| Render.LayoutExtend | v2/display/display.go:154-157 | laying out one more line appends its stroke at x = 0 on the next baseline |
| Render.IsOnThreshold | v2/display/display.go:186 | grey 128 is off and 129 is on, and a brighter grey is never shown darker than a dimmer one |
| Render.ImagePixel | v2/display/display.go:181-191 | target pixel (x, y) is set iff `Min+(x,y)` passes the upper-bound check, and then it is On iff its grey level exceeds 128 |
| Render.ImageBit | v2/display/display.go:176-191 | the bit `displayImg` holds at (x, y): the thresholded sample when the sample point passes the check, and Off (the value of a new one-bit image) when it does not |
| Render.ImageBits | v2/display/display.go:176-193 | the bitmap has one row per target row and one bit per target column |
| Render.ImageSamplesInside | v2/display/display.go:181-183 | for non-negative target points the check is exactly "the sample lies in the picture" |
| Render.ImageCropped | v2/display/display.go:178-193 | a picture at least as large as the target is cropped, never rejected: every target pixel takes its sample's threshold |
| Render.DrawCountAppend | v2/display/display.go:158 | the number of draws in a concatenated log is the sum of the parts |
| Render.CommitDrawsOnce | v2/display/display.go:147-158 | a commit's calls (bounds, bounds, draw) add exactly one `Draw` |
| Render.ShowDrawsOnce | v2/display/display.go:175-195 | showing an image (bounds, draw) adds exactly one `Draw` |
| DisplayV2.Display.constructor | v2/display/display.go:35-39 | a new display has 5 lines, no driver, no font, an empty buffer and is not initialized |
| DisplayV2.Display.WithLines | v2/display/display.go:41-44 | sets the line count and returns the same display |
| DisplayV2.Display.WithBusName | v2/display/display.go:46-49 | sets the bus name and returns the same display |
| DisplayV2.Display.WithDriver | v2/display/display.go:51-54 | stores the driver as given, nil included, and returns the same display |
| DisplayV2.Display.WithFont | v2/display/display.go:56-60 | sets the face and its line height and returns the same display |
| DisplayV2.Display.Build | v2/display/display.go:62-70 | installs the 7x13 face and its height only when no face is set; a face set before is kept; never an error |
| DisplayV2.Display.Init | v2/display/display.go:72-86 | allocates `lines` empty entries (panicking when `lines` exceeds the int range), creates the hardware driver if none, calls `Open` once; sets `initialized` iff `Open` succeeded, else wraps its error |
| DisplayV2.Display.Close | v2/display/display.go:88-93 | calls the driver's `Close` only when initialized and returns its error; initialized with a nil driver: nil-dereference panic; otherwise nil and no call |
| DisplayV2.Display.ClearLines | v2/display/display.go:95-103 | not initialized: error, buffer unchanged; else every line empty and the length kept |
| DisplayV2.Display.ClearScreen | v2/display/display.go:105-111 | without a guard: no driver panics; otherwise one blank draw over the driver's bounds, failing iff the draw does |
| DisplayV2.Display.PrintLine | v2/display/display.go:113-124 | not initialized: error, buffer unchanged; else exactly `SetLine` |
| DisplayV2.Display.PrintLines | v2/display/display.go:126-140 | not initialized: error, buffer unchanged; else exactly `SetRun` |
| DisplayV2.Display.Update | v2/display/display.go:142-163 | not initialized: error, no call; a nil driver: nil-dereference panic, no call; no face and at least one line, blank or not: nil-dereference panic; else one draw over the full bounds at (0,0) of line i at (0, lineHeight*(1+i)-descent), draw count up by one, failing iff the draw does |
| DisplayV2.Display.SetFont | v2/display/display.go:165-168 | sets the face and its line height |
| DisplayV2.Display.ShowImage | v2/display/display.go:170-200 | not initialized: error, no call; a nil driver: nil-dereference panic, no call; else one draw over the driver's bounds of the thresholded picture, never an error for a size mismatch, failing iff the draw does |
| DisplayV2.Rasterize | v2/display/display.go:176-193 | the nested pixel loop over a fresh one-bit image yields exactly `ImageBits` |
| DisplayV1.Display.constructor | display/display.go:29-33 | a new display has 5 lines, no driver, no font, an empty buffer and is not initialized |
| DisplayV1.Display.WithLines | display/display.go:35-38 | sets the line count and returns the same display |
| DisplayV1.Display.WithBusName | display/display.go:40-43 | sets the bus name and returns the same display |
| DisplayV1.Display.WithDriver | display/display.go:45-48 | stores the driver as given, nil included, and returns the same display |
| DisplayV1.Display.WithFont | display/display.go:50-54 | sets the face and its line height and returns the same display |
| DisplayV1.Display.Build | display/display.go:56-64 | installs the 7x13 face only when no face is set; a face set before is kept |
| DisplayV1.Display.Init | display/display.go:66-80 | allocates `lines` empty entries (panicking when `lines` exceeds the int range), creates the hardware driver if none, opens it; `initialized` only after `Open` succeeds |
| DisplayV1.Display.Close | display/display.go:82-87 | calls the driver's `Close` only when initialized and returns its error; initialized with a nil driver: nil-dereference panic; otherwise nil and no call |
| DisplayV1.Display.Clear | display/display.go:89-97 | not initialized: error, buffer unchanged; else every line empty and the length kept |
| DisplayV1.Display.PrintLine | display/display.go:99-110 | not initialized: error; else exactly `SetLine` |
| DisplayV1.Display.PrintLines | display/display.go:112-126 | not initialized: error; else exactly `SetRun` |
| DisplayV1.Display.Update | display/display.go:128-149 | not initialized: error, no call; a nil driver: nil-dereference panic, no call; no face and a non-empty line: panic; else one draw over the full bounds of line i at (0, lineHeight*(1+i)), with no descent term |
| InternalDisplay.SetLineAsWritten | internal/display/display.go:65-72 | as written: rejects only `line > len(buffer)`, so `line == len(buffer)` panics; smaller lines are written alone |
| InternalDisplay.SetLineAtLengthPanics | internal/display/display.go:66-70 | on a 5-line buffer, line 5 panics here but is the out-of-range error under the `>=` check |
| InternalDisplay.SetLineAsWrittenAgrees | internal/display/display.go:66-70 | the two checks agree on every line other than `len(buffer)` |
| InternalDisplay.SetRunInternal | internal/display/display.go:74-84 | the run is rejected before any write exactly when the (wrapping) `line+len(text)` exceeds `len(buffer)`; otherwise it is the write loop |
| InternalDisplay.SetRunInternalEnds | internal/display/display.go:74-84 | the loop, stopped at the end of the run or at an index outside the buffer, has had exactly the effect of `SetRunInternal` |
| InternalDisplay.SetRunInternalAllOrNothing | internal/display/display.go:74-84 | without overflow: success iff the run fits, then exactly the run written; failure leaves the buffer unchanged; never a panic |
| InternalDisplay.Display.constructor | internal/display/display.go:33-43 | bus /dev/i2c-1, 5 lines, the 7x13 face and its height, no bus, no device, no buffer file |
| InternalDisplay.Display.WithBus | internal/display/display.go:45-48 | sets the bus name and returns the same display |
| InternalDisplay.Display.WithBufferFile | internal/display/display.go:50-53 | sets the buffer file and returns the same display |
| InternalDisplay.Display.Close | internal/display/display.go:55-57 | closes the bus and returns its error; with no bus, a nil-dereference panic |
| InternalDisplay.Display.Clear | internal/display/display.go:59-63 | with no guard, every line empty and the length kept |
| InternalDisplay.Display.PrintLine | internal/display/display.go:65-72 | exactly `SetLineAsWritten` |
| InternalDisplay.Display.PrintLines | internal/display/display.go:74-84 | exactly `SetRunInternal` |
| InternalDisplay.Display.UpdateFromFile | internal/display/display.go:86-100 | no file name: error, nothing read; a missing file changes nothing; an existing one replaces the buffer by its split lines cut to the buffer's length; a read error is returned |
| InternalDisplay.Display.Init | internal/display/display.go:102-130 | host, then `lines` empty entries, then the file load, then the bus, then the device; each failure wraps its cause and stops there |
| InternalDisplay.Display.Update | internal/display/display.go:132-149 | no device: panic; else one draw over the device bounds of line i at (0, lineHeight*(1+i)-Descent), failing iff the draw does |
| FakeRaster.SourcePoint | v2/display/fakedriver/fakedriver.go:157-158 | the source point is offset from `sp` as the target point is from `r.Min` |
| FakeRaster.Shown | v2/display/fakedriver/fakedriver.go:165-173 | a colour is shown white iff it is `On`, and black otherwise |
| FakeRaster.BlitPixel | v2/display/fakedriver/fakedriver.go:157-175 | a pixel outside `r`, or whose source point is outside the source, keeps its colour; a covered one is white iff its source is On |
| FakeRaster.BlitIdempotent | v2/display/fakedriver/fakedriver.go:155-177 | drawing the same image twice leaves the buffer as drawing it once does |
| FakeRaster.BlitCorner | v2/display/fakedriver/fakedriver.go:157-158 | the corner `r.Min` reads the source at `sp` |
| FakeRaster.NewBlack | v2/display/fakedriver/fakedriver.go:94-101 | a fresh buffer over the bounds, every pixel black |
| FakeRaster.Blit | v2/display/fakedriver/fakedriver.go:155-178 | every pixel ends as `BlitPixel` of its previous colour: the clipped, colour-mapped copy, nothing else touched |
| FakeDriverV2.EnvOr | v2/display/fakedriver/fakedriver.go:37-43 | a set, non-empty variable wins; an empty one gives the default |
| FakeDriverV2.ParseUint32 | v2/display/fakedriver/fakedriver.go:49 | `ParseUint(s, 10, 32)` accepts exactly non-empty decimal digit strings whose value is below 2^32 |
| FakeDriverV2.Decimal | v2/display/fakedriver/fakedriver.go:110 | `%d` prints a non-empty string of decimal digits |
| FakeDriverV2.DecimalValue | v2/display/fakedriver/fakedriver.go:49 | the digits that `%d` prints denote the number printed |
| FakeDriverV2.ParseDecimal | v2/display/fakedriver/fakedriver.go:49 | every port below 2^32, once printed, parses back to itself |
| FakeDriverV2.DefaultPortParses | v2/display/fakedriver/fakedriver.go:47-53 | the default "8080" is itself valid |
| FakeDriverV2.ParseRejects | v2/display/fakedriver/fakedriver.go:49-51 | the empty string, a sign and a non-digit are refused |
| FakeDriverV2.ParseRejectsLarge | v2/display/fakedriver/fakedriver.go:49-51 | every value of 2^32 or more, written in decimal, is refused |
| FakeDriverV2.Address | v2/display/fakedriver/fakedriver.go:110 | `"%s:%d"` gives the host, a colon, then the port's decimal digits |
| FakeDriverV2.AddressPort | v2/display/fakedriver/fakedriver.go:110 | the port in a server address parses back to the port, for every port the parser accepts |
| FakeDriverV2.PortFromEnv | v2/display/fakedriver/fakedriver.go:47-53 | the port is the parsed value of the variable, and 8080 when it is unset or invalid |
| FakeDriverV2.FakeSsd1306.constructor | v2/display/fakedriver/fakedriver.go:45-62 | bounds (0,0)-(128,64), no buffer, no server, no clients, address and port from the environment or their defaults |
| FakeDriverV2.FakeSsd1306.WithPort | v2/display/fakedriver/fakedriver.go:64-67 | sets the port and returns the same simulator |
| FakeDriverV2.FakeSsd1306.WithListenAddress | v2/display/fakedriver/fakedriver.go:69-72 | sets the listen address and returns the same simulator |
| FakeDriverV2.FakeSsd1306.SetWaitMode | v2/display/fakedriver/fakedriver.go:74-76 | records the wait mode |
| FakeDriverV2.FakeSsd1306.IsWaitMode | v2/display/fakedriver/fakedriver.go:78-80 | returns the wait mode last set |
| FakeDriverV2.FakeSsd1306.Open | v2/display/fakedriver/fakedriver.go:89-123 | a fresh all-black buffer over the bounds, a server at `listenAddress:port`, never an error |
| FakeDriverV2.FakeSsd1306.Close | v2/display/fakedriver/fakedriver.go:125-139 | with a server: clients dropped, server gone, its close error returned; without one: nothing changes, nil |
| FakeDriverV2.FakeSsd1306.Bounds | v2/display/fakedriver/fakedriver.go:141-143 | always (0,0)-(128,64) |
| FakeDriverV2.FakeSsd1306.Draw | v2/display/fakedriver/fakedriver.go:145-184 | before `Open`: the "not initialized" error and nothing changed; else every pixel is `BlitPixel` of its old colour and the stalled clients are dropped |
| InternalFakeDriver.FakeSsd1306.constructor | internal/fakedriver/fakedriver.go:35-42 | bounds (0,0)-(128,64), port "8080", no buffer, no server, no clients, not blocking |
| InternalFakeDriver.FakeSsd1306.SetBlocking | internal/fakedriver/fakedriver.go:44-46 | records the blocking flag |
| InternalFakeDriver.FakeSsd1306.IsBlocking | internal/fakedriver/fakedriver.go:48-50 | returns the blocking flag last set |
| InternalFakeDriver.FakeSsd1306.SetWaitMode | internal/fakedriver/fakedriver.go:52-54 | records the wait mode |
| InternalFakeDriver.FakeSsd1306.IsWaitMode | internal/fakedriver/fakedriver.go:56-58 | returns the wait mode last set |
| InternalFakeDriver.FakeSsd1306.Open | internal/fakedriver/fakedriver.go:67-101 | a fresh all-black buffer over the bounds, a server at `:port`, never an error |
| InternalFakeDriver.FakeSsd1306.Close | internal/fakedriver/fakedriver.go:103-117 | with a server: clients dropped, server gone, its close error returned; a second close is a no-op returning nil |
| InternalFakeDriver.FakeSsd1306.Bounds | internal/fakedriver/fakedriver.go:119-121 | always (0,0)-(128,64) |
| InternalFakeDriver.FakeSsd1306.Draw | internal/fakedriver/fakedriver.go:123-162 | before `Open`: the error and nothing changed; else every pixel is `BlitPixel` of its old colour and the stalled clients are dropped |

## Left out

- The HTTP server, the event stream, the HTML template handlers, `notifyStatus`, `handleStart`, `WaitForStart`,
  the start channel, the mutex and the goroutines of both simulators are network and concurrency plumbing. A
  running server is modelled only as its listen address `Addr` (`server`).
- `notifyClients`: the PNG encoding and the sends are left out. Its one effect on the model's state, dropping the
  clients whose channel is full, is the `stalled` parameter of `Draw`. A failing PNG encode, which would skip that,
  is not modelled.
- Real hardware (`NewRealSSD1306`, `host.Init`, `i2creg.Open`, `ssd1306.NewI2C`, the device's `Draw` and `Bounds`)
  is foreign code. Its answers are method parameters; `internal/display/interfaces.go` is not part of this model.
- Font rasterisation: `font.Drawer.DrawString` is a `Stroke`, not pixels. `basicfont.Face7x13` is reduced to the
  line height 13 and the descent 2, taken from that library rather than from this repository.
- `color.GrayModel.Convert` is the picture's grey-level function. Only the `> 128` threshold is modelled.
- `ShowImageFromFile`, `image.Decode` and `os.Open` are file I/O and image decoding. `os.ReadFile` is the
  `FileRead` parameter of `UpdateFromFile` and `Init`.
- The command-line programs (`main.go`, `cmd/display1306/main.go`, `v2/cmd/display1306/main.go`) and the test files.
- The buffer-file save on commit, which the code does not implement (see above).
- DisplayV2.Display.Init: only a length beyond the int range panics in the model. Go's `make([]string, d.lines)`
  also panics deterministically ("makeslice: len out of range") once the slice's byte size passes the runtime's
  allocation cap, about 2^44 entries on 64-bit Linux, well below 2^63; that panic, and running out of memory for
  a smaller slice, are not modelled.
- DisplayV1.Display.Init: the same as `DisplayV2.Display.Init`: the `make` at display/display.go:67 panics in the
  model only beyond the int range, not at the runtime's allocation cap below it, and running out of memory is not
  modelled.
- GoTypes.Int, GoTypes.Wrap: the model fixes Go's `int` and `uint` at 64 bits. On a 32-bit target (such as a
  32-bit ARM board) they are 32 bits wide, so `int(u)` and the wrapping sums in `LineBuffer.SetRun` and
  `InternalDisplay.SetRunInternal` wrap at 2^31 and 2^32 instead; that width is not modelled.
- DisplayV2.Display.Update: the strokes record the dot and the text; a glyph falling outside the image is not
  distinguished from one inside it.
- Render.Layout: the dot's y is the exact integer `lineHeight*(1+i)-descent`. The Go `int` product can wrap, and
  `fixed.P` keeps y as a 26.6 fixed-point `int32` (y shifted left by 6), which wraps once y leaves about
  ±2^25. Neither wrap is modelled, so the model is exact only for line heights and line counts that keep y in
  that range, as every real display does.
- DisplayV2.Display.Update: dots as in `Render.Layout`, with no int or 26.6 fixed-point wrap-around.
- DisplayV1.Display.Update: dots as in `Render.Layout`, with no int or 26.6 fixed-point wrap-around.
- InternalDisplay.Display.Update: dots as in `Render.Layout`, with no int or 26.6 fixed-point wrap-around.
- Render.ImagePixel: the sample point `Min + (x, y)` is an exact integer. Go's `int` sums `imgBounds.Min.X + x` and
  `imgBounds.Min.Y + y` wrap for a picture whose bounds lie near the int64 limits; that wrap is not modelled, and
  neither is it in `DisplayV2.Rasterize` and `DisplayV2.Display.ShowImage`, which use it.
- FakeRaster.Blit: pixel coordinates are unbounded integers, so the Go int overflow of `sp.X + (x - r.Min.X)` for
  extreme rectangles is not modelled. The colour a source gives is one of `On`, `Off` or another colour model.
- FakeDriverV2.FakeSsd1306.Open: whether the server actually binds its address is not modelled, since that happens
  in a goroutine whose error is only logged. The log message for an invalid port is not modelled either.

## Findings

| source | as written | input that shows it | evidently intended | confidence | as-written member | corrected member |
|---|---|---|---|---|---|---|
| internal/display/display.go:66-70 | `PrintLine` rejects only `int(line) > len(d.buffer)` | a 5-line buffer and `PrintLine(5, "x")`: the check passes and `d.buffer[5]` panics | reject `line >= len(d.buffer)` with the out-of-range error, as the later versions do | not executed | InternalDisplay.SetLineAtLengthPanics | LineBuffer.SetLine |
