# ST7789 Display HAT Mini driver — Dafny model

This project models the display pipeline of a Rust driver for the Display HAT
Mini. The board is a Raspberry Pi add-on with a 320 x 240 ST7789 TFT panel on
SPI, four buttons and an RGB status LED.

The model covers two source files:

- **The ST7789 protocol layer.** `src/st7789.rs` holds:
  - the command codes;
  - `send_command` and `send_data`, which frame one byte with the data/command (DC) pin;
  - `send_buffer`, which sends a payload in slices of at most 4096 bytes;
  - `set_window`, which sets the column and row address window;
  - `init_display`, the fixed power-up sequence.
- **The driver object.** `DisplayHATMini` in `src/lib.rs` has `init`, `display`, `set_vsync`, `read_buttons`, `set_led` and `display_rgb`. The last one converts RGB888 pixels to big-endian RGB565.

## How the hardware is represented

The SPI bus, the DC pin, the backlight and the LED pins are one `Hardware.Board` object.

- **The log.** Every action is appended to a ghost log of `Event`s:
  - a pin driven low or high;
  - one SPI transfer with its bytes;
  - a pause in milliseconds;
  - software PWM stopped or started on a pin;
  - the tearing-effect input seen high.
- **Failure.** SPI transfers and PWM changes can fail. The board's `budget` is the number of further such actions that succeed. The next one fails and leaves no trace. Every failure point the hardware could produce is therefore some budget.
- **Running a trace.** `Hardware.Run` gives the meaning of a sequence of actions:
  - the actions are attempted in order;
  - the first failure stops the run and is reported.

  This is Rust's `?` operator.
- **What each method promises.** Each driver method ends in the state that `Run` gives for its action trace. The lemmas then prove what the source promises about those traces:
  - the exact bytes and their order;
  - the slicing;
  - the parameter counts of each command;
  - the fail-fast prefix on failure.

`init_display` is written in the source as 64 straight-line steps. The model keeps them as five consecutive methods, one per group of lines: reset and pixel format, power settings, positive gamma, negative gamma, and the final group. `St7789.InitDisplay` runs the five in order. Together they perform exactly the source's steps in the source's order. The split only keeps each proof small. The steps themselves are written out as literal `Script`s, which are cons-lists of command, data and pause steps. `Ops` lists a script's steps.

Where the documented contract and the code differ, the model follows the code:
- A short RGB buffer is not rejected with a size error. The code indexes past its end and panics, so it is a precondition. Longer buffers are accepted and their tail is ignored.
- The vsync wait polls for the tear input's *level* being high, not for an edge.
- `width` and `height` are public fields that start at 320 and 240. They are not constants.
- Errors are the two kinds the code can produce: a bus error from an SPI write, and a GPIO error from a PWM call.

## Model

| member | source | states |
|---|---|---|
| St7789.CodeInjective | src/st7789.rs:10-41 | distinct commands have distinct byte codes; `Code` gives the enum's discriminants (SWRESET 0x01 … PWCTRL1 0xD0) |
| St7789.ExecRun | src/st7789.rs:64-78 | a command step drives DC low and then makes exactly one transfer of the command byte; a data step drives DC high and then transfers the one byte; a failed transfer stops the step |
| St7789.SendCommand | src/st7789.rs:70-78 | send_command's effect is DC low followed by one transfer of the command code, stopping on a bus error |
| St7789.SendData | src/st7789.rs:64-68 | send_data's effect is DC high followed by one transfer of the byte, stopping on a bus error |
| St7789.SendBuffer | src/st7789.rs:43-62 | the chunking loop's effect is DC high once, then one transfer per slice, in order, stopping at the first failed transfer (loop invariant: the rest of the run equals the run of the slices from `start`) |
| St7789.ChunksCover | src/st7789.rs:50-60 | the slices joined in order are exactly the buffer: no gaps, overlaps or reordering |
| St7789.ChunkSizes | src/st7789.rs:49-59 | there are ceil(len / 4096) slices; each is 1..4096 bytes; all but the last are exactly 4096 |
| St7789.ChunkExamples | src/st7789.rs:49-59 | 10000 bytes go out as 4096, 4096, 1808; exactly 4096 bytes as one transfer; an empty buffer as none |
| St7789.BufferFraming | src/st7789.rs:48-58 | send_buffer drives DC high first and never low again; every later action is the transfer of the next slice |
| St7789.BufferFailFast | src/st7789.rs:52-60 | send_buffer succeeds iff every slice's transfer succeeds; otherwise the log is a strict prefix of the success trace that includes DC high, with exactly `budget` slices sent and a bus error returned |
| St7789.BigEndian | src/st7789.rs:89-90 | the two address bytes are the value big-endian (`>> 8`, `& 0xFF`), truncated to 16 bits |
| St7789.SetWindow | src/st7789.rs:80-98 | set_window's effect is the fail-fast run of CASET 0,0,hi(w-1),lo(w-1), RASET 0,0,hi(h-1),lo(h-1), RAMWR, for u32 width and height of at least 1 |
| St7789.FullPanelWindow | src/st7789.rs:86-96 | for 320 x 240 the column bytes are 00 00 01 3F and the row bytes 00 00 00 EF |
| St7789.WindowSends | src/st7789.rs:86-96 | set_window makes 11 one-byte transfers |
| St7789.InitReset | src/st7789.rs:105-119 | SWRESET, a 150 ms pause, MADCTL B0, FRMCTR2 0C 0C 00 33 33, COLMOD 05, fail-fast |
| St7789.InitPower | src/st7789.rs:121-147 | GCTRL 14, VCOMS 37, LCMCTRL 2C, VDVVRHEN 01, VRHS 12, VDVS 20, PWCTRL1 A4 A1, FRCTRL2 0F, fail-fast |
| St7789.InitPositiveGamma | src/st7789.rs:149-163 | GMCTRP1 with its 14 gamma bytes, fail-fast |
| St7789.InitNegativeGamma | src/st7789.rs:165-179 | GMCTRN1 with its 14 gamma bytes, fail-fast |
| St7789.InitFinish | src/st7789.rs:181-191 | INVON if the flag is set, else INVOFF; then SLPOUT, TEON, DISPON and a 100 ms pause; fail-fast |
| St7789.InitDisplay | src/st7789.rs:100-194 | init_display's effect is the fail-fast run of the five groups, in source order |
| St7789.InitShape | src/st7789.rs:105-106 | init_display has 64 steps; it opens with SWRESET and a 150 ms pause and closes with the selected inversion command, SLPOUT, TEON, DISPON and a 100 ms pause, in that order |
| St7789.UsesOps | src/st7789.rs:181-185 | `Uses` is the number of occurrences of a command among a script's steps |
| St7789.InitInversion | src/st7789.rs:181-185 | exactly one of INVON and INVOFF is sent: INVON once iff `invert_display`, INVOFF once otherwise |
| St7789.InitParams | src/st7789.rs:105-190 | every one of the 18 commands sits at its position with exactly its parameter bytes after it, and no further data byte before the next command or pause (MADCTL B0; FRMCTR2 five bytes; COLMOD 05; PWCTRL1 A4 A1; FRCTRL2 0F; GMCTRP1 and GMCTRN1 14 bytes each; …) |
| St7789.InitSends | src/st7789.rs:105-190 | init_display transfers 62 bytes: 18 commands and 44 parameters |
| St7789.ScriptFailFast | src/st7789.rs:86-96 | a fixed step sequence succeeds iff the budget covers its bytes; otherwise it stops with a bus error after a strict prefix of its trace, having made exactly `budget` transfers |
| St7789.InitFailFast | src/st7789.rs:105-190 | init_display succeeds iff 62 transfers succeed; otherwise nothing follows the failed transfer, the log is a strict prefix of the success trace and the error is a bus error |
| Hardware.RunAppend | src/st7789.rs:86-97 | running two action sequences in a row is running their concatenation, the second only if the first succeeded (the `?` chain) |
| Hardware.BusFailFast | src/st7789.rs:58 | any trace whose fallible actions are SPI transfers succeeds iff the budget covers them; otherwise the log is a strict prefix and the error a bus error |
| DisplayHatMini.PixelHighFields | src/lib.rs:133 | the first byte holds red's top five bits above green's top three |
| DisplayHatMini.PixelLowFields | src/lib.rs:134 | the second byte holds green's bits 4..2 above blue's top five |
| DisplayHatMini.PixelValue | src/lib.rs:133-137 | the two bytes are the pixel's RGB565 value (5 bits red, 6 green, 5 blue), most significant byte first |
| DisplayHatMini.PixelExamples | src/lib.rs:133-134 | red → F8 00, green → 07 E0, blue → 00 1F, white → FF FF |
| DisplayHatMini.Frame565 | src/lib.rs:124-141 | the converted frame of `count` pixels has exactly 2·count bytes |
| DisplayHatMini.FrameBytes | src/lib.rs:129-137 | byte 2i of the frame packs pixel i's red and green, byte 2i+1 its green and blue, pixel i being read at 3i, 3i+1, 3i+2 |
| DisplayHatMini.FrameReadsPrefix | src/lib.rs:126-141 | input bytes at or beyond 3·count never affect the output |
| DisplayHatMini.ButtonBits | src/lib.rs:92-99 | the result is below 16 and bit 0, 1, 2, 3 is set iff A, B, X, Y reads low |
| DisplayHatMini.ButtonsExample | src/lib.rs:93-97 | A and X pressed, B and Y released gives 0b0101 |
| DisplayHatMini.ChannelRun | src/lib.rs:102-114 | each LED channel makes one PWM request: 255 stops PWM and drives the pin low, 0 stops PWM and drives it high, 1..254 starts PWM; it succeeds iff that request succeeds |
| DisplayHatMini.LedsFailFast | src/lib.rs:116-121 | set_led succeeds iff three PWM requests succeed; otherwise it returns a GPIO error after setting completely only the channels before the failing one, in the order red, green, blue |
| DisplayHatMini.HatInitFailFast | src/lib.rs:68-78 | init needs 73 successful transfers (62 + 11); with fewer it stops with a bus error after a strict prefix of its trace |
| DisplayHatMini.Driver.constructor | src/lib.rs:62-64 | a new driver is 320 x 240 with vsync off |
| DisplayHatMini.Driver.Init | src/lib.rs:68-78 | init's effect is the fail-fast run of: backlight high, init_display with inversion, set_window(width, height), then the red, green and blue LED pins high |
| DisplayHatMini.Driver.Display | src/lib.rs:80-86 | with vsync on, the tear signal is awaited before any transfer; with vsync off the effect is exactly send_buffer's |
| DisplayHatMini.Driver.SetVsync | src/lib.rs:88-90 | only the vsync flag changes |
| DisplayHatMini.Driver.SetPin | src/lib.rs:102-114 | one LED channel's effect is the fail-fast run of its three-way branch |
| DisplayHatMini.Driver.SetLed | src/lib.rs:101-121 | set_led's effect is the fail-fast run of the red, green and blue channels in that order |
| DisplayHatMini.Driver.DisplayRgb | src/lib.rs:123-146 | the conversion loop fills a fresh buffer with the RGB565 frame of width·height pixels (invariants: offset = 3i, offset_out = 2i, the first 2i bytes are the frame of i pixels), then displays it |

## Left out

- The rppal `Spi`, `Gpio`, `OutputPin` and `InputPin` internals, and the hardware acquisition and SPI clock and mode setup of `DisplayHATMini::new` (src/lib.rs:49-61). They are foreign library calls; they become the abstract `Board`. The constructor keeps only the field defaults.
- Real sleeping (`thread::sleep`): it is recorded as a `Delay(ms)` event.
- The vsync busy-wait (src/lib.rs:82): it becomes one `TearReady` event. The model assumes the tear input eventually reads high; the source spins forever if it never does.
- The PWM duty `1.0 - value / 255.0` and the 2000 Hz frequency (src/lib.rs:107-108): these are floating point; only "PWM started on this pin" is recorded.
- The `Pins` GPIO number enum (src/lib.rs:9-20): these are configuration constants with no logic.
- The content of the boxed errors: only their kind is kept, a bus error or a GPIO error. Setting an output pin high or low cannot fail in rppal and cannot fail here.
- `send_command` takes a raw `u8`. The model takes a `Command`, which is what every caller passes via `Commands::X.u8()`.
- DisplayHatMini.ReadButtons: the input levels are parameters, and the result is returned without the `Ok` wrapper, which the source always returns.
- DisplayHatMini.Driver.DisplayRgb: requires `width * height < 2^32` and at least `3 * width * height` input bytes. The source's u32 product would overflow, and its indexing panics on a shorter buffer.
- St7789.SetWindow: requires a width and height of at least 1. With 0 the source's `width - 1` underflows.
- DisplayHatMini.Driver.Init: requires a width and height of at least 1, for the same reason.
- The `rgb565` vector is a fresh array; `display` receives its contents as a sequence.
- St7789.InitReset, St7789.InitPower, St7789.InitPositiveGamma, St7789.InitNegativeGamma and St7789.InitFinish are consecutive pieces of the single straight-line body of `init_display`. The source has no such helper functions.
