/** The Display HAT Mini driver object: it owns the SPI bus, the data/command
    pin, the backlight, the three LED pins and the button inputs, and offers
    initialisation, full-frame display, RGB888 to RGB565 conversion, the LED
    and the buttons on top of the ST7789 protocol. */
module DisplayHatMini {
  import opened Hardware
  import opened St7789

  /** Rust's `u32`. */
  type u32 = x: int | 0 <= x < 0x1_0000_0000

  const WIDTH: u32 := 320
  const HEIGHT: u32 := 240

  // ---------------------------------------------------------------------
  // RGB565 pixel packing (display_rgb, lines 133-134)

  /** The first output byte of a pixel: the top five bits of red, then the top
      three bits of green. */
  function PixelHigh(r: bv8, g: bv8): byte {
    ((r & 0xF8) | ((g & 0xE0) >> 5)) as int
  }

  /** The second output byte of a pixel: bits 4..2 of green, then the top five
      bits of blue. */
  function PixelLow(g: bv8, b: bv8): byte {
    (((g & 0x1C) << 3) | (b >> 3)) as int
  }

  lemma Shr2(x: bv8) ensures (x >> 2) as int == x as int / 4 {}
  lemma Shr3(x: bv8) ensures (x >> 3) as int == x as int / 8 {}
  lemma Shr5(x: bv8) ensures (x >> 5) as int == x as int / 32 {}
  lemma Low3(x: bv8) ensures (x & 7) as int == x as int % 8 {}
  lemma Low5(x: bv8) ensures (x & 31) as int == x as int % 32 {}

  /** The first byte holds red's top five bits above green's top three. */
  lemma PixelHighFields(r: bv8, g: bv8)
    ensures PixelHigh(r, g) / 8 == r as int / 8
    ensures PixelHigh(r, g) % 8 == g as int / 32
  {
    var b1 := (r & 0xF8) | ((g & 0xE0) >> 5);
    assert b1 >> 3 == r >> 3 && b1 & 7 == g >> 5;
    Shr3(b1);
    Low3(b1);
    Shr3(r);
    Shr5(g);
  }

  /** The second byte holds green's bits 4..2 above blue's top five. */
  lemma PixelLowFields(g: bv8, b: bv8)
    ensures PixelLow(g, b) / 32 == (g as int / 4) % 8
    ensures PixelLow(g, b) % 32 == b as int / 8
  {
    var b2 := ((g & 0x1C) << 3) | (b >> 3);
    assert b2 >> 5 == (g >> 2) & 7 && b2 & 31 == b >> 3;
    Shr5(b2);
    Low5(b2);
    Shr2(g);
    Low3(g >> 2);
    Shr3(b);
  }

  /** The 16-bit RGB565 value of a colour: five bits of red, six of green and
      five of blue, each the top bits of its 8-bit channel. */
  function Rgb565(r: bv8, g: bv8, b: bv8): (v: nat)
    ensures v < 0x1_0000
  {
    (r as int / 8) * 2048 + (g as int / 4) * 32 + b as int / 8
  }

  lemma Assemble(h: int, l: int, r: nat, g: nat, b: nat)
    requires h / 8 == r / 8 && h % 8 == g / 32
    requires l / 32 == (g / 4) % 8 && l % 32 == b / 8
    ensures h * 256 + l == (r / 8) * 2048 + (g / 4) * 32 + b / 8
  {
    assert h == (r / 8) * 8 + g / 32;
    assert l == ((g / 4) % 8) * 32 + b / 8;
    assert g / 32 == (g / 4) / 8;
    assert g / 4 == (g / 32) * 8 + (g / 4) % 8;
  }

  /** The two bytes are the pixel's RGB565 value, big-endian. */
  lemma PixelValue(r: bv8, g: bv8, b: bv8)
    ensures PixelHigh(r, g) * 256 + PixelLow(g, b) == Rgb565(r, g, b)
  {
    PixelHighFields(r, g);
    PixelLowFields(g, b);
    Assemble(PixelHigh(r, g), PixelLow(g, b), r as int, g as int, b as int);
  }

  /** Pure red, green, blue and white. */
  lemma PixelExamples()
    ensures PixelHigh(255, 0) == 0xF8 && PixelLow(0, 0) == 0x00
    ensures PixelHigh(0, 255) == 0x07 && PixelLow(255, 0) == 0xE0
    ensures PixelHigh(0, 0) == 0x00 && PixelLow(0, 255) == 0x1F
    ensures PixelHigh(255, 255) == 0xFF && PixelLow(255, 255) == 0xFF
  {
  }

  /** Byte `k` of the converted frame: even bytes are a pixel's first byte,
      odd bytes its second; pixel `k / 2` is read at `3 * (k / 2)`. */
  function FrameByte(rgb: seq<bv8>, k: nat): byte
    requires 3 * (k / 2) + 2 < |rgb|
  {
    var p := 3 * (k / 2);
    if k % 2 == 0 then PixelHigh(rgb[p], rgb[p + 1]) else PixelLow(rgb[p + 1], rgb[p + 2])
  }

  /** The RGB565 frame of the first `count` pixels of an RGB888 buffer. */
  function Frame565(rgb: seq<bv8>, count: nat): (out: seq<byte>)
    requires 3 * count <= |rgb|
    ensures |out| == 2 * count
  {
    if count == 0 then []
    else
      var p := 3 * (count - 1);
      Frame565(rgb, count - 1) + [PixelHigh(rgb[p], rgb[p + 1]), PixelLow(rgb[p + 1], rgb[p + 2])]
  }

  /** One more pixel appends its two bytes. */
  lemma FrameStep(rgb: seq<bv8>, i: nat)
    requires 3 * i + 3 <= |rgb|
    ensures Frame565(rgb, i + 1) ==
            Frame565(rgb, i) + [PixelHigh(rgb[3 * i], rgb[3 * i + 1]), PixelLow(rgb[3 * i + 1], rgb[3 * i + 2])]
  {
  }

  /** Every output byte is the packing of its own pixel. */
  lemma {:induction false} FrameBytes(rgb: seq<bv8>, count: nat)
    requires 3 * count <= |rgb|
    ensures forall k :: 0 <= k < 2 * count ==> Frame565(rgb, count)[k] == FrameByte(rgb, k)
  {
    if count > 0 {
      FrameBytes(rgb, count - 1);
    }
  }

  /** Input bytes at or beyond `3 * count` never affect the frame. */
  lemma {:induction false} FrameReadsPrefix(rgb: seq<bv8>, count: nat)
    requires 3 * count <= |rgb|
    ensures Frame565(rgb, count) == Frame565(rgb[..3 * count], count)
  {
    var a, b := Frame565(rgb, count), Frame565(rgb[..3 * count], count);
    FrameBytes(rgb, count);
    FrameBytes(rgb[..3 * count], count);
    forall k | 0 <= k < |a|
      ensures a[k] == b[k]
    {
      var p := 3 * (k / 2);
      assert rgb[..3 * count][p] == rgb[p];
      assert rgb[..3 * count][p + 1] == rgb[p + 1];
      assert rgb[..3 * count][p + 2] == rgb[p + 2];
    }
  }

  // ---------------------------------------------------------------------
  // Buttons (read_buttons, lines 92-99)

  /** 1 for a pressed button: the inputs are pulled up, so pressed reads low. */
  function Pressed(l: Level): bv8 {
    if l == Low then 1 else 0
  }

  /** The four button levels packed into the low four bits, A in bit 0, B in
      bit 1, X in bit 2 and Y in bit 3. */
  function ReadButtons(a: Level, b: Level, x: Level, y: Level): byte {
    ((Pressed(y) << 3) | (Pressed(x) << 2) | (Pressed(b) << 1) | Pressed(a)) as int
  }

  /** The result is below 16, and each bit is set exactly when its button
      reads low. */
  lemma ButtonBits(a: Level, b: Level, x: Level, y: Level)
    ensures var r := ReadButtons(a, b, x, y);
      && r < 16
      && (r % 2 == 1 <==> a == Low)
      && ((r / 2) % 2 == 1 <==> b == Low)
      && ((r / 4) % 2 == 1 <==> x == Low)
      && ((r / 8) % 2 == 1 <==> y == Low)
  {
    var v := (Pressed(y) << 3) | (Pressed(x) << 2) | (Pressed(b) << 1) | Pressed(a);
    assert v as int == Pressed(y) as int * 8 + Pressed(x) as int * 4
      + Pressed(b) as int * 2 + Pressed(a) as int;
  }

  /** A and X pressed, B and Y released. */
  lemma ButtonsExample()
    ensures ReadButtons(Low, High, Low, High) == 0x05
  {
  }

  // ---------------------------------------------------------------------
  // LEDs (set_led, lines 101-121)

  /** One LED channel: 255 stops PWM and drives the pin low (fully on, the
      LEDs are active low), 0 stops PWM and drives it high (off), anything in
      between starts PWM. */
  function LedTrace(p: Pin, v: byte): seq<Event> {
    if v >= 255 then [PwmOff(p), Drive(p, Low)]
    else if v > 0 then [PwmOn(p)]
    else [PwmOff(p), Drive(p, High)]
  }

  /** Each channel makes exactly one PWM request, which succeeds exactly when
      the budget allows one more fallible action; on success its whole trace
      is logged. */
  lemma ChannelRun(p: Pin, v: byte, log: seq<Event>, b: nat)
    ensures Run(LedTrace(p, v), log, b) ==
      if b == 0 then Effect(log, Fail(GpioError), 0) else Effect(log + LedTrace(p, v), Pass, b - 1)
  {
    var t := LedTrace(p, v);
    if |t| == 2 {
      RunTwo(t[0], t[1], log, b);
      assert t == [t[0], t[1]];
      assert log + [t[0]] + [t[1]] == log + t;
    } else {
      assert t[1..] == [];
    }
  }

  /** set_led's actions: red, green, then blue. */
  function LedsTrace(red: byte, green: byte, blue: byte): seq<Event> {
    LedTrace(LedRed, red) + LedTrace(LedGreen, green) + LedTrace(LedBlue, blue)
  }

  /** set_led succeeds exactly when three PWM requests succeed.  Otherwise it
      reports a GPIO error, and the channels before the failing one have been
      set completely and nothing else. */
  lemma LedsFailFast(red: byte, green: byte, blue: byte, log: seq<Event>, b: nat)
    ensures var e := Run(LedsTrace(red, green, blue), log, b);
      && (e.status.Pass? <==> 3 <= b)
      && (e.status.Pass? ==> e.log == log + LedsTrace(red, green, blue) && e.budget == b - 3)
      && (e.status.Fail? ==> e.status.error == GpioError)
      && (b == 0 ==> e.log == log)
      && (b == 1 ==> e.log == log + LedTrace(LedRed, red))
      && (b == 2 ==> e.log == log + LedTrace(LedRed, red) + LedTrace(LedGreen, green))
  {
    var tr, tg, tb := LedTrace(LedRed, red), LedTrace(LedGreen, green), LedTrace(LedBlue, blue);
    RunAppend(tr + tg, tb, log, b);
    RunAppend(tr, tg, log, b);
    ChannelRun(LedRed, red, log, b);
    if b > 0 {
      ChannelRun(LedGreen, green, log + tr, b - 1);
      if b > 1 {
        ChannelRun(LedBlue, blue, log + tr + tg, b - 2);
        assert log + tr + tg + tb == log + (tr + tg + tb);
      }
    }
  }

  // ---------------------------------------------------------------------
  // The driver object

  /** display's actions: with vsync on, the tearing-effect signal is awaited
      first; then the buffer is sent. */
  function DisplayTrace(vsync: bool, buf: seq<byte>): seq<Event> {
    (if vsync then [TearReady] else []) + BufferTrace(buf)
  }

  /** The three LED pins driven high (off), red, green, blue. */
  const LedsOff: seq<Event> := [Drive(LedRed, High), Drive(LedGreen, High), Drive(LedBlue, High)]

  /** init's actions: backlight on, init_display with inversion, the window
      over the whole panel, then the LEDs off. */
  function HatInitTrace(w: nat, h: nat): seq<Event>
    requires 1 <= w && 1 <= h
  {
    [Drive(Backlight, High)] + InitTrace(true) + WindowTrace(w, h) + LedsOff
  }

  /** init needs 73 successful transfers: 62 for init_display and 11 for
      set_window.  With fewer it stops with a bus error after a strict prefix
      of its trace, having made exactly as many transfers as the budget
      allowed. */
  lemma HatInitFailFast(w: nat, h: nat, log: seq<Event>, b: nat)
    requires 1 <= w && 1 <= h
    ensures var t := HatInitTrace(w, h); var e := Run(t, log, b);
      && (e.status.Pass? <==> 73 <= b)
      && (e.status.Pass? ==> e.log == log + t)
      && (e.status.Fail? ==>
            var n := |e.log| - |log|;
            && 0 <= n < |t|
            && e.log == log + t[..n]
            && Attempts(t[..n]) == b
            && e.status.error == BusError)
  {
    HatInitAttempts(w, h);
    BusFailFast(HatInitTrace(w, h), log, b);
  }

  /** init's fallible actions are its 73 SPI transfers. */
  lemma HatInitAttempts(w: nat, h: nat)
    requires 1 <= w && 1 <= h
    ensures Attempts(HatInitTrace(w, h)) == 73 && BusOnly(HatInitTrace(w, h))
  {
    var a, i, wt := [Drive(Backlight, High)], InitTrace(true), WindowTrace(w, h);
    InitSends(true);
    FlattenAttempts(InitScript(true));
    WindowSends(w, h);
    FlattenAttempts(WindowScript(w, h));
    AttemptsAppend(a + i + wt, LedsOff);
    AttemptsAppend(a + i, wt);
    AttemptsAppend(a, i);
    assert Attempts(a) == 0 by { assert a[1..] == []; }
    assert Attempts(LedsOff) == 0 by { assert LedsOff[1..][1..][1..] == []; }
    FlattenBusOnly(InitScript(true));
    FlattenBusOnly(WindowScript(w, h));
  }

  /** The number of pixels, `width * height` (line 124). */
  function Pixels(w: u32, h: u32): nat {
    w * h
  }

  class Driver {
    const bus: Board
    var useVsync: bool
    var width: u32
    var height: u32

    /** The driver over its hardware: 320 by 240 pixels, vsync off. */
    constructor (bus: Board)
      ensures this.bus == bus && width == WIDTH && height == HEIGHT && !useVsync
    {
      this.bus := bus;
      width := WIDTH;
      height := HEIGHT;
      useVsync := false;
    }

    /** init: backlight on, init_display with inversion, the window, then the
        LEDs off; stops at the first failed transfer. */
    method Init() returns (r: Outcome)
      requires 1 <= width && 1 <= height
      modifies bus
      ensures Effect(bus.log, r, bus.budget) == Run(HatInitTrace(width, height), old(bus.log), old(bus.budget))
    {
      var a, i, wt := [Drive(Backlight, High)], InitTrace(true), WindowTrace(width, height);
      RunAppend(a + i + wt, LedsOff, bus.log, bus.budget);
      RunAppend(a + i, wt, bus.log, bus.budget);
      RunAppend(a, i, bus.log, bus.budget);
      assert a[1..] == [];
      bus.SetHigh(Backlight);
      :- InitDisplay(bus, true);
      :- SetWindow(bus, width, height);
      RunPass(LedsOff, bus.log, bus.budget);
      assert LedsOff[1..][1..][1..] == [];
      bus.SetHigh(LedRed);
      bus.SetHigh(LedGreen);
      bus.SetHigh(LedBlue);
      r := Pass;
    }

    /** display: with vsync on, wait for the tearing-effect signal; then send
        the buffer.  With vsync off the actions are exactly send_buffer's. */
    method Display(buffer: seq<byte>) returns (r: Outcome)
      modifies bus
      ensures Effect(bus.log, r, bus.budget) == Run(DisplayTrace(useVsync, buffer), old(bus.log), old(bus.budget))
      ensures !useVsync ==> Effect(bus.log, r, bus.budget) == Run(BufferTrace(buffer), old(bus.log), old(bus.budget))
    {
      RunAppend(if useVsync then [TearReady] else [], BufferTrace(buffer), bus.log, bus.budget);
      assert [TearReady][1..] == [];
      if useVsync {
        bus.AwaitTear();
      }
      r := SendBuffer(bus, buffer);
    }

    /** set_vsync: only the flag changes. */
    method SetVsync(useIt: bool)
      modifies this
      ensures useVsync == useIt && width == old(width) && height == old(height)
    {
      useVsync := useIt;
    }

    /** The set_pin closure of set_led, for one LED channel. */
    method SetPin(p: Pin, value: byte) returns (r: Outcome)
      modifies bus
      ensures Effect(bus.log, r, bus.budget) == Run(LedTrace(p, value), old(bus.log), old(bus.budget))
    {
      ChannelRun(p, value, bus.log, bus.budget);
      if value >= 255 {
        :- bus.ClearPwm(p);
        bus.SetLow(p);
      } else if value > 0 {
        :- bus.SetPwm(p);
      } else {
        :- bus.ClearPwm(p);
        bus.SetHigh(p);
      }
      r := Pass;
    }

    /** set_led: red, green, then blue, stopping at the first failure. */
    method SetLed(red: byte, green: byte, blue: byte) returns (r: Outcome)
      modifies bus
      ensures Effect(bus.log, r, bus.budget) == Run(LedsTrace(red, green, blue), old(bus.log), old(bus.budget))
    {
      var tr, tg, tb := LedTrace(LedRed, red), LedTrace(LedGreen, green), LedTrace(LedBlue, blue);
      RunAppend(tr + tg, tb, bus.log, bus.budget);
      RunAppend(tr, tg, bus.log, bus.budget);
      :- SetPin(LedRed, red);
      :- SetPin(LedGreen, green);
      r := SetPin(LedBlue, blue);
    }

    /** display_rgb: converts `width * height` RGB888 pixels into a fresh
        RGB565 buffer, then displays it. */
    method DisplayRgb(rgbBuffer: seq<bv8>) returns (r: Outcome)
      requires Pixels(width, height) < 0x1_0000_0000
      requires 3 * Pixels(width, height) <= |rgbBuffer|
      modifies bus
      ensures Effect(bus.log, r, bus.budget) ==
              Run(DisplayTrace(useVsync, Frame565(rgbBuffer, Pixels(width, height))), old(bus.log), old(bus.budget))
    {
      var count := Pixels(width, height);
      var rgb565 := new byte[count * 2];
      var offset, offsetOut := 0, 0;
      for i := 0 to count
        modifies rgb565
        invariant offset == 3 * i && offsetOut == 2 * i
        invariant rgb565[..2 * i] == Frame565(rgbBuffer, i)
      {
        var red, green, blue := rgbBuffer[offset], rgbBuffer[offset + 1], rgbBuffer[offset + 2];
        ghost var done := rgb565[..offsetOut];
        rgb565[offsetOut] := PixelHigh(red, green);
        rgb565[offsetOut + 1] := PixelLow(green, blue);
        assert rgb565[..offsetOut] == done;
        assert rgb565[..offsetOut + 2] == done + [PixelHigh(red, green), PixelLow(green, blue)];
        FrameStep(rgbBuffer, i);
        offset := offset + 3;
        offsetOut := offsetOut + 2;
      }
      assert rgb565[..] == rgb565[..2 * count];
      r := Display(rgb565[..]);
    }
  }
}
