/** The ST7789 controller protocol: command/data framing on the SPI bus,
    chunked payload transfer, the address window and the initialisation
    sequence.  Each operation is proved to have the effect of `Run` on its
    trace of hardware actions, so it performs them in order and stops at the
    first failure. */
module St7789 {
  import opened Hardware

  /** The controller commands the driver uses. */
  datatype Command =
    | SWRESET | MADCTL | FRMCTR2 | COLMOD | GCTRL | VCOMS | LCMCTRL | VDVVRHEN
    | VRHS | VDVS | FRCTRL2 | GMCTRP1 | GMCTRN1 | INVON | INVOFF | SLPOUT
    | DISPON | CASET | RASET | RAMWR | TEON | PWCTRL1

  /** The byte the controller knows each command by. */
  function Code(c: Command): byte {
    match c
    case SWRESET => 0x01
    case MADCTL => 0x36
    case FRMCTR2 => 0xB2
    case COLMOD => 0x3A
    case GCTRL => 0xB7
    case VCOMS => 0xBB
    case LCMCTRL => 0xC0
    case VDVVRHEN => 0xC2
    case VRHS => 0xC3
    case VDVS => 0xC4
    case FRCTRL2 => 0xC6
    case GMCTRP1 => 0xE0
    case GMCTRN1 => 0xE1
    case INVON => 0x21
    case INVOFF => 0x20
    case SLPOUT => 0x11
    case DISPON => 0x29
    case CASET => 0x2A
    case RASET => 0x2B
    case RAMWR => 0x2C
    case TEON => 0x35
    case PWCTRL1 => 0xD0
  }

  /** No two commands share a byte, so the controller can tell them apart. */
  lemma CodeInjective(c: Command, d: Command)
    ensures Code(c) == Code(d) ==> c == d
  {
    match c
    case SWRESET => {} case MADCTL => {} case FRMCTR2 => {} case COLMOD => {}
    case GCTRL => {} case VCOMS => {} case LCMCTRL => {} case VDVVRHEN => {}
    case VRHS => {} case VDVS => {} case FRCTRL2 => {} case GMCTRP1 => {}
    case GMCTRN1 => {} case INVON => {} case INVOFF => {} case SLPOUT => {}
    case DISPON => {} case CASET => {} case RASET => {} case RAMWR => {}
    case TEON => {} case PWCTRL1 => {}
  }

  /** One step of a fixed controller sequence: a command byte, a parameter
      byte, or a pause. */
  datatype Op = Cmd(c: Command) | Data(d: byte) | Pause(ms: nat)

  /** The hardware actions of one step: a command goes out with DC low, a
      parameter with DC high, each byte alone in one transfer. */
  function OpTrace(op: Op): seq<Event> {
    match op
    case Cmd(c) => [Drive(Dc, Low), Write([Code(c)])]
    case Data(d) => [Drive(Dc, High), Write([d])]
    case Pause(ms) => [Delay(ms)]
  }

  /** The effect of one step, written out case by case. */
  function Exec(op: Op, log: seq<Event>, b: nat): Effect {
    match op
    case Cmd(c) =>
      if b == 0 then Effect(log + [Drive(Dc, Low)], Fail(BusError), 0)
      else Effect(log + [Drive(Dc, Low), Write([Code(c)])], Pass, b - 1)
    case Data(d) =>
      if b == 0 then Effect(log + [Drive(Dc, High)], Fail(BusError), 0)
      else Effect(log + [Drive(Dc, High), Write([d])], Pass, b - 1)
    case Pause(ms) => Effect(log + [Delay(ms)], Pass, b)
  }

  /** `Exec` is the fail-fast run of the step's actions. */
  lemma ExecRun(op: Op, log: seq<Event>, b: nat)
    ensures Exec(op, log, b) == Run(OpTrace(op), log, b)
  {
    match op
    case Cmd(c) =>
      RunTwo(Drive(Dc, Low), Write([Code(c)]), log, b);
      assert log + [Drive(Dc, Low)] + [Write([Code(c)])] == log + [Drive(Dc, Low), Write([Code(c)])];
    case Data(d) =>
      RunTwo(Drive(Dc, High), Write([d]), log, b);
      assert log + [Drive(Dc, High)] + [Write([d])] == log + [Drive(Dc, High), Write([d])];
    case Pause(ms) =>
      assert OpTrace(op)[1..] == [];
  }

  /** A fixed sequence of steps. */
  datatype Script = Done | Then(op: Op, next: Script)

  function Ops(s: Script): seq<Op> {
    match s
    case Done => []
    case Then(op, next) => [op] + Ops(next)
  }

  function Flatten(s: Script): seq<Event> {
    match s
    case Done => []
    case Then(op, next) => OpTrace(op) + Flatten(next)
  }

  /** The steps of a script executed one by one, stopping at a failure. */
  function ExecAll(s: Script, log: seq<Event>, b: nat): Effect {
    match s
    case Done => Effect(log, Pass, b)
    case Then(op, next) =>
      var e := Exec(op, log, b);
      if e.status.Fail? then e else ExecAll(next, e.log, e.budget)
  }

  lemma Next(s: Script, log: seq<Event>, b: nat)
    requires s.Then?
    ensures ExecAll(s, log, b) ==
            var e := Exec(s.op, log, b);
            if e.status.Fail? then e else ExecAll(s.next, e.log, e.budget)
  {
  }

  /** Executing a script step by step is the fail-fast run of its actions. */
  lemma {:induction false} ExecAllRun(s: Script, log: seq<Event>, b: nat)
    ensures ExecAll(s, log, b) == Run(Flatten(s), log, b)
  {
    match s
    case Done =>
    case Then(op, next) =>
      ExecRun(op, log, b);
      RunAppend(OpTrace(op), Flatten(next), log, b);
      var e := Exec(op, log, b);
      if e.status.Pass? {
        ExecAllRun(next, e.log, e.budget);
      }
  }

  /** send_command: DC low, then the command byte. */
  method SendCommand(bus: Board, c: Command) returns (r: Outcome)
    modifies bus
    ensures Effect(bus.log, r, bus.budget) == Exec(Cmd(c), old(bus.log), old(bus.budget))
  {
    bus.SetLow(Dc);
    r := bus.SpiWrite([Code(c)]);
  }

  /** send_data: DC high, then the parameter byte. */
  method SendData(bus: Board, d: byte) returns (r: Outcome)
    modifies bus
    ensures Effect(bus.log, r, bus.budget) == Exec(Data(d), old(bus.log), old(bus.budget))
  {
    bus.SetHigh(Dc);
    r := bus.SpiWrite([d]);
  }

  /** The largest single SPI transfer send_buffer makes. */
  const CHUNK: nat := 4096

  /** The slices send_buffer writes from offset `start` on: each one ends at
      `start + CHUNK` or at the end of the buffer, whichever comes first. */
  function ChunksFrom(buf: seq<byte>, start: nat): seq<seq<byte>>
    decreases |buf| - start
  {
    if start >= |buf| then []
    else
      var end := if start + CHUNK >= |buf| then |buf| else start + CHUNK;
      [buf[start..end]] + ChunksFrom(buf, start + CHUNK)
  }

  function Chunks(buf: seq<byte>): seq<seq<byte>> {
    ChunksFrom(buf, 0)
  }

  /** One SPI transfer per slice, in order. */
  function Transfers(cs: seq<seq<byte>>): seq<Event> {
    if cs == [] then [] else [Write(cs[0])] + Transfers(cs[1..])
  }

  /** send_buffer's actions: DC high once, then the slices. */
  function BufferTrace(buf: seq<byte>): seq<Event> {
    [Drive(Dc, High)] + Transfers(Chunks(buf))
  }

  /** One pass of the send_buffer loop, seen on the trace. */
  lemma RunChunk(buf: seq<byte>, start: nat, log: seq<Event>, b: nat)
    requires start < |buf|
    ensures var end := if start + CHUNK >= |buf| then |buf| else start + CHUNK;
      Run(Transfers(ChunksFrom(buf, start)), log, b) ==
      var s := Step(Write(buf[start..end]), log, b);
      if s.status.Fail? then s else Run(Transfers(ChunksFrom(buf, start + CHUNK)), s.log, s.budget)
  {
    var cs := ChunksFrom(buf, start);
    assert cs[1..] == ChunksFrom(buf, start + CHUNK);
  }

  /** send_buffer: DC high, then the buffer in slices of at most CHUNK bytes,
      stopping at the first failed transfer. */
  method SendBuffer(bus: Board, buf: seq<byte>) returns (r: Outcome)
    modifies bus
    ensures Effect(bus.log, r, bus.budget) == Run(BufferTrace(buf), old(bus.log), old(bus.budget))
  {
    bus.SetHigh(Dc);
    RunAppend([Drive(Dc, High)], Transfers(Chunks(buf)), old(bus.log), old(bus.budget));
    assert [Drive(Dc, High)][1..] == [];
    var start := 0;
    var size := |buf|;
    while start < size
      invariant Run(BufferTrace(buf), old(bus.log), old(bus.budget))
                == Run(Transfers(ChunksFrom(buf, start)), bus.log, bus.budget)
      decreases size - start
    {
      var end := if start + CHUNK >= size then size else start + CHUNK;
      RunChunk(buf, start, bus.log, bus.budget);
      :- bus.SpiWrite(buf[start..end]);
      start := start + CHUNK;
    }
    r := Pass;
  }

  function Concat(cs: seq<seq<byte>>): seq<byte> {
    if cs == [] then [] else cs[0] + Concat(cs[1..])
  }

  /** The slices, joined in order, give back the buffer from `start` on:
      nothing is skipped, repeated or reordered. */
  lemma {:induction false} ChunksCover(buf: seq<byte>, start: nat)
    requires start <= |buf|
    ensures Concat(ChunksFrom(buf, start)) == buf[start..]
    decreases |buf| - start
  {
    if start < |buf| {
      var cs := ChunksFrom(buf, start);
      assert cs[1..] == ChunksFrom(buf, start + CHUNK);
      if start + CHUNK >= |buf| {
        assert cs[1..] == [];
      } else {
        ChunksCover(buf, start + CHUNK);
        assert buf[start..] == buf[start..start + CHUNK] + buf[start + CHUNK..];
      }
    }
  }

  /** Every slice is non-empty and at most CHUNK long, every slice but the
      last is exactly CHUNK long, and there are ceil(n / CHUNK) of them for
      the n bytes left from `start`. */
  lemma {:induction false} ChunkSizes(buf: seq<byte>, start: nat)
    requires start <= |buf|
    ensures var cs := ChunksFrom(buf, start);
      && |cs| == (|buf| - start + CHUNK - 1) / CHUNK
      && (forall i :: 0 <= i < |cs| ==> 0 < |cs[i]| <= CHUNK)
      && (forall i :: 0 <= i < |cs| - 1 ==> |cs[i]| == CHUNK)
    decreases |buf| - start
  {
    var cs := ChunksFrom(buf, start);
    if start < |buf| {
      assert cs[1..] == ChunksFrom(buf, start + CHUNK);
      if start + CHUNK < |buf| {
        ChunkSizes(buf, start + CHUNK);
        assert forall i :: 1 <= i < |cs| ==> cs[i] == cs[1..][i - 1];
      }
    }
  }

  function Lengths(cs: seq<seq<byte>>): seq<nat> {
    if cs == [] then [] else [|cs[0]|] + Lengths(cs[1..])
  }

  /** Worked examples: 10000 bytes go out as 4096, 4096 and 1808 bytes; a
      buffer of exactly CHUNK bytes in one transfer; an empty one in none. */
  lemma ChunkExamples(buf: seq<byte>)
    ensures |buf| == 10000 ==> Lengths(Chunks(buf)) == [4096, 4096, 1808]
    ensures |buf| == 4096 ==> Chunks(buf) == [buf]
    ensures |buf| == 0 ==> Chunks(buf) == []
  {
    var cs := Chunks(buf);
    if |buf| == 10000 {
      assert cs[1..] == ChunksFrom(buf, 4096);
      assert cs[1..][1..] == ChunksFrom(buf, 8192);
      assert ChunksFrom(buf, 12288) == [];
      assert Lengths(cs[1..][1..]) == [1808];
      assert Lengths(cs[1..]) == [4096, 1808];
    } else if |buf| == 4096 {
      assert ChunksFrom(buf, 4096) == [];
      assert buf[0..4096] == buf;
    }
  }

  /** send_buffer drives DC high first and never drives it low: every later
      action is one SPI transfer of the next slice. */
  lemma {:induction false} BufferFraming(buf: seq<byte>)
    ensures BufferTrace(buf)[0] == Drive(Dc, High)
    ensures |BufferTrace(buf)| == |Chunks(buf)| + 1
    ensures forall i :: 1 <= i < |BufferTrace(buf)| ==> BufferTrace(buf)[i] == Write(Chunks(buf)[i - 1])
  {
    TransfersIndex(Chunks(buf));
  }

  lemma {:induction false} TransfersIndex(cs: seq<seq<byte>>)
    ensures |Transfers(cs)| == |cs|
    ensures forall i :: 0 <= i < |cs| ==> Transfers(cs)[i] == Write(cs[i])
  {
    if cs != [] {
      TransfersIndex(cs[1..]);
    }
  }

  lemma {:induction false} TransfersAttempts(cs: seq<seq<byte>>)
    ensures Attempts(Transfers(cs)) == |cs|
  {
    if cs != [] {
      TransfersAttempts(cs[1..]);
      AttemptsAppend([Write(cs[0])], Transfers(cs[1..]));
      assert [Write(cs[0])][1..] == [];
    }
  }

  /** send_buffer's fallible actions are its slice transfers. */
  lemma BufferAttempts(buf: seq<byte>)
    ensures Attempts(BufferTrace(buf)) == |Chunks(buf)|
    ensures BusOnly(BufferTrace(buf))
  {
    var t := BufferTrace(buf);
    TransfersAttempts(Chunks(buf));
    AttemptsAppend([Drive(Dc, High)], Transfers(Chunks(buf)));
    assert [Drive(Dc, High)][1..] == [];
    BufferFraming(buf);
    forall e | e in t
      ensures Fallible(e) ==> e.Write?
    {
      var i :| 0 <= i < |t| && t[i] == e;
    }
  }

  /** send_buffer completes when every slice's transfer succeeds; otherwise
      it stops with a bus error after a strict prefix of its trace that
      includes driving DC high, having sent exactly as many slices as the
      budget allowed. */
  lemma BufferFailFast(buf: seq<byte>, log: seq<Event>, b: nat)
    ensures var t := BufferTrace(buf); var e := Run(t, log, b);
      && (e.status.Pass? <==> |Chunks(buf)| <= b)
      && (e.status.Pass? ==> e.log == log + t)
      && (e.status.Fail? ==>
            var n := |e.log| - |log|;
            && 0 < n < |t|
            && e.log == log + t[..n]
            && Attempts(t[..n]) == b
            && e.status.error == BusError)
  {
    BufferAttempts(buf);
    BusFailFast(BufferTrace(buf), log, b);
    if Run(BufferTrace(buf), log, b).status.Fail? {
      RunFail(BufferTrace(buf), log, b);
    }
  }

  /** The high byte of an address, `(v >> 8) as u8`. */
  function HiByte(v: nat): byte {
    (v / 256) % 256
  }

  /** The low byte of an address, `(v & 0xFF) as u8`. */
  function LoByte(v: nat): byte {
    v % 256
  }

  /** The two bytes are the address big-endian, truncated to 16 bits. */
  lemma BigEndian(v: nat)
    ensures HiByte(v) * 256 + LoByte(v) == v % 65536
  {
  }

  /** set_window's steps: columns 0 .. w-1 after CASET, rows 0 .. h-1 after
      RASET, each as a big-endian start and end address, then RAMWR. */
  function WindowScript(w: nat, h: nat): Script
    requires 1 <= w && 1 <= h
  {
    Then(Cmd(CASET), Then(Data(0x00), Then(Data(0x00),
    Then(Data(HiByte(w - 1)), Then(Data(LoByte(w - 1)),
    Then(Cmd(RASET), Then(Data(0x00), Then(Data(0x00),
    Then(Data(HiByte(h - 1)), Then(Data(LoByte(h - 1)),
    Then(Cmd(RAMWR), Done)))))))))))
  }

  function WindowTrace(w: nat, h: nat): seq<Event>
    requires 1 <= w && 1 <= h
  {
    Flatten(WindowScript(w, h))
  }

  /** set_window, for u32 width and height of at least 1 (the source
      subtracts 1 from each). */
  method SetWindow(bus: Board, w: nat, h: nat) returns (r: Outcome)
    requires 1 <= w < 0x1_0000_0000 && 1 <= h < 0x1_0000_0000
    modifies bus
    ensures Effect(bus.log, r, bus.budget) == Run(WindowTrace(w, h), old(bus.log), old(bus.budget))
  {
    ExecAllRun(WindowScript(w, h), bus.log, bus.budget);
    var wHi, wLo, hHi, hLo := HiByte(w - 1), LoByte(w - 1), HiByte(h - 1), LoByte(h - 1);
    ghost var rest := WindowScript(w, h);
    Next(rest, bus.log, bus.budget); :- SendCommand(bus, CASET); rest := rest.next;
    Next(rest, bus.log, bus.budget); :- SendData(bus, 0x00); rest := rest.next;
    Next(rest, bus.log, bus.budget); :- SendData(bus, 0x00); rest := rest.next;
    Next(rest, bus.log, bus.budget); :- SendData(bus, wHi); rest := rest.next;
    Next(rest, bus.log, bus.budget); :- SendData(bus, wLo); rest := rest.next;
    Next(rest, bus.log, bus.budget); :- SendCommand(bus, RASET); rest := rest.next;
    Next(rest, bus.log, bus.budget); :- SendData(bus, 0x00); rest := rest.next;
    Next(rest, bus.log, bus.budget); :- SendData(bus, 0x00); rest := rest.next;
    Next(rest, bus.log, bus.budget); :- SendData(bus, hHi); rest := rest.next;
    Next(rest, bus.log, bus.budget); :- SendData(bus, hLo); rest := rest.next;
    Next(rest, bus.log, bus.budget); :- SendCommand(bus, RAMWR); rest := rest.next;
    r := Pass;
  }

  /** The full 320 x 240 panel: columns 0x0000 .. 0x013F, rows 0x0000 .. 0x00EF. */
  lemma FullPanelWindow()
    ensures Ops(WindowScript(320, 240)) ==
      [Cmd(CASET), Data(0x00), Data(0x00), Data(0x01), Data(0x3F),
       Cmd(RASET), Data(0x00), Data(0x00), Data(0x00), Data(0xEF),
       Cmd(RAMWR)]
  {
  }

  /** set_window sends 11 bytes. */
  lemma WindowSends(w: nat, h: nat)
    requires 1 <= w && 1 <= h
    ensures Sends(WindowScript(w, h)) == 11
  {
    var t0 := WindowScript(w, h);
    var t1 := t0.next;
    var t2 := t1.next;
    var t3 := t2.next;
    var t4 := t3.next;
    var t5 := t4.next;
    var t6 := t5.next;
    var t7 := t6.next;
    var t8 := t7.next;
    var t9 := t8.next;
    var t10 := t9.next;
    assert t10.next == Done;
    assert Sends(t10) == 1;
    assert Sends(t9) == 2;
    assert Sends(t8) == 3;
    assert Sends(t7) == 4;
    assert Sends(t6) == 5;
    assert Sends(t5) == 6;
    assert Sends(t4) == 7;
    assert Sends(t3) == 8;
    assert Sends(t2) == 9;
    assert Sends(t1) == 10;
    assert Sends(t0) == 11;
  }

  /** The init_display steps at lines 105-119: the software reset, its 150 ms pause, memory access order, porch control and pixel format. */
  function ResetScript(): Script {
    Then(Cmd(SWRESET), Then(Pause(150), Then(Cmd(MADCTL), Then(Data(0xB0),
    Then(Cmd(FRMCTR2), Then(Data(0x0C), Then(Data(0x0C), Then(Data(0x00),
    Then(Data(0x33), Then(Data(0x33), Then(Cmd(COLMOD), Then(Data(0x05),
    Done))))))))))))
  }

  /** The init_display steps at lines 121-147: gate control, VCOM, LCM control, the voltage registers, power control and the 60 Hz frame rate. */
  function PowerScript(): Script {
    Then(Cmd(GCTRL), Then(Data(0x14), Then(Cmd(VCOMS), Then(Data(0x37),
    Then(Cmd(LCMCTRL), Then(Data(0x2C), Then(Cmd(VDVVRHEN), Then(Data(0x01),
    Then(Cmd(VRHS), Then(Data(0x12), Then(Cmd(VDVS), Then(Data(0x20),
    Then(Cmd(PWCTRL1), Then(Data(0xA4), Then(Data(0xA1), Then(Cmd(FRCTRL2),
    Then(Data(0x0F), Done)))))))))))))))))
  }

  /** The init_display steps at lines 149-163: the positive voltage gamma table. */
  function PositiveGammaScript(): Script {
    Then(Cmd(GMCTRP1), Then(Data(0xD0), Then(Data(0x04), Then(Data(0x0D),
    Then(Data(0x11), Then(Data(0x13), Then(Data(0x2B), Then(Data(0x3F),
    Then(Data(0x54), Then(Data(0x4C), Then(Data(0x18), Then(Data(0x0D),
    Then(Data(0x0B), Then(Data(0x1F), Then(Data(0x23), Done)))))))))))))))
  }

  /** The init_display steps at lines 165-179: the negative voltage gamma table. */
  function NegativeGammaScript(): Script {
    Then(Cmd(GMCTRN1), Then(Data(0xD0), Then(Data(0x04), Then(Data(0x0C),
    Then(Data(0x11), Then(Data(0x13), Then(Data(0x2C), Then(Data(0x3F),
    Then(Data(0x44), Then(Data(0x51), Then(Data(0x2F), Then(Data(0x1F),
    Then(Data(0x1F), Then(Data(0x20), Then(Data(0x23), Done)))))))))))))))
  }

  /** The init_display steps at lines 181-191: display inversion on or off, sleep out, tearing effect on, display on and its 100 ms pause. */
  function FinishScript(invert: bool): Script {
    Then(Cmd(if invert then INVON else INVOFF), Then(Cmd(SLPOUT), Then(Cmd(TEON),
    Then(Cmd(DISPON), Then(Pause(100), Done)))))
  }

  method InitReset(bus: Board) returns (r: Outcome)
    modifies bus
    ensures Effect(bus.log, r, bus.budget) == ExecAll(ResetScript(), old(bus.log), old(bus.budget))
  {
    ghost var rest := ResetScript();
    Next(rest, bus.log, bus.budget); :- SendCommand(bus, SWRESET); rest := rest.next;
    Next(rest, bus.log, bus.budget); bus.Sleep(150); rest := rest.next;
    Next(rest, bus.log, bus.budget); :- SendCommand(bus, MADCTL); rest := rest.next;
    Next(rest, bus.log, bus.budget); :- SendData(bus, 0xB0); rest := rest.next;
    Next(rest, bus.log, bus.budget); :- SendCommand(bus, FRMCTR2); rest := rest.next;
    Next(rest, bus.log, bus.budget); :- SendData(bus, 0x0C); rest := rest.next;
    Next(rest, bus.log, bus.budget); :- SendData(bus, 0x0C); rest := rest.next;
    Next(rest, bus.log, bus.budget); :- SendData(bus, 0x00); rest := rest.next;
    Next(rest, bus.log, bus.budget); :- SendData(bus, 0x33); rest := rest.next;
    Next(rest, bus.log, bus.budget); :- SendData(bus, 0x33); rest := rest.next;
    Next(rest, bus.log, bus.budget); :- SendCommand(bus, COLMOD); rest := rest.next;
    Next(rest, bus.log, bus.budget); :- SendData(bus, 0x05); rest := rest.next;
    r := Pass;
  }

  method InitPower(bus: Board) returns (r: Outcome)
    modifies bus
    ensures Effect(bus.log, r, bus.budget) == ExecAll(PowerScript(), old(bus.log), old(bus.budget))
  {
    ghost var rest := PowerScript();
    Next(rest, bus.log, bus.budget); :- SendCommand(bus, GCTRL); rest := rest.next;
    Next(rest, bus.log, bus.budget); :- SendData(bus, 0x14); rest := rest.next;
    Next(rest, bus.log, bus.budget); :- SendCommand(bus, VCOMS); rest := rest.next;
    Next(rest, bus.log, bus.budget); :- SendData(bus, 0x37); rest := rest.next;
    Next(rest, bus.log, bus.budget); :- SendCommand(bus, LCMCTRL); rest := rest.next;
    Next(rest, bus.log, bus.budget); :- SendData(bus, 0x2C); rest := rest.next;
    Next(rest, bus.log, bus.budget); :- SendCommand(bus, VDVVRHEN); rest := rest.next;
    Next(rest, bus.log, bus.budget); :- SendData(bus, 0x01); rest := rest.next;
    Next(rest, bus.log, bus.budget); :- SendCommand(bus, VRHS); rest := rest.next;
    Next(rest, bus.log, bus.budget); :- SendData(bus, 0x12); rest := rest.next;
    Next(rest, bus.log, bus.budget); :- SendCommand(bus, VDVS); rest := rest.next;
    Next(rest, bus.log, bus.budget); :- SendData(bus, 0x20); rest := rest.next;
    Next(rest, bus.log, bus.budget); :- SendCommand(bus, PWCTRL1); rest := rest.next;
    Next(rest, bus.log, bus.budget); :- SendData(bus, 0xA4); rest := rest.next;
    Next(rest, bus.log, bus.budget); :- SendData(bus, 0xA1); rest := rest.next;
    Next(rest, bus.log, bus.budget); :- SendCommand(bus, FRCTRL2); rest := rest.next;
    Next(rest, bus.log, bus.budget); :- SendData(bus, 0x0F); rest := rest.next;
    r := Pass;
  }

  method InitPositiveGamma(bus: Board) returns (r: Outcome)
    modifies bus
    ensures Effect(bus.log, r, bus.budget) == ExecAll(PositiveGammaScript(), old(bus.log), old(bus.budget))
  {
    ghost var rest := PositiveGammaScript();
    Next(rest, bus.log, bus.budget); :- SendCommand(bus, GMCTRP1); rest := rest.next;
    Next(rest, bus.log, bus.budget); :- SendData(bus, 0xD0); rest := rest.next;
    Next(rest, bus.log, bus.budget); :- SendData(bus, 0x04); rest := rest.next;
    Next(rest, bus.log, bus.budget); :- SendData(bus, 0x0D); rest := rest.next;
    Next(rest, bus.log, bus.budget); :- SendData(bus, 0x11); rest := rest.next;
    Next(rest, bus.log, bus.budget); :- SendData(bus, 0x13); rest := rest.next;
    Next(rest, bus.log, bus.budget); :- SendData(bus, 0x2B); rest := rest.next;
    Next(rest, bus.log, bus.budget); :- SendData(bus, 0x3F); rest := rest.next;
    Next(rest, bus.log, bus.budget); :- SendData(bus, 0x54); rest := rest.next;
    Next(rest, bus.log, bus.budget); :- SendData(bus, 0x4C); rest := rest.next;
    Next(rest, bus.log, bus.budget); :- SendData(bus, 0x18); rest := rest.next;
    Next(rest, bus.log, bus.budget); :- SendData(bus, 0x0D); rest := rest.next;
    Next(rest, bus.log, bus.budget); :- SendData(bus, 0x0B); rest := rest.next;
    Next(rest, bus.log, bus.budget); :- SendData(bus, 0x1F); rest := rest.next;
    Next(rest, bus.log, bus.budget); :- SendData(bus, 0x23); rest := rest.next;
    r := Pass;
  }

  method InitNegativeGamma(bus: Board) returns (r: Outcome)
    modifies bus
    ensures Effect(bus.log, r, bus.budget) == ExecAll(NegativeGammaScript(), old(bus.log), old(bus.budget))
  {
    ghost var rest := NegativeGammaScript();
    Next(rest, bus.log, bus.budget); :- SendCommand(bus, GMCTRN1); rest := rest.next;
    Next(rest, bus.log, bus.budget); :- SendData(bus, 0xD0); rest := rest.next;
    Next(rest, bus.log, bus.budget); :- SendData(bus, 0x04); rest := rest.next;
    Next(rest, bus.log, bus.budget); :- SendData(bus, 0x0C); rest := rest.next;
    Next(rest, bus.log, bus.budget); :- SendData(bus, 0x11); rest := rest.next;
    Next(rest, bus.log, bus.budget); :- SendData(bus, 0x13); rest := rest.next;
    Next(rest, bus.log, bus.budget); :- SendData(bus, 0x2C); rest := rest.next;
    Next(rest, bus.log, bus.budget); :- SendData(bus, 0x3F); rest := rest.next;
    Next(rest, bus.log, bus.budget); :- SendData(bus, 0x44); rest := rest.next;
    Next(rest, bus.log, bus.budget); :- SendData(bus, 0x51); rest := rest.next;
    Next(rest, bus.log, bus.budget); :- SendData(bus, 0x2F); rest := rest.next;
    Next(rest, bus.log, bus.budget); :- SendData(bus, 0x1F); rest := rest.next;
    Next(rest, bus.log, bus.budget); :- SendData(bus, 0x1F); rest := rest.next;
    Next(rest, bus.log, bus.budget); :- SendData(bus, 0x20); rest := rest.next;
    Next(rest, bus.log, bus.budget); :- SendData(bus, 0x23); rest := rest.next;
    r := Pass;
  }

  method InitFinish(bus: Board, invert: bool) returns (r: Outcome)
    modifies bus
    ensures Effect(bus.log, r, bus.budget) == ExecAll(FinishScript(invert), old(bus.log), old(bus.budget))
  {
    ghost var rest := FinishScript(invert);
    if invert {
      Next(rest, bus.log, bus.budget);
      :- SendCommand(bus, INVON);
      rest := rest.next;
    } else {
      Next(rest, bus.log, bus.budget);
      :- SendCommand(bus, INVOFF);
      rest := rest.next;
    }
    Next(rest, bus.log, bus.budget); :- SendCommand(bus, SLPOUT); rest := rest.next;
    Next(rest, bus.log, bus.budget); :- SendCommand(bus, TEON); rest := rest.next;
    Next(rest, bus.log, bus.budget); :- SendCommand(bus, DISPON); rest := rest.next;
    Next(rest, bus.log, bus.budget); bus.Sleep(100); rest := rest.next;
    r := Pass;
  }

  function Append(s: Script, t: Script): Script {
    match s
    case Done => t
    case Then(op, next) => Then(op, Append(next, t))
  }

  /** Executing two scripts back to back: the second starts only if the
      first succeeded. */
  lemma {:induction false} ExecAllAppend(s: Script, t: Script, log: seq<Event>, b: nat)
    ensures ExecAll(Append(s, t), log, b) ==
            var e := ExecAll(s, log, b);
            if e.status.Fail? then e else ExecAll(t, e.log, e.budget)
  {
    match s
    case Done =>
    case Then(op, next) =>
      var e := Exec(op, log, b);
      if e.status.Pass? {
        ExecAllAppend(next, t, e.log, e.budget);
      }
  }

  /** init_display's whole sequence, lines 105-191, in source order. */
  function InitScript(invert: bool): Script {
    Append(ResetScript(), Append(PowerScript(), Append(PositiveGammaScript(),
      Append(NegativeGammaScript(), FinishScript(invert)))))
  }

  function InitTrace(invert: bool): seq<Event> {
    Flatten(InitScript(invert))
  }

  /** init_display: the whole initialisation sequence, stopping at the first
      failed transfer. */
  method InitDisplay(bus: Board, invert: bool) returns (r: Outcome)
    modifies bus
    ensures Effect(bus.log, r, bus.budget) == Run(InitTrace(invert), old(bus.log), old(bus.budget))
  {
    ExecAllRun(InitScript(invert), bus.log, bus.budget);
    ghost var rest := Append(PowerScript(), Append(PositiveGammaScript(),
      Append(NegativeGammaScript(), FinishScript(invert))));
    ExecAllAppend(ResetScript(), rest, bus.log, bus.budget);
    :- InitReset(bus);
    rest := Append(PositiveGammaScript(), Append(NegativeGammaScript(), FinishScript(invert)));
    ExecAllAppend(PowerScript(), rest, bus.log, bus.budget);
    :- InitPower(bus);
    rest := Append(NegativeGammaScript(), FinishScript(invert));
    ExecAllAppend(PositiveGammaScript(), rest, bus.log, bus.budget);
    :- InitPositiveGamma(bus);
    ExecAllAppend(NegativeGammaScript(), FinishScript(invert), bus.log, bus.budget);
    :- InitNegativeGamma(bus);
    r := InitFinish(bus, invert);
  }

  lemma {:induction false} OpsAppend(s: Script, t: Script)
    ensures Ops(Append(s, t)) == Ops(s) + Ops(t)
  {
    match s
    case Done =>
    case Then(o, next) =>
      OpsAppend(next, t);
  }

  /** The number of bytes a script sends, one transfer each. */
  function Sends(s: Script): nat {
    match s
    case Done => 0
    case Then(o, next) => (if o.Pause? then 0 else 1) + Sends(next)
  }

  lemma {:induction false} SendsAppend(s: Script, t: Script)
    ensures Sends(Append(s, t)) == Sends(s) + Sends(t)
  {
    match s
    case Done =>
    case Then(o, next) =>
      SendsAppend(next, t);
  }

  /** The number of times a script sends command `c`. */
  function Uses(s: Script, c: Command): nat {
    match s
    case Done => 0
    case Then(o, next) => (if o == Cmd(c) then 1 else 0) + Uses(next, c)
  }

  lemma {:induction false} UsesAppend(s: Script, t: Script, c: Command)
    ensures Uses(Append(s, t), c) == Uses(s, c) + Uses(t, c)
  {
    match s
    case Done =>
    case Then(o, next) =>
      UsesAppend(next, t, c);
  }

  /** `Uses` counts the occurrences of the command among a script's steps. */
  lemma {:induction false} UsesOps(s: Script, c: Command)
    ensures Uses(s, c) == multiset(Ops(s))[Cmd(c)]
  {
    match s
    case Done =>
    case Then(o, next) =>
      UsesOps(next, c);
      assert Ops(s) == [o] + Ops(next);
  }

  /** Every byte a script sends is one fallible transfer, and nothing else is. */
  lemma {:induction false} FlattenAttempts(s: Script)
    ensures Attempts(Flatten(s)) == Sends(s)
  {
    match s
    case Done =>
    case Then(o, next) =>
      FlattenAttempts(next);
      AttemptsAppend(OpTrace(o), Flatten(next));
      match o
      case Cmd(c) =>
        assert OpTrace(o)[1..][1..] == [];
      case Data(d) =>
        assert OpTrace(o)[1..][1..] == [];
      case Pause(ms) =>
        assert OpTrace(o)[1..] == [];
  }

  /** Every fallible action of a script's trace is an SPI transfer. */
  lemma {:induction false} FlattenBusOnly(s: Script)
    ensures BusOnly(Flatten(s))
  {
    match s
    case Done =>
    case Then(o, next) =>
      FlattenBusOnly(next);
      assert Flatten(s) == OpTrace(o) + Flatten(next);
  }

  /** The steps of ResetScript in order. */
  lemma ResetTable()
    ensures Ops(ResetScript()) ==
      [Cmd(SWRESET), Pause(150), Cmd(MADCTL), Data(0xB0), Cmd(FRMCTR2), Data(0x0C),
        Data(0x0C), Data(0x00), Data(0x33), Data(0x33), Cmd(COLMOD), Data(0x05)]
  {
    var t0 := ResetScript();
    var t1 := t0.next;
    var t2 := t1.next;
    var t3 := t2.next;
    var t4 := t3.next;
    var t5 := t4.next;
    var t6 := t5.next;
    var t7 := t6.next;
    var t8 := t7.next;
    var t9 := t8.next;
    var t10 := t9.next;
    var t11 := t10.next;
    assert t11.next == Done;
    assert Ops(t11) == [t11.op];
    assert Ops(t10) == [t10.op] + Ops(t11);
    assert Ops(t9) == [t9.op] + Ops(t10);
    assert Ops(t8) == [t8.op] + Ops(t9);
    assert Ops(t7) == [t7.op] + Ops(t8);
    assert Ops(t6) == [t6.op] + Ops(t7);
    assert Ops(t5) == [t5.op] + Ops(t6);
    assert Ops(t4) == [t4.op] + Ops(t5);
    assert Ops(t3) == [t3.op] + Ops(t4);
    assert Ops(t2) == [t2.op] + Ops(t3);
    assert Ops(t1) == [t1.op] + Ops(t2);
    assert Ops(t0) == [t0.op] + Ops(t1);
    assert Ops(t0) == [t0.op, t1.op, t2.op, t3.op, t4.op, t5.op, t6.op, t7.op, t8.op,
      t9.op, t10.op, t11.op];
  }

  /** ResetScript: its size, the bytes it sends, its inversion commands,
      and that it starts with a command. */
  lemma ResetCounts()
    ensures |Ops(ResetScript())| == 12 && Sends(ResetScript()) == 11
    ensures Uses(ResetScript(), INVON) == 0
    ensures Uses(ResetScript(), INVOFF) == 0
    ensures Ops(ResetScript())[0].Cmd?
  {
    var t0 := ResetScript();
    var t1 := t0.next;
    var t2 := t1.next;
    var t3 := t2.next;
    var t4 := t3.next;
    var t5 := t4.next;
    var t6 := t5.next;
    var t7 := t6.next;
    var t8 := t7.next;
    var t9 := t8.next;
    var t10 := t9.next;
    var t11 := t10.next;
    assert t11.next == Done;
    assert Sends(t11) == 1 && |Ops(t11)| == 1;
    assert Uses(t11, INVON) == 0 && Uses(t11, INVOFF) == 0;
    assert Sends(t7) == 5 && |Ops(t7)| == 5;
    assert Uses(t7, INVON) == 0 && Uses(t7, INVOFF) == 0;
    assert Sends(t3) == 9 && |Ops(t3)| == 9;
    assert Uses(t3, INVON) == 0 && Uses(t3, INVOFF) == 0;
    assert Ops(t0) == [t0.op] + Ops(t1);
  }

  /** The steps of PowerScript in order. */
  lemma PowerTable()
    ensures Ops(PowerScript()) ==
      [Cmd(GCTRL), Data(0x14), Cmd(VCOMS), Data(0x37), Cmd(LCMCTRL), Data(0x2C),
        Cmd(VDVVRHEN), Data(0x01), Cmd(VRHS), Data(0x12), Cmd(VDVS), Data(0x20),
        Cmd(PWCTRL1), Data(0xA4), Data(0xA1), Cmd(FRCTRL2), Data(0x0F)]
  {
    var t0 := PowerScript();
    var t1 := t0.next;
    var t2 := t1.next;
    var t3 := t2.next;
    var t4 := t3.next;
    var t5 := t4.next;
    var t6 := t5.next;
    var t7 := t6.next;
    var t8 := t7.next;
    var t9 := t8.next;
    var t10 := t9.next;
    var t11 := t10.next;
    var t12 := t11.next;
    var t13 := t12.next;
    var t14 := t13.next;
    var t15 := t14.next;
    var t16 := t15.next;
    assert t16.next == Done;
    assert Ops(t16) == [t16.op];
    assert Ops(t15) == [t15.op] + Ops(t16);
    assert Ops(t14) == [t14.op] + Ops(t15);
    assert Ops(t13) == [t13.op] + Ops(t14);
    assert Ops(t12) == [t12.op] + Ops(t13);
    assert Ops(t11) == [t11.op] + Ops(t12);
    assert Ops(t10) == [t10.op] + Ops(t11);
    assert Ops(t9) == [t9.op] + Ops(t10);
    assert Ops(t8) == [t8.op] + Ops(t9);
    assert Ops(t7) == [t7.op] + Ops(t8);
    assert Ops(t6) == [t6.op] + Ops(t7);
    assert Ops(t5) == [t5.op] + Ops(t6);
    assert Ops(t4) == [t4.op] + Ops(t5);
    assert Ops(t3) == [t3.op] + Ops(t4);
    assert Ops(t2) == [t2.op] + Ops(t3);
    assert Ops(t1) == [t1.op] + Ops(t2);
    assert Ops(t0) == [t0.op] + Ops(t1);
    assert Ops(t0) == [t0.op, t1.op, t2.op, t3.op, t4.op, t5.op, t6.op, t7.op, t8.op,
      t9.op, t10.op, t11.op, t12.op, t13.op, t14.op, t15.op, t16.op];
  }

  /** PowerScript: its size, the bytes it sends, its inversion commands,
      and that it starts with a command. */
  lemma PowerCounts()
    ensures |Ops(PowerScript())| == 17 && Sends(PowerScript()) == 17
    ensures Uses(PowerScript(), INVON) == 0
    ensures Uses(PowerScript(), INVOFF) == 0
    ensures Ops(PowerScript())[0].Cmd?
  {
    var t0 := PowerScript();
    var t1 := t0.next;
    var t2 := t1.next;
    var t3 := t2.next;
    var t4 := t3.next;
    var t5 := t4.next;
    var t6 := t5.next;
    var t7 := t6.next;
    var t8 := t7.next;
    var t9 := t8.next;
    var t10 := t9.next;
    var t11 := t10.next;
    var t12 := t11.next;
    var t13 := t12.next;
    var t14 := t13.next;
    var t15 := t14.next;
    var t16 := t15.next;
    assert t16.next == Done;
    assert Sends(t16) == 1 && |Ops(t16)| == 1;
    assert Uses(t16, INVON) == 0 && Uses(t16, INVOFF) == 0;
    assert Sends(t12) == 5 && |Ops(t12)| == 5;
    assert Uses(t12, INVON) == 0 && Uses(t12, INVOFF) == 0;
    assert Sends(t8) == 9 && |Ops(t8)| == 9;
    assert Uses(t8, INVON) == 0 && Uses(t8, INVOFF) == 0;
    assert Sends(t4) == 13 && |Ops(t4)| == 13;
    assert Uses(t4, INVON) == 0 && Uses(t4, INVOFF) == 0;
    assert Sends(t0) == 17 && |Ops(t0)| == 17;
    assert Uses(t0, INVON) == 0 && Uses(t0, INVOFF) == 0;
    assert Ops(t0) == [t0.op] + Ops(t1);
  }

  /** The steps of PositiveGammaScript in order. */
  lemma PositiveGammaTable()
    ensures Ops(PositiveGammaScript()) ==
      [Cmd(GMCTRP1), Data(0xD0), Data(0x04), Data(0x0D), Data(0x11), Data(0x13),
        Data(0x2B), Data(0x3F), Data(0x54), Data(0x4C), Data(0x18), Data(0x0D), Data(0x0B),
        Data(0x1F), Data(0x23)]
  {
    var t0 := PositiveGammaScript();
    var t1 := t0.next;
    var t2 := t1.next;
    var t3 := t2.next;
    var t4 := t3.next;
    var t5 := t4.next;
    var t6 := t5.next;
    var t7 := t6.next;
    var t8 := t7.next;
    var t9 := t8.next;
    var t10 := t9.next;
    var t11 := t10.next;
    var t12 := t11.next;
    var t13 := t12.next;
    var t14 := t13.next;
    assert t14.next == Done;
    assert Ops(t14) == [t14.op];
    assert Ops(t13) == [t13.op] + Ops(t14);
    assert Ops(t12) == [t12.op] + Ops(t13);
    assert Ops(t11) == [t11.op] + Ops(t12);
    assert Ops(t10) == [t10.op] + Ops(t11);
    assert Ops(t9) == [t9.op] + Ops(t10);
    assert Ops(t8) == [t8.op] + Ops(t9);
    assert Ops(t7) == [t7.op] + Ops(t8);
    assert Ops(t6) == [t6.op] + Ops(t7);
    assert Ops(t5) == [t5.op] + Ops(t6);
    assert Ops(t4) == [t4.op] + Ops(t5);
    assert Ops(t3) == [t3.op] + Ops(t4);
    assert Ops(t2) == [t2.op] + Ops(t3);
    assert Ops(t1) == [t1.op] + Ops(t2);
    assert Ops(t0) == [t0.op] + Ops(t1);
    assert Ops(t0) == [t0.op, t1.op, t2.op, t3.op, t4.op, t5.op, t6.op, t7.op, t8.op,
      t9.op, t10.op, t11.op, t12.op, t13.op, t14.op];
  }

  /** PositiveGammaScript: its size, the bytes it sends, its inversion commands,
      and that it starts with a command. */
  lemma PositiveGammaCounts()
    ensures |Ops(PositiveGammaScript())| == 15 && Sends(PositiveGammaScript()) == 15
    ensures Uses(PositiveGammaScript(), INVON) == 0
    ensures Uses(PositiveGammaScript(), INVOFF) == 0
    ensures Ops(PositiveGammaScript())[0].Cmd?
  {
    var t0 := PositiveGammaScript();
    var t1 := t0.next;
    var t2 := t1.next;
    var t3 := t2.next;
    var t4 := t3.next;
    var t5 := t4.next;
    var t6 := t5.next;
    var t7 := t6.next;
    var t8 := t7.next;
    var t9 := t8.next;
    var t10 := t9.next;
    var t11 := t10.next;
    var t12 := t11.next;
    var t13 := t12.next;
    var t14 := t13.next;
    assert t14.next == Done;
    assert Sends(t14) == 1 && |Ops(t14)| == 1;
    assert Uses(t14, INVON) == 0 && Uses(t14, INVOFF) == 0;
    assert Sends(t10) == 5 && |Ops(t10)| == 5;
    assert Uses(t10, INVON) == 0 && Uses(t10, INVOFF) == 0;
    assert Sends(t6) == 9 && |Ops(t6)| == 9;
    assert Uses(t6, INVON) == 0 && Uses(t6, INVOFF) == 0;
    assert Sends(t2) == 13 && |Ops(t2)| == 13;
    assert Uses(t2, INVON) == 0 && Uses(t2, INVOFF) == 0;
    assert Ops(t0) == [t0.op] + Ops(t1);
  }

  /** The steps of NegativeGammaScript in order. */
  lemma NegativeGammaTable()
    ensures Ops(NegativeGammaScript()) ==
      [Cmd(GMCTRN1), Data(0xD0), Data(0x04), Data(0x0C), Data(0x11), Data(0x13),
        Data(0x2C), Data(0x3F), Data(0x44), Data(0x51), Data(0x2F), Data(0x1F), Data(0x1F),
        Data(0x20), Data(0x23)]
  {
    var t0 := NegativeGammaScript();
    var t1 := t0.next;
    var t2 := t1.next;
    var t3 := t2.next;
    var t4 := t3.next;
    var t5 := t4.next;
    var t6 := t5.next;
    var t7 := t6.next;
    var t8 := t7.next;
    var t9 := t8.next;
    var t10 := t9.next;
    var t11 := t10.next;
    var t12 := t11.next;
    var t13 := t12.next;
    var t14 := t13.next;
    assert t14.next == Done;
    assert Ops(t14) == [t14.op];
    assert Ops(t13) == [t13.op] + Ops(t14);
    assert Ops(t12) == [t12.op] + Ops(t13);
    assert Ops(t11) == [t11.op] + Ops(t12);
    assert Ops(t10) == [t10.op] + Ops(t11);
    assert Ops(t9) == [t9.op] + Ops(t10);
    assert Ops(t8) == [t8.op] + Ops(t9);
    assert Ops(t7) == [t7.op] + Ops(t8);
    assert Ops(t6) == [t6.op] + Ops(t7);
    assert Ops(t5) == [t5.op] + Ops(t6);
    assert Ops(t4) == [t4.op] + Ops(t5);
    assert Ops(t3) == [t3.op] + Ops(t4);
    assert Ops(t2) == [t2.op] + Ops(t3);
    assert Ops(t1) == [t1.op] + Ops(t2);
    assert Ops(t0) == [t0.op] + Ops(t1);
    assert Ops(t0) == [t0.op, t1.op, t2.op, t3.op, t4.op, t5.op, t6.op, t7.op, t8.op,
      t9.op, t10.op, t11.op, t12.op, t13.op, t14.op];
  }

  /** NegativeGammaScript: its size, the bytes it sends, its inversion commands,
      and that it starts with a command. */
  lemma NegativeGammaCounts()
    ensures |Ops(NegativeGammaScript())| == 15 && Sends(NegativeGammaScript()) == 15
    ensures Uses(NegativeGammaScript(), INVON) == 0
    ensures Uses(NegativeGammaScript(), INVOFF) == 0
    ensures Ops(NegativeGammaScript())[0].Cmd?
  {
    var t0 := NegativeGammaScript();
    var t1 := t0.next;
    var t2 := t1.next;
    var t3 := t2.next;
    var t4 := t3.next;
    var t5 := t4.next;
    var t6 := t5.next;
    var t7 := t6.next;
    var t8 := t7.next;
    var t9 := t8.next;
    var t10 := t9.next;
    var t11 := t10.next;
    var t12 := t11.next;
    var t13 := t12.next;
    var t14 := t13.next;
    assert t14.next == Done;
    assert Sends(t14) == 1 && |Ops(t14)| == 1;
    assert Uses(t14, INVON) == 0 && Uses(t14, INVOFF) == 0;
    assert Sends(t10) == 5 && |Ops(t10)| == 5;
    assert Uses(t10, INVON) == 0 && Uses(t10, INVOFF) == 0;
    assert Sends(t6) == 9 && |Ops(t6)| == 9;
    assert Uses(t6, INVON) == 0 && Uses(t6, INVOFF) == 0;
    assert Sends(t2) == 13 && |Ops(t2)| == 13;
    assert Uses(t2, INVON) == 0 && Uses(t2, INVOFF) == 0;
    assert Ops(t0) == [t0.op] + Ops(t1);
  }

  /** The steps of FinishScript in order. */
  lemma FinishTable(invert: bool)
    ensures Ops(FinishScript(invert)) ==
      [Cmd(if invert then INVON else INVOFF), Cmd(SLPOUT), Cmd(TEON), Cmd(DISPON),
        Pause(100)]
  {
    var t0 := FinishScript(invert);
    var t1 := t0.next;
    var t2 := t1.next;
    var t3 := t2.next;
    var t4 := t3.next;
    assert t4.next == Done;
    assert Ops(t4) == [t4.op];
    assert Ops(t3) == [t3.op] + Ops(t4);
    assert Ops(t2) == [t2.op] + Ops(t3);
    assert Ops(t1) == [t1.op] + Ops(t2);
    assert Ops(t0) == [t0.op] + Ops(t1);
    assert Ops(t0) == [t0.op, t1.op, t2.op, t3.op, t4.op];
  }

  /** FinishScript: its size, the bytes it sends, its inversion commands,
      and that it starts with a command. */
  lemma FinishCounts(invert: bool)
    ensures |Ops(FinishScript(invert))| == 5 && Sends(FinishScript(invert)) == 4
    ensures Uses(FinishScript(invert), INVON) == (if invert then 1 else 0)
    ensures Uses(FinishScript(invert), INVOFF) == (if invert then 0 else 1)
    ensures Ops(FinishScript(invert))[0].Cmd?
  {
    var t0 := FinishScript(invert);
    var t1 := t0.next;
    var t2 := t1.next;
    var t3 := t2.next;
    var t4 := t3.next;
    assert t4.next == Done;
    assert Sends(t4) == 0 && |Ops(t4)| == 1;
    assert Uses(t4, INVON) == 0 && Uses(t4, INVOFF) == 0;
    assert Sends(t0) == 4 && |Ops(t0)| == 5;
    assert Uses(t0, INVON) == (if invert then 1 else 0) && Uses(t0, INVOFF) == (if invert then 0 else 1);
    assert Ops(t0) == [t0.op] + Ops(t1);
  }

  lemma ResetSize()
    ensures |Ops(ResetScript())| == 12 && Ops(ResetScript())[0].Cmd?
  {
    ResetCounts();
  }

  lemma PowerSize()
    ensures |Ops(PowerScript())| == 17 && Ops(PowerScript())[0].Cmd?
  {
    PowerCounts();
  }

  lemma PositiveGammaSize()
    ensures |Ops(PositiveGammaScript())| == 15 && Ops(PositiveGammaScript())[0].Cmd?
  {
    PositiveGammaCounts();
  }

  lemma NegativeGammaSize()
    ensures |Ops(NegativeGammaScript())| == 15 && Ops(NegativeGammaScript())[0].Cmd?
  {
    NegativeGammaCounts();
  }

  lemma FinishSize(invert: bool)
    ensures |Ops(FinishScript(invert))| == 5 && Ops(FinishScript(invert))[0].Cmd?
  {
    FinishCounts(invert);
  }

  /** init_display's steps are those of its five parts, in order. */
  lemma InitOps(invert: bool)
    ensures Ops(InitScript(invert)) ==
      Ops(ResetScript()) + (Ops(PowerScript()) + (Ops(PositiveGammaScript()) +
      (Ops(NegativeGammaScript()) + Ops(FinishScript(invert)))))
  {
    var tail3 := FinishScript(invert);
    var tail2 := Append(NegativeGammaScript(), tail3);
    var tail1 := Append(PositiveGammaScript(), tail2);
    var tail0 := Append(PowerScript(), tail1);
    OpsAppend(NegativeGammaScript(), tail3);
    OpsAppend(PositiveGammaScript(), tail2);
    OpsAppend(PowerScript(), tail1);
    OpsAppend(ResetScript(), tail0);
  }

  /** init_display has 64 steps.  It opens with SWRESET and its 150 ms pause
      and closes with the inversion command the flag selects, then SLPOUT,
      TEON, DISPON and a 100 ms pause. */
  lemma InitShape(invert: bool)
    ensures var ops := Ops(InitScript(invert));
      && |ops| == 64
      && ops[..2] == [Cmd(SWRESET), Pause(150)]
      && ops[59..] == [Cmd(if invert then INVON else INVOFF), Cmd(SLPOUT), Cmd(TEON), Cmd(DISPON), Pause(100)]
  {
    InitOps(invert);
    ResetTable();
    PowerSize();
    PositiveGammaSize();
    NegativeGammaSize();
    FinishTable(invert);
    var ops := Ops(InitScript(invert));
    assert ops[..2] == Ops(ResetScript())[..2];
    assert ops[59..] == Ops(FinishScript(invert));
  }

  /** How often init_display sends a command is the sum over its parts. */
  lemma InitUses(invert: bool, c: Command)
    ensures Uses(InitScript(invert), c) == Uses(ResetScript(), c) + Uses(PowerScript(), c)
      + Uses(PositiveGammaScript(), c) + Uses(NegativeGammaScript(), c)
      + Uses(FinishScript(invert), c)
  {
    var tail3 := FinishScript(invert);
    var tail2 := Append(NegativeGammaScript(), tail3);
    var tail1 := Append(PositiveGammaScript(), tail2);
    var tail0 := Append(PowerScript(), tail1);
    UsesAppend(NegativeGammaScript(), tail3, c);
    UsesAppend(PositiveGammaScript(), tail2, c);
    UsesAppend(PowerScript(), tail1, c);
    UsesAppend(ResetScript(), tail0, c);
  }

  /** The parts before the last send neither INVON nor INVOFF. */
  lemma NoEarlyInversion()
    ensures Uses(ResetScript(), INVON) == 0 && Uses(ResetScript(), INVOFF) == 0
    ensures Uses(PowerScript(), INVON) == 0 && Uses(PowerScript(), INVOFF) == 0
    ensures Uses(PositiveGammaScript(), INVON) == 0 && Uses(PositiveGammaScript(), INVOFF) == 0
    ensures Uses(NegativeGammaScript(), INVON) == 0 && Uses(NegativeGammaScript(), INVOFF) == 0
  {
    ResetCounts();
    PowerCounts();
    PositiveGammaCounts();
    NegativeGammaCounts();
  }

  /** Exactly one of INVON and INVOFF is sent, the one the flag selects
      (`Uses` is the multiplicity among the steps, by `UsesOps`). */
  lemma InitInversion(invert: bool)
    ensures Uses(InitScript(invert), INVON) == (if invert then 1 else 0)
    ensures Uses(InitScript(invert), INVOFF) == (if invert then 0 else 1)
  {
    InitUses(invert, INVON);
    InitUses(invert, INVOFF);
    NoEarlyInversion();
    FinishCounts(invert);
  }

  /** The step at `i` is command `c`, and exactly the bytes `ps` follow it as
      its parameters before the next command or pause. */
  predicate Carries(ops: seq<Op>, i: nat, c: Command, ps: seq<byte>) {
    && i + |ps| < |ops|
    && ops[i] == Cmd(c)
    && (forall j :: 0 <= j < |ps| ==> ops[i + 1 + j] == Data(ps[j]))
    && (i + 1 + |ps| == |ops| || !ops[i + 1 + |ps|].Data?)
  }

  lemma CarriesPrefix(x: seq<Op>, p: seq<Op>, i: nat, c: Command, ps: seq<byte>)
    requires Carries(p, i, c, ps)
    ensures Carries(x + p, |x| + i, c, ps)
  {
  }

  lemma CarriesSuffix(p: seq<Op>, y: seq<Op>, i: nat, c: Command, ps: seq<byte>)
    requires Carries(p, i, c, ps)
    requires i + 1 + |ps| < |p| || y == [] || !y[0].Data?
    ensures Carries(p + y, i, c, ps)
  {
  }

  /** Each command of ResetScript with its parameter bytes. */
  lemma ResetParams()
    ensures var ops := Ops(ResetScript());
      && Carries(ops, 0, SWRESET, [])
      && Carries(ops, 2, MADCTL, [0xB0])
      && Carries(ops, 4, FRMCTR2, [0x0C, 0x0C, 0x00, 0x33, 0x33])
      && Carries(ops, 10, COLMOD, [0x05])
  {
    ResetTable();
  }

  /** Each command of PowerScript with its parameter bytes. */
  lemma PowerParams()
    ensures var ops := Ops(PowerScript());
      && Carries(ops, 0, GCTRL, [0x14])
      && Carries(ops, 2, VCOMS, [0x37])
      && Carries(ops, 4, LCMCTRL, [0x2C])
      && Carries(ops, 6, VDVVRHEN, [0x01])
      && Carries(ops, 8, VRHS, [0x12])
      && Carries(ops, 10, VDVS, [0x20])
      && Carries(ops, 12, PWCTRL1, [0xA4, 0xA1])
      && Carries(ops, 15, FRCTRL2, [0x0F])
  {
    PowerTable();
  }

  /** Each command of PositiveGammaScript with its parameter bytes. */
  lemma PositiveGammaParams()
    ensures var ops := Ops(PositiveGammaScript());
      && Carries(ops, 0, GMCTRP1, [0xD0, 0x04, 0x0D, 0x11, 0x13, 0x2B, 0x3F, 0x54, 0x4C,
        0x18, 0x0D, 0x0B, 0x1F, 0x23])
  {
    PositiveGammaTable();
  }

  /** Each command of NegativeGammaScript with its parameter bytes. */
  lemma NegativeGammaParams()
    ensures var ops := Ops(NegativeGammaScript());
      && Carries(ops, 0, GMCTRN1, [0xD0, 0x04, 0x0C, 0x11, 0x13, 0x2C, 0x3F, 0x44, 0x51,
        0x2F, 0x1F, 0x1F, 0x20, 0x23])
  {
    NegativeGammaTable();
  }

  /** Each command of FinishScript with its parameter bytes. */
  lemma FinishParams(invert: bool)
    ensures var ops := Ops(FinishScript(invert));
      && Carries(ops, 0, (if invert then INVON else INVOFF), [])
      && Carries(ops, 1, SLPOUT, [])
      && Carries(ops, 2, TEON, [])
      && Carries(ops, 3, DISPON, [])
  {
    FinishTable(invert);
  }

  /** A command of ResetScript keeps its parameters within the whole
      init_display sequence, shifted by 0 steps. */
  lemma LiftReset(invert: bool, i: nat, c: Command, ps: seq<byte>)
    requires Carries(Ops(ResetScript()), i, c, ps)
    ensures Carries(Ops(InitScript(invert)), 0 + i, c, ps)
  {
    InitOps(invert);
    PowerSize();
    CarriesSuffix(Ops(ResetScript()), Ops(PowerScript()) + (Ops(PositiveGammaScript()) +
      (Ops(NegativeGammaScript()) + Ops(FinishScript(invert)))), i, c, ps);
  }

  /** A command of PowerScript keeps its parameters within the whole
      init_display sequence, shifted by 12 steps. */
  lemma LiftPower(invert: bool, i: nat, c: Command, ps: seq<byte>)
    requires Carries(Ops(PowerScript()), i, c, ps)
    ensures Carries(Ops(InitScript(invert)), 12 + i, c, ps)
  {
    InitOps(invert);
    ResetSize();
    PositiveGammaSize();
    CarriesSuffix(Ops(PowerScript()), Ops(PositiveGammaScript()) +
      (Ops(NegativeGammaScript()) + Ops(FinishScript(invert))), i, c, ps);
    CarriesPrefix(Ops(ResetScript()), Ops(PowerScript()) + (Ops(PositiveGammaScript()) +
      (Ops(NegativeGammaScript()) + Ops(FinishScript(invert)))), i, c, ps);
  }

  /** A command of PositiveGammaScript keeps its parameters within the whole
      init_display sequence, shifted by 29 steps. */
  lemma LiftPositiveGamma(invert: bool, i: nat, c: Command, ps: seq<byte>)
    requires Carries(Ops(PositiveGammaScript()), i, c, ps)
    ensures Carries(Ops(InitScript(invert)), 29 + i, c, ps)
  {
    InitOps(invert);
    ResetSize();
    PowerSize();
    NegativeGammaSize();
    CarriesSuffix(Ops(PositiveGammaScript()), Ops(NegativeGammaScript()) +
      Ops(FinishScript(invert)), i, c, ps);
    CarriesPrefix(Ops(PowerScript()), Ops(PositiveGammaScript()) +
      (Ops(NegativeGammaScript()) + Ops(FinishScript(invert))), i, c, ps);
    CarriesPrefix(Ops(ResetScript()), Ops(PowerScript()) + (Ops(PositiveGammaScript()) +
      (Ops(NegativeGammaScript()) + Ops(FinishScript(invert)))), 17 + i, c, ps);
  }

  /** A command of NegativeGammaScript keeps its parameters within the whole
      init_display sequence, shifted by 44 steps. */
  lemma LiftNegativeGamma(invert: bool, i: nat, c: Command, ps: seq<byte>)
    requires Carries(Ops(NegativeGammaScript()), i, c, ps)
    ensures Carries(Ops(InitScript(invert)), 44 + i, c, ps)
  {
    InitOps(invert);
    ResetSize();
    PowerSize();
    PositiveGammaSize();
    FinishSize(invert);
    CarriesSuffix(Ops(NegativeGammaScript()), Ops(FinishScript(invert)), i, c, ps);
    CarriesPrefix(Ops(PositiveGammaScript()), Ops(NegativeGammaScript()) +
      Ops(FinishScript(invert)), i, c, ps);
    CarriesPrefix(Ops(PowerScript()), Ops(PositiveGammaScript()) +
      (Ops(NegativeGammaScript()) + Ops(FinishScript(invert))), 15 + i, c, ps);
    CarriesPrefix(Ops(ResetScript()), Ops(PowerScript()) + (Ops(PositiveGammaScript()) +
      (Ops(NegativeGammaScript()) + Ops(FinishScript(invert)))), 17 + (15 + i), c, ps);
  }

  /** A command of FinishScript keeps its parameters within the whole
      init_display sequence, shifted by 59 steps. */
  lemma LiftFinish(invert: bool, i: nat, c: Command, ps: seq<byte>)
    requires Carries(Ops(FinishScript(invert)), i, c, ps)
    ensures Carries(Ops(InitScript(invert)), 59 + i, c, ps)
  {
    InitOps(invert);
    ResetSize();
    PowerSize();
    PositiveGammaSize();
    NegativeGammaSize();
    CarriesPrefix(Ops(NegativeGammaScript()), Ops(FinishScript(invert)), i, c, ps);
    CarriesPrefix(Ops(PositiveGammaScript()), Ops(NegativeGammaScript()) +
      Ops(FinishScript(invert)), 15 + i, c, ps);
    CarriesPrefix(Ops(PowerScript()), Ops(PositiveGammaScript()) +
      (Ops(NegativeGammaScript()) + Ops(FinishScript(invert))), 15 + (15 + i), c, ps);
    CarriesPrefix(Ops(ResetScript()), Ops(PowerScript()) + (Ops(PositiveGammaScript()) +
      (Ops(NegativeGammaScript()) + Ops(FinishScript(invert)))), 17 + (15 + (15 + i)), c,
      ps);
  }

  /** The commands of ResetScript with their parameters, at their places
      in the whole init_display sequence. */
  lemma InitResetParams(invert: bool)
    ensures var ops := Ops(InitScript(invert));
      && Carries(ops, 0, SWRESET, [])
      && Carries(ops, 2, MADCTL, [0xB0])
      && Carries(ops, 4, FRMCTR2, [0x0C, 0x0C, 0x00, 0x33, 0x33])
      && Carries(ops, 10, COLMOD, [0x05])
  {
    ResetParams();
    LiftReset(invert, 0, SWRESET, []);
    LiftReset(invert, 2, MADCTL, [0xB0]);
    LiftReset(invert, 4, FRMCTR2, [0x0C, 0x0C, 0x00, 0x33, 0x33]);
    LiftReset(invert, 10, COLMOD, [0x05]);
  }

  /** The commands of PowerScript with their parameters, at their places
      in the whole init_display sequence. */
  lemma InitPowerParams(invert: bool)
    ensures var ops := Ops(InitScript(invert));
      && Carries(ops, 12, GCTRL, [0x14])
      && Carries(ops, 14, VCOMS, [0x37])
      && Carries(ops, 16, LCMCTRL, [0x2C])
      && Carries(ops, 18, VDVVRHEN, [0x01])
      && Carries(ops, 20, VRHS, [0x12])
      && Carries(ops, 22, VDVS, [0x20])
      && Carries(ops, 24, PWCTRL1, [0xA4, 0xA1])
      && Carries(ops, 27, FRCTRL2, [0x0F])
  {
    PowerParams();
    LiftPower(invert, 0, GCTRL, [0x14]);
    LiftPower(invert, 2, VCOMS, [0x37]);
    LiftPower(invert, 4, LCMCTRL, [0x2C]);
    LiftPower(invert, 6, VDVVRHEN, [0x01]);
    LiftPower(invert, 8, VRHS, [0x12]);
    LiftPower(invert, 10, VDVS, [0x20]);
    LiftPower(invert, 12, PWCTRL1, [0xA4, 0xA1]);
    LiftPower(invert, 15, FRCTRL2, [0x0F]);
  }

  /** The commands of PositiveGammaScript with their parameters, at their places
      in the whole init_display sequence. */
  lemma InitPositiveGammaParams(invert: bool)
    ensures var ops := Ops(InitScript(invert));
      && Carries(ops, 29, GMCTRP1, [0xD0, 0x04, 0x0D, 0x11, 0x13, 0x2B, 0x3F, 0x54, 0x4C,
        0x18, 0x0D, 0x0B, 0x1F, 0x23])
  {
    PositiveGammaParams();
    LiftPositiveGamma(invert, 0, GMCTRP1, [0xD0, 0x04, 0x0D, 0x11, 0x13, 0x2B, 0x3F, 0x54,
      0x4C, 0x18, 0x0D, 0x0B, 0x1F, 0x23]);
  }

  /** The commands of NegativeGammaScript with their parameters, at their places
      in the whole init_display sequence. */
  lemma InitNegativeGammaParams(invert: bool)
    ensures var ops := Ops(InitScript(invert));
      && Carries(ops, 44, GMCTRN1, [0xD0, 0x04, 0x0C, 0x11, 0x13, 0x2C, 0x3F, 0x44, 0x51,
        0x2F, 0x1F, 0x1F, 0x20, 0x23])
  {
    NegativeGammaParams();
    LiftNegativeGamma(invert, 0, GMCTRN1, [0xD0, 0x04, 0x0C, 0x11, 0x13, 0x2C, 0x3F, 0x44,
      0x51, 0x2F, 0x1F, 0x1F, 0x20, 0x23]);
  }

  /** The commands of FinishScript with their parameters, at their places
      in the whole init_display sequence. */
  lemma InitFinishParams(invert: bool)
    ensures var ops := Ops(InitScript(invert));
      && Carries(ops, 59, (if invert then INVON else INVOFF), [])
      && Carries(ops, 60, SLPOUT, [])
      && Carries(ops, 61, TEON, [])
      && Carries(ops, 62, DISPON, [])
  {
    FinishParams(invert);
    LiftFinish(invert, 0, (if invert then INVON else INVOFF), []);
    LiftFinish(invert, 1, SLPOUT, []);
    LiftFinish(invert, 2, TEON, []);
    LiftFinish(invert, 3, DISPON, []);
  }

  /** Every command of init_display with its parameter bytes, in order. */
  lemma InitParams(invert: bool)
    ensures var ops := Ops(InitScript(invert));
      && Carries(ops, 0, SWRESET, [])
      && Carries(ops, 2, MADCTL, [0xB0])
      && Carries(ops, 4, FRMCTR2, [0x0C, 0x0C, 0x00, 0x33, 0x33])
      && Carries(ops, 10, COLMOD, [0x05])
      && Carries(ops, 12, GCTRL, [0x14])
      && Carries(ops, 14, VCOMS, [0x37])
      && Carries(ops, 16, LCMCTRL, [0x2C])
      && Carries(ops, 18, VDVVRHEN, [0x01])
      && Carries(ops, 20, VRHS, [0x12])
      && Carries(ops, 22, VDVS, [0x20])
      && Carries(ops, 24, PWCTRL1, [0xA4, 0xA1])
      && Carries(ops, 27, FRCTRL2, [0x0F])
      && Carries(ops, 29, GMCTRP1, [0xD0, 0x04, 0x0D, 0x11, 0x13, 0x2B, 0x3F, 0x54, 0x4C,
        0x18, 0x0D, 0x0B, 0x1F, 0x23])
      && Carries(ops, 44, GMCTRN1, [0xD0, 0x04, 0x0C, 0x11, 0x13, 0x2C, 0x3F, 0x44, 0x51,
        0x2F, 0x1F, 0x1F, 0x20, 0x23])
      && Carries(ops, 59, (if invert then INVON else INVOFF), [])
      && Carries(ops, 60, SLPOUT, [])
      && Carries(ops, 61, TEON, [])
      && Carries(ops, 62, DISPON, [])
  {
    InitResetParams(invert);
    InitPowerParams(invert);
    InitPositiveGammaParams(invert);
    InitNegativeGammaParams(invert);
    InitFinishParams(invert);
  }

  /** init_display sends 62 bytes, each an SPI transfer that may fail. */
  lemma InitSends(invert: bool)
    ensures Sends(InitScript(invert)) == 62
  {
    var tail3 := FinishScript(invert);
    var tail2 := Append(NegativeGammaScript(), tail3);
    var tail1 := Append(PositiveGammaScript(), tail2);
    var tail0 := Append(PowerScript(), tail1);
    SendsAppend(NegativeGammaScript(), tail3);
    SendsAppend(PositiveGammaScript(), tail2);
    SendsAppend(PowerScript(), tail1);
    SendsAppend(ResetScript(), tail0);
    ResetCounts();
    PowerCounts();
    PositiveGammaCounts();
    NegativeGammaCounts();
    FinishCounts(invert);
  }

  /** A script run with budget `b` completes its whole trace when `b` covers
      every byte it sends; otherwise it stops with a bus error after a strict
      prefix of its trace, having made exactly `b` transfers. */
  lemma ScriptFailFast(s: Script, log: seq<Event>, b: nat)
    ensures var e := Run(Flatten(s), log, b);
      && (e.status.Pass? <==> Sends(s) <= b)
      && (e.status.Pass? ==> e.log == log + Flatten(s))
      && (e.status.Fail? ==>
            var n := |e.log| - |log|;
            && 0 <= n < |Flatten(s)|
            && e.log == log + Flatten(s)[..n]
            && Attempts(Flatten(s)[..n]) == b
            && e.status.error == BusError)
  {
    FlattenAttempts(s);
    FlattenBusOnly(s);
    BusFailFast(Flatten(s), log, b);
  }

  /** init_display completes when at least 62 transfers succeed; otherwise it
      stops with a bus error after a strict prefix of its trace, having made
      exactly as many transfers as the budget allowed. */
  lemma InitFailFast(invert: bool, log: seq<Event>, b: nat)
    ensures var e := Run(InitTrace(invert), log, b);
      && (e.status.Pass? <==> 62 <= b)
      && (e.status.Pass? ==> e.log == log + InitTrace(invert))
      && (e.status.Fail? ==>
            var n := |e.log| - |log|;
            && 0 <= n < |InitTrace(invert)|
            && e.log == log + InitTrace(invert)[..n]
            && Attempts(InitTrace(invert)[..n]) == b
            && e.status.error == BusError)
  {
    InitSends(invert);
    ScriptFailFast(InitScript(invert), log, b);
  }
}
