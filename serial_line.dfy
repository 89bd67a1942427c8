/**
 * The serial line controller: translating a CDC line encoding into the
 * USART1 frame-format mask, the ordered register writes of a
 * reconfiguration, and the DTR-to-reset-line mapping on PORTD.
 *
 * Registers are bytes (UBRR1 a 16-bit word); bit positions are those of the
 * USART1 registers of the ATmega U2/U4 parts this firmware runs on.
 */
module SerialLine {

  // CDC line-coding values (CDC 1.1, SET_LINE_CODING).
  // One and a half stop bits (1) and no, mark and space parity (0, 3, 4) have
  // no case of their own in the firmware.
  const CDC_LINEENCODING_TWO_STOP_BITS: bv8 := 2
  const CDC_PARITY_ODD: bv8 := 1
  const CDC_PARITY_EVEN: bv8 := 2

  /** CDC_LineEncoding_t as the host sends it; any field may hold a value the firmware does not know. */
  datatype LineEncoding = LineEncoding(baudRateBps: bv32, charFormat: bv8, parityType: bv8, dataBits: bv8)

  // UCSR1C bits
  const UPM11: bv8 := 1 << 5
  const UPM10: bv8 := 1 << 4
  const USBS1: bv8 := 1 << 3
  const UCSZ11: bv8 := 1 << 2
  const UCSZ10: bv8 := 1 << 1
  // UCSR1A bits
  const U2X1: bv8 := 1 << 1
  // UCSR1B bits
  const RXCIE1: bv8 := 1 << 7
  const RXEN1: bv8 := 1 << 4
  const TXEN1: bv8 := 1 << 3
  const UCSZ12: bv8 := 1 << 2

  /** PD3 is USART1's TXD pin. */
  const TX_PIN: bv8 := 1 << 3
  /** AVR_RESET_LINE_MASK: PD7 drives the target's reset line. */
  const AVR_RESET_LINE_MASK: bv8 := 1 << 7
  /** CDC_CONTROL_LINE_OUT_DTR */
  const CDC_CONTROL_LINE_OUT_DTR: bv16 := 1 << 0

  // ---------------------------------------------------------------------------
  // Frame format

  /** The UCSR1C value for a line encoding (EVENT_CDC_Device_LineEncodingChanged's ConfigMask). */
  function ConfigMask(enc: LineEncoding): (mask: bv8)
    ensures mask & !(UPM11 | UPM10 | USBS1 | UCSZ11 | UCSZ10) == 0
  {
    var parity: bv8 :=
      if enc.parityType == CDC_PARITY_ODD then UPM11 | UPM10
      else if enc.parityType == CDC_PARITY_EVEN then UPM11
      else 0;
    var stop: bv8 := if enc.charFormat == CDC_LINEENCODING_TWO_STOP_BITS then USBS1 else 0;
    var size: bv8 :=
      if enc.dataBits == 6 then UCSZ10
      else if enc.dataBits == 7 then UCSZ11
      else if enc.dataBits == 8 then UCSZ11 | UCSZ10
      else 0;
    parity | stop | size
  }

  datatype Parity = NoParity | Even | Odd

  /** A frame format as the USART runs it. */
  datatype Frame = Frame(parity: Parity, twoStopBits: bool, dataBits: nat)

  /**
   * The frame the host's encoding should give: parities other than odd and
   * even run without parity, formats other than two stop bits run with one,
   * and widths other than 6, 7 and 8 leave the size bits at 5 bits.
   */
  function IntendedFrame(enc: LineEncoding): Frame {
    Frame(
      if enc.parityType == CDC_PARITY_ODD then Odd
      else if enc.parityType == CDC_PARITY_EVEN then Even
      else NoParity,
      enc.charFormat == CDC_LINEENCODING_TWO_STOP_BITS,
      if enc.dataBits in {6, 7, 8} then enc.dataBits as nat else 5)
  }

  /**
   * The frame the USART runs with a given UCSR1C while UCSZ12 (in UCSR1B) is
   * clear: UPM1[1:0] the parity, USBS1 the stop bits, UCSZ1[1:0] 5 to 8 data
   * bits.  (With UCSZ12 set only 111, nine bits, is defined; the firmware
   * never sets it.)
   */
  function FrameOf(ucsr1c: bv8): Frame {
    var upm := ucsr1c & (UPM11 | UPM10);
    Frame(
      if upm == UPM11 | UPM10 then Odd else if upm == UPM11 then Even else NoParity,
      ucsr1c & USBS1 != 0,
      5 + (if ucsr1c & UCSZ10 != 0 then 1 else 0) + (if ucsr1c & UCSZ11 != 0 then 2 else 0))
  }

  /** The mask puts the USART in exactly the intended frame. */
  lemma ConfigMaskGivesIntendedFrame(enc: LineEncoding)
    ensures FrameOf(ConfigMask(enc)) == IntendedFrame(enc)
  {
  }

  /** Encodings that mean different frames get different masks. */
  lemma ConfigMaskSeparatesFrames(e1: LineEncoding, e2: LineEncoding)
    ensures ConfigMask(e1) == ConfigMask(e2) <==> IntendedFrame(e1) == IntendedFrame(e2)
  {
    ConfigMaskGivesIntendedFrame(e1);
    ConfigMaskGivesIntendedFrame(e2);
  }

  // ---------------------------------------------------------------------------
  // Register writes of a reconfiguration

  /** The registers a reconfiguration touches. */
  datatype Regs = Regs(portD: bv8, ucsr1a: bv8, ucsr1b: bv8, ucsr1c: bv8, ubrr1: bv16)

  /** One register write; PORTD is only ever changed by setting or clearing bits. */
  datatype Write =
    | SetPortD(bits: bv8) | ClearPortD(bits: bv8)
    | WriteUcsr1A(a: bv8) | WriteUcsr1B(b: bv8) | WriteUcsr1C(c: bv8) | WriteUbrr1(w: bv16)

  function Apply(r: Regs, w: Write): Regs {
    match w
    case SetPortD(bits) => r.(portD := r.portD | bits)
    case ClearPortD(bits) => r.(portD := r.portD & !bits)
    case WriteUcsr1A(a) => r.(ucsr1a := a)
    case WriteUcsr1B(b) => r.(ucsr1b := b)
    case WriteUcsr1C(c) => r.(ucsr1c := c)
    case WriteUbrr1(v) => r.(ubrr1 := v)
  }

  /** The registers after the writes `ws`, in order. */
  function Run(r: Regs, ws: seq<Write>): Regs
    decreases |ws|
  {
    if ws == [] then r else Run(Apply(r, ws[0]), ws[1..])
  }

  lemma {:induction false} RunAppend(r: Regs, ws: seq<Write>, w: Write)
    ensures Run(r, ws + [w]) == Apply(Run(r, ws), w)
    decreases |ws|
  {
    if ws != [] {
      assert (ws + [w])[1..] == ws[1..] + [w];
      RunAppend(Apply(r, ws[0]), ws[1..], w);
    }
  }

  /** One more write past a prefix. */
  lemma RunPrefixStep(r: Regs, ws: seq<Write>, k: nat)
    requires k < |ws|
    ensures Run(r, ws[..k + 1]) == Apply(Run(r, ws[..k]), ws[k])
  {
    assert ws[..k + 1] == ws[..k] + [ws[k]];
    RunAppend(r, ws[..k], ws[k]);
  }

  /** UCSR1B's value while the USART is running: receiver, its interrupt and transmitter on. */
  const UCSR1B_RUNNING: bv8 := RXCIE1 | TXEN1 | RXEN1

  /**
   * The writes of EVENT_CDC_Device_LineEncodingChanged, in order: hold TX
   * high, switch the USART off, set the baud divisor, set the frame, double
   * speed, switch on, release TX.
   */
  function ReconfigurationWrites(enc: LineEncoding, ubrr: bv16): (ws: seq<Write>)
    ensures |ws| == 9
  {
    [ SetPortD(TX_PIN),
      WriteUcsr1B(0), WriteUcsr1A(0), WriteUcsr1C(0),
      WriteUbrr1(ubrr),
      WriteUcsr1C(ConfigMask(enc)), WriteUcsr1A(U2X1), WriteUcsr1B(UCSR1B_RUNNING),
      ClearPortD(TX_PIN) ]
  }

  /**
   * What a reconfiguration leaves: the USART running at the new divisor in
   * double-speed mode with the intended frame, TX released, and every other
   * PORTD bit (the reset line among them) as it was.
   */
  lemma ReconfigurationResult(r: Regs, enc: LineEncoding, ubrr: bv16)
    ensures var s := Run(r, ReconfigurationWrites(enc, ubrr));
      && s.ucsr1c == ConfigMask(enc) && s.ucsr1a == U2X1 && s.ucsr1b == UCSR1B_RUNNING
      && s.ubrr1 == ubrr
      && s.ucsr1b & UCSZ12 == 0 && FrameOf(s.ucsr1c) == IntendedFrame(enc)
      && s.portD & TX_PIN == 0
      && s.portD & !TX_PIN == r.portD & !TX_PIN
      && s.portD & AVR_RESET_LINE_MASK == r.portD & AVR_RESET_LINE_MASK
  {
    PrefixStatesSwitchOn(r, enc, ubrr);
    ConfigMaskGivesIntendedFrame(enc);
  }

  /**
   * The state after each prefix of the writes, spelled out in three parts;
   * the lemmas about the reconfiguration window read their facts off them.
   */
  lemma PrefixStatesSwitchOff(r: Regs, enc: LineEncoding, ubrr: bv16)
    ensures var ws := ReconfigurationWrites(enc, ubrr);
      var held := r.portD | TX_PIN;
      && Run(r, ws[..1]) == r.(portD := held)
      && Run(r, ws[..2]) == r.(portD := held, ucsr1b := 0)
      && Run(r, ws[..3]) == r.(portD := held, ucsr1b := 0, ucsr1a := 0)
      && Run(r, ws[..4]) == Regs(held, 0, 0, 0, r.ubrr1)
  {
    var ws := ReconfigurationWrites(enc, ubrr);
    assert ws[..0] == [];
    RunPrefixStep(r, ws, 0); RunPrefixStep(r, ws, 1);
    RunPrefixStep(r, ws, 2); RunPrefixStep(r, ws, 3);
  }

  lemma PrefixStatesConfigure(r: Regs, enc: LineEncoding, ubrr: bv16)
    ensures var ws := ReconfigurationWrites(enc, ubrr);
      var held := r.portD | TX_PIN;
      && Run(r, ws[..5]) == Regs(held, 0, 0, 0, ubrr)
      && Run(r, ws[..6]) == Regs(held, 0, 0, ConfigMask(enc), ubrr)
      && Run(r, ws[..7]) == Regs(held, U2X1, 0, ConfigMask(enc), ubrr)
  {
    var ws := ReconfigurationWrites(enc, ubrr);
    PrefixStatesSwitchOff(r, enc, ubrr);
    RunPrefixStep(r, ws, 4); RunPrefixStep(r, ws, 5); RunPrefixStep(r, ws, 6);
  }

  lemma PrefixStatesSwitchOn(r: Regs, enc: LineEncoding, ubrr: bv16)
    ensures var ws := ReconfigurationWrites(enc, ubrr);
      var held := r.portD | TX_PIN;
      && Run(r, ws[..8]) == Regs(held, U2X1, UCSR1B_RUNNING, ConfigMask(enc), ubrr)
      && Run(r, ws) == Regs(held & !TX_PIN, U2X1, UCSR1B_RUNNING, ConfigMask(enc), ubrr)
  {
    var ws := ReconfigurationWrites(enc, ubrr);
    PrefixStatesConfigure(r, enc, ubrr);
    RunPrefixStep(r, ws, 7); RunPrefixStep(r, ws, 8);
    assert ws[..9] == ws;
  }

  /**
   * The reconfiguration window: TX is driven high by the first write and held
   * until the last releases it; from the moment UCSR1B is zeroed until it is
   * written again, the receiver and its interrupt are off, so no byte can be
   * received with a half-written frame format; and UBRR1 is written once,
   * with UCSR1A, UCSR1B and UCSR1C all zero.
   */
  lemma ReconfigurationWindow(r: Regs, enc: LineEncoding, ubrr: bv16)
    ensures var ws := ReconfigurationWrites(enc, ubrr);
      && ws[0] == SetPortD(TX_PIN) && ws[8] == ClearPortD(TX_PIN)
      && (forall k :: 1 <= k <= 8 ==> Run(r, ws[..k]).portD & TX_PIN == TX_PIN)
      && (forall k :: 2 <= k <= 7 ==> Run(r, ws[..k]).ucsr1b & (RXCIE1 | RXEN1) == 0)
      && (forall j :: 0 <= j < 9 && ws[j].WriteUbrr1? ==> j == 4)
      && ws[4] == WriteUbrr1(ubrr)
      && var off := Run(r, ws[..4]); off.ucsr1a == 0 && off.ucsr1b == 0 && off.ucsr1c == 0
  {
    var ws := ReconfigurationWrites(enc, ubrr);
    PrefixStatesSwitchOn(r, enc, ubrr);
    PrefixStatesConfigure(r, enc, ubrr);
    PrefixStatesSwitchOff(r, enc, ubrr);
    forall k | 1 <= k <= 8
      ensures Run(r, ws[..k]).portD & TX_PIN == TX_PIN
    {
      assert k in {1, 2, 3, 4, 5, 6, 7, 8};
    }
    forall k | 2 <= k <= 7
      ensures Run(r, ws[..k]).ucsr1b & (RXCIE1 | RXEN1) == 0
    {
      assert k in {2, 3, 4, 5, 6, 7};
    }
  }

  /**
   * A reconfiguration forgets the previous line settings: from any two
   * states that agree on PORTD it reaches the same registers, so applying one
   * encoding after another leaves exactly what the second alone would.
   */
  lemma ReconfigurationForgetsPrevious(r1: Regs, r2: Regs, enc: LineEncoding, ubrr: bv16)
    requires r1.portD == r2.portD
    ensures Run(r1, ReconfigurationWrites(enc, ubrr)) == Run(r2, ReconfigurationWrites(enc, ubrr))
  {
    PrefixStatesSwitchOn(r1, enc, ubrr);
    PrefixStatesSwitchOn(r2, enc, ubrr);
  }

  // ---------------------------------------------------------------------------
  // DTR and the target's reset line

  /** PORTD after a control-line change: DTR asserted pulls the reset line low, deasserted drives it high. */
  function ResetLinePort(portD: bv8, hostToDevice: bv16): (p: bv8)
    ensures p & !AVR_RESET_LINE_MASK == portD & !AVR_RESET_LINE_MASK
    ensures p & AVR_RESET_LINE_MASK == 0 <==> hostToDevice & CDC_CONTROL_LINE_OUT_DTR != 0
  {
    if hostToDevice & CDC_CONTROL_LINE_OUT_DTR != 0 then portD & !AVR_RESET_LINE_MASK
    else portD | AVR_RESET_LINE_MASK
  }

  /** Only the DTR bit of the control-line state matters. */
  lemma ResetLineFollowsOnlyDtr(portD: bv8, h1: bv16, h2: bv16)
    requires h1 & CDC_CONTROL_LINE_OUT_DTR == h2 & CDC_CONTROL_LINE_OUT_DTR
    ensures ResetLinePort(portD, h1) == ResetLinePort(portD, h2)
  {
  }

  /**
   * Asserting and then deasserting DTR gives exactly two reset-line levels:
   * low (target held in reset), then high, with the other PORTD bits kept.
   */
  lemma DtrAssertThenRelease(portD: bv8)
    ensures var held := ResetLinePort(portD, CDC_CONTROL_LINE_OUT_DTR);
      var released := ResetLinePort(held, 0);
      && held == portD & !AVR_RESET_LINE_MASK
      && released == portD | AVR_RESET_LINE_MASK
  {
  }

  // ---------------------------------------------------------------------------
  // The registers themselves

  /** USART1's registers and PORTD, with a ghost log of the writes made to them. */
  class Usart1 {
    var portD: bv8
    var ucsr1a: bv8
    var ucsr1b: bv8
    var ucsr1c: bv8
    var ubrr1: bv16
    ghost var writes: seq<Write>

    function State(): Regs
      reads this
    {
      Regs(portD, ucsr1a, ucsr1b, ucsr1c, ubrr1)
    }

    constructor (initial: Regs)
      ensures State() == initial && writes == []
    {
      portD, ucsr1a, ucsr1b, ucsr1c, ubrr1 := initial.portD, initial.ucsr1a, initial.ucsr1b, initial.ucsr1c, initial.ubrr1;
      writes := [];
    }

    /**
     * The one way the registers change: write `w`, applied and logged, as the
     * `k`-th write of the planned sequence `plan` begun from registers `start`
     * when the log was `log0`.  The caller must make `w` exactly `plan[k]`, so
     * the order of the writes a method performs is checked write by write, and
     * after each one the registers are the replay of the plan's prefix.
     */
    method Do(w: Write, ghost start: Regs, ghost log0: seq<Write>, ghost plan: seq<Write>, ghost k: nat)
      requires k < |plan| && w == plan[k]
      requires writes == log0 + plan[..k] && State() == Run(start, plan[..k])
      modifies this
      ensures State() == Apply(old(State()), w)
      ensures writes == log0 + plan[..k + 1] && State() == Run(start, plan[..k + 1])
    {
      match w {
        case SetPortD(bits) => portD := portD | bits;
        case ClearPortD(bits) => portD := portD & !bits;
        case WriteUcsr1A(a) => ucsr1a := a;
        case WriteUcsr1B(b) => ucsr1b := b;
        case WriteUcsr1C(c) => ucsr1c := c;
        case WriteUbrr1(v) => ubrr1 := v;
      }
      writes := writes + [w];
      assert plan[..k + 1] == plan[..k] + [w];
      RunPrefixStep(start, plan, k);
    }

    /** The first four writes of a reconfiguration: hold TX high, then switch the USART off. */
    method SwitchOff(ghost start: Regs, ghost log0: seq<Write>, ghost plan: seq<Write>, ghost enc: LineEncoding, ghost ubrr: bv16)
      requires plan == ReconfigurationWrites(enc, ubrr)
      requires writes == log0 && State() == start
      modifies this
      ensures writes == log0 + plan[..4] && State() == Run(start, plan[..4])
    {
      assert plan[..0] == [];
      // write 0: PD3 high
      Do(SetPortD(TX_PIN), start, log0, plan, 0);
      // writes 1-3: USART off, control registers zeroed
      Do(WriteUcsr1B(0), start, log0, plan, 1);
      Do(WriteUcsr1A(0), start, log0, plan, 2);
      Do(WriteUcsr1C(0), start, log0, plan, 3);
    }

    /** The last five writes: baud rate, frame, double speed, switch on, release TX. */
    method SwitchOn(configMask: bv8, ubrr: bv16, ghost start: Regs, ghost log0: seq<Write>, ghost plan: seq<Write>, ghost enc: LineEncoding)
      requires configMask == ConfigMask(enc) && plan == ReconfigurationWrites(enc, ubrr)
      requires writes == log0 + plan[..4] && State() == Run(start, plan[..4])
      modifies this
      ensures writes == log0 + plan && State() == Run(start, plan)
    {
      Do(WriteUbrr1(ubrr), start, log0, plan, 4);
      Do(WriteUcsr1C(configMask), start, log0, plan, 5);
      Do(WriteUcsr1A(U2X1), start, log0, plan, 6);
      Do(WriteUcsr1B(RXCIE1 | TXEN1 | RXEN1), start, log0, plan, 7);
      // write 8: PD3 back to PORTD's other bits
      Do(ClearPortD(TX_PIN), start, log0, plan, 8);
      assert plan[..9] == plan;
    }

    /**
     * EVENT_CDC_Device_LineEncodingChanged.  `ubrrFor` is the platform's
     * baud-rate divisor formula (SERIAL_2X_UBBRVAL).  Every register change
     * goes through Do, so the log is the method's own trace of writes and the
     * reconfiguration-window lemmas hold of the states it passes through.
     */
    method LineEncodingChanged(enc: LineEncoding, ubrrFor: bv32 -> bv16)
      modifies this
      ensures writes == old(writes) + ReconfigurationWrites(enc, ubrrFor(enc.baudRateBps))
      ensures State() == Run(old(State()), ReconfigurationWrites(enc, ubrrFor(enc.baudRateBps)))
    {
      ghost var start, log0 := State(), writes;
      var configMask := ConfigMask(enc);
      var ubrr := ubrrFor(enc.baudRateBps);
      ghost var plan := ReconfigurationWrites(enc, ubrr);
      SwitchOff(start, log0, plan, enc, ubrr);
      SwitchOn(configMask, ubrr, start, log0, plan, enc);
    }

    /** EVENT_CDC_Device_ControLineStateChanged: one PORTD write. */
    method ControlLineStateChanged(hostToDevice: bv16)
      modifies this
      ensures portD == ResetLinePort(old(portD), hostToDevice)
      ensures ucsr1a == old(ucsr1a) && ucsr1b == old(ucsr1b) && ucsr1c == old(ucsr1c) && ubrr1 == old(ubrr1)
      ensures writes == old(writes) +
        [if hostToDevice & CDC_CONTROL_LINE_OUT_DTR != 0 then ClearPortD(AVR_RESET_LINE_MASK)
         else SetPortD(AVR_RESET_LINE_MASK)]
    {
      ghost var start, log0 := State(), writes;
      assert [SetPortD(AVR_RESET_LINE_MASK)][..0] == [];
      if hostToDevice & CDC_CONTROL_LINE_OUT_DTR != 0 {
        Do(ClearPortD(AVR_RESET_LINE_MASK), start, log0, [ClearPortD(AVR_RESET_LINE_MASK)], 0);
      } else {
        Do(SetPortD(AVR_RESET_LINE_MASK), start, log0, [SetPortD(AVR_RESET_LINE_MASK)], 0);
      }
    }
  }
}
