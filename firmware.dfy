/**
 * The firmware's top level: the boot-time mode decision, the USB-to-serial
 * bridge that moves bytes between the CDC channel and USART1 through two
 * bounded FIFOs, the USART receive interrupt, the configuration-changed and
 * control-request events, the descriptor callback that picks a catalog by
 * mode, and the guard of the programmer task.
 *
 * The USB stack and the UART are not modelled; what the firmware reads from
 * them (a received CDC byte, endpoint readiness, whether a byte was accepted,
 * whether the device is configured) arrives as parameters.
 */
module UsbToSerial {
  import opened Wrappers
  import opened RingBuffers
  import opened Descriptors

  // ---------------------------------------------------------------------------
  // Firmware mode

  const MODE_USART_BRIDGE: bool := false
  const MODE_PDI_PROGRAMMER: bool := true

  /** PD0 is the strap pin, pulled up: open means bridge, tied low means programmer. */
  const MODE_STRAP_PIN: bv8 := 1 << 0

  /** The mode SetupHardware derives from the sampled PIND. */
  function SelectMode(pind: bv8): (mode: bool)
    ensures mode == MODE_USART_BRIDGE <==> pind & MODE_STRAP_PIN != 0
    ensures mode == MODE_PDI_PROGRAMMER <==> pind & MODE_STRAP_PIN == 0
  {
    if pind & MODE_STRAP_PIN != 0 then MODE_USART_BRIDGE else MODE_PDI_PROGRAMMER
  }

  /** Only the strap pin decides the mode; the other PIND bits play no part. */
  lemma SelectModeReadsOnlyStrap(p1: bv8, p2: bv8)
    requires p1 & MODE_STRAP_PIN == p2 & MODE_STRAP_PIN
    ensures SelectMode(p1) == SelectMode(p2)
  {
  }

  // ---------------------------------------------------------------------------
  // The bridge's three steps, as functions of the queues

  /** Bank size of the CDC data endpoints. */
  const CDC_TXRX_EPSIZE: nat := 16

  /** What the USB stack and the UART report during one main-loop iteration. */
  datatype HostPoll = HostPoll(
    /** CDC_Device_ReceiveByte's int16 result, if it is called: a byte, or negative for none. */
    received: int,
    /** Endpoint_IsINReady on the CDC IN endpoint. */
    inReady: bool,
    /** Whether the k-th CDC_Device_SendByte of this batch, with byte b, returns NoError. */
    accepts: (nat, bv8) -> bool,
    /** Serial_IsSendReady */
    serialSendReady: bool)

  /** The low byte of CDC_Device_ReceiveByte's result, as RingBuffer_Insert stores it. */
  function ByteOf(received: int): (b: bv8)
    requires received >= 0
    ensures received < 256 ==> b as int == received
  {
    (received % 256) as bv8
  }

  /** The host-to-UART queue after step 1: one byte from the host, if there is room and one came. */
  function QueueFromHost(q: seq<bv8>, received: int): (r: seq<bv8>)
    requires |q| <= CAPACITY
    ensures |r| <= CAPACITY
  {
    if |q| < CAPACITY && received >= 0 then q + [ByteOf(received)] else q
  }

  /** The largest IN batch for `count` queued bytes: never a full endpoint bank. */
  function BatchLimit(count: nat): (n: nat)
    ensures n <= count && n < CDC_TXRX_EPSIZE
    ensures n == count || n == CDC_TXRX_EPSIZE - 1
  {
    if count < CDC_TXRX_EPSIZE - 1 then count else CDC_TXRX_EPSIZE - 1
  }

  /**
   * How many of the first `budget` bytes of `q` the host accepts, counting
   * from attempt `i`: the batch stops at the first refused byte.
   */
  function SentCount(q: seq<bv8>, budget: nat, accepts: (nat, bv8) -> bool, i: nat): (k: nat)
    requires i <= budget <= |q|
    ensures i <= k <= budget
    ensures forall j :: i <= j < k ==> accepts(j, q[j])
    ensures k < budget ==> !accepts(k, q[k])
    decreases budget - i
  {
    if i == budget || !accepts(i, q[i]) then i else SentCount(q, budget, accepts, i + 1)
  }

  /**
   * The bytes step 2 sends to the host from the UART-to-host queue `pending`:
   * a prefix of it, at most one bank less one byte, each byte accepted, and
   * cut short only by a refusal, whose byte is the next one still queued.
   */
  function SentToHost(pending: seq<bv8>, inReady: bool, accepts: (nat, bv8) -> bool): (sent: seq<bv8>)
    ensures sent <= pending
    ensures |sent| <= BatchLimit(|pending|) && |sent| < CDC_TXRX_EPSIZE
    ensures forall j :: 0 <= j < |sent| ==> accepts(j, sent[j])
    ensures inReady && |sent| < BatchLimit(|pending|) ==> !accepts(|sent|, pending[|sent|])
    ensures !inReady ==> sent == []
  {
    if pending != [] && inReady then pending[..SentCount(pending, BatchLimit(|pending|), accepts, 0)] else []
  }

  /** The byte step 3 hands to the UART: the head of the queue, if the UART is ready and there is one. */
  function ToUart(q: seq<bv8>, serialSendReady: bool): (b: Option<bv8>)
    ensures b.Some? <==> serialSendReady && q != []
    ensures b.Some? ==> b.value == q[0]
  {
    if serialSendReady && q != [] then Some(q[0]) else None
  }

  /** The queue after step 3. */
  function AfterUart(q: seq<bv8>, serialSendReady: bool): (r: seq<bv8>)
    ensures (if ToUart(q, serialSendReady).Some? then [ToUart(q, serialSendReady).value] else []) + r == q
  {
    if serialSendReady && q != [] then q[1..] else q
  }

  /** What one iteration of the bridge did at its edges. */
  datatype BridgeStep = BridgeStep(polledHost: bool, toHost: seq<bv8>, toUart: Option<bv8>)

  // ---------------------------------------------------------------------------
  // Properties of the bridge steps

  /**
   * Host to UART: the host is asked for a byte only when the queue has room,
   * and only a non-negative answer is queued, behind what was there.
   */
  lemma QueueFromHostProperties(q: seq<bv8>, received: int)
    requires |q| <= CAPACITY
    ensures |q| == CAPACITY ==> QueueFromHost(q, received) == q
    ensures received < 0 ==> QueueFromHost(q, received) == q
    ensures |q| < CAPACITY && 0 <= received < 256 ==>
      QueueFromHost(q, received) == q + [received as bv8]
  {
  }

  /**
   * No byte from the UART side is lost or reordered: what is sent plus what
   * stays queued is exactly what was queued.
   */
  lemma SentToHostKeepsTheRest(pending: seq<bv8>, inReady: bool, accepts: (nat, bv8) -> bool)
    ensures var sent := SentToHost(pending, inReady, accepts);
      sent + pending[|sent|..] == pending
  {
    var sent := SentToHost(pending, inReady, accepts);
    assert pending == pending[..|sent|] + pending[|sent|..];
  }

  /** A ready host that accepts everything gets a full batch: all queued bytes, capped at one bank less one. */
  lemma SentToHostFullBatch(pending: seq<bv8>, accepts: (nat, bv8) -> bool)
    requires forall j: nat, b: bv8 :: accepts(j, b)
    ensures |SentToHost(pending, true, accepts)| == BatchLimit(|pending|)
  {
    if pending != [] {
      forall j: nat | j < BatchLimit(|pending|) ensures accepts(j, pending[j]) {
        var b := pending[j];
        assert accepts(j, b);
      }
      SentCountAllAccepted(pending, BatchLimit(|pending|), accepts, 0);
    }
  }

  lemma {:induction false} SentCountAllAccepted(q: seq<bv8>, budget: nat, accepts: (nat, bv8) -> bool, i: nat)
    requires i <= budget <= |q|
    requires forall j :: i <= j < budget ==> accepts(j, q[j])
    ensures SentCount(q, budget, accepts, i) == budget
    decreases budget - i
  {
    if i < budget {
      SentCountAllAccepted(q, budget, accepts, i + 1);
    }
  }

  /**
   * Draining over two iterations: the second batch continues where the first
   * stopped, so the bytes reach the host once each and in queue order.
   */
  lemma TwoBatchesInOrder(pending: seq<bv8>, p1: HostPoll, p2: HostPoll)
    ensures var s1 := SentToHost(pending, p1.inReady, p1.accepts);
      var s2 := SentToHost(pending[|s1|..], p2.inReady, p2.accepts);
      s1 + s2 == pending[..|s1| + |s2|]
  {
    var s1 := SentToHost(pending, p1.inReady, p1.accepts);
    var s2 := SentToHost(pending[|s1|..], p2.inReady, p2.accepts);
    assert pending[|s1|..][..|s2|] == pending[|s1|..|s1| + |s2|];
    assert pending[..|s1| + |s2|] == pending[..|s1|] + pending[|s1|..|s1| + |s2|];
  }

  /** Host to UART keeps order: the byte handed over is the oldest, and the rest stay queued behind it. */
  lemma HostToUartInOrder(q: seq<bv8>, received: int, serialSendReady: bool)
    requires |q| <= CAPACITY
    ensures var queued := QueueFromHost(q, received);
      var out := ToUart(queued, serialSendReady);
      (if out.Some? then [out.value] else []) + AfterUart(queued, serialSendReady) == queued
      && q <= queued
  {
  }

  // ---------------------------------------------------------------------------
  // The programmer side

  /** AVRISP_Task: the protocol engine runs only when the device is configured and a command has arrived. */
  function AvrispTask(configured: bool, outReceived: bool): (processCommand: bool)
    ensures processCommand ==> configured
    ensures processCommand <==> configured && outReceived
  {
    if !configured then false else outReceived
  }

  /** The programmer's IN and OUT endpoints share one physical endpoint number. */
  lemma AvrispEndpointsShareNumber()
    ensures AVRISP_DATA_IN_EPADDR & ENDPOINT_EPNUM_MASK == AVRISP_DATA_OUT_EPADDR & ENDPOINT_EPNUM_MASK
  {
  }

  datatype Iteration = Bridged(step: BridgeStep) | Programmed(commandProcessed: bool)

  // ---------------------------------------------------------------------------
  // The firmware state

  /** The serial-number string as flashed, or as served once (and so ever after). */
  ghost predicate SerialStringOk(units: seq<bv16>) {
    units == AVRISP_SERIAL_STRING || units == ServeSerial(AVRISP_SERIAL_STRING, AVRISP_DATA_IN_EPADDR)
  }

  class Firmware {
    /** CurrentFirmwareMode */
    const mode: bool
    /** USBtoUSART_Buffer: bytes from the host waiting for the UART. */
    const usbToUsart: ByteFifo
    /** USARTtoUSB_Buffer: bytes from the UART waiting for the host. */
    const usartToUsb: ByteFifo
    /** The UTF-16 units of AVRISP_SerialString, in RAM. */
    const serialString: array<bv16>

    ghost predicate Valid()
      reads this, usbToUsart, usbToUsart.data, usartToUsb, usartToUsb.data, serialString
    {
      && usbToUsart != usartToUsb && usbToUsart.data != usartToUsb.data
      && usbToUsart.Valid() && usartToUsb.Valid()
      && serialString.Length == |AVRISP_SERIAL_STRING|
      && SerialStringOk(serialString[..])
    }

    /**
     * SetupHardware and the start of main: the mode comes from the strap pin
     * and is never assigned again; both queues start empty.
     */
    constructor SetupHardware(pind: bv8)
      ensures Valid()
      ensures mode == SelectMode(pind)
      ensures usbToUsart.Contents == [] && usartToUsb.Contents == []
      ensures serialString[..] == AVRISP_SERIAL_STRING
      ensures fresh(usbToUsart) && fresh(usbToUsart.data) && fresh(usartToUsb) && fresh(usartToUsb.data)
      ensures fresh(serialString)
    {
      mode := SelectMode(pind);
      usbToUsart := new ByteFifo();
      usartToUsb := new ByteFifo();
      serialString := new bv16[|AVRISP_SERIAL_STRING|](i requires 0 <= i < |AVRISP_SERIAL_STRING| => AVRISP_SERIAL_STRING[i]);
      new;
      assert serialString[..] == AVRISP_SERIAL_STRING;
    }

    /** Step 1 of the bridge: read a byte from the host only if there is room for it. */
    method ReceiveFromHost(received: int) returns (polledHost: bool)
      requires Valid()
      modifies usbToUsart, usbToUsart.data
      ensures Valid()
      ensures polledHost <==> |old(usbToUsart.Contents)| < CAPACITY
      ensures usbToUsart.Contents == QueueFromHost(old(usbToUsart.Contents), received)
    {
      polledHost := !usbToUsart.IsFull();
      if polledHost {
        var receivedByte := received;
        if !(receivedByte < 0) {
          usbToUsart.Insert(ByteOf(receivedByte));
        }
      }
    }

    /** Step 2 of the bridge: send a batch to the host, dequeuing each byte only once it is accepted. */
    method SendToHost(inReady: bool, accepts: (nat, bv8) -> bool) returns (toHost: seq<bv8>)
      requires Valid()
      modifies usartToUsb
      ensures Valid()
      ensures toHost == SentToHost(old(usartToUsb.Contents), inReady, accepts)
      ensures usartToUsb.Contents == old(usartToUsb.Contents)[|toHost|..]
    {
      ghost var pending := usartToUsb.Contents;
      toHost := [];
      var bufferCount := usartToUsb.GetCount();
      if bufferCount != 0 && inReady {
        var bytesToSend := BatchLimit(bufferCount);
        ghost var budget := bytesToSend;
        var attempt := 0;
        while bytesToSend > 0
          invariant Valid()
          invariant attempt + bytesToSend == budget
          invariant toHost == pending[..attempt]
          invariant usartToUsb.Contents == pending[attempt..]
          invariant SentCount(pending, budget, accepts, attempt) == SentCount(pending, budget, accepts, 0)
        {
          bytesToSend := bytesToSend - 1;
          var b := usartToUsb.Peek();
          if !accepts(attempt, b) {
            break;
          }
          var _ := usartToUsb.Remove();
          toHost := toHost + [b];
          attempt := attempt + 1;
        }
      }
    }

    /** Step 3 of the bridge: hand the oldest host byte to the UART if it can take one. */
    method SendToUart(serialSendReady: bool) returns (toUart: Option<bv8>)
      requires Valid()
      modifies usbToUsart
      ensures Valid()
      ensures toUart == ToUart(old(usbToUsart.Contents), serialSendReady)
      ensures usbToUsart.Contents == AfterUart(old(usbToUsart.Contents), serialSendReady)
    {
      toUart := None;
      if serialSendReady && !usbToUsart.IsEmpty() {
        var b := usbToUsart.Remove();
        toUart := Some(b);
      }
    }

    /** One pass of the bridge branch of the main loop. */
    method BridgeTask(poll: HostPoll) returns (step: BridgeStep)
      requires Valid()
      modifies usbToUsart, usbToUsart.data, usartToUsb
      ensures Valid()
      ensures step.polledHost <==> |old(usbToUsart.Contents)| < CAPACITY
      ensures var queued := QueueFromHost(old(usbToUsart.Contents), poll.received);
        && step.toUart == ToUart(queued, poll.serialSendReady)
        && usbToUsart.Contents == AfterUart(queued, poll.serialSendReady)
      ensures step.toHost == SentToHost(old(usartToUsb.Contents), poll.inReady, poll.accepts)
      ensures usartToUsb.Contents == old(usartToUsb.Contents)[|step.toHost|..]
    {
      var polledHost := ReceiveFromHost(poll.received);
      var toHost := SendToHost(poll.inReady, poll.accepts);
      var toUart := SendToUart(poll.serialSendReady);
      step := BridgeStep(polledHost, toHost, toUart);
    }

    /** One main-loop iteration: the bridge in bridge mode, the programmer task otherwise. */
    method MainLoopIteration(poll: HostPoll, configured: bool, outReceived: bool) returns (it: Iteration)
      requires Valid()
      modifies usbToUsart, usbToUsart.data, usartToUsb
      ensures Valid()
      ensures it.Bridged? <==> mode == MODE_USART_BRIDGE
      ensures it.Programmed? ==>
        && it.commandProcessed == AvrispTask(configured, outReceived)
        && usbToUsart.Contents == old(usbToUsart.Contents) && usartToUsb.Contents == old(usartToUsb.Contents)
      ensures it.Bridged? ==>
        && it.step.toHost == SentToHost(old(usartToUsb.Contents), poll.inReady, poll.accepts)
        && usartToUsb.Contents == old(usartToUsb.Contents)[|it.step.toHost|..]
        && var queued := QueueFromHost(old(usbToUsart.Contents), poll.received);
          it.step.toUart == ToUart(queued, poll.serialSendReady)
          && usbToUsart.Contents == AfterUart(queued, poll.serialSendReady)
    {
      if mode == MODE_USART_BRIDGE {
        var step := BridgeTask(poll);
        it := Bridged(step);
      } else {
        it := Programmed(AvrispTask(configured, outReceived));
      }
    }

    /**
     * The USART1 receive interrupt, run atomically between main-loop steps:
     * the byte is queued for the host only when the device is configured and
     * the queue has room; otherwise it is dropped.
     */
    method UsartRxInterrupt(received: bv8, configured: bool) returns (stored: bool)
      requires Valid()
      modifies usartToUsb, usartToUsb.data
      ensures Valid()
      ensures stored <==> configured && |old(usartToUsb.Contents)| < CAPACITY
      ensures usartToUsb.Contents ==
        if stored then old(usartToUsb.Contents) + [received] else old(usartToUsb.Contents)
    {
      stored := configured && !usartToUsb.IsFull();
      if stored {
        usartToUsb.Insert(received);
      }
    }

    /**
     * EVENT_USB_Device_ConfigurationChanged.  `cdcOk`, `outOk` and `inOk` are
     * what the endpoint-configuration calls return.  In bridge mode both
     * queues are emptied; in programmer mode only the OUT endpoint is
     * configured, because the IN endpoint has the same number.
     */
    method ConfigurationChanged(cdcOk: bool, outOk: bool, inOk: bool) returns (configSuccess: bool)
      requires Valid()
      modifies usbToUsart, usartToUsb
      ensures Valid()
      ensures mode == MODE_USART_BRIDGE ==>
        configSuccess == cdcOk && usbToUsart.Contents == [] && usartToUsb.Contents == []
      ensures mode == MODE_PDI_PROGRAMMER ==>
        && configSuccess == outOk
        && usbToUsart.Contents == old(usbToUsart.Contents) && usartToUsb.Contents == old(usartToUsb.Contents)
    {
      configSuccess := true;
      if mode == MODE_USART_BRIDGE {
        configSuccess := configSuccess && cdcOk;
        usbToUsart.InitBuffer();
        usartToUsb.InitBuffer();
      } else {
        configSuccess := configSuccess && outOk;
        if AVRISP_DATA_IN_EPADDR & ENDPOINT_EPNUM_MASK != AVRISP_DATA_OUT_EPADDR & ENDPOINT_EPNUM_MASK {
          configSuccess := configSuccess && inOk;
        }
      }
    }

    /** EVENT_USB_Device_ControlRequest: whether the request goes to the CDC class driver. */
    method ControlRequest() returns (toCdcDriver: bool)
      ensures toCdcDriver <==> mode == MODE_USART_BRIDGE
    {
      toCdcDriver := mode == MODE_USART_BRIDGE;
    }

    /** CALLBACK_USB_GetDescriptor: the bridge's catalog in bridge mode, the programmer's otherwise. */
    method GetDescriptor(wValue: bv16, wIndex: bv8) returns (d: Answer)
      requires Valid()
      modifies serialString
      ensures Valid()
      ensures mode == MODE_USART_BRIDGE ==>
        d == UsartGetDescriptor(wValue, wIndex) && serialString[..] == old(serialString[..])
      ensures mode == MODE_PDI_PROGRAMMER ==>
        && d == AvrispDescriptorAnswer(wValue, wIndex)
        && serialString[..] ==
          if IsSerialRequest(wValue) then ServeSerial(AVRISP_SERIAL_STRING, AVRISP_DATA_IN_EPADDR)
          else old(serialString[..])
    {
      if mode == MODE_USART_BRIDGE {
        d := UsartGetDescriptor(wValue, wIndex);
      } else {
        d := AvrispGetDescriptor(wValue, wIndex, serialString);
        if IsSerialRequest(wValue) {
          ServeSerialIdempotent(AVRISP_SERIAL_STRING, AVRISP_DATA_IN_EPADDR);
          ServeSerialFromEitherState();
        }
      }
    }
  }

  /** Serving the serial string gives the same units whether or not it had been served before. */
  lemma ServeSerialFromEitherState()
    ensures forall units :: SerialStringOk(units) ==>
      ServeSerial(units, AVRISP_DATA_IN_EPADDR) == ServeSerial(AVRISP_SERIAL_STRING, AVRISP_DATA_IN_EPADDR)
  {
    ServedSerialString();
  }
}
