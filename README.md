# USBtoSerial / AVRISP mkII firmware — a verified model

The firmware runs on an ATmega USB microcontroller. It boots in one of two modes, chosen by a strap pin:

- **USB-to-serial bridge.** The device enumerates as a CDC virtual serial port. Bytes flow between the host and USART1 through two bounded 128-byte ring buffers. The host's line coding reprograms USART1, and DTR drives the target's reset line.
- **AVRISP mkII clone.** The device enumerates as a vendor-specific programmer. Its serial-number string is patched in RAM with the IN endpoint number each time it is served. The write is idempotent.

The project models this control logic in Dafny and proves its properties:

- `RingBuffers` (`fifo.dfy`): the byte FIFO. It is a class over a fixed 128-byte array, and its abstract view is the queued bytes, oldest first.
- `Descriptors` (`descriptors.dfy`): the two GetDescriptor switches, and the serial-number patch on a RAM `array<bv16>`.
  - Each catalog also has a reference definition as a finite map from (type, number) to an entry.
  - An entry is an opaque blob tag with a size and a memory space. Sizes are a 16-bit unsigned integer type, as the uint16_t the routines return.
  - Lemmas prove that each switch is exactly its table lookup.
- `SerialLine` (`serial_line.dfy`): the CDC line-coding to UCSR1C mask translation and the ordered register writes of a reconfiguration.
  - The writes are a `seq<Write>` replayed over a register datatype.
  - The lemmas cover every intermediate state of the window.
  - The DTR-to-reset-line mapping is also here.
  - `Usart1` is the register file, as a class whose event methods perform the writes.
- `UsbToSerial` (`firmware.dfy`): the firmware state as a class.
  - The state is the mode (a `const`, fixed at boot), the two FIFOs and the serial-string array.
  - Its methods are the boot-time mode decision, one bridge iteration split into its three steps, the USART RX interrupt, the configuration-changed event, control-request routing, the descriptor callback and the programmer task's guard.
  - Each bridge step is a method proved against a pure function of the queues. The lemmas give those functions their meaning: order, no loss, batch caps, and what a refusal stops.

USB-stack and UART answers are parameters called oracles.

`HostPoll` bundles what one bridge iteration reads:

- the result of `CDC_Device_ReceiveByte`;
- whether the IN endpoint is ready;
- whether the k-th `CDC_Device_SendByte` of a batch succeeds;
- `Serial_IsSendReady`.

The other answers are plain method parameters:

- whether the device is configured (`configured`);
- whether an OUT packet has arrived (`outReceived`);
- the results of the endpoint-configuration calls (`cdcOk`, `outOk`, `inOk`).

The baud divisor formula is also a parameter, a function from bit rate to UBRR value.

Constants that live in headers outside this model are written out with their conventional LUFA / USB 2.0 values. `Descriptors.h` is not part of this model. The values are:

- descriptor types: Device 1, Configuration 2, String 3;
- string ids: 0–3;
- `NO_DESCRIPTOR` 0;
- `AVRISP_DATA_IN_EPADDR` 0x82 and `AVRISP_DATA_OUT_EPADDR` 0x02, with `ENDPOINT_EPNUM_MASK` 0x0F;
- `CDC_TXRX_EPSIZE` 16;
- the sizes of the descriptor structs.

The USART1 bit positions are the ATmega U2/U4 ones. The board is the non-Gscheiduino one: the strap is PD0 and the reset line is PD7.

## Model

| member | source | states |
|---|---|---|
| RingBuffers.ByteFifo.constructor | USBtoSerial.c:43-52 | a fresh 128-byte buffer, valid and empty |
| RingBuffers.ByteFifo.InitBuffer | USBtoSerial.c:95-96 | re-initialising a buffer empties it and keeps it valid |
| RingBuffers.ByteFifo.GetCount | USBtoSerial.c:127 | the count is the number of queued bytes, at most 128 |
| RingBuffers.ByteFifo.IsFull | USBtoSerial.c:110 | full exactly when 128 bytes are queued |
| RingBuffers.ByteFifo.IsEmpty | USBtoSerial.c:164 | empty exactly when nothing is queued |
| RingBuffers.ByteFifo.Peek | USBtoSerial.c:151-152 | the oldest queued byte, left in place |
| RingBuffers.ByteFifo.Insert | USBtoSerial.c:123 | with room available, the byte is appended behind the queued ones and the ring stays consistent |
| RingBuffers.ByteFifo.Remove | USBtoSerial.c:158 | returns the oldest byte and the queue loses exactly that byte |
| Descriptors.DescriptorType | Descriptors.c:219 | the type is the high byte of wValue (wValue div 256) |
| Descriptors.DescriptorNumber | Descriptors.c:220 | the number is the low byte of wValue (wValue mod 256), and wValue is 256 times the type plus the number |
| Descriptors.RequestWord | Descriptors.c:219-220 | assembling a word from a type and a number gives back that type and that number when split |
| Descriptors.RequestWordRoundTrip | Descriptors.c:394-395 | splitting a word and reassembling it gives the word back, so (type, number) is a bijective view of wValue |
| Descriptors.ConfigurationSizesAreSumsOfParts | Descriptors.c:233-238 | each configuration size is the sum of its header, interface, functional and endpoint parts (62 and 32 bytes) |
| Descriptors.Utf16 | Descriptors.c:195 | an L"..." literal has one UTF-16 unit per character |
| Descriptors.StringDescriptorSize | Descriptors.c:244-253 | a string descriptor's header size is 2 plus 2 bytes per unit |
| Descriptors.UsartGetDescriptor | Descriptors.c:214-259 | the address is missing exactly when the size is NO_DESCRIPTOR; then the answer is (NULL, NO_DESCRIPTOR, FLASH) |
| Descriptors.AvrispDescriptorAnswer | Descriptors.c:388-443 | the same not-found shape for the AVRISP switch's answer |
| Descriptors.SerialDigit | Descriptors.c:433 | the digit is '0' plus the endpoint number, always within '0'..'0'+15 |
| Descriptors.ServeSerial | Descriptors.c:433 | the served string has the same length, the endpoint digit at unit 6 and every other unit unchanged |
| Descriptors.AvrispGetDescriptor | Descriptors.c:388-443 | answers as the AVRISP table; a serial request rewrites only unit 6 with the endpoint digit, and any other request leaves the RAM string untouched |
| Descriptors.UsartGetDescriptorIsTableLookup | Descriptors.c:227-256 | the USART switch equals a lookup of (type, number) in the USART catalog map, for every request |
| Descriptors.AvrispGetDescriptorIsTableLookup | Descriptors.c:402-439 | the AVRISP switch equals a lookup in the AVRISP catalog map, for every request |
| Descriptors.GetDescriptorIgnoresWIndex | Descriptors.c:214-259 | wIndex never changes either switch's answer |
| Descriptors.DeviceRequestAnyNumber | Descriptors.c:229-232 | a Device request, whatever its number, gets the mode's device descriptor, 18 bytes, from FLASH (also lines 404-407) |
| Descriptors.ConfigurationRequestAnyNumber | Descriptors.c:233-238 | a Configuration request, whatever its number, gets the composite descriptor sized as the sum of its parts, from RAM (also lines 408-412) |
| Descriptors.UnknownTypeNotFound | Descriptors.c:222-225 | any other type gives (NULL, NO_DESCRIPTOR, FLASH) in both modes |
| Descriptors.UsartStringNumbers | Descriptors.c:240-254 | the bridge finds a string exactly for numbers 0, 1, 2, in FLASH, sized 4, 18, 34 |
| Descriptors.AvrispStringNumbers | Descriptors.c:414-436 | the programmer finds exactly numbers 0–3; only the serial string (28 bytes) is in RAM; sizes 4, 18, 24 |
| Descriptors.AvrispFindsUsartsRequestsAndSerial | Descriptors.c:402-439 | the programmer finds a descriptor exactly when the bridge does or the request is for the serial string |
| Descriptors.ServeSerialIdempotent | Descriptors.c:433 | serving the serial string twice leaves it as serving it once |
| Descriptors.ServeSerialDiffersOnlyInDigit | Descriptors.c:428-434 | serving changes only unit 6, keeps the length, and distinct endpoint numbers give distinct digits |
| Descriptors.ServedSerialString | Descriptors.c:378-380 | the flashed serial keeps its embedded NUL as unit 12 of 13; served with endpoint 2 it reads "000200212345\0" |
| SerialLine.ConfigMask | USBtoSerial.c:378-404 | the mask only ever sets parity, stop-bit and character-size bits |
| SerialLine.ConfigMaskGivesIntendedFrame | USBtoSerial.c:380-404 | the mask gives exactly the intended frame: odd/even/none parity, two stop bits only for format 2, 6/7/8 data bits and 5 for any other width |
| SerialLine.ConfigMaskSeparatesFrames | USBtoSerial.c:378-404 | two encodings get the same mask exactly when they mean the same frame |
| SerialLine.ReconfigurationWrites | USBtoSerial.c:406-423 | a reconfiguration is exactly nine register writes |
| SerialLine.PrefixStatesSwitchOff | USBtoSerial.c:406-412 | the registers after each of the first four writes: TX held high, then UCSR1B, UCSR1A and UCSR1C zeroed in that order |
| SerialLine.PrefixStatesConfigure | USBtoSerial.c:414-419 | the registers after writes five to seven: divisor, frame mask, double speed |
| SerialLine.PrefixStatesSwitchOn | USBtoSerial.c:420-423 | the registers after the enable write and after the TX release |
| SerialLine.ReconfigurationResult | USBtoSerial.c:376-424 | the USART ends running at the new divisor in double speed with the intended frame (UCSZ12 clear); TX is released; every other PORTD bit, the reset line included, is unchanged |
| SerialLine.ReconfigurationWindow | USBtoSerial.c:406-423 | TX stays high from the first write to the last; RX and its interrupt stay off from the zeroing to the enable; UBRR1 is written once, only when A, B and C are all zero |
| SerialLine.ReconfigurationForgetsPrevious | USBtoSerial.c:410-420 | the end state depends only on the new encoding and PORTD, not on the previous USART settings |
| SerialLine.ResetLinePort | USBtoSerial.c:344-352 | DTR asserted drives the reset bit low and deasserted high; no other PORTD bit changes |
| SerialLine.ResetLineFollowsOnlyDtr | USBtoSerial.c:346 | only the DTR bit of the control-line state matters |
| SerialLine.DtrAssertThenRelease | USBtoSerial.c:348-351 | asserting then releasing DTR gives reset low, then high, with the other bits kept |
| SerialLine.Usart1.constructor | USBtoSerial.c:376 | the register file starts in the given state with an empty write log |
| SerialLine.Usart1.Do | USBtoSerial.c:406-423 | one register write, applied and logged; the caller must make it the k-th write of the plan, and afterwards the registers are the replay of the plan's prefix |
| SerialLine.Usart1.SwitchOff | USBtoSerial.c:406-412 | the method's first four writes are, in order, TX set high and UCSR1B, UCSR1A and UCSR1C zeroed, and the registers are their replay |
| SerialLine.Usart1.SwitchOn | USBtoSerial.c:414-423 | the method's last five writes are, in order, UBRR1, UCSR1C = mask, UCSR1A = U2X1, UCSR1B on and TX released |
| SerialLine.Usart1.LineEncodingChanged | USBtoSerial.c:376-424 | every register change goes through Do, so the log is the method's own trace: exactly the nine reconfiguration writes, in order, ending in their replayed state |
| SerialLine.Usart1.ControlLineStateChanged | USBtoSerial.c:344-352 | only PORTD changes, to the reset-line value for the new DTR state, by one logged set or clear write |
| UsbToSerial.SelectMode | USBtoSerial.c:266 | strap high (PD0 set) means bridge mode, low means programmer mode |
| UsbToSerial.SelectModeReadsOnlyStrap | USBtoSerial.c:261-266 | no PIND bit other than the strap affects the mode |
| UsbToSerial.ByteOf | USBtoSerial.c:123 | a received byte 0–255 is stored as itself |
| UsbToSerial.QueueFromHost | USBtoSerial.c:110-125 | the host-to-UART queue never exceeds 128 bytes |
| UsbToSerial.QueueFromHostProperties | USBtoSerial.c:110-125 | a full queue is left alone; a negative receive result is not queued; otherwise the byte is appended behind the queue |
| UsbToSerial.BatchLimit | USBtoSerial.c:144 | a batch is min(count, CDC_TXRX_EPSIZE - 1): never a full bank |
| UsbToSerial.SentCount | USBtoSerial.c:147-159 | the batch length is within budget, every byte before it was accepted, and a short batch ends at a refused byte |
| UsbToSerial.SentCountAllAccepted | USBtoSerial.c:147-159 | when every attempt succeeds the batch uses its whole budget |
| UsbToSerial.SentToHost | USBtoSerial.c:127-161 | what the host gets is a prefix of the queue, at most a bank less one byte, each byte accepted; it is empty when IN is not ready; a short capped batch means the next queued byte was refused |
| UsbToSerial.SentToHostKeepsTheRest | USBtoSerial.c:150-158 | sent bytes followed by what remains queued are exactly the old queue: no loss, no duplication, no reordering |
| UsbToSerial.SentToHostFullBatch | USBtoSerial.c:144-159 | a ready host that accepts everything gets exactly min(count, 15) bytes |
| UsbToSerial.TwoBatchesInOrder | USBtoSerial.c:140-159 | across two iterations the second batch continues where the first stopped |
| UsbToSerial.ToUart | USBtoSerial.c:164-165 | a byte goes to the UART exactly when it is send-ready and the queue is non-empty, and it is the head |
| UsbToSerial.AfterUart | USBtoSerial.c:164-165 | the handed-over byte followed by the remaining queue is the old queue |
| UsbToSerial.HostToUartInOrder | USBtoSerial.c:110-165 | the host-to-UART direction keeps order: received bytes go behind, the UART takes from the front |
| UsbToSerial.AvrispTask | USBtoSerial.c:198-226 | the protocol engine runs exactly when the device is configured and an OUT packet has been received |
| UsbToSerial.AvrispEndpointsShareNumber | USBtoSerial.c:316-318 | the programmer's IN and OUT addresses have the same endpoint number |
| UsbToSerial.ServeSerialFromEitherState | Descriptors.c:433 | serving gives the same string whether or not it was served before |
| UsbToSerial.Firmware.SetupHardware | USBtoSerial.c:88-97 | mode from the strap, both queues empty, serial string as flashed |
| UsbToSerial.Firmware.ReceiveFromHost | USBtoSerial.c:110-125 | the host is polled exactly when the queue is not full, and the queue becomes QueueFromHost of the old one |
| UsbToSerial.Firmware.SendToHost | USBtoSerial.c:127-161 | the while loop sends exactly SentToHost's batch and dequeues exactly those bytes |
| UsbToSerial.Firmware.SendToUart | USBtoSerial.c:164-165 | hands ToUart's byte to the UART and leaves AfterUart's queue |
| UsbToSerial.Firmware.BridgeTask | USBtoSerial.c:107-168 | one bridge iteration is the three steps in order; the queues change only as the step functions say |
| UsbToSerial.Firmware.MainLoopIteration | USBtoSerial.c:105-172 | bridge mode runs the bridge; programmer mode runs the AVRISP guard and leaves both queues alone |
| UsbToSerial.Firmware.UsartRxInterrupt | USBtoSerial.c:364-370 | the byte is stored exactly when the device is configured and the queue has room; otherwise the queue is unchanged |
| UsbToSerial.Firmware.ConfigurationChanged | USBtoSerial.c:296-319 | bridge mode reports the CDC result and empties both queues; programmer mode reports only the OUT setup, since IN shares its number, and keeps the queues |
| UsbToSerial.Firmware.ControlRequest | USBtoSerial.c:355-359 | requests reach the CDC class driver exactly in bridge mode |
| UsbToSerial.Firmware.GetDescriptor | USBtoSerial.c:439-449 | bridge mode answers from the USART switch without touching the serial string; programmer mode answers from the AVRISP switch, and a serial request leaves the string in its served form |

## Left out

- Clock, watchdog and pin bring-up, the NOP settle delay, `USB_Init`, and every LED write. This includes the 1000-iteration inactivity counter in the main loop and the LED reports in the connect, disconnect and configuration events: they have no functional effect on data.
- LUFA is not part of this model:
  - The ring-buffer implementation is a class of the same shape.
  - `CDC_Device_*`, `Endpoint_*`, `Serial_*` and `USB_DeviceState` become oracle parameters.
  - `SERIAL_2X_UBBRVAL` is a function parameter, so the divisor value itself is not checked.
  - `CDC_Device_USBTask` and `USB_USBTask` are not modelled.
  - `Serial_SendByte` is the method's returned byte.
- The constants from `Descriptors.h` and LUFA (descriptor types, string ids, endpoint addresses and bank size, struct sizes) are written out with their conventional values, since those headers are not part of this model.
- Descriptor contents (vendor/product ids, endpoint attributes, the bytes of each struct) are opaque blob tags with a size and a memory space.
- `V2Protocol_Init` and `V2Protocol_ProcessCommand`, the programmer engine, are external. `AvrispTask` only decides whether it runs.
- Interrupt preemption. The RX interrupt is an atomic step between main-loop steps. So the model does not capture a byte arriving between `RingBuffer_GetCount` and the send loop, which the real firmware tolerates because its batch size is a snapshot.
- The Gscheiduino board variant: the PC5 strap, the reset line pulled high at boot, and the SPI pins.
- `UsbToSerial.Firmware.SetupHardware`: in the source the buffers are attached to their 128-byte storage and emptied at boot only in bridge mode (USBtoSerial.c:95-96). In programmer mode they are never initialised and never used. The model starts them valid and empty in both modes. Nothing in programmer mode reads or writes them.
- `UsbToSerial.Firmware.UsartRxInterrupt`: does not require bridge mode. In programmer mode the interrupt never fires. RXCIE1 is set only by `LineEncodingChanged`, which is reached only through the CDC class driver, and control requests reach that driver only in bridge mode (USBtoSerial.c:355-359).
- `SerialLine.FrameOf` decodes the frame from UCSR1C alone, so it covers only UCSZ12 clear. `ReconfigurationResult` proves the reconfiguration leaves UCSZ12 clear. The 9-bit mode is not modelled. Neither are UCSR1A's status flags.
- `UsbToSerial.ByteOf`: its contract covers only results 0–255, the only non-negative values `CDC_Device_ReceiveByte` returns. The body truncates larger int16 values to their low byte as the uint8 parameter of `RingBuffer_Insert` would, but no ensures states that.
- The `RESET_TOGGLES_LIBUSB_COMPAT` and `USE_INTERNAL_SERIAL` build options are not modelled.
