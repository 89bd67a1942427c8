/**
 * The two descriptor catalogs the firmware serves during enumeration: one for
 * the USB-to-serial (CDC) bridge and one for the AVRISP mkII programmer.  A
 * GET_DESCRIPTOR request word carries the descriptor type in its high byte and
 * the descriptor number in its low byte; each catalog answers with an address
 * (or NULL), a size and the memory space the bytes live in.
 *
 * Descriptor contents are opaque blobs with a length.  String descriptors are
 * kept as their UTF-16 code units so that their header sizes follow from them,
 * and the AVRISP serial-number string lives in a RAM array that serving it
 * rewrites in place.
 */
module Descriptors {
  import opened Wrappers

  // Descriptor types (USB 2.0, table 9-5).
  const DTYPE_DEVICE: bv8 := 0x01
  const DTYPE_CONFIGURATION: bv8 := 0x02
  const DTYPE_STRING: bv8 := 0x03

  /** A descriptor size, a uint16_t. */
  newtype uint16 = x: int | 0 <= x < 0x1_0000

  /** The size reported for a descriptor that does not exist. */
  const NO_DESCRIPTOR: uint16 := 0

  // String descriptor numbers, the same in both catalogs; only the AVRISP one has a serial.
  const STRING_ID_LANGUAGE: bv8 := 0
  const STRING_ID_MANUFACTURER: bv8 := 1
  const STRING_ID_PRODUCT: bv8 := 2
  const STRING_ID_SERIAL: bv8 := 3

  const LANGUAGE_ID_ENG: bv16 := 0x0409

  // Endpoint addresses of the programmer interface.
  const ENDPOINT_DIR_IN: bv8 := 0x80
  const ENDPOINT_EPNUM_MASK: bv8 := 0x0F
  const AVRISP_DATA_OUT_EPADDR: bv8 := 0x02
  const AVRISP_DATA_IN_EPADDR: bv8 := ENDPOINT_DIR_IN | 0x02

  datatype MemorySpace = Flash | Ram

  /** The descriptor objects of both catalogs, i.e. what a returned address can point to. */
  datatype Blob =
    | UsartDevice | UsartConfiguration | UsartLanguage | UsartManufacturer | UsartProduct
    | AvrispDevice | AvrispConfiguration | AvrispLanguage | AvrispManufacturer | AvrispProduct
    | AvrispSerial

  /** What a GetDescriptor routine hands back: *DescriptorAddress, the returned size, *DescriptorMemorySpace. */
  datatype Answer = Answer(address: Option<Blob>, size: uint16, space: MemorySpace)

  /** The answer to a request no case of the switch recognises. */
  const NOT_FOUND := Answer(None, NO_DESCRIPTOR, Flash)

  /** One catalog entry: the object, its size and where it is stored. */
  datatype Entry = Entry(blob: Blob, size: uint16, space: MemorySpace)

  function Found(e: Entry): Answer {
    Answer(Some(e.blob), e.size, e.space)
  }

  // ---------------------------------------------------------------------------
  // The request word

  /** The descriptor type: wValue >> 8. */
  function DescriptorType(wValue: bv16): (t: bv8)
    ensures t as bv16 == wValue / 256
  {
    (wValue >> 8) as bv8
  }

  /**
   * The descriptor number: wValue & 0xFF, the remainder of wValue by 256, so
   * that wValue is 256 times the type plus the number.
   */
  function DescriptorNumber(wValue: bv16): (n: bv8)
    ensures n as bv16 == wValue % 256
    ensures wValue == DescriptorType(wValue) as bv16 * 256 + n as bv16
  {
    (wValue & 0xFF) as bv8
  }

  /** The request word a host sends for descriptor `n` of type `t`. */
  function RequestWord(t: bv8, n: bv8): (w: bv16)
    ensures DescriptorType(w) == t && DescriptorNumber(w) == n
  {
    (t as bv16 << 8) | n as bv16
  }

  /** Reassembling the two halves of a request word gives back the word. */
  lemma RequestWordRoundTrip(w: bv16)
    ensures RequestWord(DescriptorType(w), DescriptorNumber(w)) == w
  {
  }

  // ---------------------------------------------------------------------------
  // Descriptor sizes

  /** sizeof(USB_Descriptor_Device_t) */
  const DEVICE_DESCRIPTOR_SIZE: uint16 := 18

  /**
   * The configuration descriptors are composite; each is reported as one block
   * whose size is the sum of its parts (configuration header 9, interface 9,
   * endpoint 7, CDC functional header 5, ACM 4, union 5).
   */
  const USART_CONFIGURATION_PARTS: seq<nat> := [9, 9, 5, 4, 5, 7, 9, 7, 7]
  const AVRISP_CONFIGURATION_PARTS: seq<nat> := [9, 9, 7, 7]

  function Sum(parts: seq<nat>): nat {
    if parts == [] then 0 else parts[0] + Sum(parts[1..])
  }

  /** sizeof(USART_USB_Descriptor_Configuration_t) */
  const USART_CONFIGURATION_SIZE: uint16 := 62
  /** sizeof(AVRISP_USB_Descriptor_Configuration_t) */
  const AVRISP_CONFIGURATION_SIZE: uint16 := 32

  lemma ConfigurationSizesAreSumsOfParts()
    ensures USART_CONFIGURATION_SIZE as int == Sum(USART_CONFIGURATION_PARTS)
    ensures AVRISP_CONFIGURATION_SIZE as int == Sum(AVRISP_CONFIGURATION_PARTS)
  {
  }

  // ---------------------------------------------------------------------------
  // String descriptors

  /** The UTF-16 code units of an L"..." literal, without its implicit terminator. */
  function Utf16(s: string): (units: seq<bv16>)
    requires forall i :: 0 <= i < |s| ==> s[i] as int < 0x1_0000
    ensures |units| == |s|
  {
    seq(|s|, i requires 0 <= i < |s| => s[i] as bv16)
  }

  /**
   * Header.Size of a string descriptor: the two header bytes plus two bytes per
   * code unit.  It is a one-byte field, so the text is at most 126 units.
   */
  function StringDescriptorSize(units: seq<bv16>): (size: uint16)
    requires |units| <= 126
    ensures size as int == 2 + 2 * |units|
  {
    (2 + 2 * |units|) as uint16
  }

  const LANGUAGE_STRING: seq<bv16> := [LANGUAGE_ID_ENG]
  const USART_MANUFACTURER_STRING: seq<bv16> := Utf16("eHaJo.de")
  const USART_PRODUCT_STRING: seq<bv16> := Utf16("eHaJo USB2Serial")
  const AVRISP_MANUFACTURER_STRING: seq<bv16> := Utf16("eHaJo.de")
  const AVRISP_PRODUCT_STRING: seq<bv16> := Utf16("AVRISP mkII")
  /**
   * The serial number as flashed.  The trailing NUL is part of the string's
   * content (and of its reported size), as on a genuine AVRISP mkII.
   */
  const AVRISP_SERIAL_STRING: seq<bv16> := Utf16("000200012345\0")

  /** The code unit that serving the serial-number string overwrites. */
  const SERIAL_DIGIT_INDEX: nat := 6

  // ---------------------------------------------------------------------------
  // Catalog entries, shared by the switches below and the reference tables

  const USART_DEVICE := Entry(UsartDevice, DEVICE_DESCRIPTOR_SIZE, Flash)
  const USART_CONFIGURATION := Entry(UsartConfiguration, USART_CONFIGURATION_SIZE, Ram)
  const USART_LANGUAGE := Entry(UsartLanguage, StringDescriptorSize(LANGUAGE_STRING), Flash)
  const USART_MANUFACTURER := Entry(UsartManufacturer, StringDescriptorSize(USART_MANUFACTURER_STRING), Flash)
  const USART_PRODUCT := Entry(UsartProduct, StringDescriptorSize(USART_PRODUCT_STRING), Flash)

  const AVRISP_DEVICE := Entry(AvrispDevice, DEVICE_DESCRIPTOR_SIZE, Flash)
  const AVRISP_CONFIGURATION := Entry(AvrispConfiguration, AVRISP_CONFIGURATION_SIZE, Ram)
  const AVRISP_LANGUAGE := Entry(AvrispLanguage, StringDescriptorSize(LANGUAGE_STRING), Flash)
  const AVRISP_MANUFACTURER := Entry(AvrispManufacturer, StringDescriptorSize(AVRISP_MANUFACTURER_STRING), Flash)
  const AVRISP_PRODUCT := Entry(AvrispProduct, StringDescriptorSize(AVRISP_PRODUCT_STRING), Flash)
  /** The serial string is reported from RAM, with the size in its (unchanging) header. */
  const AVRISP_SERIAL := Entry(AvrispSerial, StringDescriptorSize(AVRISP_SERIAL_STRING), Ram)

  // ---------------------------------------------------------------------------
  // The two GetDescriptor switches

  /** USART_GetDescriptor.  wIndex takes no part. */
  function UsartGetDescriptor(wValue: bv16, wIndex: bv8): (d: Answer)
    ensures d.address == None <==> d.size == NO_DESCRIPTOR
    ensures d.address == None ==> d == NOT_FOUND
  {
    var descriptorType := DescriptorType(wValue);
    var descriptorNumber := DescriptorNumber(wValue);
    if descriptorType == DTYPE_DEVICE then Found(USART_DEVICE)
    else if descriptorType == DTYPE_CONFIGURATION then Found(USART_CONFIGURATION)
    else if descriptorType == DTYPE_STRING then
      if descriptorNumber == STRING_ID_LANGUAGE then Found(USART_LANGUAGE)
      else if descriptorNumber == STRING_ID_MANUFACTURER then Found(USART_MANUFACTURER)
      else if descriptorNumber == STRING_ID_PRODUCT then Found(USART_PRODUCT)
      else NOT_FOUND
    else NOT_FOUND
  }

  /** Whether a request word asks for the AVRISP serial-number string. */
  predicate IsSerialRequest(wValue: bv16) {
    DescriptorType(wValue) == DTYPE_STRING && DescriptorNumber(wValue) == STRING_ID_SERIAL
  }

  /** What AVRISP_GetDescriptor answers; its side effect on the serial string is AvrispGetDescriptor's. */
  function AvrispDescriptorAnswer(wValue: bv16, wIndex: bv8): (d: Answer)
    ensures d.address == None <==> d.size == NO_DESCRIPTOR
    ensures d.address == None ==> d == NOT_FOUND
  {
    var descriptorType := DescriptorType(wValue);
    var descriptorNumber := DescriptorNumber(wValue);
    if descriptorType == DTYPE_DEVICE then Found(AVRISP_DEVICE)
    else if descriptorType == DTYPE_CONFIGURATION then Found(AVRISP_CONFIGURATION)
    else if descriptorType == DTYPE_STRING then
      if descriptorNumber == STRING_ID_LANGUAGE then Found(AVRISP_LANGUAGE)
      else if descriptorNumber == STRING_ID_MANUFACTURER then Found(AVRISP_MANUFACTURER)
      else if descriptorNumber == STRING_ID_PRODUCT then Found(AVRISP_PRODUCT)
      else if descriptorNumber == STRING_ID_SERIAL then Found(AVRISP_SERIAL)
      else NOT_FOUND
    else NOT_FOUND
  }

  /** The digit written into the serial number: '0' plus the IN endpoint's number. */
  function SerialDigit(epAddr: bv8): (c: bv16)
    ensures '0' as int <= c as int <= '0' as int + 15
    ensures c as int - '0' as int == (epAddr & ENDPOINT_EPNUM_MASK) as int
  {
    '0' as bv16 + (epAddr & ENDPOINT_EPNUM_MASK) as bv16
  }

  /** The serial-number string after it has been served with IN endpoint `epAddr`. */
  function ServeSerial(units: seq<bv16>, epAddr: bv8): (r: seq<bv16>)
    requires SERIAL_DIGIT_INDEX < |units|
    ensures |r| == |units| && r[SERIAL_DIGIT_INDEX] == SerialDigit(epAddr)
    ensures forall i :: 0 <= i < |units| && i != SERIAL_DIGIT_INDEX ==> r[i] == units[i]
  {
    units[SERIAL_DIGIT_INDEX := SerialDigit(epAddr)]
  }

  /**
   * AVRISP_GetDescriptor, with the serial-number string's code units in the
   * RAM array `serialString`.  Serving the serial string rewrites unit 6 with
   * the endpoint digit; every other request leaves the array alone.
   */
  method AvrispGetDescriptor(wValue: bv16, wIndex: bv8, serialString: array<bv16>) returns (d: Answer)
    requires SERIAL_DIGIT_INDEX < serialString.Length
    modifies serialString
    ensures d == AvrispDescriptorAnswer(wValue, wIndex)
    ensures serialString[..] ==
      if IsSerialRequest(wValue) then ServeSerial(old(serialString[..]), AVRISP_DATA_IN_EPADDR)
      else old(serialString[..])
  {
    var descriptorType := (wValue >> 8) as bv8;
    var descriptorNumber := (wValue & 0xFF) as bv8;
    var address: Option<Blob> := None;
    var size := NO_DESCRIPTOR;
    var space := Flash;
    if descriptorType == DTYPE_DEVICE {
      address, size := Some(AvrispDevice), DEVICE_DESCRIPTOR_SIZE;
    } else if descriptorType == DTYPE_CONFIGURATION {
      space := Ram;
      address, size := Some(AvrispConfiguration), AVRISP_CONFIGURATION_SIZE;
    } else if descriptorType == DTYPE_STRING {
      if descriptorNumber == STRING_ID_LANGUAGE {
        address, size := Some(AvrispLanguage), AVRISP_LANGUAGE.size;
      } else if descriptorNumber == STRING_ID_MANUFACTURER {
        address, size := Some(AvrispManufacturer), AVRISP_MANUFACTURER.size;
      } else if descriptorNumber == STRING_ID_PRODUCT {
        address, size := Some(AvrispProduct), AVRISP_PRODUCT.size;
      } else if descriptorNumber == STRING_ID_SERIAL {
        address, size := Some(AvrispSerial), AVRISP_SERIAL.size;
        serialString[SERIAL_DIGIT_INDEX] := SerialDigit(AVRISP_DATA_IN_EPADDR);
        space := Ram;
      }
    }
    d := Answer(address, size, space);
  }

  // ---------------------------------------------------------------------------
  // Reference tables: each catalog as a finite map from (type, number)

  type Key = (bv8, bv8)

  function KeyOf(wValue: bv16): Key {
    (DescriptorType(wValue), DescriptorNumber(wValue))
  }

  function NumberedKey(t: bv8, i: int): Key
    requires 0 <= i < 256
  {
    (t, i as bv8)
  }

  /** The entries for descriptor type `t` at every one of the 256 numbers. */
  function AtEveryNumber(t: bv8, e: Entry): (m: map<Key, Entry>)
    ensures forall k :: k in m <==> k.0 == t
    ensures forall k :: k in m ==> m[k] == e
  {
    var m := map i: int | 0 <= i < 256 :: NumberedKey(t, i) := e;
    assert forall k: Key :: k.0 == t ==> k == NumberedKey(t, k.1 as int);
    m
  }

  const USART_STRINGS: map<Key, Entry> :=
    map[(DTYPE_STRING, STRING_ID_LANGUAGE) := USART_LANGUAGE,
        (DTYPE_STRING, STRING_ID_MANUFACTURER) := USART_MANUFACTURER,
        (DTYPE_STRING, STRING_ID_PRODUCT) := USART_PRODUCT]

  const USART_CATALOG: map<Key, Entry> :=
    AtEveryNumber(DTYPE_DEVICE, USART_DEVICE)
    + AtEveryNumber(DTYPE_CONFIGURATION, USART_CONFIGURATION)
    + USART_STRINGS

  const AVRISP_STRINGS: map<Key, Entry> :=
    map[(DTYPE_STRING, STRING_ID_LANGUAGE) := AVRISP_LANGUAGE,
        (DTYPE_STRING, STRING_ID_MANUFACTURER) := AVRISP_MANUFACTURER,
        (DTYPE_STRING, STRING_ID_PRODUCT) := AVRISP_PRODUCT,
        (DTYPE_STRING, STRING_ID_SERIAL) := AVRISP_SERIAL]

  const AVRISP_CATALOG: map<Key, Entry> :=
    AtEveryNumber(DTYPE_DEVICE, AVRISP_DEVICE)
    + AtEveryNumber(DTYPE_CONFIGURATION, AVRISP_CONFIGURATION)
    + AVRISP_STRINGS

  /** Looking a key up in a table: the entry if present, NOT_FOUND otherwise. */
  function Lookup(catalog: map<Key, Entry>, k: Key): Answer {
    if k in catalog then Found(catalog[k]) else NOT_FOUND
  }

  /** In a union of two tables, the right one wins where both have the key. */
  lemma LookupUnion(a: map<Key, Entry>, b: map<Key, Entry>, k: Key)
    ensures Lookup(a + b, k) == if k in b then Found(b[k]) else Lookup(a, k)
  {
  }

  /** The string part of the USART table: numbers 0-2 of type String. */
  lemma UsartStringsAt(t: bv8, n: bv8)
    ensures (t, n) in USART_STRINGS <==>
      t == DTYPE_STRING && (n == STRING_ID_LANGUAGE || n == STRING_ID_MANUFACTURER || n == STRING_ID_PRODUCT)
    ensures t == DTYPE_STRING && n == STRING_ID_LANGUAGE ==> USART_STRINGS[(t, n)] == USART_LANGUAGE
    ensures t == DTYPE_STRING && n == STRING_ID_MANUFACTURER ==> USART_STRINGS[(t, n)] == USART_MANUFACTURER
    ensures t == DTYPE_STRING && n == STRING_ID_PRODUCT ==> USART_STRINGS[(t, n)] == USART_PRODUCT
  {
  }

  /** The string part of the AVRISP table: numbers 0-3 of type String. */
  lemma AvrispStringsAt(t: bv8, n: bv8)
    ensures (t, n) in AVRISP_STRINGS <==>
      t == DTYPE_STRING && (n == STRING_ID_LANGUAGE || n == STRING_ID_MANUFACTURER
                            || n == STRING_ID_PRODUCT || n == STRING_ID_SERIAL)
    ensures t == DTYPE_STRING && n == STRING_ID_LANGUAGE ==> AVRISP_STRINGS[(t, n)] == AVRISP_LANGUAGE
    ensures t == DTYPE_STRING && n == STRING_ID_MANUFACTURER ==> AVRISP_STRINGS[(t, n)] == AVRISP_MANUFACTURER
    ensures t == DTYPE_STRING && n == STRING_ID_PRODUCT ==> AVRISP_STRINGS[(t, n)] == AVRISP_PRODUCT
    ensures t == DTYPE_STRING && n == STRING_ID_SERIAL ==> AVRISP_STRINGS[(t, n)] == AVRISP_SERIAL
  {
  }

  /** The USART switch answers every request exactly as its table does. */
  lemma UsartGetDescriptorIsTableLookup(wValue: bv16, wIndex: bv8)
    ensures UsartGetDescriptor(wValue, wIndex) == Lookup(USART_CATALOG, KeyOf(wValue))
  {
    UsartCatalogAt(DescriptorType(wValue), DescriptorNumber(wValue));
  }

  /** What the USART table holds under one (type, number) key. */
  lemma UsartCatalogAt(t: bv8, n: bv8)
    ensures Lookup(USART_CATALOG, (t, n)) ==
      if t == DTYPE_DEVICE then Found(USART_DEVICE)
      else if t == DTYPE_CONFIGURATION then Found(USART_CONFIGURATION)
      else if t == DTYPE_STRING then
        if n == STRING_ID_LANGUAGE then Found(USART_LANGUAGE)
        else if n == STRING_ID_MANUFACTURER then Found(USART_MANUFACTURER)
        else if n == STRING_ID_PRODUCT then Found(USART_PRODUCT)
        else NOT_FOUND
      else NOT_FOUND
  {
    var d := AtEveryNumber(DTYPE_DEVICE, USART_DEVICE);
    var c := AtEveryNumber(DTYPE_CONFIGURATION, USART_CONFIGURATION);
    LookupUnion(d + c, USART_STRINGS, (t, n));
    LookupUnion(d, c, (t, n));
    UsartStringsAt(t, n);
    if t == DTYPE_DEVICE {
      assert (t, n) in d && (t, n) !in c;
    } else if t == DTYPE_CONFIGURATION {
      assert (t, n) in c;
    } else {
      assert (t, n) !in d && (t, n) !in c;
    }
  }

  /** The AVRISP switch answers every request exactly as its table does. */
  lemma AvrispGetDescriptorIsTableLookup(wValue: bv16, wIndex: bv8)
    ensures AvrispDescriptorAnswer(wValue, wIndex) == Lookup(AVRISP_CATALOG, KeyOf(wValue))
  {
    AvrispCatalogAt(DescriptorType(wValue), DescriptorNumber(wValue));
  }

  /** What the AVRISP table holds under one (type, number) key. */
  lemma AvrispCatalogAt(t: bv8, n: bv8)
    ensures Lookup(AVRISP_CATALOG, (t, n)) ==
      if t == DTYPE_DEVICE then Found(AVRISP_DEVICE)
      else if t == DTYPE_CONFIGURATION then Found(AVRISP_CONFIGURATION)
      else if t == DTYPE_STRING then
        if n == STRING_ID_LANGUAGE then Found(AVRISP_LANGUAGE)
        else if n == STRING_ID_MANUFACTURER then Found(AVRISP_MANUFACTURER)
        else if n == STRING_ID_PRODUCT then Found(AVRISP_PRODUCT)
        else if n == STRING_ID_SERIAL then Found(AVRISP_SERIAL)
        else NOT_FOUND
      else NOT_FOUND
  {
    var d := AtEveryNumber(DTYPE_DEVICE, AVRISP_DEVICE);
    var c := AtEveryNumber(DTYPE_CONFIGURATION, AVRISP_CONFIGURATION);
    LookupUnion(d + c, AVRISP_STRINGS, (t, n));
    LookupUnion(d, c, (t, n));
    AvrispStringsAt(t, n);
    if t == DTYPE_DEVICE {
      assert (t, n) in d && (t, n) !in c;
    } else if t == DTYPE_CONFIGURATION {
      assert (t, n) in c;
    } else {
      assert (t, n) !in d && (t, n) !in c;
    }
  }


  // ---------------------------------------------------------------------------
  // Properties of the two catalogs

  /** Only wValue selects a descriptor; wIndex never changes the answer. */
  lemma GetDescriptorIgnoresWIndex(wValue: bv16, wIndex1: bv8, wIndex2: bv8)
    ensures UsartGetDescriptor(wValue, wIndex1) == UsartGetDescriptor(wValue, wIndex2)
    ensures AvrispDescriptorAnswer(wValue, wIndex1) == AvrispDescriptorAnswer(wValue, wIndex2)
  {
  }

  /** A Device request gets the mode's device descriptor, from FLASH, whatever its number. */
  lemma DeviceRequestAnyNumber(wValue: bv16, wIndex: bv8)
    requires DescriptorType(wValue) == DTYPE_DEVICE
    ensures UsartGetDescriptor(wValue, wIndex) == Answer(Some(UsartDevice), DEVICE_DESCRIPTOR_SIZE, Flash)
    ensures AvrispDescriptorAnswer(wValue, wIndex) == Answer(Some(AvrispDevice), DEVICE_DESCRIPTOR_SIZE, Flash)
  {
  }

  /**
   * A Configuration request gets the mode's composite configuration descriptor
   * as one block from RAM, sized as the sum of its parts, whatever its number.
   */
  lemma ConfigurationRequestAnyNumber(wValue: bv16, wIndex: bv8)
    requires DescriptorType(wValue) == DTYPE_CONFIGURATION
    ensures var d := UsartGetDescriptor(wValue, wIndex);
      d.address == Some(UsartConfiguration) && d.space == Ram
      && d.size as int == Sum(USART_CONFIGURATION_PARTS)
    ensures var d := AvrispDescriptorAnswer(wValue, wIndex);
      d.address == Some(AvrispConfiguration) && d.space == Ram
      && d.size as int == Sum(AVRISP_CONFIGURATION_PARTS)
  {
    ConfigurationSizesAreSumsOfParts();
  }

  /** Any type other than Device, Configuration and String is not found, in both modes. */
  lemma UnknownTypeNotFound(wValue: bv16, wIndex: bv8)
    requires DescriptorType(wValue) !in {DTYPE_DEVICE, DTYPE_CONFIGURATION, DTYPE_STRING}
    ensures UsartGetDescriptor(wValue, wIndex) == NOT_FOUND
    ensures AvrispDescriptorAnswer(wValue, wIndex) == NOT_FOUND
  {
  }

  /**
   * The bridge knows exactly three strings (language, manufacturer, product),
   * all in FLASH, each sized from its own header.
   */
  lemma UsartStringNumbers(wValue: bv16, wIndex: bv8)
    requires DescriptorType(wValue) == DTYPE_STRING
    ensures var d := UsartGetDescriptor(wValue, wIndex);
      && (d != NOT_FOUND <==> DescriptorNumber(wValue) in {STRING_ID_LANGUAGE, STRING_ID_MANUFACTURER, STRING_ID_PRODUCT})
      && d.space == Flash
      && (DescriptorNumber(wValue) == STRING_ID_LANGUAGE ==> d.size == 4)
      && (DescriptorNumber(wValue) == STRING_ID_MANUFACTURER ==> d.size == 18)
      && (DescriptorNumber(wValue) == STRING_ID_PRODUCT ==> d.size == 34)
  {
  }

  /**
   * The programmer knows a fourth string, the serial number, which alone is
   * served from RAM; its size counts the embedded NUL.
   */
  lemma AvrispStringNumbers(wValue: bv16, wIndex: bv8)
    requires DescriptorType(wValue) == DTYPE_STRING
    ensures var d := AvrispDescriptorAnswer(wValue, wIndex);
      && (d != NOT_FOUND <==> DescriptorNumber(wValue) in {STRING_ID_LANGUAGE, STRING_ID_MANUFACTURER, STRING_ID_PRODUCT, STRING_ID_SERIAL})
      && (d.space == Ram <==> DescriptorNumber(wValue) == STRING_ID_SERIAL)
      && (DescriptorNumber(wValue) == STRING_ID_LANGUAGE ==> d.size == 4)
      && (DescriptorNumber(wValue) == STRING_ID_MANUFACTURER ==> d.size == 18)
      && (DescriptorNumber(wValue) == STRING_ID_PRODUCT ==> d.size == 24)
      && (DescriptorNumber(wValue) == STRING_ID_SERIAL ==> d.size == 28)
  {
  }

  /** The programmer's catalog finds exactly what the bridge's does, plus the serial string. */
  lemma AvrispFindsUsartsRequestsAndSerial(wValue: bv16, wIndex: bv8)
    ensures AvrispDescriptorAnswer(wValue, wIndex) != NOT_FOUND
        <==> UsartGetDescriptor(wValue, wIndex) != NOT_FOUND || IsSerialRequest(wValue)
  {
  }

  // ---------------------------------------------------------------------------
  // Properties of the serial-number string

  /** Serving the serial string again changes nothing: the digit depends only on the endpoint. */
  lemma ServeSerialIdempotent(units: seq<bv16>, epAddr: bv8)
    requires SERIAL_DIGIT_INDEX < |units|
    ensures ServeSerial(ServeSerial(units, epAddr), epAddr) == ServeSerial(units, epAddr)
  {
  }

  /**
   * Two endpoint assignments give serial strings of the same length that agree
   * everywhere but in the digit, and the digits differ exactly when the
   * endpoint numbers do.
   */
  lemma ServeSerialDiffersOnlyInDigit(units: seq<bv16>, ep1: bv8, ep2: bv8)
    requires SERIAL_DIGIT_INDEX < |units|
    ensures |ServeSerial(units, ep1)| == |ServeSerial(units, ep2)| == |units|
    ensures forall i :: 0 <= i < |units| && i != SERIAL_DIGIT_INDEX ==>
      ServeSerial(units, ep1)[i] == ServeSerial(units, ep2)[i] == units[i]
    ensures ServeSerial(units, ep1)[SERIAL_DIGIT_INDEX] == ServeSerial(units, ep2)[SERIAL_DIGIT_INDEX]
        <==> ep1 & ENDPOINT_EPNUM_MASK == ep2 & ENDPOINT_EPNUM_MASK
  {
  }

  /**
   * The flashed serial number keeps its embedded NUL as its last code unit,
   * and with the IN endpoint at number 2 serving it reads "000200212345\0".
   */
  lemma ServedSerialString()
    ensures |AVRISP_SERIAL_STRING| == 13 && AVRISP_SERIAL_STRING[12] == 0
    ensures ServeSerial(AVRISP_SERIAL_STRING, AVRISP_DATA_IN_EPADDR) == Utf16("000200212345\0")
  {
  }
}
