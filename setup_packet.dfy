/**
 * The 8-byte control-transfer setup packet that `action_ccid_on` fills in
 * (`usb_setup_custom_t`): a packed struct overlaid on `uint8_t val[8]` and
 * copied byte for byte into the transfer buffer. The layout is the setup
 * data of section 9.3 of the USB 2.0 specification, with multi-byte fields
 * little-endian (section 8.1); the host CPU is little-endian, so the
 * in-memory image of the struct is exactly the wire order.
 */
module SetupPacket {
  import opened Wrappers

  newtype uint8 = x: int | 0 <= x < 0x100
  newtype uint16 = x: int | 0 <= x < 0x1_0000

  /** `USB_SETUP_PACKET_SIZE`. */
  const USB_SETUP_PACKET_SIZE: nat := 8

  /** The fields of `usb_setup_custom_t`, in declaration order. */
  datatype SetupCustom = SetupCustom(
    bmRequestType: uint8,
    bRequest: uint8,
    dIndex: uint8,
    dType: uint8,
    dLang: uint16,
    wLength: uint16)

  function Low(v: uint16): uint8 { (v % 0x100) as uint8 }

  function High(v: uint16): uint8 { (v / 0x100) as uint8 }

  /** The 16-bit value whose little-endian bytes are `lo, hi`. */
  function Word(lo: uint8, hi: uint8): (v: uint16)
    ensures Low(v) == lo && High(v) == hi
  {
    (lo as int + 0x100 * hi as int) as uint16
  }

  /** The byte image of the packed struct, as `memcpy` copies it. */
  function Serialize(p: SetupCustom): (b: seq<uint8>)
    ensures |b| == USB_SETUP_PACKET_SIZE
    ensures b[0] == p.bmRequestType && b[1] == p.bRequest
    ensures b[2] == p.dIndex && b[3] == p.dType
    ensures Word(b[4], b[5]) == p.dLang && Word(b[6], b[7]) == p.wLength
  {
    [p.bmRequestType, p.bRequest, p.dIndex, p.dType,
     Low(p.dLang), High(p.dLang), Low(p.wLength), High(p.wLength)]
  }

  /** Reads the struct back through the `val` view of the union. */
  function Parse(b: seq<uint8>): (r: Option<SetupCustom>)
    ensures r.Some? <==> |b| == USB_SETUP_PACKET_SIZE
  {
    if |b| != USB_SETUP_PACKET_SIZE then None
    else Some(SetupCustom(b[0], b[1], b[2], b[3], Word(b[4], b[5]), Word(b[6], b[7])))
  }

  lemma WordOfBytes(v: uint16)
    ensures Word(Low(v), High(v)) == v
  {
  }

  /** Every packet survives a trip through its byte image. */
  lemma ParseSerialize(p: SetupCustom)
    ensures Parse(Serialize(p)) == Some(p)
  {
    WordOfBytes(p.dLang);
    WordOfBytes(p.wLength);
  }

  /** Every 8-byte image is the image of the packet it parses to. */
  lemma SerializeParse(b: seq<uint8>)
    requires |b| == USB_SETUP_PACKET_SIZE
    ensures Parse(b).Some? && Serialize(Parse(b).value) == b
  {
  }

  // The standard-request reading of the same eight bytes (USB 2.0, 9.3).

  datatype Direction = HostToDevice | DeviceToHost
  datatype RequestType = Standard | Class | Vendor | Reserved
  datatype Recipient = Device | Interface | Endpoint | Other | ReservedRecipient

  /** Bit 7 of bmRequestType. */
  function DirectionOf(bm: uint8): Direction
  {
    if bm < 0x80 then HostToDevice else DeviceToHost
  }

  /** Bits 6..5 of bmRequestType. */
  function RequestTypeOf(bm: uint8): RequestType
  {
    match (bm / 0x20) % 4
    case 0 => Standard
    case 1 => Class
    case 2 => Vendor
    case _ => Reserved
  }

  /** Bits 4..0 of bmRequestType. */
  function RecipientOf(bm: uint8): Recipient
  {
    match bm % 0x20
    case 0 => Device
    case 1 => Interface
    case 2 => Endpoint
    case 3 => Other
    case _ => ReservedRecipient
  }

  /** GET_DESCRIPTOR in Table 9-4. */
  const GET_DESCRIPTOR: uint8 := 6
  /** STRING in Table 9-5. */
  const STRING_DESCRIPTOR: uint8 := 3

  /**
   * wValue of the standard layout: `dIndex` and `dType` are its low and high
   * bytes, the descriptor index and the descriptor type of GET_DESCRIPTOR.
   */
  function WValue(p: SetupCustom): uint16 { Word(p.dIndex, p.dType) }

  /** wIndex of the standard layout: the language ID of a string request. */
  function WIndex(p: SetupCustom): uint16 { p.dLang }

  /** The packet `action_ccid_on` builds (src/driver.hpp:100-105). */
  function CcidOnPacket(): (p: SetupCustom)
    ensures Serialize(p) == [0x80, 0x06, 0x01, 0x03, 0x09, 0x03, 0x00, 0xFF]
    ensures DirectionOf(p.bmRequestType) == DeviceToHost
    ensures RequestTypeOf(p.bmRequestType) == Standard
    ensures RecipientOf(p.bmRequestType) == Device
    ensures p.bRequest == GET_DESCRIPTOR
    ensures High(WValue(p)) == STRING_DESCRIPTOR && Low(WValue(p)) == 1
    ensures WIndex(p) == 0x0309 && p.wLength == 0xFF00
  {
    SetupCustom(0x80, 0x06, 0x01, 0x03, 0x0309, 0xff00)
  }
}
