/**
 * Constants, byte splitters and size macros of the UVC class header.
 * Every table and request in the other modules is built from these.
 */
module UvcDefs {

  /** One octet of a descriptor or control block. */
  type byte = x: int | 0 <= x < 0x100

  /** A 16-bit field of a setup packet (wValue, wIndex, wLength). */
  type u16 = x: int | 0 <= x < 0x1_0000

  datatype Option<T> = None | Some(value: T)

  // ---------------------------------------------------------------------
  // Little-endian byte splitters (WBVAL, DBVAL) and their inverses

  /** WBVAL(x): the low byte of x, then the next byte. */
  function WBVal(x: nat): (r: seq<byte>)
    ensures |r| == 2
    ensures x < 0x1_0000 ==> LE16(r) == x
  {
    [x % 0x100, (x / 0x100) % 0x100]
  }

  /** DBVAL(x): the four bytes of x, least significant first. */
  function DBVal(x: nat): (r: seq<byte>)
    ensures |r| == 4
    ensures x < 0x1_0000_0000 ==> LE32(r) == x
  {
    ShiftsCompose(x);
    [x % 0x100, (x / 0x100) % 0x100, (x / 0x1_0000) % 0x100, (x / 0x100_0000) % 0x100]
  }

  /** Shifting right by 16 or 24 bits is shifting by 8 bits two or three
      times, and each shift leaves the low byte behind. */
  lemma ShiftsCompose(x: nat)
    ensures x == x % 0x100 + 0x100 * (x / 0x100)
    ensures x / 0x100 == (x / 0x100) % 0x100 + 0x100 * (x / 0x1_0000)
    ensures x / 0x1_0000 == (x / 0x1_0000) % 0x100 + 0x100 * (x / 0x100_0000)
    ensures x < 0x1_0000_0000 ==> x / 0x100_0000 < 0x100
  {
    var q1 := x / 0x100;
    var q2 := q1 / 0x100;
    var q3 := q2 / 0x100;
    assert x == x % 0x100 + 0x100 * q1;
    assert q1 == q1 % 0x100 + 0x100 * q2;
    assert q2 == q2 % 0x100 + 0x100 * q3;
    assert x / 0x1_0000 == q2;
    assert x / 0x100_0000 == q3;
  }

  /** The value of two bytes read back as a little-endian 16-bit field. */
  function LE16(b: seq<byte>): nat
    requires |b| == 2
  {
    b[0] as int + 0x100 * b[1] as int
  }

  /** The value of four bytes read back as a little-endian 32-bit field. */
  function LE32(b: seq<byte>): nat
    requires |b| == 4
  {
    b[0] as int + 0x100 * b[1] as int + 0x1_0000 * b[2] as int + 0x100_0000 * b[3] as int
  }

  /** Splitting a 16-bit value and recombining it gives the value back, and
      every two-byte field is the split of its own value. */
  lemma WBValRoundTrip(x: nat, b: seq<byte>)
    requires |b| == 2
    ensures x < 0x1_0000 ==> LE16(WBVal(x)) == x
    ensures LE16(b) < 0x1_0000 && WBVal(LE16(b)) == b
  {
  }

  /** The same two facts for DBVAL and 32-bit values. */
  lemma DBValRoundTrip(x: nat, b: seq<byte>)
    requires |b| == 4
    ensures x < 0x1_0000_0000 ==> LE32(DBVal(x)) == x
    ensures LE32(b) < 0x1_0000_0000 && DBVal(LE32(b)) == b
  {
    var v := LE32(b);
    var w2 := b[2] as int + 0x100 * b[3] as int;
    var w1 := b[1] as int + 0x100 * w2;
    DivModUnique(v, w1, b[0]);
    DivModUnique(w1, w2, b[1]);
    DivModUnique(w2, b[3], b[2]);
    ShiftsCompose(v);
    assert v / 0x1_0000 == w2;
    assert v / 0x100_0000 == b[3];
  }

  /** The first byte DBVAL gives is the value itself when it fits in a byte:
      the lowest byte of a 32-bit variable, as a little-endian CPU stores it. */
  lemma DBValLowByte(x: nat)
    requires x < 0x100
    ensures DBVal(x)[0] == x
  {
  }

  /** Division by 256 recovers the quotient and remainder a value was built from. */
  lemma DivModUnique(v: int, q: int, r: int)
    requires 0 <= r < 0x100 && v == r + 0x100 * q
    ensures v / 0x100 == q && v % 0x100 == r
  {
  }

  // ---------------------------------------------------------------------
  // Endpoint addresses and configuration attributes

  const USB_UVC_ENDPOINT: byte := 0x01
  const USB_ENDPOINT_DIRECTION_MASK: byte := 0x80

  /** USB_ENDPOINT_IN(addr) = addr | 0x80: the address with bit 7, the IN
      direction bit, set and its other bits kept. */
  function EndpointIn(addr: byte): (r: byte)
    ensures r >= USB_ENDPOINT_DIRECTION_MASK
    ensures r % 0x80 == addr % 0x80
  {
    if addr < USB_ENDPOINT_DIRECTION_MASK then addr + USB_ENDPOINT_DIRECTION_MASK else addr
  }

  /** USB_ENDPOINT_OUT(addr) = addr | 0x00: the address itself. */
  function EndpointOut(addr: byte): (r: byte)
    ensures r % 0x80 == addr % 0x80
    ensures addr < USB_ENDPOINT_DIRECTION_MASK ==> r < USB_ENDPOINT_DIRECTION_MASK
    ensures r == addr
  {
    addr
  }

  /** The streaming data endpoint: endpoint 1, direction IN. */
  const VIDEO_EP_IN: byte := EndpointIn(USB_UVC_ENDPOINT)

  lemma VideoEndpointIs0x81()
    ensures VIDEO_EP_IN == 0x81
  {
  }

  /** USB_CONFIG_POWER_MA(mA) = mA / 2: bMaxPower counts in 2 mA units. */
  function ConfigPowerMa(mA: nat): (r: nat)
    ensures 2 * r <= mA < 2 * r + 2
  {
    mA / 2
  }

  const USB_CONFIG_BUS_POWERED: byte := 0x80

  // ---------------------------------------------------------------------
  // Class codes and descriptor types (UVC 1.1 appendix A)

  const UVC_VERSION: nat := 0x0110
  const CC_VIDEO: byte := 0x0E
  const SC_VIDEOCONTROL: byte := 0x01
  const SC_VIDEOSTREAMING: byte := 0x02
  const SC_VIDEO_INTERFACE_COLLECTION: byte := 0x03
  const PC_PROTOCOL_UNDEFINED: byte := 0x00

  const CS_DEVICE: byte := 0x21
  const CS_INTERFACE: byte := 0x24

  const VC_HEADER: byte := 0x01
  const VC_INPUT_TERMINAL: byte := 0x02
  const VC_OUTPUT_TERMINAL: byte := 0x03

  const VS_INPUT_HEADER: byte := 0x01
  const VS_FORMAT_MJPEG: byte := 0x06
  const VS_FRAME_MJPEG: byte := 0x07
  const VS_COLORFORMAT: byte := 0x0D

  const TT_STREAMING: nat := 0x0101
  const ITT_CAMERA: nat := 0x0201

  const USB_CONFIGURATION_DESCRIPTOR_TYPE: byte := 0x02
  const USB_INTERFACE_DESCRIPTOR_TYPE: byte := 0x04
  const USB_ENDPOINT_DESCRIPTOR_TYPE: byte := 0x05
  const USB_INTERFACE_ASSOCIATION_DESCRIPTOR_TYPE: byte := 11

  const USB_ENDPOINT_TYPE_ISOCHRONOUS: byte := 0x01
  const USB_ENDPOINT_SYNC_ASYNCHRONOUS: byte := 0x04

  // ---------------------------------------------------------------------
  // Class-specific request codes (UVC 1.1 appendix A.8)

  const RC_UNDEFINED: byte := 0x00
  const SET_CUR: byte := 0x01
  const GET_CUR: byte := 0x81
  const GET_MIN: byte := 0x82
  const GET_MAX: byte := 0x83
  const GET_RES: byte := 0x84
  const GET_LEN: byte := 0x85
  const GET_INFO: byte := 0x86
  const GET_DEF: byte := 0x87

  /** The wValue the host uses for the Probe and the Commit control: the
      control selector (1 or 2) in the high byte. */
  const PROBE_SELECTOR: u16 := 256
  const COMMIT_SELECTOR: u16 := 512

  // ---------------------------------------------------------------------
  // Capability constants of the camera

  const WIDTH: nat := 640
  const HEIGHT: nat := 480
  const MIN_FPS: nat := 15
  const CAM_FPS: nat := 24
  const MAX_FPS: nat := 30
  const VIDEO_PACKET_SIZE: nat := 512
  const MIN_BIT_RATE: nat := 0x7CE000
  const MAX_BIT_RATE: nat := 0x3E80000
  const MAX_FRAME_SIZE: nat := WIDTH * HEIGHT * 2

  /** A frame interval in 100 ns units: the integer quotient 10000000 / fps. */
  function FrameInterval(fps: nat): (r: nat)
    requires fps > 0
    ensures r * fps <= 10_000_000 < (r + 1) * fps
  {
    10_000_000 / fps
  }

  const MIN_INTERVAL: nat := FrameInterval(MIN_FPS)
  const INTERVAL: nat := FrameInterval(CAM_FPS)
  const MAX_INTERVAL: nat := FrameInterval(MAX_FPS)

  /** A higher frame rate never gives a longer interval. */
  lemma FrameIntervalAntitone(f: nat, g: nat)
    requires 0 < f <= g
    ensures FrameInterval(g) <= FrameInterval(f)
  {
    var rf, rg := FrameInterval(f), FrameInterval(g);
    MulMonotone(f, g, rg);
    assert rg * f < (rf + 1) * f;
    MulCancel(rg, rf + 1, f);
  }

  lemma {:induction false} MulMonotone(a: nat, b: nat, c: nat)
    requires a <= b
    ensures a * c <= b * c
  {
    if c > 0 {
      MulMonotone(a, b, c - 1);
      assert a * c == a * (c - 1) + a;
      assert b * c == b * (c - 1) + b;
    }
  }

  lemma MulCancel(a: nat, b: nat, c: nat)
    requires a * c < b * c
    ensures a < b
  {
    if b <= a {
      MulMonotone(b, a, c);
    }
  }

  /** The interval bounds are ordered as the frame-rate bounds are, and the
      constants have the values their definitions give. */
  lemma IntervalsOrdered()
    ensures MAX_INTERVAL <= INTERVAL <= MIN_INTERVAL
    ensures MIN_INTERVAL == 666_666 && INTERVAL == 416_666 && MAX_INTERVAL == 333_333
    ensures MAX_FRAME_SIZE == 614_400
  {
    FrameIntervalAntitone(MIN_FPS, CAM_FPS);
    FrameIntervalAntitone(CAM_FPS, MAX_FPS);
  }

  // ---------------------------------------------------------------------
  // Descriptor size macros

  const USB_CONFIGURATION_DESC_SIZE: nat := 9
  const USB_INTERFACE_DESC_SIZE: nat := 9
  const USB_ENDPOINT_DESC_SIZE: nat := 7
  const UVC_INTERFACE_ASSOCIATION_DESC_SIZE: nat := 8

  /** UVC_VC_INTERFACE_HEADER_DESC_SIZE(n): 12 bytes plus one per streaming interface. */
  function VcInterfaceHeaderDescSize(n: nat): nat { 12 + n }
  /** UVC_CAMERA_TERMINAL_DESC_SIZE(n): 15 bytes plus n bytes of bmControls. */
  function CameraTerminalDescSize(n: nat): nat { 15 + n }
  /** UVC_OUTPUT_TERMINAL_DESC_SIZE(n): 9 bytes plus n. */
  function OutputTerminalDescSize(n: nat): nat { 9 + n }
  /** UVC_VS_INTERFACE_INPUT_HEADER_DESC_SIZE(a, b): 13 bytes plus a*b control bytes. */
  function VsInputHeaderDescSize(a: nat, b: nat): nat { 13 + a * b }

  const VS_FORMAT_UNCOMPRESSED_DESC_SIZE: nat := 0x0b
  const VS_FRAME_UNCOMPRESSED_DESC_SIZE: nat := 0x26
  const VS_FRAME_COMPRESSED_DESC_SIZE: nat := 0x26
  const VS_COLOR_MATCHING_DESC_SIZE: nat := 6

  /** VC_TERMINAL_SIZ: the class-specific VideoControl block (header and two terminals). */
  const VC_TERMINAL_SIZ: nat :=
    VcInterfaceHeaderDescSize(1) + CameraTerminalDescSize(2) + OutputTerminalDescSize(0)

  /** VC_HEADER_SIZ: the class-specific VideoStreaming block
      (input header, format, frame and colour matching descriptors). */
  const VC_HEADER_SIZ: nat :=
    VsInputHeaderDescSize(1, 1) + VS_FORMAT_UNCOMPRESSED_DESC_SIZE
    + VS_FRAME_UNCOMPRESSED_DESC_SIZE + VS_COLOR_MATCHING_DESC_SIZE

  lemma ClassBlockSizes()
    ensures VC_TERMINAL_SIZ == 13 + 17 + 9 == 39
    ensures VC_HEADER_SIZ == 14 + 11 + 38 + 6 == 69
  {
  }

  const USB_UVC_VCIF_NUM: byte := 0
  const USB_UVC_VSIF_NUM: byte := 1
  /** VIDEO_TOTAL_IF_NUM: interfaces of the function, also the bound on a valid alternate setting. */
  const VIDEO_TOTAL_IF_NUM: nat := 2

  /** The declared size of the whole configuration descriptor (USB_VIDEO_DESC_SIZ). */
  const USB_VIDEO_DESC_SIZ: nat := 159

  // ---------------------------------------------------------------------
  // Setup-packet fields (USB 2.0 section 9.3) and standard request codes
  // (USB 2.0 table 9-4); the values match the USB device library's usbd_def.h

  /** bmRequestType bits 6..5 (the mask 0x60). */
  function RequestTypeBits(bmRequest: byte): (r: bv8)
    ensures r & 0x60 == r
    ensures r as int == (bmRequest / 0x20) % 4 * 0x20
  {
    (bmRequest as bv8) & 0x60
  }

  const USB_REQ_TYPE_STANDARD: bv8 := 0x00
  const USB_REQ_TYPE_CLASS: bv8 := 0x20
  const USB_REQ_TYPE_VENDOR: bv8 := 0x40

  /** The type field of bmRequestType is bits 6..5 and nothing else
      (section 9.3.1 of the USB 2.0 specification): direction and
      recipient never change it, and the common request-type bytes split
      into standard, class and vendor as table 9-2 says. */
  lemma RequestTypeClassifies(bmRequest: byte)
    ensures RequestTypeBits(bmRequest) == RequestTypeBits((bmRequest / 0x20) % 4 * 0x20)
    ensures RequestTypeBits(0x00) == RequestTypeBits(0x01) == RequestTypeBits(0x80)
            == RequestTypeBits(0x81) == USB_REQ_TYPE_STANDARD
    ensures RequestTypeBits(0x21) == RequestTypeBits(0xA1) == USB_REQ_TYPE_CLASS
    ensures RequestTypeBits(0x40) == RequestTypeBits(0xC0) == USB_REQ_TYPE_VENDOR
  {
    var t := (bmRequest / 0x20) % 4 * 0x20;
    assert (t / 0x20) % 4 * 0x20 == t;
  }

  const USB_REQ_GET_DESCRIPTOR: byte := 0x06
  const USB_REQ_GET_INTERFACE: byte := 0x0A
  const USB_REQ_SET_INTERFACE: byte := 0x0B

  const USB_LEN_DEV_QUALIFIER_DESC: nat := 0x0A
  const USB_DESC_TYPE_DEVICE_QUALIFIER: byte := 0x06

  /** (uint8_t)wValue: the low byte of a 16-bit field. */
  function LowByte(w: u16): (r: byte)
    ensures w == r + 0x100 * HighByte(w)
  {
    w % 0x100
  }

  /** wValue >> 8: the high byte of a 16-bit field. */
  function HighByte(w: u16): (r: byte)
    ensures r * 0x100 <= w < (r + 1) * 0x100
  {
    w / 0x100
  }
}
