/**
 * The configuration descriptor and the device-qualifier descriptor of the
 * camera function (UVC 1.1 sections 3.6 to 3.9), built from the header's
 * constants, for the isochronous build.
 *
 * Each sub-descriptor is a separate byte sequence; the table is their
 * concatenation. A descriptor is well formed when its first byte, bLength, is
 * its own size, and a host finds the descriptors by walking the table from
 * bLength to bLength.
 */
module UvcDescriptors {
  import opened UvcDefs

  // ---------------------------------------------------------------------
  // The sub-descriptors, in table order

  /** Standard configuration descriptor: wTotalLength is USB_VIDEO_DESC_SIZ. */
  function ConfigurationDesc(): (r: seq<byte>)
    ensures |r| == 9 && r[0] == |r|
  {
    [USB_CONFIGURATION_DESC_SIZE, USB_CONFIGURATION_DESCRIPTOR_TYPE]
    + WBVal(USB_VIDEO_DESC_SIZ)
    + [0x02, 0x01, 0x00, USB_CONFIG_BUS_POWERED, ConfigPowerMa(500)]
  }

  /** Interface association descriptor grouping the two video interfaces. */
  function InterfaceAssociationDesc(): (r: seq<byte>)
    ensures |r| == 8 && r[0] == |r|
  {
    [UVC_INTERFACE_ASSOCIATION_DESC_SIZE, USB_INTERFACE_ASSOCIATION_DESCRIPTOR_TYPE,
     0x00, 0x02, CC_VIDEO, SC_VIDEO_INTERFACE_COLLECTION, PC_PROTOCOL_UNDEFINED, 0x02]
  }

  /** Standard VideoControl interface descriptor (interface 0, no endpoints). */
  function VcInterfaceDesc(): (r: seq<byte>)
    ensures |r| == 9 && r[0] == |r|
  {
    [USB_INTERFACE_DESC_SIZE, USB_INTERFACE_DESCRIPTOR_TYPE, USB_UVC_VCIF_NUM,
     0x00, 0x00, CC_VIDEO, SC_VIDEOCONTROL, PC_PROTOCOL_UNDEFINED, 0x02]
  }

  /** Class-specific VideoControl header: bcdUVC, wTotalLength of the VC block,
      the clock and the one streaming interface it owns. */
  function VcHeaderDesc(): (r: seq<byte>)
    ensures |r| == 13 && r[0] == |r|
  {
    [VcInterfaceHeaderDescSize(1), CS_INTERFACE, VC_HEADER]
    + WBVal(UVC_VERSION) + WBVal(VC_TERMINAL_SIZ) + DBVal(48_000_000)
    + [0x01, 0x01]
  }

  /** Camera input terminal, ID 1, no controls. */
  function CameraTerminalDesc(): (r: seq<byte>)
    ensures |r| == 17 && r[0] == |r|
  {
    [CameraTerminalDescSize(2), CS_INTERFACE, VC_INPUT_TERMINAL, 0x01]
    + WBVal(ITT_CAMERA) + [0x00, 0x00]
    + WBVal(0) + WBVal(0) + WBVal(0)
    + [0x02, 0x00, 0x00]
  }

  /** USB streaming output terminal, ID 2, fed by terminal 1. */
  function OutputTerminalDesc(): (r: seq<byte>)
    ensures |r| == 9 && r[0] == |r|
  {
    [OutputTerminalDescSize(0), CS_INTERFACE, VC_OUTPUT_TERMINAL, 0x02]
    + WBVal(TT_STREAMING) + [0x00, 0x01, 0x00]
  }

  /** Standard VideoStreaming interface descriptor, alternate setting 0: the
      zero-bandwidth setting, with no endpoints (bNumEndpoints 0 in the
      isochronous build). */
  function VsInterfaceAlt0Desc(): (r: seq<byte>)
    ensures |r| == 9 && r[0] == |r|
  {
    [USB_INTERFACE_DESC_SIZE, USB_INTERFACE_DESCRIPTOR_TYPE, USB_UVC_VSIF_NUM, 0x00,
     0x00, CC_VIDEO, SC_VIDEOSTREAMING, PC_PROTOCOL_UNDEFINED, 0x00]
  }

  /** Class-specific VideoStreaming input header: one format, the VS block's
      total length, streaming endpoint 0x81, terminal link 2. */
  function VsInputHeaderDesc(): (r: seq<byte>)
    ensures |r| == 14 && r[0] == |r|
  {
    [VsInputHeaderDescSize(1, 1), CS_INTERFACE, VS_INPUT_HEADER, 0x01]
    + WBVal(VC_HEADER_SIZ)
    + [EndpointIn(USB_UVC_ENDPOINT), 0x00, 0x02, 0x02, 0x01, 0x00, 0x01, 0x00]
  }

  /** MJPEG format descriptor: format index 1 with one frame descriptor. */
  function MjpegFormatDesc(): (r: seq<byte>)
    ensures |r| == 11 && r[0] == |r|
  {
    [VS_FORMAT_UNCOMPRESSED_DESC_SIZE, CS_INTERFACE, VS_FORMAT_MJPEG,
     0x01, 0x01, 0x01, 0x01, 0x00, 0x00, 0x00, 0x00]
  }

  /** MJPEG frame descriptor: frame index 1, WIDTH x HEIGHT, the bit-rate
      bounds, the largest frame and a continuous interval range pinned to INTERVAL. */
  function MjpegFrameDesc(): (r: seq<byte>)
    ensures |r| == 38 && r[0] == |r|
  {
    [VS_FRAME_COMPRESSED_DESC_SIZE, CS_INTERFACE, VS_FRAME_MJPEG, 0x01, 0x00]
    + WBVal(WIDTH) + WBVal(HEIGHT)
    + DBVal(MIN_BIT_RATE) + DBVal(MAX_BIT_RATE) + DBVal(MAX_FRAME_SIZE)
    + DBVal(INTERVAL)
    + [0x00]
    + DBVal(INTERVAL) + DBVal(INTERVAL)
    + [0x00, 0x00, 0x00, 0x00]
  }

  /** Colour matching descriptor. */
  function ColorMatchingDesc(): (r: seq<byte>)
    ensures |r| == 6 && r[0] == |r|
  {
    [VS_COLOR_MATCHING_DESC_SIZE, CS_INTERFACE, VS_COLORFORMAT, 0x00, 0x00, 0x00]
  }

  /** Standard VideoStreaming interface descriptor, alternate setting 1 (operational, one endpoint). */
  function VsInterfaceAlt1Desc(): (r: seq<byte>)
    ensures |r| == 9 && r[0] == |r|
  {
    [USB_INTERFACE_DESC_SIZE, USB_INTERFACE_DESCRIPTOR_TYPE, USB_UVC_VSIF_NUM, 0x01,
     0x01, CC_VIDEO, SC_VIDEOSTREAMING, PC_PROTOCOL_UNDEFINED, 0x00]
  }

  /** Isochronous asynchronous IN endpoint 0x81 with VIDEO_PACKET_SIZE packets. */
  function IsocEndpointDesc(): (r: seq<byte>)
    ensures |r| == 7 && r[0] == |r|
  {
    [USB_ENDPOINT_DESC_SIZE, USB_ENDPOINT_DESCRIPTOR_TYPE, EndpointIn(USB_UVC_ENDPOINT),
     ((USB_ENDPOINT_TYPE_ISOCHRONOUS as bv8) | (USB_ENDPOINT_SYNC_ASYNCHRONOUS as bv8)) as int]
    + WBVal(VIDEO_PACKET_SIZE) + [0x01]
  }

  // ---------------------------------------------------------------------
  // The tables

  /** Concatenation of the sub-descriptors from index i on. */
  function FlattenFrom(parts: seq<seq<byte>>, i: nat): (r: seq<byte>)
    requires i <= |parts|
    ensures |r| == SizeFrom(parts, i)
    decreases |parts| - i
  {
    if i == |parts| then [] else parts[i] + FlattenFrom(parts, i + 1)
  }

  /** The summed sizes of the sub-descriptors from index i on. */
  function SizeFrom(parts: seq<seq<byte>>, i: nat): nat
    requires i <= |parts|
    decreases |parts| - i
  {
    if i == |parts| then 0 else |parts[i]| + SizeFrom(parts, i + 1)
  }

  /** The summed bLength bytes of the sub-descriptors from index i on (0 for an empty one). */
  function BLengthsFrom(parts: seq<seq<byte>>, i: nat): nat
    requires i <= |parts|
    decreases |parts| - i
  {
    if i == |parts| then 0
    else FirstByte(parts[i]) + BLengthsFrom(parts, i + 1)
  }

  /** Every sub-descriptor is non-empty and its bLength is its own size. */
  predicate WellFormed(parts: seq<seq<byte>>)
  {
    forall i :: 0 <= i < |parts| ==> |parts[i]| > 0 && parts[i][0] == |parts[i]|
  }

  /** The sub-descriptors in the order USBD_UVC_CfgDesc lists them in the isochronous build. */
  function CfgDescParts(): seq<seq<byte>>
  {
    [ConfigurationDesc(), InterfaceAssociationDesc(), VcInterfaceDesc(), VcHeaderDesc(),
     CameraTerminalDesc(), OutputTerminalDesc(), VsInterfaceAlt0Desc(),
     VsInputHeaderDesc(), MjpegFormatDesc(), MjpegFrameDesc(), ColorMatchingDesc(),
     VsInterfaceAlt1Desc(), IsocEndpointDesc()]
  }

  /** USBD_UVC_CfgDesc as the isochronous build compiles it. */
  function CfgDesc(): (r: seq<byte>)
    ensures |r| == USB_VIDEO_DESC_SIZ
  {
    CfgDescTailSizes();
    FlattenFrom(CfgDescParts(), 0)
  }

  /** The device-qualifier descriptor (USB 2.0 section 9.6.2): USB 2.0,
      class given per interface, 64-byte EP0, one other-speed configuration. */
  function DeviceQualifierDesc(): (r: seq<byte>)
    ensures |r| == USB_LEN_DEV_QUALIFIER_DESC && r[0] == |r|
  {
    [USB_LEN_DEV_QUALIFIER_DESC, USB_DESC_TYPE_DEVICE_QUALIFIER,
     0x00, 0x02, 0x00, 0x00, 0x00, 0x40, 0x01, 0x00]
  }

  // ---------------------------------------------------------------------
  // Walking a table by bLength

  /** The offset where a walk from off by bLength bytes ends, or None when it
      meets a zero bLength or one that runs past the end of s. */
  function Walk(s: seq<byte>, off: nat): Option<nat>
    requires off <= |s|
    decreases |s| - off
  {
    if off == |s| then Some(off)
    else if s[off] == 0 || off + s[off] > |s| then None
    else Walk(s, off + s[off])
  }

  /** Sub-descriptors i..n-1 are non-empty and each bLength is its own size. */
  predicate WellFormedBetween(parts: seq<seq<byte>>, i: nat, n: nat)
    requires i <= n <= |parts|
  {
    forall j :: i <= j < n ==> |parts[j]| > 0 && parts[j][0] == |parts[j]|
  }

  /** The offset of sub-descriptor i in the concatenation of all of them. */
  function OffsetOf(parts: seq<seq<byte>>, i: nat): nat
    requires i <= |parts|
  {
    SizeFromBounded(parts, 0, i);
    SizeFrom(parts, 0) - SizeFrom(parts, i)
  }

  /** Walking across well-formed sub-descriptors i..n-1 steps from the
      offset of i to the offset of n, whatever surrounds them. */
  lemma {:induction false} WalkBetween(parts: seq<seq<byte>>, i: nat, n: nat)
    requires i <= n <= |parts| && WellFormedBetween(parts, i, n)
    ensures OffsetOf(parts, i) <= OffsetOf(parts, n) <= |FlattenFrom(parts, 0)|
    ensures Walk(FlattenFrom(parts, 0), OffsetOf(parts, i)) == Walk(FlattenFrom(parts, 0), OffsetOf(parts, n))
    decreases n - i
  {
    SizeFromBounded(parts, 0, i);
    SizeFromBounded(parts, i, n);
    if i < n {
      ByteAt(parts, i, 0);
      assert OffsetOf(parts, i) + |parts[i]| == OffsetOf(parts, i + 1);
      WalkBetween(parts, i + 1, n);
    }
  }

  /** Sizes of tails shrink. */
  lemma {:induction false} SizeFromBounded(parts: seq<seq<byte>>, j: nat, i: nat)
    requires j <= i <= |parts|
    ensures SizeFrom(parts, i) <= SizeFrom(parts, j)
    decreases i - j
  {
    if j < i {
      SizeFromBounded(parts, j + 1, i);
    }
  }

  /** For well-formed parts the bLengths sum to the size. */
  lemma {:induction false} BLengthsOfWellFormed(parts: seq<seq<byte>>, i: nat)
    requires i <= |parts| && WellFormed(parts)
    ensures BLengthsFrom(parts, i) == SizeFrom(parts, i)
    decreases |parts| - i
  {
    if i < |parts| {
      BLengthsOfWellFormed(parts, i + 1);
    }
  }

  /** The concatenation from j on ends with the concatenation from i on,
      for j <= i. */
  lemma {:induction false} FlattenSuffix(parts: seq<seq<byte>>, j: nat, i: nat)
    requires j <= i <= |parts|
    ensures SizeFrom(parts, i) <= SizeFrom(parts, j)
    ensures FlattenFrom(parts, j)[SizeFrom(parts, j) - SizeFrom(parts, i)..] == FlattenFrom(parts, i)
    decreases i - j
  {
    if j < i {
      FlattenSuffix(parts, j + 1, i);
      var t := FlattenFrom(parts, j + 1);
      assert FlattenFrom(parts, j) == parts[j] + t;
      assert (parts[j] + t)[|parts[j]| + (SizeFrom(parts, j + 1) - SizeFrom(parts, i))..]
          == t[SizeFrom(parts, j + 1) - SizeFrom(parts, i)..];
    }
  }

  /** Byte k of sub-descriptor i sits at its offset in the whole table. */
  lemma ByteAt(parts: seq<seq<byte>>, i: nat, k: nat)
    requires i < |parts| && k < |parts[i]|
    ensures OffsetOf(parts, i) + k < |FlattenFrom(parts, 0)|
    ensures FlattenFrom(parts, 0)[OffsetOf(parts, i) + k] == parts[i][k]
  {
    FlattenSuffix(parts, 0, i);
  }

  /** The sizes of the thirteen sub-descriptors. */
  lemma PartSizes()
    ensures |ConfigurationDesc()| == 9 && |InterfaceAssociationDesc()| == 8
    ensures |VcInterfaceDesc()| == 9 && |VcHeaderDesc()| == 13
    ensures |CameraTerminalDesc()| == 17 && |OutputTerminalDesc()| == 9
    ensures |VsInterfaceAlt0Desc()| == 9
    ensures |VsInputHeaderDesc()| == 14 && |MjpegFormatDesc()| == 11
    ensures |MjpegFrameDesc()| == 38 && |ColorMatchingDesc()| == 6
    ensures |VsInterfaceAlt1Desc()| == 9 && |IsocEndpointDesc()| == 7
  {
  }

  /** The sizes of the tails of the list. */
  lemma CfgDescTailSizes()
    ensures SizeFrom(CfgDescParts(), 6) == 94
    ensures SizeFrom(CfgDescParts(), 3) == 133
    ensures SizeFrom(CfgDescParts(), 1) == 150
    ensures SizeFrom(CfgDescParts(), 0) == 159
  {
    PartSizes();
    var ps := CfgDescParts();
    assert SizeFrom(ps, 12) == 7;
    assert SizeFrom(ps, 11) == 16;
    assert SizeFrom(ps, 10) == 22;
    assert SizeFrom(ps, 9) == 60;
    assert SizeFrom(ps, 8) == 71;
    assert SizeFrom(ps, 7) == 85;
    assert SizeFrom(ps, 6) == 94;
    assert SizeFrom(ps, 5) == 103;
    assert SizeFrom(ps, 4) == 120;
    assert SizeFrom(ps, 3) == 133;
    assert SizeFrom(ps, 2) == 142;
    assert SizeFrom(ps, 1) == 150;
  }

  /** Every sub-descriptor's bLength is its own size. */
  lemma CfgDescPartsWellFormed()
    ensures WellFormed(CfgDescParts())
  {
    var ps := CfgDescParts();
    forall i | 0 <= i < |ps| ensures |ps[i]| > 0 && ps[i][0] == |ps[i]| {
    }
  }

  /** The table is well formed, 159 bytes long, and its bLengths sum to 159. */
  lemma CfgDescWellFormed()
    ensures WellFormed(CfgDescParts())
    ensures |CfgDesc()| == SizeFrom(CfgDescParts(), 0) == BLengthsFrom(CfgDescParts(), 0) == USB_VIDEO_DESC_SIZ
  {
    CfgDescTailSizes();
    CfgDescPartsWellFormed();
    BLengthsOfWellFormed(CfgDescParts(), 0);
  }

  /** The declared wTotalLength (bytes 2 and 3) of a table of at least four bytes. */
  function DeclaredTotalLength(s: seq<byte>): nat
    requires |s| >= 4
  {
    LE16(s[2..4])
  }

  /** A table that begins with the configuration descriptor declares wTotalLength 159. */
  lemma ConfigHeaderOf(parts: seq<seq<byte>>)
    requires |parts| > 1 && parts[0] == ConfigurationDesc()
    ensures |FlattenFrom(parts, 0)| >= 9
    ensures FlattenFrom(parts, 0)[..9] == ConfigurationDesc()
    ensures DeclaredTotalLength(FlattenFrom(parts, 0)) == USB_VIDEO_DESC_SIZ
  {
    assert FlattenFrom(parts, 0) == ConfigurationDesc() + FlattenFrom(parts, 1);
    assert FlattenFrom(parts, 0)[2..4] == WBVal(USB_VIDEO_DESC_SIZ);
  }

  /** A host that walks the configuration descriptor from its first
      byte by bLength lands exactly on its end, at byte 159, which is the
      declared wTotalLength. */
  lemma CfgDescWalkEndsAtTotalLength()
    ensures |CfgDesc()| == USB_VIDEO_DESC_SIZ
    ensures Walk(CfgDesc(), 0) == Some(USB_VIDEO_DESC_SIZ)
    ensures DeclaredTotalLength(CfgDesc()) == USB_VIDEO_DESC_SIZ
  {
    CfgDescWellFormed();
    WalkWhole(CfgDescParts());
    ConfigHeaderOf(CfgDescParts());
  }

  /** A walk over a whole well-formed table ends at its end. */
  lemma WalkWhole(ps: seq<seq<byte>>)
    requires WellFormed(ps)
    ensures Walk(FlattenFrom(ps, 0), 0) == Some(SizeFrom(ps, 0))
  {
    WalkBetween(ps, 0, |ps|);
  }

  /** The bLength byte of a descriptor, 0 for an empty one. */
  function FirstByte(d: seq<byte>): byte
  {
    if d == [] then 0 else d[0]
  }

  // ---------------------------------------------------------------------
  // The field-level facts a host relies on

  /** The configuration header and the interface association descriptor
      announce two interfaces of a video interface collection. */
  lemma CfgDescHeaderFields()
    ensures |CfgDesc()| == USB_VIDEO_DESC_SIZ
    ensures CfgDesc()[1] == USB_CONFIGURATION_DESCRIPTOR_TYPE
    ensures CfgDesc()[4] == VIDEO_TOTAL_IF_NUM
    ensures CfgDesc()[8] == 250 == ConfigPowerMa(500)
    ensures CfgDesc()[9 + 1] == USB_INTERFACE_ASSOCIATION_DESCRIPTOR_TYPE
    ensures CfgDesc()[9 + 3] == VIDEO_TOTAL_IF_NUM
    ensures CfgDesc()[9 + 4] == CC_VIDEO
    ensures CfgDesc()[9 + 5] == SC_VIDEO_INTERFACE_COLLECTION
  {
    var ps := CfgDescParts();
    CfgDescTailSizes();
    ConfigHeaderOf(ps);
    assert CfgDesc()[1] == CfgDesc()[..9][1];
    assert CfgDesc()[4] == CfgDesc()[..9][4];
    assert CfgDesc()[8] == CfgDesc()[..9][8];
    ByteAt(ps, 1, 1);
    ByteAt(ps, 1, 3);
    ByteAt(ps, 1, 4);
    ByteAt(ps, 1, 5);
  }

  /** The wTotalLength fields of the two class-specific blocks equal the sizes
      of the descriptors they cover. */
  lemma ClassBlockTotalsMatch()
    ensures LE16(VcHeaderDesc()[5..7]) == VC_TERMINAL_SIZ
         == |VcHeaderDesc()| + |CameraTerminalDesc()| + |OutputTerminalDesc()|
    ensures LE16(VsInputHeaderDesc()[4..6]) == VC_HEADER_SIZ
         == |VsInputHeaderDesc()| + |MjpegFormatDesc()| + |MjpegFrameDesc()| + |ColorMatchingDesc()|
  {
    PartSizes();
    assert VcHeaderDesc()[5..7] == WBVal(VC_TERMINAL_SIZ);
    assert VsInputHeaderDesc()[4..6] == WBVal(VC_HEADER_SIZ);
  }

  /** The streaming endpoint is IN endpoint 1, isochronous and asynchronous,
      with 512-byte packets, and the input header names the same endpoint. */
  lemma StreamingEndpointFields()
    ensures IsocEndpointDesc()[2] == VsInputHeaderDesc()[6] == VIDEO_EP_IN == 0x81
    ensures IsocEndpointDesc()[3] == 0x05
    ensures LE16(IsocEndpointDesc()[4..6]) == VIDEO_PACKET_SIZE
  {
    assert IsocEndpointDesc()[4..6] == WBVal(VIDEO_PACKET_SIZE);
  }

  /** The frame descriptor describes WIDTH x HEIGHT frames of at most
      MAX_FRAME_SIZE bytes at the interval INTERVAL. */
  lemma FrameDescFields()
    ensures LE16(MjpegFrameDesc()[5..7]) == WIDTH && LE16(MjpegFrameDesc()[7..9]) == HEIGHT
    ensures LE32(MjpegFrameDesc()[17..21]) == MAX_FRAME_SIZE
    ensures LE32(MjpegFrameDesc()[21..25]) == INTERVAL
  {
    IntervalsOrdered();
    assert MjpegFrameDesc()[5..7] == WBVal(WIDTH);
    assert MjpegFrameDesc()[7..9] == WBVal(HEIGHT);
    assert MjpegFrameDesc()[17..21] == DBVal(MAX_FRAME_SIZE);
    assert MjpegFrameDesc()[21..25] == DBVal(INTERVAL);
  }

  /** The offsets of the sub-descriptors from index i on, the first at start. */
  function Boundaries(parts: seq<seq<byte>>, i: nat, start: nat): (r: seq<nat>)
    requires i <= |parts|
    ensures |r| == |parts| - i
    decreases |parts| - i
  {
    if i == |parts| then [] else [start] + Boundaries(parts, i + 1, start + |parts[i]|)
  }

  /** The class-descriptor view GET_DESCRIPTOR serves starts at offset 18,
      which is the second byte of the VideoControl interface descriptor and
      not the start of any sub-descriptor. */
  lemma ClassDescOffsetIsNotABoundary()
    ensures Boundaries(CfgDescParts(), 0, 0)[..4] == [0, 9, 17, 26]
    ensures 18 !in Boundaries(CfgDescParts(), 0, 0)
  {
    PartSizes();
    var ps := CfgDescParts();
    assert |ps[0]| == 9 && |ps[1]| == 8 && |ps[2]| == 9;
    LeadingBoundaries(ps);
  }

  lemma LeadingBoundaries(ps: seq<seq<byte>>)
    requires |ps| >= 4 && |ps[0]| == 9 && |ps[1]| == 8 && |ps[2]| == 9
    ensures Boundaries(ps, 0, 0)[..4] == [0, 9, 17, 26]
    ensures 18 !in Boundaries(ps, 0, 0)
  {
    var t := Boundaries(ps, 3, 26);
    BoundariesAtLeast(ps, 3, 26);
    assert t[0] == 26;
    assert Boundaries(ps, 2, 17) == [17] + t;
    assert Boundaries(ps, 1, 9) == [9, 17] + t;
    assert Boundaries(ps, 0, 0) == [0, 9, 17] + t;
  }

  lemma {:induction false} BoundariesAtLeast(parts: seq<seq<byte>>, i: nat, start: nat)
    requires i <= |parts|
    ensures forall x :: x in Boundaries(parts, i, start) ==> x >= start
    decreases |parts| - i
  {
    if i < |parts| {
      BoundariesAtLeast(parts, i + 1, start + |parts[i]|);
    }
  }

  // ---------------------------------------------------------------------
  // The getters

  /** USBD_UVC_GetCfgDesc: the table and its length. */
  function GetCfgDesc(): (r: (seq<byte>, nat))
    ensures r.1 == |r.0| == USB_VIDEO_DESC_SIZ
    ensures Walk(r.0, 0) == Some(r.1) && DeclaredTotalLength(r.0) == r.1
  {
    CfgDescWalkEndsAtTotalLength();
    (CfgDesc(), |CfgDesc()|)
  }

  /** USBD_UVC_GetDeviceQualifierDesc: the table and its length. */
  function GetDeviceQualifierDesc(): (r: (seq<byte>, nat))
    ensures r.1 == |r.0| == USB_LEN_DEV_QUALIFIER_DESC && r.0[0] == r.1
    ensures r.0[1] == USB_DESC_TYPE_DEVICE_QUALIFIER && LE16(r.0[2..4]) == 0x0200
    ensures Walk(r.0, 0) == Some(r.1)
  {
    (DeviceQualifierDesc(), |DeviceQualifierDesc()|)
  }
}
