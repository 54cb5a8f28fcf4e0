/**
 * The 34-byte Video Probe and Commit control block (UVC 1.1 section 4.3.1.1),
 * laid out as the VideoControl struct of the class header lays it out:
 * sixteen fields of fixed width, multi-byte fields little-endian.
 */
module VideoControlLayout {
  import opened UvcDefs

  type u32 = x: int | 0 <= x < 0x1_0000_0000

  /** The widths of the sixteen fields, in declaration order. */
  const FIELD_WIDTHS: seq<nat> := [2, 1, 1, 4, 2, 2, 2, 2, 2, 4, 4, 4, 1, 1, 1, 1]

  /** sizeof(VideoControl). */
  const VIDEO_CONTROL_SIZE: nat := 34

  /** Bytes of the block a UVC 1.0 host exchanges: bmHint through dwMaxPayloadTransferSize. */
  const UVC_1_0_SIZE: nat := 26

  /** The offset just past field k: the sum of the widths of fields 0..k. */
  function FieldEnd(k: nat): (r: nat)
    requires k < |FIELD_WIDTHS|
    ensures r >= FIELD_WIDTHS[k]
  {
    if k == 0 then FIELD_WIDTHS[0] else FieldEnd(k - 1) + FIELD_WIDTHS[k]
  }

  /** The cumulative end offsets written beside the struct fields, and the size. */
  lemma FieldEndOffsets()
    ensures forall k :: 0 <= k < 16 ==>
      FieldEnd(k) == [2, 3, 4, 8, 10, 12, 14, 16, 18, 22, 26, 30, 31, 32, 33, 34][k]
    ensures FieldEnd(10) == UVC_1_0_SIZE && FieldEnd(15) == VIDEO_CONTROL_SIZE
  {
    assert FieldEnd(0) == 2 && FieldEnd(1) == 3 && FieldEnd(2) == 4 && FieldEnd(3) == 8;
    assert FieldEnd(4) == 10 && FieldEnd(5) == 12 && FieldEnd(6) == 14 && FieldEnd(7) == 16;
    assert FieldEnd(8) == 18 && FieldEnd(9) == 22 && FieldEnd(10) == 26 && FieldEnd(11) == 30;
    assert FieldEnd(12) == 31 && FieldEnd(13) == 32 && FieldEnd(14) == 33 && FieldEnd(15) == 34;
  }

  /** The decoded content of one control block. */
  datatype StreamingParams = StreamingParams(
    bmHint: u16,
    bFormatIndex: byte,
    bFrameIndex: byte,
    dwFrameInterval: u32,
    wKeyFrameRate: u16,
    wPFrameRate: u16,
    wCompQuality: u16,
    wCompWindowSize: u16,
    wDelay: u16,
    dwMaxVideoFrameSize: u32,
    dwMaxPayloadTransferSize: u32,
    dwClockFrequency: u32,
    bmFramingInfo: byte,
    bPreferedVersion: byte,
    bMinVersion: byte,
    bMaxVersion: byte)

  /** The UVC 1.0 part of the block: the first eleven fields. */
  function Uvc10Fields(p: StreamingParams): seq<nat>
  {
    [p.bmHint, p.bFormatIndex, p.bFrameIndex, p.dwFrameInterval, p.wKeyFrameRate,
     p.wPFrameRate, p.wCompQuality, p.wCompWindowSize, p.wDelay,
     p.dwMaxVideoFrameSize, p.dwMaxPayloadTransferSize]
  }

  /** The UVC 1.0 prefix of the wire image. */
  function EncodeUvc10(p: StreamingParams): (r: seq<byte>)
    ensures |r| == UVC_1_0_SIZE
  {
    WBVal(p.bmHint) + [p.bFormatIndex, p.bFrameIndex] + DBVal(p.dwFrameInterval)
    + WBVal(p.wKeyFrameRate) + WBVal(p.wPFrameRate) + WBVal(p.wCompQuality)
    + WBVal(p.wCompWindowSize) + WBVal(p.wDelay)
    + DBVal(p.dwMaxVideoFrameSize) + DBVal(p.dwMaxPayloadTransferSize)
  }

  /** The wire image of a block, as the host reads it positionally. */
  function Encode(p: StreamingParams): (r: seq<byte>)
    ensures |r| == VIDEO_CONTROL_SIZE
    ensures r[..UVC_1_0_SIZE] == EncodeUvc10(p)
  {
    EncodeUvc10(p) + DBVal(p.dwClockFrequency)
    + [p.bmFramingInfo, p.bPreferedVersion, p.bMinVersion, p.bMaxVersion]
  }

  /** Reading the sixteen fields back from a 34-byte block. */
  function Decode(b: seq<byte>): StreamingParams
    requires |b| == VIDEO_CONTROL_SIZE
  {
    StreamingParams(
      LE16(b[0..2]), b[2], b[3], LE32(b[4..8]),
      LE16(b[8..10]), LE16(b[10..12]), LE16(b[12..14]), LE16(b[14..16]), LE16(b[16..18]),
      LE32(b[18..22]), LE32(b[22..26]), LE32(b[26..30]),
      b[30], b[31], b[32], b[33])
  }

  /** The offset where field k starts. */
  function FieldStart(k: nat): (r: nat)
    requires k < |FIELD_WIDTHS|
    ensures r + FIELD_WIDTHS[k] == FieldEnd(k)
  {
    FieldEnd(k) - FIELD_WIDTHS[k]
  }

  /** The start offsets of the sixteen fields, as Encode and Decode use them. */
  const FIELD_STARTS: seq<nat> := [0, 2, 3, 4, 8, 10, 12, 14, 16, 18, 22, 26, 30, 31, 32, 33]

  /** The start offsets are the cumulative field widths. */
  lemma FieldSpan(k: nat)
    requires k < |FIELD_WIDTHS|
    ensures FieldStart(k) == FIELD_STARTS[k]
    ensures FieldEnd(k) == FIELD_STARTS[k] + FIELD_WIDTHS[k] <= VIDEO_CONTROL_SIZE
  {
    FieldEndOffsets();
    if k < 8 {
      if k == 0 { } else if k == 1 { } else if k == 2 { } else if k == 3 { }
      else if k == 4 { } else if k == 5 { } else if k == 6 { } else { }
    } else {
      if k == 8 { } else if k == 9 { } else if k == 10 { } else if k == 11 { }
      else if k == 12 { } else if k == 13 { } else if k == 14 { } else { }
    }
  }

  /** Field k of a parameter set, in declaration order. */
  function FieldValue(p: StreamingParams, k: nat): nat
    requires k < |FIELD_WIDTHS|
  {
    [p.bmHint, p.bFormatIndex, p.bFrameIndex, p.dwFrameInterval, p.wKeyFrameRate,
     p.wPFrameRate, p.wCompQuality, p.wCompWindowSize, p.wDelay,
     p.dwMaxVideoFrameSize, p.dwMaxPayloadTransferSize, p.dwClockFrequency,
     p.bmFramingInfo, p.bPreferedVersion, p.bMinVersion, p.bMaxVersion][k]
  }

  /** The little-endian image of a value in a field of width 1, 2 or 4. */
  function FieldImage(v: nat, w: nat): seq<byte>
  {
    if w == 1 then (if v < 0x100 then [v] else [v % 0x100])
    else if w == 2 then WBVal(v) else DBVal(v)
  }

  /** The value of a field of width 1, 2 or 4 read back little-endian. */
  function FieldRead(b: seq<byte>): nat
    requires |b| == 1 || |b| == 2 || |b| == 4
  {
    if |b| == 1 then b[0] else if |b| == 2 then LE16(b) else LE32(b)
  }

  /** The wire image, field by field. */
  lemma EncodeFieldSlices(p: StreamingParams)
    ensures Encode(p)[0..2] == WBVal(p.bmHint)
    ensures Encode(p)[2..3] == [p.bFormatIndex] && Encode(p)[3..4] == [p.bFrameIndex]
    ensures Encode(p)[4..8] == DBVal(p.dwFrameInterval)
    ensures Encode(p)[8..10] == WBVal(p.wKeyFrameRate)
    ensures Encode(p)[10..12] == WBVal(p.wPFrameRate)
    ensures Encode(p)[12..14] == WBVal(p.wCompQuality)
    ensures Encode(p)[14..16] == WBVal(p.wCompWindowSize)
    ensures Encode(p)[16..18] == WBVal(p.wDelay)
    ensures Encode(p)[18..22] == DBVal(p.dwMaxVideoFrameSize)
    ensures Encode(p)[22..26] == DBVal(p.dwMaxPayloadTransferSize)
    ensures Encode(p)[26..30] == DBVal(p.dwClockFrequency)
    ensures Encode(p)[30..31] == [p.bmFramingInfo] && Encode(p)[31..32] == [p.bPreferedVersion]
    ensures Encode(p)[32..33] == [p.bMinVersion] && Encode(p)[33..34] == [p.bMaxVersion]
  {
  }

  /** Encode writes field k at FIELD_STARTS[k], in its own width. */
  lemma EncodeFieldAtStart(p: StreamingParams, k: nat)
    requires k < |FIELD_WIDTHS|
    ensures FIELD_STARTS[k] + FIELD_WIDTHS[k] <= VIDEO_CONTROL_SIZE
    ensures Encode(p)[FIELD_STARTS[k]..FIELD_STARTS[k] + FIELD_WIDTHS[k]]
         == FieldImage(FieldValue(p, k), FIELD_WIDTHS[k])
  {
    EncodeFieldSlices(p);
    // one case per field, so that each needs only its own slice fact
    if k < 8 {
      if k == 0 { } else if k == 1 { } else if k == 2 { } else if k == 3 { }
      else if k == 4 { } else if k == 5 { } else if k == 6 { } else { }
    } else {
      if k == 8 { } else if k == 9 { } else if k == 10 { } else if k == 11 { }
      else if k == 12 { } else if k == 13 { } else if k == 14 { } else { }
    }
  }

  /** Decode reads field k from FIELD_STARTS[k], in its own width. */
  lemma DecodeFieldAtStart(b: seq<byte>, k: nat)
    requires |b| == VIDEO_CONTROL_SIZE && k < |FIELD_WIDTHS|
    ensures FIELD_STARTS[k] + FIELD_WIDTHS[k] <= VIDEO_CONTROL_SIZE
    ensures FieldValue(Decode(b), k) == FieldRead(b[FIELD_STARTS[k]..FIELD_STARTS[k] + FIELD_WIDTHS[k]])
  {
    if k < 8 {
      if k == 0 { } else if k == 1 { } else if k == 2 { } else if k == 3 { }
      else if k == 4 { } else if k == 5 { } else if k == 6 { } else { }
    } else {
      if k == 8 { } else if k == 9 { } else if k == 10 { } else if k == 11 { }
      else if k == 12 { } else if k == 13 { } else if k == 14 { } else { }
    }
  }

  /** Encode writes every field at the cumulative offset of the field widths. */
  lemma EncodePlacesFieldsAtOffsets(p: StreamingParams, k: nat)
    requires k < |FIELD_WIDTHS|
    ensures FieldEnd(k) <= VIDEO_CONTROL_SIZE
    ensures Encode(p)[FieldStart(k)..FieldEnd(k)] == FieldImage(FieldValue(p, k), FIELD_WIDTHS[k])
  {
    FieldSpan(k);
    EncodeFieldAtStart(p, k);
  }

  /** Decode reads every field from the cumulative offset of the field widths. */
  lemma DecodeReadsFieldsAtOffsets(b: seq<byte>, k: nat)
    requires |b| == VIDEO_CONTROL_SIZE && k < |FIELD_WIDTHS|
    ensures FieldEnd(k) <= VIDEO_CONTROL_SIZE
    ensures FieldValue(Decode(b), k) == FieldRead(b[FieldStart(k)..FieldEnd(k)])
  {
    FieldSpan(k);
    DecodeFieldAtStart(b, k);
  }

  /** Every field survives encoding and decoding. */
  lemma DecodeEncode(p: StreamingParams)
    ensures Decode(Encode(p)) == p
  {
    var b := Encode(p);
    WBValRoundTrip(p.bmHint, b[0..2]);
    assert b[0..2] == WBVal(p.bmHint);
    assert b[4..8] == DBVal(p.dwFrameInterval);
    assert b[8..10] == WBVal(p.wKeyFrameRate);
    assert b[10..12] == WBVal(p.wPFrameRate);
    assert b[12..14] == WBVal(p.wCompQuality);
    assert b[14..16] == WBVal(p.wCompWindowSize);
    assert b[16..18] == WBVal(p.wDelay);
    assert b[18..22] == DBVal(p.dwMaxVideoFrameSize);
    assert b[22..26] == DBVal(p.dwMaxPayloadTransferSize);
    assert b[26..30] == DBVal(p.dwClockFrequency);
  }

  /** Every 34-byte block is the image of the fields read from it. */
  lemma EncodeDecode(b: seq<byte>)
    requires |b| == VIDEO_CONTROL_SIZE
    ensures Encode(Decode(b)) == b
  {
    var p := Decode(b);
    WBValRoundTrip(0, b[0..2]);
    WBValRoundTrip(0, b[8..10]);
    WBValRoundTrip(0, b[10..12]);
    WBValRoundTrip(0, b[12..14]);
    WBValRoundTrip(0, b[14..16]);
    WBValRoundTrip(0, b[16..18]);
    DBValRoundTrip(0, b[4..8]);
    DBValRoundTrip(0, b[18..22]);
    DBValRoundTrip(0, b[22..26]);
    DBValRoundTrip(0, b[26..30]);
    assert Encode(p) == b[0..2] + [b[2], b[3]] + b[4..8] + b[8..10] + b[10..12] + b[12..14]
      + b[14..16] + b[16..18] + b[18..22] + b[22..26] + b[26..30] + [b[30], b[31], b[32], b[33]];
  }

  /** A UVC 1.0 host, which exchanges only the first 26 bytes, sees exactly
      the first eleven fields: blocks that agree on those agree on the prefix. */
  lemma Uvc10PrefixDependsOnUvc10Fields(p: StreamingParams, q: StreamingParams)
    ensures Encode(p)[..UVC_1_0_SIZE] == Encode(q)[..UVC_1_0_SIZE]
        <==> Uvc10Fields(p) == Uvc10Fields(q)
  {
    if Encode(p)[..UVC_1_0_SIZE] == Encode(q)[..UVC_1_0_SIZE] {
      var zp := p.(dwClockFrequency := 0, bmFramingInfo := 0, bPreferedVersion := 0,
                   bMinVersion := 0, bMaxVersion := 0);
      var zq := q.(dwClockFrequency := 0, bmFramingInfo := 0, bPreferedVersion := 0,
                   bMinVersion := 0, bMaxVersion := 0);
      assert Encode(zp) == Encode(zq);
      DecodeEncode(zp);
      DecodeEncode(zq);
    }
  }

  /** The initial content of both blocks, byte for byte as the source lists it. */
  function InitialBlock(): (r: seq<byte>)
    ensures |r| == VIDEO_CONTROL_SIZE
  {
    [0x00, 0x00]              // bmHint
    + [0x01]                  // bFormatIndex
    + [0x01]                  // bFrameIndex
    + DBVal(INTERVAL)         // dwFrameInterval
    + [0x00, 0x00]            // wKeyFrameRate
    + [0x00, 0x00]            // wPFrameRate
    + [0x00, 0x00]            // wCompQuality
    + [0x00, 0x00]            // wCompWindowSize
    + [0x00, 0x00]            // wDelay
    + DBVal(MAX_FRAME_SIZE)   // dwMaxVideoFrameSize
    + DBVal(VIDEO_PACKET_SIZE) // dwMaxPayloadTransferSize
    + DBVal(48_000_000)       // dwClockFrequency
    + [0x00]                  // bmFramingInfo
    + [0x00]                  // bPreferedVersion
    + [0x00]                  // bMinVersion
    + [0x00]                  // bMaxVersion
  }

  /** What the initial block means: format 1, frame 1 at the default
      interval, the largest frame, one packet per transfer, a 48 MHz clock. */
  lemma InitialBlockDecodes()
    ensures |InitialBlock()| == VIDEO_CONTROL_SIZE
    ensures Decode(InitialBlock()) == StreamingParams(
      0, 1, 1, INTERVAL, 0, 0, 0, 0, 0, MAX_FRAME_SIZE, VIDEO_PACKET_SIZE, 48_000_000, 0, 0, 0, 0)
  {
    var p := StreamingParams(
      0, 1, 1, INTERVAL, 0, 0, 0, 0, 0, MAX_FRAME_SIZE, VIDEO_PACKET_SIZE, 48_000_000, 0, 0, 0, 0);
    assert InitialBlock() == Encode(p);
    DecodeEncode(p);
  }
}
