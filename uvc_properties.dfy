/**
 * What the dispatcher promises a host, stated over the outcome functions
 * UvcDevice is proved to follow.
 */
module UvcProperties {
  import opened UvcDefs
  import opened VideoControlLayout
  import opened UvcDescriptors
  import opened UvcClass

  predicate IsClass(req: SetupRequest)
  {
    RequestTypeBits(req.bmRequest) == USB_REQ_TYPE_CLASS
  }

  predicate IsStandard(req: SetupRequest)
  {
    RequestTypeBits(req.bmRequest) == USB_REQ_TYPE_STANDARD
  }

  /** The request codes the dispatcher answers for class requests. */
  predicate KnownClassCode(code: byte)
  {
    IsGetRequest(code) || code == SET_CUR
  }

  // ---------------------------------------------------------------------
  // Selecting Probe or Commit

  /** Reads and writes resolve wValue the same way: 256 is Probe, 512 and
      every other value Commit; GET_CUR reads the very block SET_CUR arms. */
  lemma SelectorSameForReadsAndWrites(s: DeviceState, req: SetupRequest)
    requires IsClass(req) && req.wLength > 0
    ensures var get := SetupOutcome(s, req.(bRequest := GET_CUR));
            var put := SetupOutcome(s, req.(bRequest := SET_CUR));
            && put.effects[0].PrepareRx? && get.effects[1].Send?
            && (put.effects[0].target == Probe <==> req.wValue == PROBE_SELECTOR)
            && get.effects[1].buf == BlockOf(s, put.effects[0].target)
            && put.state.rx == Some(RxArm(put.effects[0].target, req.wLength))
  {
  }

  /** The selector is the whole wValue, not its high byte: a wValue whose
      high byte names the Probe control but whose low byte is not 0 selects Commit. */
  lemma SelectorIsWholeWValue(v: u16)
    requires HighByte(v) == 1 && LowByte(v) != 0
    ensures SelectBlock(v) == Commit
  {
  }

  // ---------------------------------------------------------------------
  // GET_CUR and its aliases

  /** GET_CUR changes neither block nor altSet, flushes EP0 OUT, then sends
      exactly wLength bytes of the selected block, reading past it when
      wLength exceeds it. */
  lemma GetCurEffects(s: DeviceState, req: SetupRequest)
    requires IsClass(req) && req.bRequest == GET_CUR
    ensures var o := SetupOutcome(s, req);
            && o.state == SetupStart(s) && o.status == Ok && |o.effects| == 2
            && o.effects[0] == FlushEp(0x00)
            && o.effects[1] == Send(if req.wValue == PROBE_SELECTOR then s.probe else s.commit, req.wLength)
            && (Inv(s) ==> (OverReads(o.effects[1]) <==> req.wLength > VIDEO_CONTROL_SIZE))
  {
  }

  /** GET_DEF, GET_MIN and GET_MAX are answered exactly as GET_CUR. */
  lemma GetAliasesAreGetCur(s: DeviceState, req: SetupRequest)
    requires IsClass(req)
    requires req.bRequest == GET_DEF || req.bRequest == GET_MIN || req.bRequest == GET_MAX
    ensures SetupOutcome(s, req) == SetupOutcome(s, req.(bRequest := GET_CUR))
  {
  }

  // ---------------------------------------------------------------------
  // SET_CUR and the data stage

  /** SET_CUR with no data stage issues nothing and arms nothing. */
  lemma SetCurZeroLengthDoesNothing(s: DeviceState, req: SetupRequest)
    requires IsClass(req) && req.bRequest == SET_CUR && req.wLength == 0
    ensures SetupOutcome(s, req) == Outcome(SetupStart(s), [], Ok)
  {
  }

  /** SET_CUR with a data stage arms exactly one receive of wLength bytes into
      the selected block and changes nothing else. */
  lemma SetCurArmsOneReceive(s: DeviceState, req: SetupRequest)
    requires IsClass(req) && req.bRequest == SET_CUR && req.wLength > 0
    ensures var o := SetupOutcome(s, req);
            && o.effects == [PrepareRx(SelectBlock(req.wValue), req.wLength)]
            && o.state == s.(rx := Some(RxArm(SelectBlock(req.wValue), req.wLength)))
            && o.status == Ok
  {
  }

  /** The data stage writes the bytes it takes over the start of the armed
      block, leaves the rest of it alone, and disarms; when it fits in the
      block it leaves the other block alone too. */
  lemma ReceiveWritesArmedBlock(s: DeviceState, data: seq<byte>)
    requires s.rx.Some?
    ensures var (s', overflow) := ReceiveOutcome(s, data);
            var b := s.rx.value.target;
            var n := Min(|data|, s.rx.value.len);
            && s'.rx.None? && s'.altSet == s.altSet
            && |BlockOf(s', b)| == |BlockOf(s, b)|
            && (forall k :: 0 <= k < |BlockOf(s', b)| ==>
                  BlockOf(s', b)[k] == if k < n then data[k] else BlockOf(s, b)[k])
            && (!overflow ==>
                  BlockOf(s', if b == Probe then Commit else Probe)
                  == BlockOf(s, if b == Probe then Commit else Probe))
            && (overflow <==> n > |BlockOf(s, b)|)
  {
  }

  /** With no data stage armed, bytes from the host change nothing. */
  lemma ReceiveUnarmedIgnored(s: DeviceState, data: seq<byte>)
    requires s.rx.None?
    ensures ReceiveOutcome(s, data) == (s, false)
  {
  }

  /** A SET_CUR whose data stage carries d, followed by a GET_CUR with the
      same selector, sends a block that begins with d; the other block and
      the alternate setting are unchanged. */
  lemma SetThenGetReadsBack(s: DeviceState, req: SetupRequest, d: seq<byte>)
    requires Inv(s) && IsClass(req) && req.bRequest == SET_CUR
    requires 0 < |d| == req.wLength <= VIDEO_CONTROL_SIZE
    ensures var s1 := SetupOutcome(s, req).state;
            var (s2, overflow) := ReceiveOutcome(s1, d);
            var get := SetupOutcome(s2, req.(bRequest := GET_CUR));
            var b := SelectBlock(req.wValue);
            && !overflow && get.effects[1].Send?
            && |get.effects[1].buf| == VIDEO_CONTROL_SIZE
            && get.effects[1].buf[..|d|] == d
            && BlockOf(s2, if b == Probe then Commit else Probe)
               == BlockOf(s, if b == Probe then Commit else Probe)
            && s2.altSet == s.altSet
  {
    var s1 := SetupOutcome(s, req).state;
    var b := SelectBlock(req.wValue);
    assert s1 == s.(rx := Some(RxArm(b, req.wLength)));
    ReceiveWritesArmedBlock(s1, d);
    var (s2, overflow) := ReceiveOutcome(s1, d);
    var buf := SetupOutcome(s2, req.(bRequest := GET_CUR)).effects[1].buf;
    assert buf == BlockOf(s2, b);
    assert buf[..|d|] == d by {
      forall k | 0 <= k < |d| ensures buf[k] == d[k] {
        assert BlockOf(s2, b)[k] == d[k];
      }
    }
  }

  /** Writing the encoding of a parameter set with SET_CUR and reading the
      same block back with GET_CUR gives the same parameters, for Probe and
      Commit alike. */
  lemma SetThenGetDecodes(s: DeviceState, req: SetupRequest, p: StreamingParams)
    requires Inv(s) && IsClass(req) && req.bRequest == SET_CUR
    requires req.wLength == VIDEO_CONTROL_SIZE
    ensures var s1 := SetupOutcome(s, req).state;
            var s2 := ReceiveOutcome(s1, Encode(p)).0;
            var get := SetupOutcome(s2, req.(bRequest := GET_CUR));
            && get.effects[1].Send? && |get.effects[1].buf| == VIDEO_CONTROL_SIZE
            && Decode(get.effects[1].buf) == p
  {
    SetThenGetReadsBack(s, req, Encode(p));
    var s1 := SetupOutcome(s, req).state;
    var s2 := ReceiveOutcome(s1, Encode(p)).0;
    var buf := SetupOutcome(s2, req.(bRequest := GET_CUR)).effects[1].buf;
    assert buf == buf[..VIDEO_CONTROL_SIZE] == Encode(p);
    DecodeEncode(p);
  }

  /** SET_CUR does not bound wLength by the block's size: a data stage that
      delivers all wLength bytes runs past the 34-byte block exactly when
      wLength > 34. */
  lemma SetCurOverflowFlagged(s: DeviceState, req: SetupRequest, d: seq<byte>)
    requires Inv(s) && IsClass(req) && req.bRequest == SET_CUR
    requires |d| == req.wLength
    ensures ReceiveOutcome(SetupOutcome(s, req).state, d).1
        <==> req.wLength > VIDEO_CONTROL_SIZE
  {
  }

  // ---------------------------------------------------------------------
  // Unknown class requests and the status returned

  /** Any other class request code is stalled once, fails, and changes nothing. */
  lemma UnknownClassRequestStalls(s: DeviceState, req: SetupRequest)
    requires IsClass(req) && !KnownClassCode(req.bRequest)
    ensures SetupOutcome(s, req) == Outcome(SetupStart(s), [Stall], Fail)
  {
  }

  /** The dispatcher fails exactly on class requests with an unknown code. */
  lemma FailsExactlyOnUnknownClassRequests(s: DeviceState, req: SetupRequest)
    ensures SetupOutcome(s, req).status == Fail <==> IsClass(req) && !KnownClassCode(req.bRequest)
  {
  }

  /** GET_RES, GET_LEN and GET_INFO are among the unknown codes. */
  lemma UnsupportedUvcCodes()
    ensures !KnownClassCode(GET_RES) && !KnownClassCode(GET_LEN) && !KnownClassCode(GET_INFO)
    ensures !KnownClassCode(RC_UNDEFINED)
  {
  }

  // ---------------------------------------------------------------------
  // Interfaces

  /** SET_INTERFACE with a valid alternate setting takes the low byte of
      wValue and flushes the video endpoint exactly when the new value is not 1. */
  lemma SetInterfaceValid(s: DeviceState, req: SetupRequest)
    requires IsStandard(req) && req.bRequest == USB_REQ_SET_INTERFACE
    requires LowByte(req.wValue) < VIDEO_TOTAL_IF_NUM
    ensures var o := SetupOutcome(s, req);
            && o.state == SetupStart(s).(altSet := req.wValue % 0x100) && o.status == Ok
            && (FlushEp(0x81) in o.effects <==> o.state.altSet != 1)
            && (o.effects == [] || o.effects == [FlushEp(0x81)])
  {
    VideoEndpointIs0x81();
  }

  /** SET_INTERFACE with any other value stalls, leaves everything as it
      was, and still reports success. */
  lemma SetInterfaceInvalid(s: DeviceState, req: SetupRequest)
    requires IsStandard(req) && req.bRequest == USB_REQ_SET_INTERFACE
    requires LowByte(req.wValue) >= VIDEO_TOTAL_IF_NUM
    ensures SetupOutcome(s, req) == Outcome(SetupStart(s), [Stall], Ok)
  {
  }

  /** Enabling the stream and disabling it again ends in alternate setting 0
      with one flush of the video endpoint, issued on the way down. */
  lemma EnableThenDisable(s: DeviceState, req: SetupRequest)
    requires IsStandard(req) && req.bRequest == USB_REQ_SET_INTERFACE
    ensures var on := SetupOutcome(s, req.(wValue := 1));
            var off := SetupOutcome(on.state, req.(wValue := 0));
            && on.effects == [] && off.effects == [FlushEp(0x81)]
            && off.state == SetupStart(s).(altSet := 0)
  {
    VideoEndpointIs0x81();
    var up, down := req.(wValue := 1), req.(wValue := 0);
    StandardBranch(s, up);
    var on := SetupOutcome(s, up);
    assert on == Outcome(SetupStart(s).(altSet := 1), [], Ok);
    StandardBranch(on.state, down);
  }

  /** GET_INTERFACE sends one byte, the alternate setting, and changes nothing. */
  lemma GetInterfaceSendsAltSet(s: DeviceState, req: SetupRequest)
    requires IsStandard(req) && req.bRequest == USB_REQ_GET_INTERFACE
    requires s.altSet < 0x100
    ensures var o := SetupOutcome(s, req);
            && o.state == SetupStart(s) && o.status == Ok && |o.effects| == 1
            && o.effects[0].Send? && o.effects[0].len == 1 && !OverReads(o.effects[0])
            && o.effects[0].buf[0] == s.altSet
  {
    var s0 := SetupStart(s);
    StandardBranch(s, req);
    assert StandardOutcome(s0, req) == Outcome(s0, [Send(DBVal(s.altSet), 1)], Ok);
    DBValLowByte(s.altSet);
  }

  // ---------------------------------------------------------------------
  // GET_DESCRIPTOR

  /** GET_DESCRIPTOR for CS_DEVICE sends min(159, wLength) bytes starting at
      offset 18 of the configuration descriptor; only 141 bytes are there, so
      it reads past the table exactly when wLength > 141. */
  lemma GetDescriptorClassView(s: DeviceState, req: SetupRequest)
    requires IsStandard(req) && req.bRequest == USB_REQ_GET_DESCRIPTOR
    requires req.wValue / 0x100 == CS_DEVICE
    ensures var o := SetupOutcome(s, req);
            && o.state == SetupStart(s) && o.status == Ok && |o.effects| == 1 && o.effects[0].Send?
            && o.effects[0].len == Min(USB_VIDEO_DESC_SIZ, req.wLength)
            && |o.effects[0].buf| == 141
            && (forall k :: 0 <= k < 141 ==> o.effects[0].buf[k] == CfgDesc()[18 + k])
            && (OverReads(o.effects[0]) <==> req.wLength > 141)
  {
    StandardBranch(s, req);
    ClassDescViewBytes();
  }

  /** The bytes in the view are the configuration descriptor's from offset 18 on. */
  lemma ClassDescViewBytes()
    ensures forall k :: 0 <= k < |ClassDescView()| ==> ClassDescView()[k] == CfgDesc()[18 + k]
  {
    CfgDescWellFormed();
    assert ClassDescView() == Suffix(CfgDesc(), CLASS_DESC_OFFSET);
  }

  lemma StandardBranch(s: DeviceState, req: SetupRequest)
    requires IsStandard(req)
    ensures SetupOutcome(s, req) == StandardOutcome(SetupStart(s), req)
  {
  }

  /** GET_DESCRIPTOR for any other descriptor type sends from an
      uninitialised pointer. */
  lemma GetDescriptorOtherType(s: DeviceState, req: SetupRequest)
    requires IsStandard(req) && req.bRequest == USB_REQ_GET_DESCRIPTOR
    requires req.wValue / 0x100 != CS_DEVICE
    ensures SetupOutcome(s, req) == Outcome(SetupStart(s), [SendUndefined], Ok)
  {
  }

  // ---------------------------------------------------------------------
  // What the dispatcher does not look at

  /** The outcome does not depend on wIndex, nor on the direction and
      recipient bits of bmRequest. */
  lemma IgnoresIndexAndRecipient(s: DeviceState, req: SetupRequest, bm: byte, index: u16)
    requires RequestTypeBits(bm) == RequestTypeBits(req.bmRequest)
    ensures SetupOutcome(s, req.(bmRequest := bm, wIndex := index)) == SetupOutcome(s, req)
  {
  }

  /** Vendor requests and the reserved type are accepted and ignored. */
  lemma VendorRequestsIgnored(s: DeviceState, req: SetupRequest)
    requires !IsClass(req) && !IsStandard(req)
    ensures SetupOutcome(s, req) == Outcome(SetupStart(s), [], Ok)
  {
  }

  /** No setup request writes either block: only a data stage does. */
  lemma SetupNeverWritesBlocks(s: DeviceState, req: SetupRequest)
    ensures SetupOutcome(s, req).state.probe == s.probe
    ensures SetupOutcome(s, req).state.commit == s.commit
  {
    if IsClass(req) {
      ClassKeepsBlocks(SetupStart(s), req);
    } else if IsStandard(req) {
      StandardKeepsBlocks(SetupStart(s), req);
    }
  }

  lemma ClassKeepsBlocks(s: DeviceState, req: SetupRequest)
    ensures ClassOutcome(s, req).state.probe == s.probe
    ensures ClassOutcome(s, req).state.commit == s.commit
  {
  }

  lemma StandardKeepsBlocks(s: DeviceState, req: SetupRequest)
    ensures StandardOutcome(s, req).state.probe == s.probe
    ensures StandardOutcome(s, req).state.commit == s.commit
  {
    if req.bRequest == USB_REQ_SET_INTERFACE && LowByte(req.wValue) < VIDEO_TOTAL_IF_NUM {
      assert StandardOutcome(s, req).state == s.(altSet := LowByte(req.wValue));
    }
  }

  /** altSet changes only through a valid SET_INTERFACE, and a data stage is
      armed after a request exactly when it is SET_CUR with a data stage. */
  lemma SetupChangesOnlyWhatItHandles(s: DeviceState, req: SetupRequest)
    ensures var o := SetupOutcome(s, req);
            && (o.state.altSet != s.altSet ==>
                  IsStandard(req) && req.bRequest == USB_REQ_SET_INTERFACE
                  && o.state.altSet == LowByte(req.wValue) < VIDEO_TOTAL_IF_NUM)
            && (o.state.rx.Some? <==>
                  IsClass(req) && req.bRequest == SET_CUR && req.wLength > 0)
  {
  }

  /** A data stage armed by SET_CUR does not survive a later setup request
      that arms none: bytes that arrive after it change nothing. */
  lemma NewSetupCancelsPendingStage(s: DeviceState, req: SetupRequest, data: seq<byte>)
    requires s.rx.Some?
    requires !(IsClass(req) && req.bRequest == SET_CUR && req.wLength > 0)
    ensures var s1 := SetupOutcome(s, req).state;
            s1.rx.None? && ReceiveOutcome(s1, data) == (s1, false)
  {
  }

  // ---------------------------------------------------------------------
  // The invariant

  /** The initial state: alternate setting 0, Probe and Commit identical and
      holding the default parameters, nothing armed; it satisfies Inv. */
  lemma InitialStateProperties()
    ensures var s := InitialState();
            && Inv(s) && s.altSet == 0 && s.probe == s.commit && s.rx.None?
            && Decode(s.probe) == StreamingParams(
                 0, 1, 1, INTERVAL, 0, 0, 0, 0, 0, MAX_FRAME_SIZE, VIDEO_PACKET_SIZE,
                 48_000_000, 0, 0, 0, 0)
  {
    InitialBlockDecodes();
  }

  /** Every setup request keeps Inv. */
  lemma SetupPreservesInv(s: DeviceState, req: SetupRequest)
    requires Inv(s)
    ensures Inv(SetupOutcome(s, req).state)
  {
    var s0 := SetupStart(s);
    if IsClass(req) {
      assert SetupOutcome(s, req) == ClassOutcome(s0, req);
      ClassKeepsBlocks(s0, req);
      assert ClassOutcome(s0, req).state.altSet == s.altSet;
    } else if IsStandard(req) {
      StandardBranch(s, req);
      StandardKeepsBlocks(s0, req);
    }
  }

  /** Every data stage keeps Inv. */
  lemma ReceivePreservesInv(s: DeviceState, data: seq<byte>)
    requires Inv(s)
    ensures Inv(ReceiveOutcome(s, data).0)
  {
  }

  /** A sequence of setup requests from a state that keeps Inv keeps it. */
  function RunSetups(s: DeviceState, reqs: seq<SetupRequest>): DeviceState
    decreases |reqs|
  {
    if reqs == [] then s else RunSetups(SetupOutcome(s, reqs[0]).state, reqs[1..])
  }

  lemma {:induction false} RunSetupsPreservesInv(s: DeviceState, reqs: seq<SetupRequest>)
    requires Inv(s)
    ensures Inv(RunSetups(s, reqs))
    ensures RunSetups(s, reqs).probe == s.probe && RunSetups(s, reqs).commit == s.commit
    decreases |reqs|
  {
    if reqs != [] {
      SetupPreservesInv(s, reqs[0]);
      SetupNeverWritesBlocks(s, reqs[0]);
      RunSetupsPreservesInv(SetupOutcome(s, reqs[0]).state, reqs[1..]);
    }
  }

  // ---------------------------------------------------------------------
  // The endpoint lifecycle

  /** Init opens endpoint 0x81 as isochronous with 512-byte packets and then
      flushes it; DeInit closes the same endpoint. */
  lemma LifecycleUsesVideoEndpoint()
    ensures InitEffects() == [OpenEp(0x81, Isoc, 512), FlushEp(0x81)]
    ensures DeInitEffects() == [CloseEp(0x81)]
  {
    VideoEndpointIs0x81();
  }
}
