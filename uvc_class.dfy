/**
 * The UVC class driver: the setup-request dispatcher (USBD_UVC_Setup with
 * UVC_REQ_GetCurrent and UVC_REQ_SetCurrent), the endpoint lifecycle
 * (USBD_UVC_Init, USBD_UVC_DeInit), the data-path callbacks, and the
 * Probe/Commit store the host writes through the control endpoint.
 *
 * The calls into the ST device stack (USBD_LL_* and USBD_Ctl*) are not
 * modelled as code: each one is recorded as an Effect.  The pure part of
 * this module says, for a device state and a setup packet, which state and
 * which effects result; the class UvcDevice keeps the driver's variables and
 * is proved to follow it.
 */
module UvcClass {
  import opened UvcDefs
  import opened VideoControlLayout
  import opened UvcDescriptors

  // ---------------------------------------------------------------------
  // Requests, effects, states

  /** USBD_SetupReqTypedef: the eight bytes of a setup packet. */
  datatype SetupRequest = SetupRequest(
    bmRequest: byte, bRequest: byte, wValue: u16, wIndex: u16, wLength: u16)

  /** USBD_OK / USBD_FAIL. */
  datatype Status = Ok | Fail

  /** The two control blocks a request can select. */
  datatype Block = Probe | Commit

  /** USBD_EP_TYPE_ISOC / USBD_EP_TYPE_BULK. */
  datatype EpType = Isoc | Bulk

  /** One call into the device stack. */
  datatype Effect =
    | OpenEp(ep: byte, epType: EpType, maxPacket: nat)   // USBD_LL_OpenEP
    | CloseEp(ep: byte)                                  // USBD_LL_CloseEP
    | FlushEp(ep: byte)                                  // USBD_LL_FlushEP
    | Stall                                              // USBD_CtlError
    | Send(buf: seq<byte>, len: nat)                     // USBD_CtlSendData of len bytes from buf
    | SendUndefined                                      // USBD_CtlSendData with an uninitialised pointer and length
    | PrepareRx(target: Block, len: nat)                 // USBD_CtlPrepareRx into a block

  /** A send that reads past the end of the buffer it was given. */
  predicate OverReads(e: Effect)
  {
    e.Send? && e.len > |e.buf|
  }

  /** A pending control-OUT data stage: the stack will write up to len bytes into target. */
  datatype RxArm = RxArm(target: Block, len: nat)

  /** The driver's variables (usbd_video_AltSet, videoProbeControl,
      videoCommitControl) and the data stage the stack has armed. */
  datatype DeviceState = DeviceState(
    altSet: nat, probe: seq<byte>, commit: seq<byte>, rx: Option<RxArm>)

  /** The state after a request, the effects issued in order, and the status returned. */
  datatype Outcome = Outcome(state: DeviceState, effects: seq<Effect>, status: Status)

  function Min(a: nat, b: nat): nat
  {
    if a <= b then a else b
  }

  /** The contents of a block. */
  function BlockOf(s: DeviceState, b: Block): seq<byte>
  {
    if b == Probe then s.probe else s.commit
  }

  /** The state every block has at reset, altSet 0 and nothing armed. */
  function InitialState(): (r: DeviceState)
    ensures r.altSet == 0 && r.probe == r.commit && r.rx.None?
  {
    DeviceState(0, InitialBlock(), InitialBlock(), None)
  }

  /** What the driver keeps true: a valid alternate setting, two 34-byte
      blocks, and an armed data stage always of positive length. */
  predicate Inv(s: DeviceState)
  {
    s.altSet < VIDEO_TOTAL_IF_NUM
    && |s.probe| == VIDEO_CONTROL_SIZE && |s.commit| == VIDEO_CONTROL_SIZE
    && (s.rx.Some? ==> s.rx.value.len > 0)
  }

  // ---------------------------------------------------------------------
  // The endpoint lifecycle

  /** USBD_UVC_Init in the isochronous build. */
  function InitEffects(): seq<Effect>
  {
    [OpenEp(VIDEO_EP_IN, Isoc, VIDEO_PACKET_SIZE), FlushEp(VIDEO_EP_IN)]
  }

  /** USBD_UVC_DeInit. */
  function DeInitEffects(): seq<Effect>
  {
    [CloseEp(VIDEO_EP_IN)]
  }

  // ---------------------------------------------------------------------
  // Class requests

  /** The block a request addresses: the whole wValue is compared, 256
      selects Probe, 512 and every other value select Commit. */
  function SelectBlock(wValue: u16): (r: Block)
    ensures r == Probe <==> wValue == PROBE_SELECTOR
  {
    if wValue == PROBE_SELECTOR then Probe
    else if wValue == COMMIT_SELECTOR then Commit
    else Commit
  }

  /** UVC_REQ_GetCurrent: flush EP0 OUT, then send wLength bytes from the
      selected block; wLength is not clamped to the block's size. */
  function GetCurrentEffects(s: DeviceState, req: SetupRequest): (r: seq<Effect>)
    ensures |r| == 2 && r[1].Send? && r[1].len == req.wLength
    ensures r[1].buf == s.probe || r[1].buf == s.commit
  {
    [FlushEp(EndpointOut(0)), Send(BlockOf(s, SelectBlock(req.wValue)), req.wLength)]
  }

  /** UVC_REQ_SetCurrent: a data stage of wLength bytes into the selected block,
      or nothing when wLength is 0. */
  function SetCurrentOutcome(s: DeviceState, req: SetupRequest): (r: Outcome)
    ensures r.status == Ok && r.state.altSet == s.altSet
    ensures r.state.probe == s.probe && r.state.commit == s.commit
    ensures r.effects == [] <==> req.wLength == 0
  {
    if req.wLength == 0 then Outcome(s, [], Ok)
    else
      var arm := RxArm(SelectBlock(req.wValue), req.wLength);
      Outcome(s.(rx := Some(arm)), [PrepareRx(arm.target, arm.len)], Ok)
  }

  /** The request codes USBD_UVC_Setup answers with UVC_REQ_GetCurrent. */
  predicate IsGetRequest(code: byte)
  {
    code == GET_CUR || code == GET_DEF || code == GET_MIN || code == GET_MAX
  }

  /** The class-request branch of USBD_UVC_Setup. */
  function ClassOutcome(s: DeviceState, req: SetupRequest): (r: Outcome)
    ensures r.status == Fail <==> !IsGetRequest(req.bRequest) && req.bRequest != SET_CUR
  {
    if IsGetRequest(req.bRequest) then Outcome(s, GetCurrentEffects(s, req), Ok)
    else if req.bRequest == SET_CUR then SetCurrentOutcome(s, req)
    else Outcome(s, [Stall], Fail)
  }

  // ---------------------------------------------------------------------
  // Standard requests

  /** GET_DESCRIPTOR for CS_DEVICE sends from this offset of the configuration descriptor. */
  const CLASS_DESC_OFFSET: nat := 18

  /** The bytes of s from offset n on. */
  function Suffix(s: seq<byte>, n: nat): (r: seq<byte>)
    requires n <= |s|
    ensures |r| == |s| - n
    ensures forall k :: 0 <= k < |r| ==> r[k] == s[n + k]
  {
    s[n..]
  }

  /** The bytes from CLASS_DESC_OFFSET to the end of the configuration descriptor. */
  function ClassDescView(): (r: seq<byte>)
    ensures |r| == USB_VIDEO_DESC_SIZ - CLASS_DESC_OFFSET
  {
    CfgDescWellFormed();
    Suffix(CfgDesc(), CLASS_DESC_OFFSET)
  }

  /** The send GET_DESCRIPTOR issues: for descriptor type CS_DEVICE,
      min(USB_VIDEO_DESC_SIZ, wLength) bytes from the class view; for any
      other type the pointer and length are never assigned. */
  function DescriptorEffect(req: SetupRequest): (r: Effect)
    ensures r.Send? <==> HighByte(req.wValue) == CS_DEVICE
    ensures r.Send? ==> r.len <= USB_VIDEO_DESC_SIZ && r.len <= req.wLength
  {
    if HighByte(req.wValue) == CS_DEVICE then
      Send(ClassDescView(), Min(USB_VIDEO_DESC_SIZ, req.wLength))
    else SendUndefined
  }

  /** The standard-request branch of USBD_UVC_Setup. */
  function StandardOutcome(s: DeviceState, req: SetupRequest): (r: Outcome)
    ensures r.status == Ok && r.state.rx == s.rx && |r.effects| <= 1
  {
    if req.bRequest == USB_REQ_GET_DESCRIPTOR then Outcome(s, [DescriptorEffect(req)], Ok)
    // the 32-bit usbd_video_AltSet is sent from its first (lowest) byte
    else if req.bRequest == USB_REQ_GET_INTERFACE then Outcome(s, [Send(DBVal(s.altSet), 1)], Ok)
    else if req.bRequest == USB_REQ_SET_INTERFACE then
      var alt := LowByte(req.wValue);
      if alt < VIDEO_TOTAL_IF_NUM then
        Outcome(s.(altSet := alt), if alt == 1 then [] else [FlushEp(VIDEO_EP_IN)], Ok)
      else Outcome(s, [Stall], Ok)
    else Outcome(s, [], Ok)
  }

  /** The state a setup request is handled in: a new SETUP ends any control
      transfer still pending, so the stack drops an armed data stage
      (section 8.5.3 of the USB 2.0 specification). */
  function SetupStart(s: DeviceState): (r: DeviceState)
    ensures r.rx.None? && r.altSet == s.altSet && r.probe == s.probe && r.commit == s.commit
  {
    s.(rx := None)
  }

  /** USBD_UVC_Setup: dispatch on the type bits of bmRequest; vendor and
      reserved requests fall through with no effect. */
  function SetupOutcome(s: DeviceState, req: SetupRequest): (r: Outcome)
    ensures r.status == Fail ==> r.effects == [Stall]
  {
    var s0 := SetupStart(s);
    var t := RequestTypeBits(req.bmRequest);
    if t == USB_REQ_TYPE_CLASS then ClassOutcome(s0, req)
    else if t == USB_REQ_TYPE_STANDARD then StandardOutcome(s0, req)
    else Outcome(s0, [], Ok)
  }

  // ---------------------------------------------------------------------
  // The control-OUT data stage

  /** The block after the stack writes d over its start: bytes of d that
      fall past the block's end are not part of it. */
  function Overwrite(block: seq<byte>, d: seq<byte>): (r: seq<byte>)
    ensures |r| == |block|
    ensures forall k :: 0 <= k < |r| ==> r[k] == if k < |d| then d[k] else block[k]
  {
    if |d| >= |block| then d[..|block|] else d + block[|d|..]
  }

  /** The armed data stage completing with the bytes the host sent: at most
      the armed length is taken and written over the start of the armed
      block. The flag marks a stage longer than the block; the driver then
      writes past the end of the block's variable, which this state does not
      record (only the bytes that fall inside the block are kept). */
  function ReceiveOutcome(s: DeviceState, data: seq<byte>): (r: (DeviceState, bool))
    ensures r.0.rx.None? && r.0.altSet == s.altSet
    ensures |r.0.probe| == |s.probe| && |r.0.commit| == |s.commit|
    ensures s.rx.None? ==> r == (s, false)
  {
    if s.rx.None? then (s, false)
    else
      var n := Min(|data|, s.rx.value.len);
      var d := data[..n];
      var b := s.rx.value.target;
      var s' := if b == Probe then s.(probe := Overwrite(s.probe, d))
                else s.(commit := Overwrite(s.commit, d));
      (s'.(rx := None), n > |BlockOf(s, b)|)
  }

  // ---------------------------------------------------------------------
  // The driver

  /** The driver instance: the alternate setting, the two control blocks in
      place, the stack's armed data stage, and a log of the stack calls made. */
  class UvcDevice {
    var altSet: nat
    const probe: array<byte>
    const commit: array<byte>
    var rx: Option<RxArm>
    ghost var log: seq<Effect>

    ghost predicate Valid()
      reads this
    {
      probe.Length == VIDEO_CONTROL_SIZE && commit.Length == VIDEO_CONTROL_SIZE
      && probe != commit
    }

    /** The driver's variables as a value. */
    function State(): DeviceState
      reads this, probe, commit
    {
      DeviceState(altSet, probe[..], commit[..], rx)
    }

    /** The static initialisers of usbd_video_AltSet and the two blocks. */
    constructor ()
      ensures Valid() && fresh(probe) && fresh(commit)
      ensures State() == InitialState() && log == []
    {
      var init := InitialBlock();
      InitialBlockDecodes();
      altSet := 0;
      var p := NewBlock(init);
      var c := NewBlock(init);
      probe := p;
      commit := c;
      rx := None;
      log := [];
    }

    /** A fresh block holding the bytes of init. */
    static method NewBlock(init: seq<byte>) returns (a: array<byte>)
      ensures fresh(a) && a[..] == init
    {
      a := new byte[|init|](i requires 0 <= i < |init| => init[i]);
    }

    /** USBD_UVC_Init: open the video endpoint as isochronous, then flush it. */
    method Init(cfgidx: byte) returns (status: Status)
      requires Valid()
      ensures Valid()
      modifies this`log
      ensures State() == old(State())
      ensures log == old(log) + InitEffects()
      ensures status == Ok
    {
      log := log + [OpenEp(EndpointIn(USB_UVC_ENDPOINT), Isoc, VIDEO_PACKET_SIZE)];
      log := log + [FlushEp(EndpointIn(USB_UVC_ENDPOINT))];
      status := Ok;
    }

    /** USBD_UVC_DeInit: close the video endpoint. */
    method DeInit(cfgidx: byte) returns (status: Status)
      requires Valid()
      ensures Valid()
      modifies this`log
      ensures State() == old(State())
      ensures log == old(log) + DeInitEffects()
      ensures status == Ok
    {
      log := log + [CloseEp(EndpointIn(USB_UVC_ENDPOINT))];
      status := Ok;
    }

    /** USBD_UVC_Setup. */
    method Setup(req: SetupRequest) returns (status: Status)
      requires Valid()
      ensures Valid()
      modifies this`altSet, this`rx, this`log
      ensures var o := SetupOutcome(old(State()), req);
        State() == o.state && log == old(log) + o.effects && status == o.status
    {
      rx := None;
      status := Ok;
      var t := RequestTypeBits(req.bmRequest);
      if t == USB_REQ_TYPE_CLASS {
        if req.bRequest == GET_CUR || req.bRequest == GET_DEF
           || req.bRequest == GET_MIN || req.bRequest == GET_MAX {
          GetCurrent(req);
        } else if req.bRequest == SET_CUR {
          SetCurrent(req);
        } else {
          log := log + [Stall];
          status := Fail;
        }
      } else if t == USB_REQ_TYPE_STANDARD {
        if req.bRequest == USB_REQ_GET_DESCRIPTOR {
          if HighByte(req.wValue) == CS_DEVICE {
            var len := Min(USB_VIDEO_DESC_SIZ, req.wLength);
            log := log + [Send(ClassDescView(), len)];
          } else {
            log := log + [SendUndefined];
          }
        } else if req.bRequest == USB_REQ_GET_INTERFACE {
          log := log + [Send(DBVal(altSet), 1)];
        } else if req.bRequest == USB_REQ_SET_INTERFACE {
          if LowByte(req.wValue) < VIDEO_TOTAL_IF_NUM {
            altSet := LowByte(req.wValue);
            if altSet != 1 {
              log := log + [FlushEp(EndpointIn(USB_UVC_ENDPOINT))];
            }
          } else {
            log := log + [Stall];
          }
        }
      }
    }

    /** UVC_REQ_GetCurrent. */
    method GetCurrent(req: SetupRequest)
      requires Valid()
      ensures Valid()
      modifies this`log
      ensures State() == old(State())
      ensures log == old(log) + GetCurrentEffects(old(State()), req)
    {
      log := log + [FlushEp(EndpointOut(0))];
      if req.wValue == PROBE_SELECTOR {
        log := log + [Send(probe[..], req.wLength)];
      } else if req.wValue == COMMIT_SELECTOR {
        log := log + [Send(commit[..], req.wLength)];
      } else {
        log := log + [Send(commit[..], req.wLength)];
      }
    }

    /** UVC_REQ_SetCurrent. */
    method SetCurrent(req: SetupRequest)
      requires Valid()
      ensures Valid()
      modifies this`rx, this`log
      ensures var o := SetCurrentOutcome(old(State()), req);
        State() == o.state && log == old(log) + o.effects
    {
      if req.wLength != 0 {
        var target;
        if req.wValue == PROBE_SELECTOR {
          target := Probe;
        } else if req.wValue == COMMIT_SELECTOR {
          target := Commit;
        } else {
          target := Commit;
        }
        rx := Some(RxArm(target, req.wLength));
        log := log + [PrepareRx(target, req.wLength)];
      }
    }

    /** The stack completing an armed data stage: the received bytes that fit
        land in the armed block in place. */
    method ReceiveData(data: seq<byte>) returns (overflow: bool)
      requires Valid()
      ensures Valid()
      modifies this`rx, probe, commit
      ensures (State(), overflow) == ReceiveOutcome(old(State()), data)
      ensures log == old(log)
    {
      if rx.None? {
        return false;
      }
      var n := Min(|data|, rx.value.len);
      if rx.value.target == Probe {
        WriteFront(probe, data[..n]);
        overflow := n > probe.Length;
      } else {
        WriteFront(commit, data[..n]);
        overflow := n > commit.Length;
      }
      rx := None;
    }

    /** The stack's copy of a data stage into a buffer: as many bytes as fit. */
    static method WriteFront(a: array<byte>, d: seq<byte>)
      modifies a
      ensures a[..] == Overwrite(old(a[..]), d)
    {
      var k := Min(|d|, a.Length);
      forall i | 0 <= i < k {
        a[i] := d[i];
      }
    }

    /** USBD_UVC_DataIn. */
    method DataIn(epnum: byte) returns (status: Status)
      ensures status == Ok
    {
      status := Ok;
    }

    /** USBD_UVC_DataOut. */
    method DataOut(epnum: byte) returns (status: Status)
      ensures status == Ok
    {
      status := Ok;
    }

    /** USBD_UVC_EP0_RxReady. */
    method EP0RxReady() returns (status: Status)
      ensures status == Ok
    {
      status := Ok;
    }

    /** USBD_UVC_EP0_TxReady. */
    method EP0TxReady() returns (status: Status)
      ensures status == Ok
    {
      status := Ok;
    }

    /** USBD_UVC_SOF. */
    method SOF() returns (status: Status)
      ensures status == Ok
    {
      status := Ok;
    }

    /** USBD_UVC_IsoINIncomplete. */
    method IsoInIncomplete(epnum: byte) returns (status: Status)
      ensures status == Ok
    {
      status := Ok;
    }

    /** USBD_UVC_IsoOutIncomplete. */
    method IsoOutIncomplete(epnum: byte) returns (status: Status)
      ensures status == Ok
    {
      status := Ok;
    }
  }
}
