# UVC camera class driver — a Dafny model

This project models the USB Video Class driver of an STM32 device stack for a
640x480 MJPEG camera. It covers:

- the setup-request dispatcher `USBD_UVC_Setup`, with `UVC_REQ_GetCurrent` and `UVC_REQ_SetCurrent`;
- the two 34-byte Video Probe and Commit control blocks (UVC 1.1 section 4.3.1.1) and the alternate setting `usbd_video_AltSet`;
- the endpoint lifecycle (`USBD_UVC_Init`, `USBD_UVC_DeInit`) and the data-path callbacks;
- the configuration and device-qualifier descriptors, the `WBVAL`/`DBVAL` byte splitters and the size, endpoint and interval macros of the header, in the isochronous build the header selects.

Modules:

- `UvcDefs` (`uvc_defs.dfy`): the header's macros and constants, and the setup-packet fields.
- `VideoControlLayout` (`video_control.dfy`): the `VideoControl` layout, its encoding and decoding, and the initial block.
- `UvcDescriptors` (`descriptors.dfy`): the descriptor tables as lists of sub-descriptors, the walk a host makes over them by `bLength`, and the two getters.
- `UvcClass` (`uvc_class.dfy`): the dispatcher as pure outcome functions (`SetupOutcome`, `ReceiveOutcome`) and the class `UvcDevice`. The class keeps `altSet`, the two blocks as arrays updated in place, and a ghost log of the calls made into the device stack; each request-handling method is proved to follow the outcome functions and to keep the class invariant `Valid()`.
- `UvcProperties` (`uvc_properties.dfy`): what the dispatcher promises, as lemmas over the outcome functions.

The calls into the device stack (`USBD_LL_OpenEP`, `USBD_LL_FlushEP`, `USBD_LL_CloseEP`, `USBD_CtlSendData`, `USBD_CtlPrepareRx`, `USBD_CtlError`) are recorded as `Effect` values, in order.

The three defects of the dispatcher are modelled as written and made visible as flagged outcomes:

- A send of more bytes than its buffer holds is `Send(buf, len)` with `len > |buf|` (`OverReads`). This affects `GET_*` with `wLength > 34`, and `GET_DESCRIPTOR` with `wLength > 141`.
- The send from an uninitialised pointer and length is `SendUndefined`.
- A data stage that runs past a block is flagged by `ReceiveOutcome`. The bytes past the block are not kept (see "## Left out").

The data stage armed by `USBD_CtlPrepareRx` belongs to the device stack, which is not part of this model. It is kept as the `rx` component of the state. A new setup request ends any control transfer still pending (section 8.5.3 of the USB 2.0 specification), so `SetupOutcome` first drops `rx` (`SetupStart`). A data stage is armed after a request exactly when the request is a `SET_CUR` with a data stage. `ReceiveData` stands for the stack completing that stage with the bytes the host sent: it takes at most the armed length and writes it over the start of the armed block.

Where the code departs from the conventions it implements:

- UVC 1.1 puts the control selector in the high byte of `wValue` (`VS_PROBE_CONTROL` 0x01 and `VS_COMMIT_CONTROL` 0x02, usbd_uvc.h:194-195). The code compares the whole `wValue` with 256 and 512, and the model follows the code. For example, `wValue` 0x0101 selects Commit (`SelectorIsWholeWValue`).
- A descriptor served to a host normally starts at a descriptor boundary. The offset 18 that `GET_DESCRIPTOR` serves from is not the start of any sub-descriptor of this table (`ClassDescOffsetIsNotABoundary`). The model keeps it as written.

## Model

| member | source | states |
|---|---|---|
| UvcDefs.WBVal | Middlewares/ST/STM32_USB_Device_Library/Class/UVC/Inc/usbd_uvc.h:270 | WBVAL yields two bytes whose little-endian value is x for every 16-bit x |
| UvcDefs.DBVal | Middlewares/ST/STM32_USB_Device_Library/Class/UVC/Inc/usbd_uvc.h:271 | DBVAL yields four bytes whose little-endian value is x for every 32-bit x |
| UvcDefs.WBValRoundTrip | Middlewares/ST/STM32_USB_Device_Library/Class/UVC/Inc/usbd_uvc.h:270 | splitting then recombining a 16-bit value gives it back, and every 2-byte field is the split of its value |
| UvcDefs.DBValRoundTrip | Middlewares/ST/STM32_USB_Device_Library/Class/UVC/Inc/usbd_uvc.h:271 | the same round trip in both directions for 32-bit values and 4-byte fields |
| UvcDefs.EndpointIn | Middlewares/ST/STM32_USB_Device_Library/Class/UVC/Inc/usbd_uvc.h:380-382 | USB_ENDPOINT_IN sets the direction bit and keeps the endpoint number |
| UvcDefs.EndpointOut | Middlewares/ST/STM32_USB_Device_Library/Class/UVC/Inc/usbd_uvc.h:381 | USB_ENDPOINT_OUT (an OR with 0) returns the address unchanged, so an OUT address keeps its number and its clear direction bit |
| UvcDefs.VideoEndpointIs0x81 | Middlewares/ST/STM32_USB_Device_Library/Class/UVC/Inc/usbd_uvc.h:273-382 | the streaming endpoint USB_ENDPOINT_IN(USB_UVC_ENDPOINT) is 0x81 |
| UvcDefs.ConfigPowerMa | Middlewares/ST/STM32_USB_Device_Library/Class/UVC/Inc/usbd_uvc.h:376 | USB_CONFIG_POWER_MA(mA) is mA/2 rounded down, so 500 mA encodes as 250 |
| UvcDefs.FrameInterval | Middlewares/ST/STM32_USB_Device_Library/Class/UVC/Inc/usbd_uvc.h:286-288 | the interval is the integer quotient of 10000000 by the frame rate, in 100 ns units |
| UvcDefs.FrameIntervalAntitone | Middlewares/ST/STM32_USB_Device_Library/Class/UVC/Inc/usbd_uvc.h:277-288 | a higher frame rate never gives a longer interval |
| UvcDefs.IntervalsOrdered | Middlewares/ST/STM32_USB_Device_Library/Class/UVC/Inc/usbd_uvc.h:277-288 | MAX_INTERVAL <= INTERVAL <= MIN_INTERVAL (333333, 416666, 666666), and MAX_FRAME_SIZE is 614400 |
| UvcDefs.ClassBlockSizes | Middlewares/ST/STM32_USB_Device_Library/Class/UVC/Inc/usbd_uvc.h:296-297 | VC_TERMINAL_SIZ is 13+17+9 = 39 and VC_HEADER_SIZ is 14+11+38+6 = 69 |
| UvcDefs.RequestTypeBits | Middlewares/ST/STM32_USB_Device_Library/Class/UVC/Src/usbd_uvc.c:500 | bmRequest & USB_REQ_TYPE_MASK is bits 6..5 of bmRequest, that is (bmRequest / 32) mod 4 times 32, and no other bit |
| UvcDefs.RequestTypeClassifies | Middlewares/ST/STM32_USB_Device_Library/Class/UVC/Src/usbd_uvc.c:500 | the type bits ignore direction and recipient; 0x00, 0x01, 0x80, 0x81 are standard, 0x21, 0xA1 class, 0x40, 0xC0 vendor (table 9-2 of the USB 2.0 specification) |
| UvcDefs.HighByte | Middlewares/ST/STM32_USB_Device_Library/Class/UVC/Src/usbd_uvc.c:544 | wValue >> 8 is the quotient of wValue by 256 |
| UvcDefs.LowByte | Middlewares/ST/STM32_USB_Device_Library/Class/UVC/Src/usbd_uvc.c:564 | (uint8_t)wValue and wValue >> 8 split wValue into its two bytes |
| VideoControlLayout.FieldEndOffsets | Middlewares/ST/STM32_USB_Device_Library/Class/UVC/Inc/usbd_uvc.h:249-266 | the field end offsets are 2, 3, 4, 8, 10, ..., 22, 26, 30, 31, 32, 33, 34, with 26 ending the UVC 1.0 part |
| VideoControlLayout.FieldSpan | Middlewares/ST/STM32_USB_Device_Library/Class/UVC/Inc/usbd_uvc.h:249-266 | the start offset of each field is the sum of the widths before it: 0, 2, 3, 4, 8, ..., 30, 31, 32, 33 |
| VideoControlLayout.EncodeFieldSlices | Middlewares/ST/STM32_USB_Device_Library/Class/UVC/Inc/usbd_uvc.h:249-266 | the wire image holds each of the sixteen fields, little-endian, in declaration order |
| VideoControlLayout.EncodeFieldAtStart | Middlewares/ST/STM32_USB_Device_Library/Class/UVC/Inc/usbd_uvc.h:249-266 | every field k sits at its start offset, in its own width |
| VideoControlLayout.DecodeFieldAtStart | Middlewares/ST/STM32_USB_Device_Library/Class/UVC/Inc/usbd_uvc.h:249-266 | decoding reads every field k from its start offset, in its own width |
| VideoControlLayout.EncodePlacesFieldsAtOffsets | Middlewares/ST/STM32_USB_Device_Library/Class/UVC/Inc/usbd_uvc.h:249-266 | for every parameter set and field k, the bytes from FieldEnd(k) minus the width of k up to FieldEnd(k) are that field's little-endian image |
| VideoControlLayout.DecodeReadsFieldsAtOffsets | Middlewares/ST/STM32_USB_Device_Library/Class/UVC/Inc/usbd_uvc.h:249-266 | for every 34-byte block and field k, the decoded field k is the little-endian value of the bytes at those same offsets |
| VideoControlLayout.InitialBlock | Middlewares/ST/STM32_USB_Device_Library/Class/UVC/Src/usbd_uvc.c:355-393 | the initialiser of both blocks is 34 bytes |
| VideoControlLayout.Encode | Middlewares/ST/STM32_USB_Device_Library/Class/UVC/Inc/usbd_uvc.h:248-266 | a block is 34 bytes and its first 26 bytes are the UVC 1.0 fields |
| VideoControlLayout.DecodeEncode | Middlewares/ST/STM32_USB_Device_Library/Class/UVC/Inc/usbd_uvc.h:249-266 | every field survives encoding then decoding |
| VideoControlLayout.EncodeDecode | Middlewares/ST/STM32_USB_Device_Library/Class/UVC/Inc/usbd_uvc.h:249-266 | every 34-byte block is the encoding of the fields decoded from it |
| VideoControlLayout.Uvc10PrefixDependsOnUvc10Fields | Middlewares/ST/STM32_USB_Device_Library/Class/UVC/Inc/usbd_uvc.h:248 | two blocks agree on their first 26 bytes iff they agree on the first eleven fields |
| VideoControlLayout.InitialBlockDecodes | Middlewares/ST/STM32_USB_Device_Library/Class/UVC/Src/usbd_uvc.c:355-393 | each initial block is 34 bytes: format 1, frame 1, the default interval, the largest frame, 512-byte payloads, a 48 MHz clock |
| UvcDescriptors.ConfigurationDesc | Middlewares/ST/STM32_USB_Device_Library/Class/UVC/Src/usbd_uvc.c:173-185 | the configuration descriptor is 9 bytes and its bLength is its own size |
| UvcDescriptors.InterfaceAssociationDesc | Middlewares/ST/STM32_USB_Device_Library/Class/UVC/Src/usbd_uvc.c:187-195 | the interface association descriptor is 8 bytes and its bLength is its own size |
| UvcDescriptors.VcInterfaceDesc | Middlewares/ST/STM32_USB_Device_Library/Class/UVC/Src/usbd_uvc.c:200-209 | the standard VideoControl interface descriptor is 9 bytes and its bLength is its own size |
| UvcDescriptors.VcHeaderDesc | Middlewares/ST/STM32_USB_Device_Library/Class/UVC/Src/usbd_uvc.c:212-220 | the class-specific VideoControl header is 13 bytes and its bLength is its own size |
| UvcDescriptors.CameraTerminalDesc | Middlewares/ST/STM32_USB_Device_Library/Class/UVC/Src/usbd_uvc.c:223-235 | the camera input terminal is 17 bytes and its bLength is its own size |
| UvcDescriptors.OutputTerminalDesc | Middlewares/ST/STM32_USB_Device_Library/Class/UVC/Src/usbd_uvc.c:237-245 | the output terminal is 9 bytes and its bLength is its own size |
| UvcDescriptors.VsInterfaceAlt0Desc | Middlewares/ST/STM32_USB_Device_Library/Class/UVC/Src/usbd_uvc.c:250-266 | the VideoStreaming interface, alternate setting 0, with bNumEndpoints 0 in the isochronous build is 9 bytes and its bLength is its own size |
| UvcDescriptors.VsInputHeaderDesc | Middlewares/ST/STM32_USB_Device_Library/Class/UVC/Src/usbd_uvc.c:278-291 | the VideoStreaming input header is 14 bytes and its bLength is its own size |
| UvcDescriptors.MjpegFormatDesc | Middlewares/ST/STM32_USB_Device_Library/Class/UVC/Src/usbd_uvc.c:293-304 | the MJPEG format descriptor is 11 bytes and its bLength is its own size |
| UvcDescriptors.MjpegFrameDesc | Middlewares/ST/STM32_USB_Device_Library/Class/UVC/Src/usbd_uvc.c:306-321 | the MJPEG frame descriptor is 38 bytes and its bLength is its own size |
| UvcDescriptors.ColorMatchingDesc | Middlewares/ST/STM32_USB_Device_Library/Class/UVC/Src/usbd_uvc.c:323-330 | the colour matching descriptor is 6 bytes and its bLength is its own size |
| UvcDescriptors.VsInterfaceAlt1Desc | Middlewares/ST/STM32_USB_Device_Library/Class/UVC/Src/usbd_uvc.c:331-342 | the VideoStreaming interface, alternate setting 1 is 9 bytes and its bLength is its own size |
| UvcDescriptors.IsocEndpointDesc | Middlewares/ST/STM32_USB_Device_Library/Class/UVC/Src/usbd_uvc.c:344-350 | the isochronous endpoint descriptor is 7 bytes and its bLength is its own size |
| UvcDescriptors.CfgDesc | Middlewares/ST/STM32_USB_Device_Library/Class/UVC/Src/usbd_uvc.c:169-352 | the table is the thirteen sub-descriptors in order, USB_VIDEO_DESC_SIZ (159) bytes long |
| UvcDescriptors.DeviceQualifierDesc | Middlewares/ST/STM32_USB_Device_Library/Class/UVC/Src/usbd_uvc.c:156-167 | the qualifier table is USB_LEN_DEV_QUALIFIER_DESC (10) bytes and its bLength is its own size |
| UvcDescriptors.PartSizes | Middlewares/ST/STM32_USB_Device_Library/Class/UVC/Src/usbd_uvc.c:171-352 | the sizes of the thirteen sub-descriptors are 9, 8, 9, 13, 17, 9, 9, 14, 11, 38, 6, 9, 7 |
| UvcDescriptors.CfgDescTailSizes | Middlewares/ST/STM32_USB_Device_Library/Class/UVC/Src/usbd_uvc.c:171-352 | the partial sums of the sub-descriptor sizes, ending at 159 |
| UvcDescriptors.CfgDescPartsWellFormed | Middlewares/ST/STM32_USB_Device_Library/Class/UVC/Src/usbd_uvc.c:171-352 | each sub-descriptor's bLength is its own size |
| UvcDescriptors.CfgDescWellFormed | Middlewares/ST/STM32_USB_Device_Library/Class/UVC/Src/usbd_uvc.c:169-352 | the table is 159 bytes long and its bLength fields sum to USB_VIDEO_DESC_SIZ (159) |
| UvcDescriptors.WalkBetween | Middlewares/ST/STM32_USB_Device_Library/Class/UVC/Src/usbd_uvc.c:171-352 | walking by bLength across well-formed sub-descriptors steps from the offset of the first to the offset after the last |
| UvcDescriptors.WalkWhole | Middlewares/ST/STM32_USB_Device_Library/Class/UVC/Src/usbd_uvc.c:171-352 | a walk over a whole well-formed table ends exactly at its end |
| UvcDescriptors.BLengthsOfWellFormed | Middlewares/ST/STM32_USB_Device_Library/Class/UVC/Src/usbd_uvc.c:171-352 | for well-formed sub-descriptors the sum of the bLength fields equals the table size |
| UvcDescriptors.ByteAt | Middlewares/ST/STM32_USB_Device_Library/Class/UVC/Src/usbd_uvc.c:171-352 | byte k of sub-descriptor i sits at that sub-descriptor's offset plus k in the table |
| UvcDescriptors.ConfigHeaderOf | Middlewares/ST/STM32_USB_Device_Library/Class/UVC/Src/usbd_uvc.c:173-185 | a table that starts with the configuration descriptor declares wTotalLength 159 |
| UvcDescriptors.CfgDescWalkEndsAtTotalLength | Middlewares/ST/STM32_USB_Device_Library/Class/UVC/Src/usbd_uvc.c:169-352 | walking the configuration descriptor by bLength ends exactly at byte 159, which equals the encoded wTotalLength |
| UvcDescriptors.CfgDescHeaderFields | Middlewares/ST/STM32_USB_Device_Library/Class/UVC/Src/usbd_uvc.c:173-195 | the configuration and association descriptors announce two interfaces, 250 x 2 mA, and a video interface collection |
| UvcDescriptors.ClassBlockTotalsMatch | Middlewares/ST/STM32_USB_Device_Library/Class/UVC/Src/usbd_uvc.c:212-330 | the wTotalLength of the class-specific VC header (39) and of the VS input header (69) equal the sizes of the descriptors they cover |
| UvcDescriptors.StreamingEndpointFields | Middlewares/ST/STM32_USB_Device_Library/Class/UVC/Src/usbd_uvc.c:278-350 | the streaming endpoint is 0x81, isochronous and asynchronous, with 512-byte packets, and the input header names the same endpoint |
| UvcDescriptors.FrameDescFields | Middlewares/ST/STM32_USB_Device_Library/Class/UVC/Src/usbd_uvc.c:306-321 | the frame descriptor gives 640x480, the largest frame size, and the default interval |
| UvcDescriptors.ClassDescOffsetIsNotABoundary | Middlewares/ST/STM32_USB_Device_Library/Class/UVC/Src/usbd_uvc.c:549 | the sub-descriptors start at 0, 9, 17, 26, ...; offset 18, where GET_DESCRIPTOR serves from, is none of them |
| UvcDescriptors.GetCfgDesc | Middlewares/ST/STM32_USB_Device_Library/Class/UVC/Src/usbd_uvc.c:762-767 | the getter returns the table with length 159, whose bLength walk ends at that length, equal to wTotalLength |
| UvcDescriptors.GetDeviceQualifierDesc | Middlewares/ST/STM32_USB_Device_Library/Class/UVC/Src/usbd_uvc.c:748-753 | the qualifier is 10 bytes, walks to its end, is of type 6, and gives bcdUSB 2.00 |
| UvcClass.InitialState | Middlewares/ST/STM32_USB_Device_Library/Class/UVC/Src/usbd_uvc.c:355-424 | at reset altSet is 0, Probe and Commit hold the same bytes, and nothing is armed |
| UvcClass.SelectBlock | Middlewares/ST/STM32_USB_Device_Library/Class/UVC/Src/usbd_uvc.c:692-739 | the whole wValue selects Probe exactly when it is 256; every other value selects Commit |
| UvcClass.GetCurrentEffects | Middlewares/ST/STM32_USB_Device_Library/Class/UVC/Src/usbd_uvc.c:692-708 | UVC_REQ_GetCurrent issues two calls, the second a send of exactly wLength bytes from Probe or Commit |
| UvcClass.SetCurrentOutcome | Middlewares/ST/STM32_USB_Device_Library/Class/UVC/Src/usbd_uvc.c:717-739 | UVC_REQ_SetCurrent returns OK, changes neither altSet nor a block, and issues a call exactly when wLength is not 0 |
| UvcClass.ClassOutcome | Middlewares/ST/STM32_USB_Device_Library/Class/UVC/Src/usbd_uvc.c:502-534 | the class branch fails exactly on a code other than GET_CUR, GET_DEF, GET_MIN, GET_MAX and SET_CUR |
| UvcClass.DescriptorEffect | Middlewares/ST/STM32_USB_Device_Library/Class/UVC/Src/usbd_uvc.c:542-555 | GET_DESCRIPTOR sends only for type CS_DEVICE, never more than 159 or wLength bytes |
| UvcClass.StandardOutcome | Middlewares/ST/STM32_USB_Device_Library/Class/UVC/Src/usbd_uvc.c:538-587 | the standard branch always returns OK, issues at most one call, and arms no data stage |
| UvcClass.SetupStart | Middlewares/ST/STM32_USB_Device_Library/Class/UVC/Src/usbd_uvc.c:493-499 | the state in which the stack enters USBD_UVC_Setup: no data stage pending, altSet and both blocks as they were |
| UvcClass.SetupOutcome | Middlewares/ST/STM32_USB_Device_Library/Class/UVC/Src/usbd_uvc.c:493-590 | USBD_UVC_Setup fails only after a single stall |
| UvcClass.ReceiveOutcome | Middlewares/ST/STM32_USB_Device_Library/Class/UVC/Src/usbd_uvc.c:727-734 | the data stage disarms, keeps altSet and both block sizes, and without an armed stage changes nothing |
| UvcClass.ClassDescView | Middlewares/ST/STM32_USB_Device_Library/Class/UVC/Src/usbd_uvc.c:549 | the view GET_DESCRIPTOR sends from holds only 159 - 18 = 141 bytes |
| UvcClass.Overwrite | Middlewares/ST/STM32_USB_Device_Library/Class/UVC/Src/usbd_uvc.c:727-734 | a data stage writes its bytes over the start of the block and keeps the block's size |
| UvcClass.UvcDevice.constructor | Middlewares/ST/STM32_USB_Device_Library/Class/UVC/Src/usbd_uvc.c:355-424 | the device starts in the initial state: altSet 0, both blocks holding the initial bytes |
| UvcClass.UvcDevice.Init | Middlewares/ST/STM32_USB_Device_Library/Class/UVC/Src/usbd_uvc.c:441-466 | Init opens endpoint 0x81 as isochronous with 512-byte packets, then flushes it; it changes no field and returns USBD_OK |
| UvcClass.UvcDevice.DeInit | Middlewares/ST/STM32_USB_Device_Library/Class/UVC/Src/usbd_uvc.c:475-484 | DeInit closes endpoint 0x81, changes no field and returns USBD_OK |
| UvcClass.UvcDevice.Setup | Middlewares/ST/STM32_USB_Device_Library/Class/UVC/Src/usbd_uvc.c:493-590 | it first drops any pending data stage; the new state, the effects logged and the status are those of SetupOutcome |
| UvcClass.UvcDevice.GetCurrent | Middlewares/ST/STM32_USB_Device_Library/Class/UVC/Src/usbd_uvc.c:692-708 | it logs the GET_CUR effects and changes no field |
| UvcClass.UvcDevice.SetCurrent | Middlewares/ST/STM32_USB_Device_Library/Class/UVC/Src/usbd_uvc.c:717-739 | it arms the data stage and logs the effect, as SetCurrentOutcome says |
| UvcClass.UvcDevice.ReceiveData | Middlewares/ST/STM32_USB_Device_Library/Class/UVC/Src/usbd_uvc.c:727-734 | the received bytes that fit land in place in the armed block, which is then disarmed, as ReceiveOutcome says |
| UvcClass.UvcDevice.DataIn | Middlewares/ST/STM32_USB_Device_Library/Class/UVC/Src/usbd_uvc.c:600-606 | the callback returns USBD_OK |
| UvcClass.UvcDevice.EP0RxReady | Middlewares/ST/STM32_USB_Device_Library/Class/UVC/Src/usbd_uvc.c:614-622 | the callback returns USBD_OK |
| UvcClass.UvcDevice.EP0TxReady | Middlewares/ST/STM32_USB_Device_Library/Class/UVC/Src/usbd_uvc.c:629-634 | the callback returns USBD_OK |
| UvcClass.UvcDevice.SOF | Middlewares/ST/STM32_USB_Device_Library/Class/UVC/Src/usbd_uvc.c:641-645 | the callback returns USBD_OK |
| UvcClass.UvcDevice.IsoInIncomplete | Middlewares/ST/STM32_USB_Device_Library/Class/UVC/Src/usbd_uvc.c:654-658 | the callback returns USBD_OK |
| UvcClass.UvcDevice.IsoOutIncomplete | Middlewares/ST/STM32_USB_Device_Library/Class/UVC/Src/usbd_uvc.c:666-670 | the callback returns USBD_OK |
| UvcClass.UvcDevice.DataOut | Middlewares/ST/STM32_USB_Device_Library/Class/UVC/Src/usbd_uvc.c:678-683 | the callback returns USBD_OK |
| UvcProperties.SelectorSameForReadsAndWrites | Middlewares/ST/STM32_USB_Device_Library/Class/UVC/Src/usbd_uvc.c:692-739 | reads and writes resolve wValue alike: 256 is Probe, 512 and every other value Commit; GET_CUR reads the block SET_CUR arms |
| UvcProperties.SelectorIsWholeWValue | Middlewares/ST/STM32_USB_Device_Library/Class/UVC/Src/usbd_uvc.c:696 | the whole wValue is compared, so a high byte of 1 with a non-zero low byte selects Commit |
| UvcProperties.GetCurEffects | Middlewares/ST/STM32_USB_Device_Library/Class/UVC/Src/usbd_uvc.c:493-708 | GET_CUR keeps altSet and both blocks, flushes EP 0x00, then sends exactly wLength bytes of the selected block, over-reading iff wLength > 34 |
| UvcProperties.GetAliasesAreGetCur | Middlewares/ST/STM32_USB_Device_Library/Class/UVC/Src/usbd_uvc.c:510-521 | GET_DEF, GET_MIN and GET_MAX have exactly the outcome of GET_CUR |
| UvcProperties.SetCurZeroLengthDoesNothing | Middlewares/ST/STM32_USB_Device_Library/Class/UVC/Src/usbd_uvc.c:719 | SET_CUR with wLength 0 issues no call and arms no data stage |
| UvcProperties.SetCurArmsOneReceive | Middlewares/ST/STM32_USB_Device_Library/Class/UVC/Src/usbd_uvc.c:719-738 | SET_CUR with wLength > 0 arms exactly one receive of wLength bytes into the selected block and changes nothing else |
| UvcProperties.ReceiveWritesArmedBlock | Middlewares/ST/STM32_USB_Device_Library/Class/UVC/Src/usbd_uvc.c:727-734 | the data stage writes its first min(sent, wLength) bytes over the armed block and flags a run past it; the other block is kept when the stage fits |
| UvcProperties.ReceiveUnarmedIgnored | Middlewares/ST/STM32_USB_Device_Library/Class/UVC/Src/usbd_uvc.c:719 | without an armed data stage, received bytes change nothing |
| UvcProperties.SetThenGetReadsBack | Middlewares/ST/STM32_USB_Device_Library/Class/UVC/Src/usbd_uvc.c:692-739 | SET_CUR with d, then GET_CUR with the same selector, sends a block that starts with d; the other block is unchanged |
| UvcProperties.SetThenGetDecodes | Middlewares/ST/STM32_USB_Device_Library/Class/UVC/Src/usbd_uvc.c:692-739 | writing the encoding of a parameter set with SET_CUR and reading the same block with GET_CUR decodes to the same parameters |
| UvcProperties.SetCurOverflowFlagged | Middlewares/ST/STM32_USB_Device_Library/Class/UVC/Src/usbd_uvc.c:719-738 | a data stage of wLength bytes overruns the block exactly when wLength > 34 |
| UvcProperties.UnknownClassRequestStalls | Middlewares/ST/STM32_USB_Device_Library/Class/UVC/Src/usbd_uvc.c:528-532 | any other class request code stalls once, returns USBD_FAIL and keeps altSet and both blocks |
| UvcProperties.FailsExactlyOnUnknownClassRequests | Middlewares/ST/STM32_USB_Device_Library/Class/UVC/Src/usbd_uvc.c:500-589 | the dispatcher returns USBD_FAIL iff the request is a class request with an unknown code |
| UvcProperties.UnsupportedUvcCodes | Middlewares/ST/STM32_USB_Device_Library/Class/UVC/Inc/usbd_uvc.h:106-114 | GET_RES, GET_LEN, GET_INFO and RC_UNDEFINED are not among the answered codes |
| UvcProperties.SetInterfaceValid | Middlewares/ST/STM32_USB_Device_Library/Class/UVC/Src/usbd_uvc.c:562-579 | SET_INTERFACE with a low byte < 2 sets altSet to it and flushes 0x81 iff the new value is not 1 |
| UvcProperties.SetInterfaceInvalid | Middlewares/ST/STM32_USB_Device_Library/Class/UVC/Src/usbd_uvc.c:580-589 | SET_INTERFACE with a low byte >= 2 stalls, keeps altSet and both blocks, and still returns USBD_OK |
| UvcProperties.EnableThenDisable | Middlewares/ST/STM32_USB_Device_Library/Class/UVC/Src/usbd_uvc.c:562-579 | SET_INTERFACE 1 then 0 ends at altSet 0 with a single flush, on the way down |
| UvcProperties.GetInterfaceSendsAltSet | Middlewares/ST/STM32_USB_Device_Library/Class/UVC/Src/usbd_uvc.c:557-560 | GET_INTERFACE sends exactly one byte, equal to altSet, without over-reading |
| UvcProperties.GetDescriptorClassView | Middlewares/ST/STM32_USB_Device_Library/Class/UVC/Src/usbd_uvc.c:542-555 | GET_DESCRIPTOR of type CS_DEVICE sends min(159, wLength) bytes from offset 18 of the table, over-reading iff wLength > 141 |
| UvcProperties.ClassDescViewBytes | Middlewares/ST/STM32_USB_Device_Library/Class/UVC/Src/usbd_uvc.c:549 | the view's bytes are the configuration descriptor's from offset 18 on |
| UvcProperties.GetDescriptorOtherType | Middlewares/ST/STM32_USB_Device_Library/Class/UVC/Src/usbd_uvc.c:544-554 | GET_DESCRIPTOR of any other type sends from the uninitialised pointer and length |
| UvcProperties.IgnoresIndexAndRecipient | Middlewares/ST/STM32_USB_Device_Library/Class/UVC/Src/usbd_uvc.c:500 | the outcome depends neither on wIndex nor on the direction and recipient bits |
| UvcProperties.VendorRequestsIgnored | Middlewares/ST/STM32_USB_Device_Library/Class/UVC/Src/usbd_uvc.c:500-589 | vendor and reserved requests issue no call and return USBD_OK |
| UvcProperties.SetupNeverWritesBlocks | Middlewares/ST/STM32_USB_Device_Library/Class/UVC/Src/usbd_uvc.c:493-590 | no setup request writes Probe or Commit; only a data stage does |
| UvcProperties.SetupChangesOnlyWhatItHandles | Middlewares/ST/STM32_USB_Device_Library/Class/UVC/Src/usbd_uvc.c:493-739 | altSet changes only by a valid SET_INTERFACE, and a data stage is armed afterwards exactly when the request is SET_CUR with one |
| UvcProperties.NewSetupCancelsPendingStage | Middlewares/ST/STM32_USB_Device_Library/Class/UVC/Src/usbd_uvc.c:493-739 | after any request other than SET_CUR with a data stage, nothing is armed and later bytes change nothing |
| UvcProperties.InitialStateProperties | Middlewares/ST/STM32_USB_Device_Library/Class/UVC/Src/usbd_uvc.c:355-424 | altSet starts at 0; Probe and Commit start byte-identical, with the default parameters |
| UvcProperties.SetupPreservesInv | Middlewares/ST/STM32_USB_Device_Library/Class/UVC/Src/usbd_uvc.c:493-590 | every request keeps altSet < VIDEO_TOTAL_IF_NUM, both blocks 34 bytes, and any armed length positive |
| UvcProperties.ReceivePreservesInv | Middlewares/ST/STM32_USB_Device_Library/Class/UVC/Src/usbd_uvc.c:727-734 | every data stage keeps the same invariant |
| UvcProperties.RunSetupsPreservesInv | Middlewares/ST/STM32_USB_Device_Library/Class/UVC/Src/usbd_uvc.c:493-590 | any sequence of requests keeps the invariant and leaves both blocks as they were |
| UvcProperties.LifecycleUsesVideoEndpoint | Middlewares/ST/STM32_USB_Device_Library/Class/UVC/Src/usbd_uvc.c:441-484 | Init is open 0x81 isochronous 512 then flush 0x81; DeInit is close 0x81 |

## Left out

- `DumpHex` and every `printf`: debug console output with no effect on the protocol.
- The device stack behind `USBD_LL_*` and `USBD_Ctl*` is not part of this model. Its calls are recorded effects. The armed data stage is the `rx` state, and its completion is `ReceiveData`. Packetisation over EP0, NAK timing and the status stage are not modelled.
- The values of `USB_REQ_TYPE_MASK`, the standard request codes, `USB_LEN_DEV_QUALIFIER_DESC` and `USB_DESC_TYPE_DEVICE_QUALIFIER` come from the stack's `usbd_def.h`, which is not part of this model. They are taken from sections 9.3 and 9.4 of the USB 2.0 specification.
- The bulk-endpoint build (`#ifndef VIDEO_USES_ISOC_EP`): the header fixes the isochronous build.
- The `USB_OTG_HS_INTERNAL_DMA_ENABLED` branch of `GET_DESCRIPTOR`: it names a buffer that is not defined anywhere.
- The interface template files `usbd_uvc_if_template.c/.h`: stubs that return 0, with a type defined outside the shown files.
- Alignment attributes and struct padding: blocks are modelled as their 34 bytes.
- Comments that contradict their values ("EP 3 IN 0x83", "bLength 27") and the stale file header: the model follows the values.
- The width of `usbd_video_AltSet` (32 bits): it only ever holds a value below 2, so `altSet` is unbounded and `GET_INTERFACE` sends its lowest byte.
- Concurrency between the interrupt-driven callbacks and the application is not modelled: each callback runs to completion.
- UvcClass.UvcDevice.DataIn, DataOut, EP0RxReady, EP0TxReady, SOF, IsoInIncomplete and IsoOutIncomplete: each only prints and returns USBD_OK, so their contracts state only the status.
- UvcClass.UvcDevice.ReceiveData: a data stage longer than the 34-byte block keeps only the bytes that fall inside the block. The driver arms `USBD_CtlPrepareRx` with the host's `wLength`, so the stack writes the rest past the block's 34 bytes: first into the alignment padding of `videoProbeControl` or `videoCommitControl` (`__attribute__((aligned))`, usbd_uvc.h:266), then beyond the variable; that is undefined behaviour and may reach the adjacent variable. The model flags the case and makes no claim about the other block then (`ReceiveWritesArmedBlock`).
- UvcClass.SetupStart: the cancelling of a pending data stage by a new setup request is done by the device stack, not by this driver; the model states it as the stack's behaviour the driver relies on.
