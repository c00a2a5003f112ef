# Conversational AI embedded kit — verified model of the core

This project models, in Dafny, the parts of the Volcano Engine conversational-AI embedded SDK that hold its state and its decisions:

- **Ring buffer** (`RingBuf`, `ringbuf.dfy`). The circular byte buffer of the macOS demo. An array of `size + 1` bytes with a `head` write cursor and a `tail` read cursor. Writes and reads can split at the end of the array. `Contents()` is the byte queue from `tail` to `head`.
- **Session engine** (`ConvAi`, `conv_ai.dfy`). `volc_create` provisions the device and builds the backends. `volc_start` / `volc_stop` move `status` between CREATED, STARTED and STOPPED. The send calls are guarded by status and routed by `mode`. Inbound data is dispatched on its frame type, and transport messages become user events or engine-field updates. The RTC and WebSocket backends are recorded as a sequence of `TransportCall`s, with their int answers passed in as `reply`.
- **Provisioning** (`DeviceManager`, `device_manager.dfy`). The signed `key=value` strings, the mapping of internal to public error codes, and the request bodies and response checks of dynamic registration and of the RTC-config request.
- **Inbound control messages** (`MessageDemux`, `message_demux.dfy`). The high-quality ESP32 kit's message callback: a `tag(4) | length(4) | JSON` frame is copied into a static 4096-byte buffer, NUL-terminated and parsed. A `subv` frame yields subtitle lines.
- Shared vocabulary: `Common` (options, bytes, C integer conversions, `printf` decimals, `memcpy`) and `Json` (the cJSON tree and the lookups the core uses, including cJSON's ASCII case-insensitive key match).

Foreign code is passed in as functions of a `Foreign` value: HMAC-SHA256 with base64, AES decoding, the HTTP POST, and cJSON parsing and printing. The clock reading is a `nowMs` parameter.

## Model

| member | source | states |
|---|---|---|
| RingBuf.RingBuffer.Capacity | examples/low_load_solution/macos/util/volc_ringbuf.c:6 | the usable capacity is the array size less the one spare byte, and is at least 1 |
| RingBuf.RingBuffer.DataSize | examples/low_load_solution/macos/util/volc_ringbuf.c:26-29 | `(head + size - tail) % size` is the length of the queued contents and never exceeds the capacity |
| RingBuf.RingBuffer.FreeSize | examples/low_load_solution/macos/util/volc_ringbuf.c:31-34 | free space plus queued bytes always equals the capacity |
| RingBuf.RingBuffer.constructor | examples/low_load_solution/macos/util/volc_ringbuf.c:36-42 | `Init` gives an array of requested + 1 bytes, head = tail = 0, nothing queued |
| RingBuf.RingBuffer.StoreAtHead | examples/low_load_solution/macos/util/volc_ringbuf.c:96-104 | the two-segment copy puts byte k at `(head + k) % size` and changes no other slot |
| RingBuf.RingBuffer.WriteInternal | examples/low_load_solution/macos/util/volc_ringbuf.c:91-111 | returns n; with WRITE the bytes land at head onward, splitting at the end; with SYNC head advances by n mod size; with both the queue gains exactly `src[..n]`; tail never moves |
| RingBuf.RingBuffer.FetchAtTail | examples/low_load_solution/macos/util/volc_ringbuf.c:74-82 | the two-segment copy out puts slot `(tail + k) % size` at `dst[k]` and leaves the rest of `dst` alone |
| RingBuf.RingBuffer.ReadInternal | examples/low_load_solution/macos/util/volc_ringbuf.c:69-89 | returns n; with READ `dst[..n]` holds the n oldest queued bytes in FIFO order across the wrap; with SYNC they leave the queue; head and storage never change |
| RingBuf.RingBuffer.Write | examples/low_load_solution/macos/util/volc_ringbuf.c:175-178 | more than the free space gives -1 and changes no cursor and no byte; otherwise returns writelen, head advances mod size, tail stays, and the queue is old contents + src |
| RingBuf.RingBuffer.Read | examples/low_load_solution/macos/util/volc_ringbuf.c:180-183 | more than the queued data gives -1 and changes nothing; otherwise the oldest readlen bytes are returned in order and dropped from the queue, with only tail moving |
| RingBuf.RingBuffer.Peek | examples/low_load_solution/macos/util/volc_ringbuf.c:170-173 | the same bytes and result a read would give, with head, tail and the queue unchanged |
| RingBuf.RingBuffer.Clear | examples/low_load_solution/macos/util/volc_ringbuf.c:151-156 | head = tail = 0, nothing queued, free size back to capacity, storage untouched |
| RingBuf.Create | examples/low_load_solution/macos/util/volc_ringbuf.c:113-123 | NULL exactly when size ≤ 0; otherwise an empty buffer of internal size size + 1 and capacity size |
| RingBuf.WriteThenReadAll | examples/low_load_solution/macos/util/volc_ringbuf.c:142-149 | a write that fits, followed by a read of everything queued, gives back the earlier contents and then the written bytes, and leaves the buffer empty |
| RingBuf.QueuedAt | examples/low_load_solution/macos/util/volc_ringbuf.c:26-29 | the queue's length is the data-size formula, and its i-th byte sits at slot `(tail + i) % size` |
| RingBuf.AppendContents | examples/low_load_solution/macos/util/volc_ringbuf.c:95-108 | storing s at head and advancing head by \|s\| appends s to the queue |
| RingBuf.DropQueued | examples/low_load_solution/macos/util/volc_ringbuf.c:73-86 | advancing tail by n drops exactly the first n queued bytes |
| ConvAi.RouteOf | volc_conv_ai/src/volc_conv_ai.c:333-348 | a call reaches a backend exactly when the mode names the backend that was built; UNKNOWN mode reaches none |
| ConvAi.RunStaysLive | volc_conv_ai/src/volc_conv_ai.c:28-37 | from CREATED, no sequence of starts, stops and other calls reaches NONE, UNJOINED, DESTROYED or ERROR |
| ConvAi.StartStopCycle | volc_conv_ai/src/volc_conv_ai.c:327-331 | a second start is refused, stop then start re-enters STARTED, stop from CREATED does nothing, and start succeeds exactly from CREATED or STOPPED |
| ConvAi.ConfigIotParse | volc_conv_ai/src/volc_conv_ai.c:183-192 | succeeds exactly when all four of instance_id, product_key, product_secret and device_name are strings, and then carries exactly those |
| ConvAi.BackendCreations | volc_conv_ai/src/volc_conv_ai.c:255-271 | an RTC build creates its backend, with the registered app id, only when there is an `rtc` block; a WS build always creates its backend; no build creates two |
| ConvAi.Engine.constructor | volc_conv_ai/src/volc_conv_ai.c:231-234 | a zeroed engine with mode UNKNOWN and status CREATED |
| ConvAi.Create | volc_conv_ai/src/volc_conv_ai.c:216-283 | a NULL argument gives FAILED; a missing `iot` block (or unparsable JSON) gives 0 with no engine; an iot parse failure gives -1 and a registration failure its code, both with no engine; on success a fresh CREATED engine holds the identity, the registered secret and app id, and the backend creations |
| ConvAi.Destroy | volc_conv_ai/src/volc_conv_ai.c:285-313 | only the backend the current mode names is destroyed; only the call record changes, so status, mode, identity, key-frame flag and bitrate stay as they were |
| ConvAi.Start | volc_conv_ai/src/volc_conv_ai.c:315-353 | -1 with status, mode and calls unchanged for a NULL engine or option, a NULL or empty bot id, or a status other than CREATED/STOPPED; otherwise mode := opt.mode, status := STARTED whatever the backend answers, and the backend's answer is returned |
| ConvAi.Stop | volc_conv_ai/src/volc_conv_ai.c:355-392 | -1 with nothing changed unless STARTED; otherwise status := STOPPED whatever the backend answers, and its answer is returned |
| ConvAi.SendAudioData | volc_conv_ai/src/volc_conv_ai.c:411-450 | -1 with no backend call unless the engine is live, data is present and non-empty, and status is STARTED; otherwise one send carrying the caller's data type and commit flag, with the backend's answer; only the call record changes |
| ConvAi.SendVideoData | volc_conv_ai/src/volc_conv_ai.c:452-488 | the same guards; past them one send carrying the frame info, and 0 whatever the backend answers; only the call record changes |
| ConvAi.MessageMeta | volc_conv_ai/src/volc_conv_ai.c:505 | a message is binary exactly when the caller's info says so; no info means text |
| ConvAi.SendMessage | volc_conv_ai/src/volc_conv_ai.c:490-527 | the same guards; one send carrying the binary flag, with the backend's answer; only the call record changes |
| ConvAi.Update | volc_conv_ai/src/volc_conv_ai.c:394-409 | the same guards; a message send with the binary flag forced on; only the call record changes |
| ConvAi.Interrupt | volc_conv_ai/src/volc_conv_ai.c:529-559 | -1 for NULL; otherwise routed by mode with no status check; only the call record changes |
| ConvAi.RouteData | volc_conv_ai/src/volc_conv_ai.c:144-181 | no delivery exactly when the info is NULL, the type is unknown, or the callback of the frame's kind is unset; otherwise the delivery is of the frame's own kind and carries its data and metadata unchanged |
| ConvAi.UserEventOf | volc_conv_ai/src/volc_conv_ai.c:88-99 | CONNECTED and DISCONNECTED give their events; USER_JOINED, USER_OFFLINE and TOKEN_EXPIRED give one with the zero-initialised code; nothing else gives an event |
| ConvAi.RealtimeEventToUserEvent | volc_conv_ai/src/volc_conv_ai.c:81-118 | NULL context or message does nothing; KEY_FRAME_REQ only sets the flag; TARGET_BITRATE_CHANGED only sets `target_kbps` to bitrate / 1000 rounded toward zero; CONV_STATUS goes to the conversation callback; unknown codes produce nothing |
| ConvAi.TargetKbpsRounding | volc_conv_ai/src/volc_conv_ai.c:100 | the kbps value is the whole number of thousands in the bitrate, rounding toward zero on both signs |
| ConvAi.ErrToStr | volc_conv_ai/src/volc_conv_ai.c:200-214 | each of the four public codes has its text, and "Unknown error" is returned exactly for every other code |
| ConvAi.RegisterFailuresHaveMessages | volc_conv_ai/src/volc_conv_ai.c:244-248 | every failure registration reports to `volc_create`, other than the literal -1, prints as "Failed", "License exhausted" or "License expired" |
| ConvAi.ExtErrsHaveMessages | low_load_first/espressif/components/conv_ai/src/base/volc_device_manager.c:70-79 | every code a server error is mapped to prints as "Failed", "License exhausted" or "License expired", never "Success" nor "Unknown error" |
| Common.ToInt32 | low_load_first/espressif/components/conv_ai/src/base/volc_device_manager.c:86 | `(int32_t)` of the millisecond clock is in the int32 range and agrees with it modulo 2^32 |
| Common.CDiv | volc_conv_ai/src/volc_conv_ai.c:100 | C division by a positive divisor: the quotient brackets the dividend and rounds toward zero |
| Common.Truncate | low_load_first/espressif/components/conv_ai/src/base/volc_device_manager.c:31 | `snprintf` into a 256-byte buffer keeps a prefix of at most 255 characters, and all of a text that fits |
| Common.DecimalNatInjective | low_load_first/espressif/components/conv_ai/src/base/volc_device_manager.c:37 | different timestamps print as different `%` PRIu64 digit strings |
| Common.DecimalIntInjective | low_load_first/espressif/components/conv_ai/src/base/volc_device_manager.c:37 | different ints print as different `%d` strings |
| Common.CopyInto | examples/high_quality_solution/espressif/main/conv_ai_embedded_kit.c:191 | `memcpy` puts the source bytes at the offset and leaves every other byte of the destination alone |
| Json.GetObjectItem | examples/high_quality_solution/espressif/main/conv_ai_embedded_kit.c:121 | NULL for anything but an object; otherwise the first member whose key matches, ignoring ASCII case |
| Json.FirstMatchSpec | examples/high_quality_solution/espressif/main/conv_ai_embedded_kit.c:123 | the lookup finds nothing exactly when no key matches, and otherwise the value of the first member that matches |
| Json.StringValue | examples/high_quality_solution/espressif/main/conv_ai_embedded_kit.c:129 | the text of a string node, NULL for every other node |
| Json.ReadPathConcat | low_load_first/espressif/components/conv_ai/src/base/volc_device_manager.c:117 | following a dotted path is following its segments in turn |
| Json.ReadString | low_load_first/espressif/components/conv_ai/src/base/volc_device_manager.c:123 | reading a string succeeds exactly when the path ends at a string node, and yields its text |
| Json.ReadInt | low_load_first/espressif/components/conv_ai/src/base/volc_device_manager.c:117 | reading an int succeeds exactly when the path ends at a number node, and yields its value |
| Json.AddString | low_load_first/espressif/components/conv_ai/src/base/volc_device_manager.c:166-168 | the key joins the end of the object's keys; a NULL value leaves the keys as they were |
| Json.AddStringLookup | low_load_first/espressif/components/conv_ai/src/base/volc_device_manager.c:166-168 | after adding, a lookup finds the new string only when no earlier member matches and the value is not NULL; every other lookup is unchanged |
| Json.AddNumber | low_load_first/espressif/components/conv_ai/src/base/volc_device_manager.c:94-96 | the key joins the end of the object's keys |
| Json.AddNumberLookup | low_load_first/espressif/components/conv_ai/src/base/volc_device_manager.c:94-96 | after adding, a lookup finds the new number only when no earlier member matches; every other lookup is unchanged |
| DeviceManager.SignatureInputCanonical | low_load_first/espressif/components/conv_ai/src/base/volc_device_manager.c:37 | when it fits, the signed text is exactly `auth_type=…&device_name=…&random_num=…&product_key=…&timestamp=…`, in that order |
| DeviceManager.SignatureInputWsExtends | low_load_first/espressif/components/conv_ai/src/base/volc_device_manager.c:57 | the WS text always starts with the register text, and when it fits it is the same pairs with `instance_id` appended last |
| DeviceManager.AuthTypesSignDifferently | low_load_first/espressif/components/conv_ai/src/base/volc_device_manager.c:37 | the `auth_type=1` and `auth_type=0` texts never coincide |
| DeviceManager.SignatureInput | low_load_first/espressif/components/conv_ai/src/base/volc_device_manager.c:37 | the signed text is a prefix of the formatted pairs of at most 255 characters, and all of them when they fit |
| DeviceManager.SignatureInputWs | low_load_first/espressif/components/conv_ai/src/base/volc_device_manager.c:57 | the same cut of the formatted pairs followed by `&instance_id=…` |
| DeviceManager.TimestampSignsDifferently | low_load_first/espressif/components/conv_ai/src/base/volc_device_manager.c:84-88 | when they fit, texts made at different milliseconds differ, whatever random number each carries, so two requests with `random_num = (int32_t)timestamp` sign different texts |
| DeviceManager.RandomSignsDifferently | low_load_first/espressif/components/conv_ai/src/base/volc_device_manager.c:37 | when they fit, texts that differ only in `random_num` differ |
| DeviceManager.InterErrToExtErr | low_load_first/espressif/components/conv_ai/src/base/volc_device_manager.c:70-79 | the licence-exhausted and licence-expired codes map to their public codes, exactly; every other code maps to FAILED; no code maps to success |
| DeviceManager.RegisterUrl | low_load_first/espressif/components/conv_ai/src/base/volc_device_manager.c:100 | the registration URL fits its 256-byte buffer |
| DeviceManager.RegisterMembersLookup | low_load_first/espressif/components/conv_ai/src/base/volc_device_manager.c:90-97 | a lookup in the request body meets InstanceID, product_key, device_name, random_num, timestamp, auth_type and signature in that order |
| DeviceManager.RegisterRequest | low_load_first/espressif/components/conv_ai/src/base/volc_device_manager.c:90-97 | the registration body is an object of exactly seven members: InstanceID, product_key, device_name, random_num, timestamp, auth_type and signature, in that order |
| DeviceManager.RegisterRequestSigned | low_load_first/espressif/components/conv_ai/src/base/volc_device_manager.c:84-97 | registration signs with the product secret and `auth_type=1`, and `random_num` is the int32 cut of the same millisecond timestamp |
| DeviceManager.RegisterResponse | low_load_first/espressif/components/conv_ai/src/base/volc_device_manager.c:103-138 | -1 for no response or unparsable JSON; a present CodeN gives its mapped error; a missing payload or RTCAppID gives -1; 0 exactly when all checks pass, and then the output is the AES decode of the payload and the app id is the reply's; nothing is written on failure |
| DeviceManager.DeviceRegister | low_load_first/espressif/components/conv_ai/src/base/volc_device_manager.c:81-148 | posts the signed body to the registration URL and returns what the checks of the reply decide |
| DeviceManager.RegisterResultsAreKnown | low_load_first/espressif/components/conv_ai/src/base/volc_device_manager.c:103-138 | registration returns only 0, -1 or one of the public failure codes |
| DeviceManager.RtcConfigUrl | low_load_first/espressif/components/conv_ai/src/base/volc_device_manager.c:170 | the RTC-config URL fits its 256-byte buffer |
| DeviceManager.RtcConfigMembersLookup | low_load_first/espressif/components/conv_ai/src/base/volc_device_manager.c:160-168 | a lookup in the RTC-config body meets its members in the order they were added, skipping a NULL bot id or task id |
| DeviceManager.RtcConfigRequest | low_load_first/espressif/components/conv_ai/src/base/volc_device_manager.c:159-168 | the RTC-config body is an object of InstanceID, product_key, device_name, random_num, timestamp, signature, then bot_id when given, audio_codec, then task_id when given |
| DeviceManager.RtcConfigRequestSigned | low_load_first/espressif/components/conv_ai/src/base/volc_device_manager.c:154-165 | the RTC-config request signs with the device secret and `auth_type=0`, its `random_num` is the same int32 cut, and it carries no auth_type member |
| DeviceManager.RtcConfigResponse | low_load_first/espressif/components/conv_ai/src/base/volc_device_manager.c:172-187 | -1 and an untouched room for no response; otherwise each field read replaces the old one, and success is exactly all four fields being set |
| DeviceManager.GetRtcConfig | low_load_first/espressif/components/conv_ai/src/base/volc_device_manager.c:152-199 | posts the signed body to the RTC-config URL and returns what the checks of the reply decide |
| DeviceManager.RtcConfigFromEmptyRoom | low_load_first/espressif/components/conv_ai/src/base/volc_device_manager.c:179-187 | starting from an empty room, success is exactly the reply holding all four strings |
| DeviceManager.RtcConfigUnparsedKeepsRoom | low_load_first/espressif/components/conv_ai/src/base/volc_device_manager.c:178-187 | a reply that does not parse changes no field, and succeeds only if the room was already complete |
| MessageDemux.WordEqual | examples/high_quality_solution/espressif/main/conv_ai_embedded_kit.c:95 | two 32-bit little-endian loads are equal exactly when the four bytes are |
| MessageDemux.IsTargetMessage | examples/high_quality_solution/espressif/main/conv_ai_embedded_kit.c:90-99 | false when either pointer is NULL; otherwise true exactly when the first four bytes agree |
| MessageDemux.EntryOf | examples/high_quality_solution/espressif/main/conv_ai_embedded_kit.c:126-130 | an element yields a line exactly when it has both `userId` and `text`, whatever their types, and the line holds their string values |
| MessageDemux.EntriesOfAppend | examples/high_quality_solution/espressif/main/conv_ai_embedded_kit.c:125-131 | elements are handled one at a time and in order |
| MessageDemux.EntriesOf | examples/high_quality_solution/espressif/main/conv_ai_embedded_kit.c:125-131 | the lines of the `data` elements, one per element at most |
| MessageDemux.EntriesOfSound | examples/high_quality_solution/espressif/main/conv_ai_embedded_kit.c:125-131 | each line comes from an element that has both keys, and there are no more lines than elements |
| MessageDemux.EntriesOfComplete | examples/high_quality_solution/espressif/main/conv_ai_embedded_kit.c:125-131 | when every element has both keys, each element yields its own line, in order |
| MessageDemux.TypeIsSubtitleAsWritten | examples/high_quality_solution/espressif/main/conv_ai_embedded_kit.c:121-122 | the check as written: a present `type` that is not a string hands NULL to `strcmp`; otherwise a match is exactly the string "subtitle" |
| MessageDemux.NumericTypeReachesNull | examples/high_quality_solution/espressif/main/conv_ai_embedded_kit.c:122 | `{"type": 7}` reaches the NULL comparison |
| MessageDemux.TypeIsSubtitle | examples/high_quality_solution/espressif/main/conv_ai_embedded_kit.c:121-122 | the intended check: accepts exactly a `type` that is the string "subtitle", and agrees with the check as written wherever that one is defined and true |
| MessageDemux.OnSubtitle | examples/high_quality_solution/espressif/main/conv_ai_embedded_kit.c:103-133 | with the corrected type check `TypeIsSubtitle`, not the one as written: no lines unless `type` is the string "subtitle"; otherwise one line per `data` element with both keys, in order |
| MessageDemux.CString | examples/high_quality_solution/espressif/main/conv_ai_embedded_kit.c:194 | the parser reads a NUL-free prefix of the buffer that ends where the first NUL is |
| MessageDemux.CStringStops | examples/high_quality_solution/espressif/main/conv_ai_embedded_kit.c:192-194 | nothing after a NUL is read |
| MessageDemux.BufferText | examples/high_quality_solution/espressif/main/conv_ai_embedded_kit.c:191-194 | once the message and a NUL are in the buffer, the parser sees the message's own text, whatever earlier messages left behind |
| MessageDemux.StoreMessage | examples/high_quality_solution/espressif/main/conv_ai_embedded_kit.c:191-193 | the buffer starts with the message, then two NULs, and the rest is unchanged |
| MessageDemux.Demux | examples/high_quality_solution/espressif/main/conv_ai_embedded_kit.c:189-208 | the outcome of a message: refused exactly when it is no longer than the header; subtitle lines only under the `subv` tag; any other tag reported with the text the parser saw |
| MessageDemux.OnMessageData | examples/high_quality_solution/espressif/main/conv_ai_embedded_kit.c:179-209 | the outcome is `Demux` of the message alone, using the corrected type check `TypeIsSubtitle`, never of bytes earlier messages left in the static buffer; the buffer is written only for messages longer than the header |
| MessageDemux.DemuxCases | examples/high_quality_solution/espressif/main/conv_ai_embedded_kit.c:190-208 | a message of at most 8 bytes is refused whatever the parser would say; unparsable text dispatches nothing; a parsed `subv` frame gives the subtitle lines; a parsed frame with any other tag is reported with its text |
| MessageDemux.LengthFieldIgnored | examples/high_quality_solution/espressif/main/conv_ai_embedded_kit.c:190-196 | two messages that differ only in bytes 4..8 fare alike: the length field is never read |
| MessageDemux.TextEndsAtNul | examples/high_quality_solution/espressif/main/conv_ai_embedded_kit.c:194 | bytes after the first NUL of the JSON text never reach the parser |

## Quirks of the code

The model keeps each of these as the code has it:

- **Registration errors.** A `CodeN` in the registration reply is an error whatever its value, 0 included.
- **Registration request.** The request body names its first member `InstanceID`, capitalised unlike the other keys. The app id is read from `Result.RTCAppID`.
- **Destroyed state.** DESTROYED, ERROR and UNJOINED are declared but never assigned. `volc_destroy` frees the engine without changing its status, so a later call on the handle is a use after free, not an invalid-state error.
- **Construction failures.** A configuration without an `iot` block, or one that does not parse, makes `volc_create` return 0 (success) while handing out no engine. A caller that checks only the result carries on with a NULL handle.
- **Message tags.** Only the `subv` tag is dispatched. `tool` and `conv` frames take the "unknown json message" branch.

## Left out

- HMAC-SHA256, base64, AES, the HTTP client and cJSON parsing and printing are foreign. They are the function fields of `Foreign` (and the `parse` parameter of the demux), so nothing is proved about their outputs.
- The numeric values of `VOLC_ERR_*`, `ERROR_LICENSE_*` and the `VOLC_EV_*` / `VOLC_MSG_*` enums come from headers that are not part of this model. The constants in `Common` and `DeviceManager` are stand-ins: success is 0, FAILED is -1, and the licence codes are distinct and non-zero. `ConvAi.EventCode` keeps `EvZeroed`, the zero-initialised event code (volc_conv_ai/src/volc_conv_ai.c:88-99), apart from `EvConnected` and `EvDisconnected` only as a constructor. In C it is the code 0, which may well equal `VOLC_EV_CONNECTED`, so `ConvAi.UserEventOf` does not promise that C can tell those events apart.
- `volc_json.c` is not part of this model. `ReadString` and `ReadInt` assume a dotted path walked with `cJSON_GetObjectItem`, one segment at a time, succeeding exactly when the last node has the wanted type.
- Common.Truncate counts the 256-byte limit of `snprintf` in characters, while C counts bytes. The two agree only when the identity strings (device name, product key, instance id) are ASCII. For other text, `SignatureInput`, `SignatureInputWs` and `SignatureInputCanonical` may say a text fits that C cuts inside a multi-byte character or earlier. Strings are not encoded to UTF-8 in this model.
- `Json.Lower`: `tolower` is modelled for ASCII only. Numbers keep only cJSON's integer view.
- `DeviceManager.RegisterRequest` and `DeviceManager.RtcConfigRequest` record the timestamp as an exact integer. The code passes it through a `double` (lines 95 and 164 of volc_device_manager.c), which rounds values above 2^53.
- Allocation failure is not modelled, neither the `hal_malloc` in `volc_create` nor the unchecked `malloc` calls of the ring buffer. Neither are the memory release in `volc_destroy`, `volc_ringbuf_destroy` and the error paths.
- RingBuf.Create: sizes are unbounded integers. In C, `size + 1` overflows `int` when the requested size is INT_MAX (examples/low_load_solution/macos/util/volc_ringbuf.c:39-40); the model says nothing about that case.
- RingBuf.RingBuffer.DataSize, `WriteInternal` and `ReadInternal`: `head + size - tail` and the cursor plus the transfer length are exact. In C they can overflow `int` once the internal size exceeds INT_MAX / 2 (lines 28, 73 and 95), so the model matches the code only for buffers below 2^30 bytes.
- `RingBuf.RingBuffer.Write` / `Read` / `Peek` require non-negative lengths, a source at least `writelen` long and a destination at least `readlen` long; the code does not check these.
- `MessageDemux.OnMessageData` requires that a message longer than the header fits the 4096-byte buffer with its two NULs (at most 4094 bytes). The code does not check this, and a longer message writes past the static buffer.
- DeviceManager.GetRtcConfig requires a device secret. With a NULL `device_secret`, the code hands NULL to `strlen` inside `volc_generate_signature` (lines 38 and 157 of volc_device_manager.c), which is undefined behaviour the model has no value for.
- ConvAi.RegisterFailuresHaveMessages leaves the literal -1 aside. Registration returns -1 for a missing or unparsable reply or a missing field, and -1 reads as "Failed" only if `VOLC_ERR_FAILED` is -1. That header is not part of this model. `ConvAi.ExtErrsHaveMessages` covers the codes the server's errors are mapped to.
- `ConvAi.SendAudioData` and `ConvAi.SendVideoData` take the frame info as a value. The code dereferences the pointer without checking it for NULL.
- `ConvAi.Start`: the `params` of `volc_opt_t`, passed on to the WS backend, are not recorded in the `StartCall`.
- The backends' internals, and the callbacks they invoke on their own threads, are not modelled. The engine's `status` is `volatile`, and the ring buffer is shared between a producer and a consumer thread, but everything here is modelled sequentially, with no thread-safety claim.
- `__record_media_bytes` (clock-based bitrate logging in WS builds), `volc_get_version` and all log output are left out: they only report.
- The subtitle handler logs its lines. The model returns them as `Entry` values instead; an entry's `None` field is a NULL handed to `%s`.
- The demo programs and board glue are not modelled.

## Findings

| source | as written | input that shows it | evidently intended | confidence | as-written member | corrected member |
|---|---|---|---|---|---|---|
| examples/high_quality_solution/espressif/main/conv_ai_embedded_kit.c:122 | `strcmp("subtitle", cJSON_GetStringValue(type_obj))` runs once `type` is present, whatever its type; for a non-string node `cJSON_GetStringValue` returns NULL, and `strcmp` on NULL is undefined | a parsed `subv` body `{"type": 7}` | a `type` that is not the string "subtitle" means the frame is not a subtitle | not executed; follows from cJSON's documented NULL return | MessageDemux.TypeIsSubtitleAsWritten, MessageDemux.NumericTypeReachesNull | MessageDemux.TypeIsSubtitle |
