/**
 * The session engine of `volc_conv_ai.c`: the engine record and its status, the public API calls
 * that move it through CREATED / STARTED / STOPPED, the guards on the send calls, the routing of
 * inbound data to the user's callbacks, and the mapping of transport messages to user events.
 *
 * The RTC and WebSocket backends are foreign: a call into one is appended to the engine's `calls`
 * and its int result arrives as the `reply` parameter. Which backend the build compiled in is the
 * engine's `build`.
 */
module ConvAi {
  import opened Common
  import opened Json
  import opened DeviceManager

  /** `volc_rt_state_e`. */
  datatype State = StateNone | Created | Started | Unjoined | Stopped | Destroyed | ErrorState

  /** `volc_mode_e`. */
  datatype Mode = ModeUnknown | ModeRtc | ModeWs

  /** The backend `ENABLE_RTC_MODE` / `ENABLE_WS_MODE` compiled in; the header selection allows at most one. */
  datatype Build = RtcBuild | WsBuild | NoBackendBuild

  datatype Backend = Rtc | Ws

  datatype AudioFrameInfo = AudioFrameInfo(dataType: int, commit: bool)
  datatype VideoFrameInfo = VideoFrameInfo(dataType: int)
  datatype MessageFrameInfo = MessageFrameInfo(isBinary: bool)

  /** `volc_data_info_t`: the type tag together with the member of the union it selects. */
  datatype DataInfo =
    | AudioInfo(audio: AudioFrameInfo)
    | VideoInfo(video: VideoFrameInfo)
    | MessageInfo(message: MessageFrameInfo)
    | OtherInfo(tag: int)

  /** One call into a backend, with the arguments the engine passes. */
  datatype TransportCall =
    | CreateCall(backend: Backend, appId: Option<string>, config: Option<Json>)
    | StartCall(backend: Backend, botId: string, identity: IotInfo)
    | StopCall(backend: Backend)
    | SendCall(backend: Backend, data: seq<Byte>, info: DataInfo)
    | InterruptCall(backend: Backend)
    | DestroyCall(backend: Backend)

  /** Which callbacks of `volc_event_handler_t` the user set (non-NULL). */
  datatype Handlers = Handlers(onEvent: bool, onConversationStatus: bool, onAudio: bool, onVideo: bool, onMessage: bool)

  /** `volc_msg_t`, as a backend reports it. */
  datatype Msg =
    | MsgConnected
    | MsgDisconnected
    | MsgUserJoined
    | MsgUserOffline
    | MsgTokenExpired
    | MsgKeyFrameReq
    | MsgTargetBitrateChanged(bitrate: int)
    | MsgConvStatus(status: int)
    | MsgUnknown(code: int)

  /** The code `on_volc_event` receives; `EvZeroed` is the never-assigned, zero-initialised code. */
  datatype EventCode = EvConnected | EvDisconnected | EvZeroed

  /** One invocation of a user callback. */
  datatype UserCallback =
    | EventCallback(code: EventCode)
    | ConversationStatusCallback(status: int)

  /** Inbound data handed to one of the user's data callbacks, with the metadata of its kind. */
  datatype Delivery =
    | AudioDelivered(data: seq<Byte>, audio: AudioFrameInfo)
    | VideoDelivered(data: seq<Byte>, video: VideoFrameInfo)
    | MessageDelivered(data: seq<Byte>, message: MessageFrameInfo)

  /** `volc_opt_t`: the options of `volc_start`. */
  datatype StartOpt = StartOpt(mode: Mode, botId: Option<string>)

  // ---------------------------------------------------------------- backend selection

  /** Where a call that switches on `mode` goes: nowhere (0), to a backend that was not built (-1), or to a backend. */
  datatype Route = NoBackend | NotBuilt | Via(backend: Backend)

  function RouteOf(mode: Mode, build: Build): (r: Route)
    ensures r.Via? <==> (mode == ModeRtc && build == RtcBuild) || (mode == ModeWs && build == WsBuild)
    ensures r.Via? ==> (r.backend == Rtc <==> mode == ModeRtc)
    ensures r == NoBackend <==> mode == ModeUnknown
  {
    match mode
    case ModeUnknown => NoBackend
    case ModeRtc => if build == RtcBuild then Via(Rtc) else NotBuilt
    case ModeWs => if build == WsBuild then Via(Ws) else NotBuilt
  }

  /** The result of a routed call: 0 with no backend, -1 for one not built, else what the backend answered. */
  function RouteResult(route: Route, reply: int): int
  {
    match route
    case NoBackend => 0
    case NotBuilt => -1
    case Via(_) => reply
  }

  /** The backend call a routed operation makes, if any. */
  function RouteCalls(route: Route, call: Backend -> TransportCall): (r: seq<TransportCall>)
    ensures route.Via? ==> r == [call(route.backend)]
    ensures !route.Via? ==> r == []
  {
    if route.Via? then [call(route.backend)] else []
  }

  // ---------------------------------------------------------------- the engine record

  /** `volc_engine_impl_t`. */
  class Engine {
    var status: State
    var keyFrameRequest: bool
    var targetKbps: int
    var mode: Mode
    var info: IotInfo
    var calls: seq<TransportCall>
    const handlers: Handlers
    const build: Build

    /** The engine `volc_create` hands out: zeroed, mode UNKNOWN, status CREATED. */
    constructor Init(handlers: Handlers, build: Build, info: IotInfo, calls: seq<TransportCall>)
      ensures this.handlers == handlers && this.build == build && this.info == info && this.calls == calls
      ensures status == Created && mode == ModeUnknown && !keyFrameRequest && targetKbps == 0
    {
      this.handlers := handlers;
      this.build := build;
      this.info := info;
      this.calls := calls;
      status := Created;
      mode := ModeUnknown;
      keyFrameRequest := false;
      targetKbps := 0;
    }
  }

  // ---------------------------------------------------------------- the state machine in the abstract

  /** What a call does to the status, as far as the status is concerned. */
  datatype Op = OpStart(argsOk: bool) | OpStop | OpOther

  /** The status after `op`: start is accepted from CREATED or STOPPED, stop from STARTED; nothing else moves it. */
  function Next(s: State, op: Op): State
  {
    match op
    case OpStart(ok) => if ok && (s == Created || s == Stopped) then Started else s
    case OpStop => if s == Started then Stopped else s
    case OpOther => s
  }

  function Run(s: State, ops: seq<Op>): State
    decreases |ops|
  {
    if |ops| == 0 then s else Run(Next(s, ops[0]), ops[1..])
  }

  /** From CREATED, no sequence of calls reaches a state other than CREATED, STARTED or STOPPED. */
  lemma {:induction false} RunStaysLive(s: State, ops: seq<Op>)
    requires s in {Created, Started, Stopped}
    ensures Run(s, ops) in {Created, Started, Stopped}
    decreases |ops|
  {
    if |ops| > 0 {
      RunStaysLive(Next(s, ops[0]), ops[1..]);
    }
  }

  /** A second start is refused, a stop then a start enters STARTED again, and a stop from CREATED changes nothing. */
  lemma StartStopCycle(s: State)
    ensures Next(Next(s, OpStart(true)), OpStart(true)) == Next(s, OpStart(true))
    ensures Next(Next(Started, OpStop), OpStart(true)) == Started
    ensures Next(Created, OpStop) == Created
    ensures s in {Created, Stopped} <==> Next(s, OpStart(true)) == Started && s != Started
  {
  }

  // ---------------------------------------------------------------- create / destroy

  /** `__config_iot_parse`: the four identity strings of the `iot` block, all required. */
  function ConfigIotParse(iot: Option<Json>): (r: Option<IotInfo>)
    ensures r.Some? <==>
      && ReadString(iot, ["instance_id"]).Some? && ReadString(iot, ["product_key"]).Some?
      && ReadString(iot, ["product_secret"]).Some? && ReadString(iot, ["device_name"]).Some?
    ensures r.Some? ==>
      && r.value.instanceId == ReadString(iot, ["instance_id"]).value
      && r.value.productKey == ReadString(iot, ["product_key"]).value
      && r.value.productSecret == ReadString(iot, ["product_secret"]).value
      && r.value.deviceName == ReadString(iot, ["device_name"]).value
      && r.value.deviceSecret.None? && r.value.rtcAppId.None?
  {
    var instanceId := ReadString(iot, ["instance_id"]);
    var productKey := ReadString(iot, ["product_key"]);
    var productSecret := ReadString(iot, ["product_secret"]);
    var deviceName := ReadString(iot, ["device_name"]);
    if instanceId.Some? && productKey.Some? && productSecret.Some? && deviceName.Some? then
      Some(IotInfo(instanceId.value, productKey.value, productSecret.value, deviceName.value, None, None))
    else None
  }

  /**
   * The backends `volc_create` constructs: RTC, given the registered app id, only when there is an
   * `rtc` block; WS whether or not there is a `ws` block.
   */
  function BackendCreations(build: Build, config: Option<Json>, appId: Option<string>): (r: seq<TransportCall>)
    ensures |r| <= 1
    ensures |r| == 1 <==> build == WsBuild || (build == RtcBuild && GetObjectItem(config, "rtc").Some?)
    ensures |r| == 1 && build == RtcBuild ==> r[0] == CreateCall(Rtc, appId, GetObjectItem(config, "rtc"))
    ensures |r| == 1 && build == WsBuild ==> r[0] == CreateCall(Ws, None, GetObjectItem(config, "ws"))
  {
    match build
    case RtcBuild => if GetObjectItem(config, "rtc").Some? then [CreateCall(Rtc, appId, GetObjectItem(config, "rtc"))] else []
    case WsBuild => [CreateCall(Ws, None, GetObjectItem(config, "ws"))]
    case NoBackendBuild => []
  }

  /**
   * `volc_create`. `handleGiven` says whether the `handle` out-pointer is non-NULL; the returned
   * engine is what is stored through it, `null` when nothing is stored. The clock reading is `nowMs`.
   */
  method Create(handleGiven: bool, configJson: Option<string>, handlers: Option<Handlers>, build: Build,
                nowMs: Uint64, f: Foreign) returns (ret: int, engine: Engine?)
    ensures !handleGiven || configJson.None? || handlers.None? ==> ret == ERR_FAILED && engine == null
    ensures handleGiven && configJson.Some? && handlers.Some? ==>
      var config := f.parse(configJson.value);
      var iot := GetObjectItem(config, "iot");
      && (iot.None? ==> ret == 0 && engine == null)
      && (iot.Some? && ConfigIotParse(iot).None? ==> ret == -1 && engine == null)
      && (iot.Some? && ConfigIotParse(iot).Some? ==>
            var reg := DeviceRegister(ConfigIotParse(iot).value, nowMs, f);
            && (reg.ret != 0 ==> ret == reg.ret && engine == null)
            && (reg.ret == 0 ==>
                  && ret == 0 && engine != null && fresh(engine)
                  && engine.status == Created && engine.mode == ModeUnknown
                  && !engine.keyFrameRequest && engine.targetKbps == 0
                  && engine.handlers == handlers.value && engine.build == build
                  && engine.info == ConfigIotParse(iot).value.(deviceSecret := reg.output.value, rtcAppId := Some(reg.rtcAppId.value))
                  && engine.calls == BackendCreations(build, config, engine.info.rtcAppId)))
    ensures engine != null ==> ret == 0
  {
    if !handleGiven || configJson.None? || handlers.None? {
      return ERR_FAILED, null;
    }
    var config := f.parse(configJson.value);
    var iot := GetObjectItem(config, "iot");
    if iot.None? {
      return 0, null;
    }
    var parsed := ConfigIotParse(iot);
    if parsed.None? {
      return -1, null;
    }
    var reg := DeviceRegister(parsed.value, nowMs, f);
    if reg.ret != 0 {
      return reg.ret, null;
    }
    var info := parsed.value.(deviceSecret := reg.output.value, rtcAppId := Some(reg.rtcAppId.value));
    engine := new Engine.Init(handlers.value, build, info, BackendCreations(build, config, info.rtcAppId));
    ret := 0;
  }

  /** `volc_destroy`: tears down the backend the current mode names, and no other; only the call record changes. */
  method Destroy(handle: Engine?)
    modifies (if handle == null then {} else {handle})`calls
    ensures handle != null ==>
      handle.calls == old(handle.calls) + RouteCalls(RouteOf(handle.mode, handle.build), b => DestroyCall(b))
    ensures handle != null ==> handle.status == old(handle.status) && handle.mode == old(handle.mode)
  {
    if handle == null {
      return;
    }
    var route := RouteOf(handle.mode, handle.build);
    if route.Via? {
      handle.calls := handle.calls + [DestroyCall(route.backend)];
    }
  }

  // ---------------------------------------------------------------- start / stop

  /** The argument checks of `volc_start`: an option block with a non-empty bot id. */
  predicate StartArgsOk(opt: Option<StartOpt>)
  {
    opt.Some? && opt.value.botId.Some? && |opt.value.botId.value| > 0
  }

  /** `volc_start`; `reply` is what the backend's start returns. */
  method Start(handle: Engine?, opt: Option<StartOpt>, reply: int) returns (ret: int)
    modifies handle
    ensures handle == null ==> ret == -1
    ensures handle != null && !(StartArgsOk(opt) && old(handle.status) in {Created, Stopped}) ==>
      ret == -1 && handle.status == old(handle.status) && handle.mode == old(handle.mode) && handle.calls == old(handle.calls)
    ensures handle != null && StartArgsOk(opt) && old(handle.status) in {Created, Stopped} ==>
      var route := RouteOf(opt.value.mode, handle.build);
      var identity := handle.info;
      && handle.status == Started
      && handle.mode == opt.value.mode
      && ret == RouteResult(route, reply)
      && handle.calls == old(handle.calls) + RouteCalls(route, b => StartCall(b, opt.value.botId.value, identity))
    ensures handle != null ==> handle.status == Next(old(handle.status), OpStart(StartArgsOk(opt)))
    ensures handle != null ==> handle.keyFrameRequest == old(handle.keyFrameRequest) && handle.targetKbps == old(handle.targetKbps)
    ensures handle != null ==> handle.info == old(handle.info)
  {
    if handle == null || opt.None? {
      return -1;
    }
    if opt.value.botId.None? || |opt.value.botId.value| <= 0 {
      return -1;
    }
    if handle.status != Created && handle.status != Stopped {
      return -1;
    }
    handle.mode := opt.value.mode;
    var route := RouteOf(opt.value.mode, handle.build);
    if route.Via? {
      handle.calls := handle.calls + [StartCall(route.backend, opt.value.botId.value, handle.info)];
    }
    ret := RouteResult(route, reply);
    handle.status := Started;
  }

  /** `volc_stop`; `reply` is what the backend's stop returns. */
  method Stop(handle: Engine?, reply: int) returns (ret: int)
    modifies handle
    ensures handle == null ==> ret == -1
    ensures handle != null && old(handle.status) != Started ==>
      ret == -1 && handle.status == old(handle.status) && handle.calls == old(handle.calls)
    ensures handle != null && old(handle.status) == Started ==>
      var route := RouteOf(handle.mode, handle.build);
      && handle.status == Stopped
      && ret == RouteResult(route, reply)
      && handle.calls == old(handle.calls) + RouteCalls(route, b => StopCall(b))
    ensures handle != null ==> handle.status == Next(old(handle.status), OpStop)
    ensures handle != null ==> handle.mode == old(handle.mode) && handle.info == old(handle.info)
    ensures handle != null ==> handle.keyFrameRequest == old(handle.keyFrameRequest) && handle.targetKbps == old(handle.targetKbps)
  {
    if handle == null {
      return -1;
    }
    if handle.status != Started {
      return -1;
    }
    var route := RouteOf(handle.mode, handle.build);
    if route.Via? {
      handle.calls := handle.calls + [StopCall(route.backend)];
    }
    ret := RouteResult(route, reply);
    handle.status := Stopped;
  }

  // ---------------------------------------------------------------- outbound data
  // The send calls and `volc_interrupt` change nothing of the engine but its call record.

  /** The guard every send call passes: a live engine, data, a non-zero length, and status STARTED. */
  predicate SendAllowed(handle: Engine?, data: Option<seq<Byte>>, status: State)
  {
    handle != null && data.Some? && |data.value| > 0 && status == Started
  }

  /** `volc_send_audio_data`; `reply` is what the backend's send returns. */
  method SendAudioData(handle: Engine?, data: Option<seq<Byte>>, info: AudioFrameInfo, reply: int) returns (ret: int)
    modifies (if handle == null then {} else {handle})`calls
    ensures handle != null ==> handle.status == old(handle.status) && handle.mode == old(handle.mode)
    ensures !SendAllowed(handle, data, if handle == null then StateNone else old(handle.status)) ==>
      ret == -1 && (handle != null ==> handle.calls == old(handle.calls))
    ensures SendAllowed(handle, data, if handle == null then StateNone else old(handle.status)) ==>
      var route := RouteOf(handle.mode, handle.build);
      && ret == RouteResult(route, reply)
      && handle.calls == old(handle.calls) + RouteCalls(route, b => SendCall(b, data.value, AudioInfo(info)))
  {
    if handle == null || data.None? || |data.value| == 0 {
      return -1;
    }
    if handle.status != Started {
      return -1;
    }
    var route := RouteOf(handle.mode, handle.build);
    if route.Via? {
      handle.calls := handle.calls + [SendCall(route.backend, data.value, AudioInfo(info))];
    }
    ret := RouteResult(route, reply);
  }

  /** `volc_send_video_data`: past its guards it returns 0 whatever the backend answers. */
  method SendVideoData(handle: Engine?, data: Option<seq<Byte>>, info: VideoFrameInfo) returns (ret: int)
    modifies (if handle == null then {} else {handle})`calls
    ensures handle != null ==> handle.status == old(handle.status) && handle.mode == old(handle.mode)
    ensures !SendAllowed(handle, data, if handle == null then StateNone else old(handle.status)) ==>
      ret == -1 && (handle != null ==> handle.calls == old(handle.calls))
    ensures SendAllowed(handle, data, if handle == null then StateNone else old(handle.status)) ==>
      && ret == 0
      && handle.calls == old(handle.calls) + RouteCalls(RouteOf(handle.mode, handle.build), b => SendCall(b, data.value, VideoInfo(info)))
  {
    if handle == null || data.None? || |data.value| == 0 {
      return -1;
    }
    if handle.status != Started {
      return -1;
    }
    var route := RouteOf(handle.mode, handle.build);
    if route.Via? {
      handle.calls := handle.calls + [SendCall(route.backend, data.value, VideoInfo(info))];
    }
    ret := 0;
  }

  /** The message metadata `volc_send_message` forwards: the caller's binary flag, or text when there is no info. */
  function MessageMeta(info: Option<MessageFrameInfo>): (m: MessageFrameInfo)
    ensures m.isBinary <==> info.Some? && info.value.isBinary
  {
    if info.Some? then MessageFrameInfo(info.value.isBinary) else MessageFrameInfo(false)
  }

  /** `volc_send_message`; `reply` is what the backend's send returns. */
  method SendMessage(handle: Engine?, data: Option<seq<Byte>>, info: Option<MessageFrameInfo>, reply: int) returns (ret: int)
    modifies (if handle == null then {} else {handle})`calls
    ensures handle != null ==> handle.status == old(handle.status) && handle.mode == old(handle.mode)
    ensures !SendAllowed(handle, data, if handle == null then StateNone else old(handle.status)) ==>
      ret == -1 && (handle != null ==> handle.calls == old(handle.calls))
    ensures SendAllowed(handle, data, if handle == null then StateNone else old(handle.status)) ==>
      var route := RouteOf(handle.mode, handle.build);
      && ret == RouteResult(route, reply)
      && handle.calls == old(handle.calls) + RouteCalls(route, b => SendCall(b, data.value, MessageInfo(MessageMeta(info))))
  {
    if handle == null || data.None? || |data.value| == 0 {
      return -1;
    }
    if handle.status != Started {
      return -1;
    }
    var route := RouteOf(handle.mode, handle.build);
    var meta := MessageMeta(info);
    if route.Via? {
      handle.calls := handle.calls + [SendCall(route.backend, data.value, MessageInfo(meta))];
    }
    ret := RouteResult(route, reply);
  }

  /** `volc_update`: a message sent with the binary flag forced on. */
  method Update(handle: Engine?, data: Option<seq<Byte>>, reply: int) returns (ret: int)
    modifies (if handle == null then {} else {handle})`calls
    ensures handle != null ==> handle.status == old(handle.status) && handle.mode == old(handle.mode)
    ensures !SendAllowed(handle, data, if handle == null then StateNone else old(handle.status)) ==>
      ret == -1 && (handle != null ==> handle.calls == old(handle.calls))
    ensures SendAllowed(handle, data, if handle == null then StateNone else old(handle.status)) ==>
      var route := RouteOf(handle.mode, handle.build);
      && ret == RouteResult(route, reply)
      && handle.calls == old(handle.calls) + RouteCalls(route, b => SendCall(b, data.value, MessageInfo(MessageFrameInfo(true))))
  {
    if handle == null {
      return -1;
    }
    if handle.status != Started {
      return -1;
    }
    ret := SendMessage(handle, data, Some(MessageFrameInfo(true)), reply);
  }

  /** `volc_interrupt`: no status check, routed by mode like the others. */
  method Interrupt(handle: Engine?, reply: int) returns (ret: int)
    modifies (if handle == null then {} else {handle})`calls
    ensures handle == null ==> ret == -1
    ensures handle != null ==>
      var route := RouteOf(handle.mode, handle.build);
      && ret == RouteResult(route, reply)
      && handle.calls == old(handle.calls) + RouteCalls(route, b => InterruptCall(b))
      && handle.status == old(handle.status) && handle.mode == old(handle.mode)
  {
    if handle == null {
      return -1;
    }
    var route := RouteOf(handle.mode, handle.build);
    if route.Via? {
      handle.calls := handle.calls + [InterruptCall(route.backend)];
    }
    ret := RouteResult(route, reply);
  }

  // ---------------------------------------------------------------- inbound data and events

  /** `__realtime_data_router`: the one callback the frame's type selects, if the user set it. */
  function RouteData(handlers: Handlers, data: seq<Byte>, info: Option<DataInfo>): (r: Option<Delivery>)
    ensures r.None? <==> info.None? || !HandlerSet(handlers, info.value)
    ensures r.Some? ==> match r.value
      case AudioDelivered(d, a) => d == data && info == Some(AudioInfo(a))
      case VideoDelivered(d, v) => d == data && info == Some(VideoInfo(v))
      case MessageDelivered(d, m) => d == data && info == Some(MessageInfo(m))
  {
    match info
    case None => None
    case Some(AudioInfo(a)) => if handlers.onAudio then Some(AudioDelivered(data, a)) else None
    case Some(VideoInfo(v)) => if handlers.onVideo then Some(VideoDelivered(data, v)) else None
    case Some(MessageInfo(m)) => if handlers.onMessage then Some(MessageDelivered(data, m)) else None
    case Some(OtherInfo(_)) => None
  }

  /** Whether the user set the callback a frame of this kind goes to; frames of an unknown type have none. */
  predicate HandlerSet(handlers: Handlers, info: DataInfo)
  {
    match info
    case AudioInfo(_) => handlers.onAudio
    case VideoInfo(_) => handlers.onVideo
    case MessageInfo(_) => handlers.onMessage
    case OtherInfo(_) => false
  }

  /** The user event a transport message becomes, if it becomes one (the key-frame, bitrate and status messages do not). */
  function UserEventOf(msg: Msg): (r: Option<EventCode>)
    ensures r == Some(EvConnected) <==> msg == MsgConnected
    ensures r == Some(EvDisconnected) <==> msg == MsgDisconnected
    ensures r == Some(EvZeroed) <==> msg in {MsgUserJoined, MsgUserOffline, MsgTokenExpired}
  {
    match msg
    case MsgConnected => Some(EvConnected)
    case MsgDisconnected => Some(EvDisconnected)
    case MsgUserJoined => Some(EvZeroed)
    case MsgUserOffline => Some(EvZeroed)
    case MsgTokenExpired => Some(EvZeroed)
    case _ => None
  }

  /** `__realtime_event_2_user_event`: updates the engine for key-frame and bitrate messages, and returns the callback it invokes. */
  method RealtimeEventToUserEvent(context: Engine?, msg: Option<Msg>) returns (cb: Option<UserCallback>)
    modifies context
    ensures context == null || msg.None? ==> cb.None?
    ensures context != null ==>
      && context.status == old(context.status) && context.mode == old(context.mode)
      && context.calls == old(context.calls) && context.info == old(context.info)
    ensures context != null && msg.Some? ==>
      && context.keyFrameRequest == (old(context.keyFrameRequest) || msg.value == MsgKeyFrameReq)
      && context.targetKbps == (if msg.value.MsgTargetBitrateChanged? then CDiv(msg.value.bitrate, 1000) else old(context.targetKbps))
      && (UserEventOf(msg.value).Some? ==>
            cb == if context.handlers.onEvent then Some(EventCallback(UserEventOf(msg.value).value)) else None)
      && (msg.value.MsgConvStatus? ==>
            cb == if context.handlers.onConversationStatus then Some(ConversationStatusCallback(msg.value.status)) else None)
      && (UserEventOf(msg.value).None? && !msg.value.MsgConvStatus? ==> cb.None?)
    ensures context != null && msg.None? ==>
      context.keyFrameRequest == old(context.keyFrameRequest) && context.targetKbps == old(context.targetKbps)
  {
    if context == null || msg.None? {
      return None;
    }
    match msg.value {
      case MsgKeyFrameReq =>
        context.keyFrameRequest := true;
        return None;
      case MsgTargetBitrateChanged(b) =>
        context.targetKbps := CDiv(b, 1000);
        return None;
      case MsgConvStatus(s) =>
        cb := if context.handlers.onConversationStatus then Some(ConversationStatusCallback(s)) else None;
        return cb;
      case MsgUnknown(_) =>
        return None;
      case _ =>
    }
    var code := UserEventOf(msg.value).value;
    cb := if context.handlers.onEvent then Some(EventCallback(code)) else None;
  }

  /** A bitrate in bits per second becomes whole kilobits per second, rounded toward zero. */
  lemma TargetKbpsRounding(bitrate: int)
    ensures bitrate >= 0 ==> 1000 * CDiv(bitrate, 1000) <= bitrate < 1000 * CDiv(bitrate, 1000) + 1000
    ensures CDiv(-bitrate, 1000) == -CDiv(bitrate, 1000)
  {
  }

  // ---------------------------------------------------------------- error strings

  /** `volc_err_2_str`. */
  function ErrToStr(code: int): (s: string)
    ensures code == ERR_NO_ERROR ==> s == "Success"
    ensures code == ERR_FAILED ==> s == "Failed"
    ensures code == ERR_LICENSE_EXHAUSTED ==> s == "License exhausted"
    ensures code == ERR_LICENSE_EXPIRED ==> s == "License expired"
    ensures s == "Unknown error" <==> code !in {ERR_NO_ERROR, ERR_FAILED, ERR_LICENSE_EXHAUSTED, ERR_LICENSE_EXPIRED}
  {
    if code == ERR_NO_ERROR then "Success"
    else if code == ERR_FAILED then "Failed"
    else if code == ERR_LICENSE_EXHAUSTED then "License exhausted"
    else if code == ERR_LICENSE_EXPIRED then "License expired"
    else "Unknown error"
  }

  /** Every code the server's licence errors are mapped to has a message of its own. */
  lemma ExtErrsHaveMessages(code: int)
    ensures ErrToStr(InterErrToExtErr(code)) in {"Failed", "License exhausted", "License expired"}
  {
  }

  /**
   * Registration fails either with the literal -1 (no reply, an unparsable reply, a missing field) or
   * with a code `volc_inter_err_2_ext_err` produced, which has a message of its own, never "Success"
   * nor "Unknown error". Whether -1 itself reads as "Failed" depends on the value of `VOLC_ERR_FAILED`.
   */
  lemma RegisterFailuresHaveMessages(info: IotInfo, nowMs: Uint64, f: Foreign)
    requires DeviceRegister(info, nowMs, f).ret != 0
    ensures DeviceRegister(info, nowMs, f).ret != -1 ==>
      ErrToStr(DeviceRegister(info, nowMs, f).ret) in {"Failed", "License exhausted", "License expired"}
  {
    RegisterResultsAreKnown(info, nowMs, f);
  }
}
