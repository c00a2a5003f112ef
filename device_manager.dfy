/**
 * Device provisioning (`volc_device_manager.c`): the key=value strings that get signed, the mapping
 * of the server's licence errors onto the public error codes, and the response checks of dynamic
 * registration and of the RTC-config request. HMAC-SHA256 + base64, AES, HTTP and cJSON parsing and
 * printing are foreign code and arrive as the functions of a `Foreign` value.
 */
module DeviceManager {
  import opened Common
  import opened Json

  const IOT_HOST: string := "https://iot-cn-shanghai.iot.volces.com"
  const DYNAMIC_REGISTER_PATH: string := "/2021-12-14/DynamicRegister"
  const GET_RTC_CONFIG_PATH: string := "/2021-12-14/GetRTCConfig"
  const API_VERSION_QUERY_PARAM: string := "Version=2021-12-14"
  const API_ACTION_DYNAMIC_REGISTER: string := "Action=DynamicRegister"
  const API_ACTION_GET_RTC_CONFIG: string := "Action=GetRTCConfig"

  /** `sizeof(input_str)` and `sizeof(url)`. */
  const TEXT_CAP: nat := 256

  /**
   * The server's licence error codes (`ERROR_LICENSE_EXHAUSTED`, `ERROR_LICENSE_EXPIRED`). Their
   * header is not part of this model; these stand-ins only need to differ.
   */
  const INTER_LICENSE_EXHAUSTED: int := 1
  const INTER_LICENSE_EXPIRED: int := 2

  /** The foreign code the provisioning calls go through. */
  datatype Foreign = Foreign(
    hmacBase64: (string, string) -> string,    // key, text -> base64 of the HMAC-SHA256 digest
    aesDecode: (string, string) -> Option<string>,   // key, payload -> plain text, or NULL
    httpPost: (string, string) -> Option<string>,    // url, body -> response body, or NULL
    parse: string -> Option<Json>,             // cJSON_Parse
    serialize: Json -> string)                 // cJSON_PrintUnformatted

  /** `volc_iot_info_t`: the identity read from the `iot` block, plus what registration hands back. */
  datatype IotInfo = IotInfo(
    instanceId: string,
    productKey: string,
    productSecret: string,
    deviceName: string,
    deviceSecret: Option<string>,
    rtcAppId: Option<string>)

  // ---------------------------------------------------------------- signing strings

  /** What the `snprintf` format of `volc_generate_signature` would produce with unlimited room. */
  function SignatureText(authType: int, deviceName: string, rnd: int, productKey: string, timestamp: nat): string
  {
    "auth_type=" + DecimalInt(authType) + Field("device_name", deviceName) + Field("random_num", DecimalInt(rnd))
      + Field("product_key", productKey) + Field("timestamp", DecimalNat(timestamp))
  }

  /** One `&key=value` continuation of a query. */
  function Field(key: string, value: string): string
  {
    "&" + key + "=" + value
  }

  /** The text `volc_generate_signature` signs: the format above, cut to what fits the 256-byte buffer. */
  function SignatureInput(authType: int, deviceName: string, rnd: int, productKey: string, timestamp: nat): (r: string)
    ensures |r| < TEXT_CAP && r <= SignatureText(authType, deviceName, rnd, productKey, timestamp)
    ensures |SignatureText(authType, deviceName, rnd, productKey, timestamp)| < TEXT_CAP ==>
      r == SignatureText(authType, deviceName, rnd, productKey, timestamp)
  {
    Truncate(SignatureText(authType, deviceName, rnd, productKey, timestamp), TEXT_CAP)
  }

  /** The text `volc_generate_signature_ws` signs: the same format with one more pair at the end. */
  function SignatureInputWs(authType: int, deviceName: string, instanceId: string, rnd: int, productKey: string,
                            timestamp: nat): (r: string)
    ensures |r| < TEXT_CAP && r <= SignatureText(authType, deviceName, rnd, productKey, timestamp) + "&instance_id=" + instanceId
    ensures |SignatureText(authType, deviceName, rnd, productKey, timestamp) + "&instance_id=" + instanceId| < TEXT_CAP ==>
      r == SignatureText(authType, deviceName, rnd, productKey, timestamp) + "&instance_id=" + instanceId
  {
    Truncate(SignatureText(authType, deviceName, rnd, productKey, timestamp) + "&instance_id=" + instanceId, TEXT_CAP)
  }

  /** `volc_generate_signature` / `_ws`: the base64 HMAC of the input text under `secret`. */
  function Signature(f: Foreign, secret: string, input: string): string
  {
    f.hmacBase64(secret, input)
  }

  /** The reference form of a canonical query: `k1=v1&k2=v2&...`, in the order given. */
  function KeyValueString(pairs: seq<(string, string)>): string
  {
    if |pairs| == 0 then ""
    else if |pairs| == 1 then pairs[0].0 + "=" + pairs[0].1
    else KeyValueString(pairs[..|pairs| - 1]) + Field(pairs[|pairs| - 1].0, pairs[|pairs| - 1].1)
  }

  /** The five signed pairs, in the order the server expects them. */
  function SignedPairs(authType: int, deviceName: string, rnd: int, productKey: string, timestamp: nat): seq<(string, string)>
  {
    [("auth_type", DecimalInt(authType)), ("device_name", deviceName), ("random_num", DecimalInt(rnd)),
     ("product_key", productKey), ("timestamp", DecimalNat(timestamp))]
  }

  /** Extending the pairs by one appends `&k=v`. */
  lemma KeyValueStringSnoc(pairs: seq<(string, string)>, p: (string, string))
    requires |pairs| >= 1
    ensures KeyValueString(pairs + [p]) == KeyValueString(pairs) + Field(p.0, p.1)
  {
    assert (pairs + [p])[..|pairs|] == pairs;
  }

  /** The register-style input is exactly the canonical string of the five pairs, in their fixed order, when it fits. */
  lemma SignatureInputCanonical(authType: int, deviceName: string, rnd: int, productKey: string, timestamp: nat)
    requires |SignatureText(authType, deviceName, rnd, productKey, timestamp)| < TEXT_CAP
    ensures SignatureInput(authType, deviceName, rnd, productKey, timestamp)
      == KeyValueString(SignedPairs(authType, deviceName, rnd, productKey, timestamp))
  {
    var p0, p1, p2 := ("auth_type", DecimalInt(authType)), ("device_name", deviceName), ("random_num", DecimalInt(rnd));
    var p3, p4 := ("product_key", productKey), ("timestamp", DecimalNat(timestamp));
    assert "auth_type" + "=" == "auth_type=";
    assert KeyValueString([p0]) == "auth_type=" + DecimalInt(authType);
    KeyValueStringSnoc([p0], p1);
    assert [p0] + [p1] == [p0, p1];
    KeyValueStringSnoc([p0, p1], p2);
    assert [p0, p1] + [p2] == [p0, p1, p2];
    KeyValueStringSnoc([p0, p1, p2], p3);
    assert [p0, p1, p2] + [p3] == [p0, p1, p2, p3];
    KeyValueStringSnoc([p0, p1, p2, p3], p4);
    assert [p0, p1, p2, p3] + [p4] == SignedPairs(authType, deviceName, rnd, productKey, timestamp);
  }

  /**
   * The WS input is the register input with `&instance_id=<i>` as the last pair: always as a prefix,
   * and exactly when the longer text fits the buffer.
   */
  lemma SignatureInputWsExtends(authType: int, deviceName: string, instanceId: string, rnd: int, productKey: string,
                                timestamp: nat)
    ensures SignatureInput(authType, deviceName, rnd, productKey, timestamp)
      <= SignatureInputWs(authType, deviceName, instanceId, rnd, productKey, timestamp)
    ensures |SignatureText(authType, deviceName, rnd, productKey, timestamp) + "&instance_id=" + instanceId| < TEXT_CAP ==>
      SignatureInputWs(authType, deviceName, instanceId, rnd, productKey, timestamp)
        == KeyValueString(SignedPairs(authType, deviceName, rnd, productKey, timestamp) + [("instance_id", instanceId)])
  {
    var t := SignatureText(authType, deviceName, rnd, productKey, timestamp);
    var tail := "&instance_id=" + instanceId;
    assert t + "&instance_id=" + instanceId == t + tail;
    TruncateExtends(t, tail, TEXT_CAP);
    if |t + tail| < TEXT_CAP {
      assert tail == Field("instance_id", instanceId);
      SignatureInputCanonical(authType, deviceName, rnd, productKey, timestamp);
      KeyValueStringSnoc(SignedPairs(authType, deviceName, rnd, productKey, timestamp), ("instance_id", instanceId));
    }
  }

  /** The register input (`auth_type=1`) and the RTC-config input (`auth_type=0`) never coincide. */
  lemma AuthTypesSignDifferently(deviceName: string, rnd: int, productKey: string, timestamp: nat)
    ensures SignatureInput(1, deviceName, rnd, productKey, timestamp) != SignatureInput(0, deviceName, rnd, productKey, timestamp)
  {
    var a := SignatureInput(1, deviceName, rnd, productKey, timestamp);
    var b := SignatureInput(0, deviceName, rnd, productKey, timestamp);
    assert DecimalInt(1) == "1" && DecimalInt(0) == "0";
    var ta := SignatureText(1, deviceName, rnd, productKey, timestamp);
    var tb := SignatureText(0, deviceName, rnd, productKey, timestamp);
    assert ta[10] == '1' && tb[10] == '0';
    assert a[10] == ta[10] && b[10] == tb[10];
  }

  /** Everything the signed text holds before `&timestamp=`. */
  function TextBeforeTimestamp(authType: int, deviceName: string, rnd: int, productKey: string): string
  {
    "auth_type=" + DecimalInt(authType) + Field("device_name", deviceName) + Field("random_num", DecimalInt(rnd))
      + Field("product_key", productKey)
  }

  /** The timestamp pair closes the signed text. */
  lemma SignatureTextEndsWithTimestamp(authType: int, deviceName: string, rnd: int, productKey: string, t: nat)
    ensures SignatureText(authType, deviceName, rnd, productKey, t)
      == TextBeforeTimestamp(authType, deviceName, rnd, productKey) + "&timestamp=" + DecimalNat(t)
  {
    var pre := TextBeforeTimestamp(authType, deviceName, rnd, productKey);
    assert Field("timestamp", DecimalNat(t)) == "&timestamp=" + DecimalNat(t);
    assert pre + ("&timestamp=" + DecimalNat(t)) == pre + "&timestamp=" + DecimalNat(t);
  }

  /** Past the `&` that opens `&timestamp=`, a text ending in digits holds no other `&`. */
  lemma NoAmpersandAfterMarker(pre: string, digits: string, e: int)
    requires forall k :: 0 <= k < |digits| ==> '0' <= digits[k] <= '9'
    requires 1 <= e < 11 + |digits|
    ensures (pre + "&timestamp=" + digits)[|pre| + e] != '&'
  {
    var x := pre + "&timestamp=" + digits;
    if e < 11 {
      assert x[|pre| + e] == "&timestamp="[e];
    } else {
      assert x[|pre| + e] == digits[e - 11];
    }
  }

  /** Whatever precedes it, the digits after the last `&timestamp=` are fixed by the text. */
  lemma TimestampDigitsDetermined(pre1: string, pre2: string, d1: string, d2: string)
    requires forall k :: 0 <= k < |d1| ==> '0' <= d1[k] <= '9'
    requires forall k :: 0 <= k < |d2| ==> '0' <= d2[k] <= '9'
    requires pre1 + "&timestamp=" + d1 == pre2 + "&timestamp=" + d2
    ensures d1 == d2
  {
    var x := pre1 + "&timestamp=" + d1;
    assert x[|pre1|] == '&';
    assert (pre2 + "&timestamp=" + d2)[|pre2|] == '&';
    if |d1| < |d2| {
      NoAmpersandAfterMarker(pre2, d2, |d2| - |d1|);
    } else if |d2| < |d1| {
      NoAmpersandAfterMarker(pre1, d1, |d1| - |d2|);
    }
    assert d1 == x[|x| - |d1|..];
    assert d2 == (pre2 + "&timestamp=" + d2)[|x| - |d2|..];
  }

  /**
   * Two requests made at different milliseconds sign different texts, whatever random number each
   * carries; in particular `random_num = (int32_t)timestamp` on both, so a signature is not replayable.
   */
  lemma TimestampSignsDifferently(authType: int, deviceName: string, rnd1: int, rnd2: int, productKey: string,
                                  t1: nat, t2: nat)
    requires |SignatureText(authType, deviceName, rnd1, productKey, t1)| < TEXT_CAP
    requires |SignatureText(authType, deviceName, rnd2, productKey, t2)| < TEXT_CAP
    requires t1 != t2
    ensures SignatureInput(authType, deviceName, rnd1, productKey, t1)
      != SignatureInput(authType, deviceName, rnd2, productKey, t2)
  {
    SignatureTextEndsWithTimestamp(authType, deviceName, rnd1, productKey, t1);
    SignatureTextEndsWithTimestamp(authType, deviceName, rnd2, productKey, t2);
    DecimalNatShape(t1);
    DecimalNatShape(t2);
    if SignatureInput(authType, deviceName, rnd1, productKey, t1) == SignatureInput(authType, deviceName, rnd2, productKey, t2) {
      TimestampDigitsDetermined(TextBeforeTimestamp(authType, deviceName, rnd1, productKey),
                                TextBeforeTimestamp(authType, deviceName, rnd2, productKey), DecimalNat(t1), DecimalNat(t2));
      DecimalNatInjective(t1, t2);
    }
  }

  /** The random number sits between a prefix and a suffix that do not depend on it. */
  lemma SignatureTextAroundRandom(authType: int, deviceName: string, rnd: int, productKey: string, t: nat)
    ensures SignatureText(authType, deviceName, rnd, productKey, t)
      == ("auth_type=" + DecimalInt(authType) + Field("device_name", deviceName) + "&random_num=")
         + DecimalInt(rnd) + (Field("product_key", productKey) + Field("timestamp", DecimalNat(t)))
  {
    assert Field("random_num", DecimalInt(rnd)) == "&random_num=" + DecimalInt(rnd);
  }

  /** Equal texts with a common prefix and suffix agree in the middle. */
  lemma MiddleDetermined(pre: string, m1: string, m2: string, post: string)
    requires pre + m1 + post == pre + m2 + post
    ensures m1 == m2
  {
    assert |m1| == |m2|;
    assert m1 == (pre + m1 + post)[|pre|..|pre| + |m1|];
    assert m2 == (pre + m2 + post)[|pre|..|pre| + |m2|];
  }

  /** Two texts that differ only in the random number differ, when both fit. */
  lemma RandomSignsDifferently(authType: int, deviceName: string, rnd1: int, rnd2: int, productKey: string, t: nat)
    requires |SignatureText(authType, deviceName, rnd1, productKey, t)| < TEXT_CAP
    requires |SignatureText(authType, deviceName, rnd2, productKey, t)| < TEXT_CAP
    requires rnd1 != rnd2
    ensures SignatureInput(authType, deviceName, rnd1, productKey, t) != SignatureInput(authType, deviceName, rnd2, productKey, t)
  {
    SignatureTextAroundRandom(authType, deviceName, rnd1, productKey, t);
    SignatureTextAroundRandom(authType, deviceName, rnd2, productKey, t);
    if SignatureInput(authType, deviceName, rnd1, productKey, t) == SignatureInput(authType, deviceName, rnd2, productKey, t) {
      MiddleDetermined("auth_type=" + DecimalInt(authType) + Field("device_name", deviceName) + "&random_num=",
                       DecimalInt(rnd1), DecimalInt(rnd2), Field("product_key", productKey) + Field("timestamp", DecimalNat(t)));
      DecimalIntInjective(rnd1, rnd2);
    }
  }

  // ---------------------------------------------------------------- error mapping

  /** `volc_inter_err_2_ext_err`: the two licence errors keep their meaning, everything else is a plain failure. */
  function InterErrToExtErr(code: int): (r: int)
    ensures r == ERR_LICENSE_EXHAUSTED <==> code == INTER_LICENSE_EXHAUSTED
    ensures r == ERR_LICENSE_EXPIRED <==> code == INTER_LICENSE_EXPIRED
    ensures r == ERR_FAILED <==> code != INTER_LICENSE_EXHAUSTED && code != INTER_LICENSE_EXPIRED
    ensures r != ERR_NO_ERROR
  {
    if code == INTER_LICENSE_EXHAUSTED then ERR_LICENSE_EXHAUSTED
    else if code == INTER_LICENSE_EXPIRED then ERR_LICENSE_EXPIRED
    else ERR_FAILED
  }

  // ---------------------------------------------------------------- dynamic registration

  /** Whether an out-parameter was assigned, and with what. */
  datatype Written<T> = Untouched | Wrote(value: T)

  /** What `volc_device_register` leaves behind: its result, `*output`, `info->rtc_app_id`, and the request it sent. */
  datatype Registration = Registration(
    ret: int,
    output: Written<Option<string>>,
    rtcAppId: Written<string>,
    url: string,
    body: string)

  /** The registration URL; it fits the 256-byte buffer it is formatted into. */
  function RegisterUrl(): (u: string)
    ensures |u| < TEXT_CAP
  {
    IOT_HOST + DYNAMIC_REGISTER_PATH + "?" + API_ACTION_DYNAMIC_REGISTER + "&" + API_VERSION_QUERY_PARAM
  }

  /** The members registration posts, added in this order; `sig` is the signature. */
  function RegisterMembers(info: IotInfo, rnd: int, timestamp: int, sig: string): seq<Member>
  {
    var m3 := AddString(AddString(AddString([], "InstanceID", Some(info.instanceId)), "product_key", Some(info.productKey)),
                        "device_name", Some(info.deviceName));
    AddString(AddNumber(AddNumber(AddNumber(m3, "random_num", rnd), "timestamp", timestamp), "auth_type", 1),
              "signature", Some(sig))
  }

  /** The JSON object registration posts. */
  function RegisterRequest(info: IotInfo, nowMs: Uint64, f: Foreign): (r: Json)
    ensures r.JObject?
    ensures Keys(r.members) == ["InstanceID", "product_key", "device_name", "random_num", "timestamp", "auth_type", "signature"]
  {
    var rnd := ToInt32(nowMs);
    var sig := Signature(f, info.productSecret, SignatureInput(1, info.deviceName, rnd, info.productKey, nowMs));
    RegisterMembersKeys(info, rnd, nowMs, sig);
    JObject(RegisterMembers(info, rnd, nowMs, sig))
  }

  /** The registration members come in the order they are added. */
  lemma RegisterMembersKeys(info: IotInfo, rnd: int, timestamp: int, sig: string)
    ensures Keys(RegisterMembers(info, rnd, timestamp, sig))
      == ["InstanceID", "product_key", "device_name", "random_num", "timestamp", "auth_type", "signature"]
  {
    var m3 := AddString(AddString(AddString([], "InstanceID", Some(info.instanceId)), "product_key", Some(info.productKey)),
                        "device_name", Some(info.deviceName));
    assert Keys(m3) == ["InstanceID", "product_key", "device_name"];
    var m6 := AddNumber(AddNumber(AddNumber(m3, "random_num", rnd), "timestamp", timestamp), "auth_type", 1);
    assert Keys(m6) == ["InstanceID", "product_key", "device_name", "random_num", "timestamp", "auth_type"];
  }

  /** A lookup in the registration body meets the members in the order they were added. */
  lemma RegisterMembersLookup(info: IotInfo, rnd: int, timestamp: int, sig: string, key: string)
    ensures FirstMatch(RegisterMembers(info, rnd, timestamp, sig), key) ==
      if SameKey("InstanceID", key) then Some(JString(info.instanceId))
      else if SameKey("product_key", key) then Some(JString(info.productKey))
      else if SameKey("device_name", key) then Some(JString(info.deviceName))
      else if SameKey("random_num", key) then Some(JNumber(rnd))
      else if SameKey("timestamp", key) then Some(JNumber(timestamp))
      else if SameKey("auth_type", key) then Some(JNumber(1))
      else if SameKey("signature", key) then Some(JString(sig))
      else None
  {
    var m1 := AddString([], "InstanceID", Some(info.instanceId));
    var m2 := AddString(m1, "product_key", Some(info.productKey));
    var m3 := AddString(m2, "device_name", Some(info.deviceName));
    var m4 := AddNumber(m3, "random_num", rnd);
    var m5 := AddNumber(m4, "timestamp", timestamp);
    var m6 := AddNumber(m5, "auth_type", 1);
    FirstMatchAdded([], m1[0], key);
    FirstMatchAdded(m1, m2[1], key);
    FirstMatchAdded(m2, m3[2], key);
    FirstMatchAdded(m3, m4[3], key);
    FirstMatchAdded(m4, m5[4], key);
    FirstMatchAdded(m5, m6[5], key);
    FirstMatchAdded(m6, Member("signature", JString(sig)), key);
  }

  /** Registration signs with the product secret and `auth_type=1`, and `random_num` is the clock cut to 32 bits. */
  lemma RegisterRequestSigned(info: IotInfo, nowMs: Uint64, f: Foreign)
    ensures var req := Some(RegisterRequest(info, nowMs, f));
      && GetObjectItem(req, "signature") == Some(JString(f.hmacBase64(info.productSecret,
           SignatureInput(1, info.deviceName, ToInt32(nowMs), info.productKey, nowMs))))
      && GetObjectItem(req, "auth_type") == Some(JNumber(1))
      && GetObjectItem(req, "random_num") == Some(JNumber(ToInt32(nowMs)))
      && GetObjectItem(req, "timestamp") == Some(JNumber(nowMs))
  {
    var rnd := ToInt32(nowMs);
    var sig := Signature(f, info.productSecret, SignatureInput(1, info.deviceName, rnd, info.productKey, nowMs));
    RegisterMembersLookup(info, rnd, nowMs, sig, "signature");
    RegisterMembersLookup(info, rnd, nowMs, sig, "auth_type");
    RegisterMembersLookup(info, rnd, nowMs, sig, "random_num");
    RegisterMembersLookup(info, rnd, nowMs, sig, "timestamp");
    KeysDiffer("InstanceID", "signature");
    KeysDiffer("InstanceID", "auth_type");
    KeysDiffer("InstanceID", "random_num");
    KeysDiffer("InstanceID", "timestamp");
    KeysDiffer("product_key", "signature");
    KeysDiffer("product_key", "auth_type");
    KeysDiffer("product_key", "random_num");
    KeysDiffer("product_key", "timestamp");
    KeysDiffer("device_name", "signature");
    KeysDiffer("device_name", "auth_type");
    KeysDiffer("device_name", "random_num");
    KeysDiffer("device_name", "timestamp");
    KeysDiffer("random_num", "signature");
    KeysDiffer("random_num", "auth_type");
    KeysDiffer("random_num", "timestamp");
    KeysDiffer("timestamp", "signature");
    KeysDiffer("timestamp", "auth_type");
    KeysDiffer("auth_type", "signature");
    SameKeyEquivalence("signature", "auth_type", "random_num");
    SameKeyEquivalence("auth_type", "random_num", "timestamp");
    SameKeyEquivalence("random_num", "timestamp", "signature");
    SameKeyEquivalence("timestamp", "signature", "auth_type");
  }

  /** The checks `volc_device_register` makes of the server's reply, in the order it makes them. */
  function RegisterResponse(productSecret: string, response: Option<string>, f: Foreign): (r: (int, Written<Option<string>>, Written<string>))
    ensures response.None? ==> r.0 == -1
    ensures response.Some? && f.parse(response.value).None? ==> r.0 == -1
    ensures response.Some? && f.parse(response.value).Some? ==>
      var json := f.parse(response.value);
      var code := ReadInt(json, ["ResponseMetadata", "Error", "CodeN"]);
      && (code.Some? ==> r.0 == InterErrToExtErr(code.value))
      && (code.None? && ReadString(json, ["Result", "payload"]).None? ==> r.0 == -1)
      && (code.None? && ReadString(json, ["Result", "RTCAppID"]).None? ==> r.0 == -1)
    ensures r.0 == 0 <==>
      && response.Some?
      && f.parse(response.value).Some?
      && ReadInt(f.parse(response.value), ["ResponseMetadata", "Error", "CodeN"]).None?
      && ReadString(f.parse(response.value), ["Result", "payload"]).Some?
      && ReadString(f.parse(response.value), ["Result", "RTCAppID"]).Some?
    ensures r.0 == 0 ==>
      && r.1 == Wrote(f.aesDecode(productSecret, ReadString(f.parse(response.value), ["Result", "payload"]).value))
      && r.2 == Wrote(ReadString(f.parse(response.value), ["Result", "RTCAppID"]).value)
    ensures r.0 != 0 ==> r.1.Untouched? && r.2.Untouched?
  {
    if response.None? then (-1, Untouched, Untouched)
    else
      var json := f.parse(response.value);
      if json.None? then (-1, Untouched, Untouched)
      else
        var code := ReadInt(json, ["ResponseMetadata", "Error", "CodeN"]);
        if code.Some? then (InterErrToExtErr(code.value), Untouched, Untouched)
        else
          var payload := ReadString(json, ["Result", "payload"]);
          if payload.None? then (-1, Untouched, Untouched)
          else
            var appId := ReadString(json, ["Result", "RTCAppID"]);
            if appId.None? then (-1, Untouched, Untouched)
            else (0, Wrote(f.aesDecode(productSecret, payload.value)), Wrote(appId.value))
  }

  /** `volc_device_register`, with the clock reading `nowMs` as a parameter. */
  function DeviceRegister(info: IotInfo, nowMs: Uint64, f: Foreign): (r: Registration)
    ensures r.url == RegisterUrl() && r.body == f.serialize(RegisterRequest(info, nowMs, f))
    ensures var reply := RegisterResponse(info.productSecret, f.httpPost(r.url, r.body), f);
      r.ret == reply.0 && r.output == reply.1 && r.rtcAppId == reply.2
  {
    var url := RegisterUrl();
    var body := f.serialize(RegisterRequest(info, nowMs, f));
    var reply := RegisterResponse(info.productSecret, f.httpPost(url, body), f);
    Registration(reply.0, reply.1, reply.2, url, body)
  }

  /** Every result registration can return is success, -1, or one of the public failure codes. */
  lemma RegisterResultsAreKnown(info: IotInfo, nowMs: Uint64, f: Foreign)
    ensures DeviceRegister(info, nowMs, f).ret in {ERR_NO_ERROR, -1, ERR_FAILED, ERR_LICENSE_EXHAUSTED, ERR_LICENSE_EXPIRED}
  {
    var r := DeviceRegister(info, nowMs, f);
    var reply := RegisterResponse(info.productSecret, f.httpPost(r.url, r.body), f);
    assert r.ret == reply.0;
  }

  // ---------------------------------------------------------------- RTC configuration

  /** The four strings of `volc_room_info_t` that the RTC-config request fills in. */
  datatype RoomInfo = RoomInfo(channelName: Option<string>, uid: Option<string>, token: Option<string>, taskId: Option<string>)

  predicate Complete(room: RoomInfo)
  {
    room.channelName.Some? && room.uid.Some? && room.token.Some? && room.taskId.Some?
  }

  /** What `volc_get_rtc_config` leaves behind: its result, the room fields, and the request it sent. */
  datatype RtcConfigResult = RtcConfigResult(ret: int, room: RoomInfo, url: string, body: string)

  /** The RTC-config URL; it fits the 256-byte buffer it is formatted into. */
  function RtcConfigUrl(): (u: string)
    ensures |u| < TEXT_CAP
  {
    IOT_HOST + GET_RTC_CONFIG_PATH + "?" + API_ACTION_GET_RTC_CONFIG + "&" + API_VERSION_QUERY_PARAM
  }

  /** The members the RTC-config request posts, added in this order; a NULL bot or task id adds nothing. */
  function RtcConfigMembers(info: IotInfo, rnd: int, timestamp: int, sig: string, botId: Option<string>,
                            audioCodec: int, taskId: Option<string>): seq<Member>
  {
    var m3 := AddString(AddString(AddString([], "InstanceID", Some(info.instanceId)), "product_key", Some(info.productKey)),
                        "device_name", Some(info.deviceName));
    var m6 := AddString(AddNumber(AddNumber(m3, "random_num", rnd), "timestamp", timestamp), "signature", Some(sig));
    AddString(AddNumber(AddString(m6, "bot_id", botId), "audio_codec", audioCodec), "task_id", taskId)
  }

  /** The JSON object the RTC-config request posts. */
  function RtcConfigRequest(info: IotInfo, audioCodec: int, botId: Option<string>, taskId: Option<string>,
                            nowMs: Uint64, f: Foreign): (r: Json)
    requires info.deviceSecret.Some?
    ensures r.JObject?
    ensures Keys(r.members) == ["InstanceID", "product_key", "device_name", "random_num", "timestamp", "signature"]
      + (if botId.Some? then ["bot_id"] else []) + ["audio_codec"] + (if taskId.Some? then ["task_id"] else [])
  {
    var rnd := ToInt32(nowMs);
    var sig := Signature(f, info.deviceSecret.value, SignatureInput(0, info.deviceName, rnd, info.productKey, nowMs));
    RtcConfigMembersKeys(info, rnd, nowMs, sig, botId, audioCodec, taskId);
    JObject(RtcConfigMembers(info, rnd, nowMs, sig, botId, audioCodec, taskId))
  }

  /** The RTC-config members come in the order they are added, a NULL bot or task id leaving no key. */
  lemma RtcConfigMembersKeys(info: IotInfo, rnd: int, timestamp: int, sig: string, botId: Option<string>,
                             audioCodec: int, taskId: Option<string>)
    ensures Keys(RtcConfigMembers(info, rnd, timestamp, sig, botId, audioCodec, taskId))
      == ["InstanceID", "product_key", "device_name", "random_num", "timestamp", "signature"]
         + (if botId.Some? then ["bot_id"] else []) + ["audio_codec"] + (if taskId.Some? then ["task_id"] else [])
  {
    var m3 := AddString(AddString(AddString([], "InstanceID", Some(info.instanceId)), "product_key", Some(info.productKey)),
                        "device_name", Some(info.deviceName));
    var m6 := AddString(AddNumber(AddNumber(m3, "random_num", rnd), "timestamp", timestamp), "signature", Some(sig));
    var m7 := AddString(m6, "bot_id", botId);
    var m8 := AddNumber(m7, "audio_codec", audioCodec);
    var six := ["InstanceID", "product_key", "device_name", "random_num", "timestamp", "signature"];
    assert Keys(m6) == six;
    var k7 := six + (if botId.Some? then ["bot_id"] else []);
    if botId.Some? {
      KeysAdded(m6, Member("bot_id", JString(botId.value)));
    }
    assert Keys(m7) == k7;
    KeysAdded(m7, Member("audio_codec", JNumber(audioCodec)));
    assert Keys(m8) == k7 + ["audio_codec"];
    if taskId.Some? {
      KeysAdded(m8, Member("task_id", JString(taskId.value)));
    }
  }

  /** A lookup in the RTC-config body meets the members in the order they were added. */
  lemma RtcConfigMembersLookup(info: IotInfo, rnd: int, timestamp: int, sig: string, botId: Option<string>,
                               audioCodec: int, taskId: Option<string>, key: string)
    ensures FirstMatch(RtcConfigMembers(info, rnd, timestamp, sig, botId, audioCodec, taskId), key) ==
      if SameKey("InstanceID", key) then Some(JString(info.instanceId))
      else if SameKey("product_key", key) then Some(JString(info.productKey))
      else if SameKey("device_name", key) then Some(JString(info.deviceName))
      else if SameKey("random_num", key) then Some(JNumber(rnd))
      else if SameKey("timestamp", key) then Some(JNumber(timestamp))
      else if SameKey("signature", key) then Some(JString(sig))
      else if botId.Some? && SameKey("bot_id", key) then Some(JString(botId.value))
      else if SameKey("audio_codec", key) then Some(JNumber(audioCodec))
      else if taskId.Some? && SameKey("task_id", key) then Some(JString(taskId.value))
      else None
  {
    var m1 := AddString([], "InstanceID", Some(info.instanceId));
    var m2 := AddString(m1, "product_key", Some(info.productKey));
    var m3 := AddString(m2, "device_name", Some(info.deviceName));
    var m4 := AddNumber(m3, "random_num", rnd);
    var m5 := AddNumber(m4, "timestamp", timestamp);
    var m6 := AddString(m5, "signature", Some(sig));
    var m7 := AddString(m6, "bot_id", botId);
    var m8 := AddNumber(m7, "audio_codec", audioCodec);
    FirstMatchAdded([], m1[0], key);
    FirstMatchAdded(m1, m2[1], key);
    FirstMatchAdded(m2, m3[2], key);
    FirstMatchAdded(m3, m4[3], key);
    FirstMatchAdded(m4, m5[4], key);
    FirstMatchAdded(m5, m6[5], key);
    if botId.Some? {
      FirstMatchAdded(m6, Member("bot_id", JString(botId.value)), key);
    }
    FirstMatchAdded(m7, Member("audio_codec", JNumber(audioCodec)), key);
    if taskId.Some? {
      FirstMatchAdded(m8, Member("task_id", JString(taskId.value)), key);
    }
  }

  /** The RTC-config body carries the signature it was built with. */
  lemma RtcConfigMembersSignature(info: IotInfo, rnd: int, timestamp: int, sig: string, botId: Option<string>,
                                  audioCodec: int, taskId: Option<string>)
    ensures FirstMatch(RtcConfigMembers(info, rnd, timestamp, sig, botId, audioCodec, taskId), "signature") == Some(JString(sig))
  {
    RtcConfigMembersLookup(info, rnd, timestamp, sig, botId, audioCodec, taskId, "signature");
    KeysDiffer("InstanceID", "signature");
    KeysDiffer("product_key", "signature");
    KeysDiffer("device_name", "signature");
    KeysDiffer("random_num", "signature");
    KeysDiffer("timestamp", "signature");
    SameKeyEquivalence("signature", "signature", "signature");
  }

  /** The RTC-config body carries the random number it was built with. */
  lemma RtcConfigMembersRandom(info: IotInfo, rnd: int, timestamp: int, sig: string, botId: Option<string>,
                               audioCodec: int, taskId: Option<string>)
    ensures FirstMatch(RtcConfigMembers(info, rnd, timestamp, sig, botId, audioCodec, taskId), "random_num") == Some(JNumber(rnd))
  {
    RtcConfigMembersLookup(info, rnd, timestamp, sig, botId, audioCodec, taskId, "random_num");
    KeysDiffer("InstanceID", "random_num");
    KeysDiffer("product_key", "random_num");
    KeysDiffer("device_name", "random_num");
    SameKeyEquivalence("random_num", "random_num", "random_num");
  }

  /** The RTC-config body has no `auth_type` member. */
  lemma RtcConfigMembersNoAuthType(info: IotInfo, rnd: int, timestamp: int, sig: string, botId: Option<string>,
                                   audioCodec: int, taskId: Option<string>)
    ensures FirstMatch(RtcConfigMembers(info, rnd, timestamp, sig, botId, audioCodec, taskId), "auth_type") == None
  {
    RtcConfigMembersLookup(info, rnd, timestamp, sig, botId, audioCodec, taskId, "auth_type");
    KeysDiffer("InstanceID", "auth_type");
    KeysDiffer("product_key", "auth_type");
    KeysDiffer("device_name", "auth_type");
    KeysDiffer("random_num", "auth_type");
    KeysDiffer("timestamp", "auth_type");
    KeysDiffer("signature", "auth_type");
    KeysDiffer("bot_id", "auth_type");
    KeysDiffer("audio_codec", "auth_type");
    KeysDiffer("task_id", "auth_type");
  }

  /** The RTC-config request signs with the device secret and `auth_type=0`, with the same 32-bit `random_num`. */
  lemma RtcConfigRequestSigned(info: IotInfo, audioCodec: int, botId: Option<string>, taskId: Option<string>,
                               nowMs: Uint64, f: Foreign)
    requires info.deviceSecret.Some?
    ensures var req := Some(RtcConfigRequest(info, audioCodec, botId, taskId, nowMs, f));
      && GetObjectItem(req, "signature") == Some(JString(f.hmacBase64(info.deviceSecret.value,
           SignatureInput(0, info.deviceName, ToInt32(nowMs), info.productKey, nowMs))))
      && GetObjectItem(req, "random_num") == Some(JNumber(ToInt32(nowMs)))
      && GetObjectItem(req, "auth_type") == None
  {
    var rnd := ToInt32(nowMs);
    var sig := Signature(f, info.deviceSecret.value, SignatureInput(0, info.deviceName, rnd, info.productKey, nowMs));
    RtcConfigMembersSignature(info, rnd, nowMs, sig, botId, audioCodec, taskId);
    RtcConfigMembersRandom(info, rnd, nowMs, sig, botId, audioCodec, taskId);
    RtcConfigMembersNoAuthType(info, rnd, nowMs, sig, botId, audioCodec, taskId);
  }

  /** A field `volc_json_read_string` could not read keeps what it held. */
  function Keep(prior: Option<string>, read: Option<string>): (r: Option<string>)
    ensures read.Some? ==> r == read
    ensures read.None? ==> r == prior
  {
    if read.Some? then read else prior
  }

  /** The checks `volc_get_rtc_config` makes of the server's reply. A reply that does not parse is not checked. */
  function RtcConfigResponse(response: Option<string>, room: RoomInfo, f: Foreign): (r: (int, RoomInfo))
    ensures response.None? ==> r.0 == -1 && r.1 == room
    ensures response.Some? ==>
      var json := f.parse(response.value);
      r.1 == RoomInfo(Keep(room.channelName, ReadString(json, ["Result", "RoomID"])),
                      Keep(room.uid, ReadString(json, ["Result", "UserID"])),
                      Keep(room.token, ReadString(json, ["Result", "Token"])),
                      Keep(room.taskId, ReadString(json, ["Result", "TaskID"])))
    ensures r.0 == 0 <==> response.Some? && Complete(r.1)
    ensures r.0 == 0 || r.0 == -1
  {
    if response.None? then (-1, room)
    else
      var json := f.parse(response.value);
      var room' := RoomInfo(Keep(room.channelName, ReadString(json, ["Result", "RoomID"])),
                            Keep(room.uid, ReadString(json, ["Result", "UserID"])),
                            Keep(room.token, ReadString(json, ["Result", "Token"])),
                            Keep(room.taskId, ReadString(json, ["Result", "TaskID"])));
      if Complete(room') then (0, room') else (-1, room')
  }

  /** `volc_get_rtc_config`, with the clock reading `nowMs` as a parameter and `room` the caller's room info. */
  function GetRtcConfig(info: IotInfo, audioCodec: int, botId: Option<string>, taskId: Option<string>,
                        room: RoomInfo, nowMs: Uint64, f: Foreign): (r: RtcConfigResult)
    requires info.deviceSecret.Some?
    ensures r.url == RtcConfigUrl() && r.body == f.serialize(RtcConfigRequest(info, audioCodec, botId, taskId, nowMs, f))
    ensures var reply := RtcConfigResponse(f.httpPost(r.url, r.body), room, f);
      r.ret == reply.0 && r.room == reply.1
  {
    var url := RtcConfigUrl();
    var body := f.serialize(RtcConfigRequest(info, audioCodec, botId, taskId, nowMs, f));
    var reply := RtcConfigResponse(f.httpPost(url, body), room, f);
    RtcConfigResult(reply.0, reply.1, url, body)
  }

  /** Starting from an empty room, success means the reply carried all four strings. */
  lemma RtcConfigFromEmptyRoom(response: Option<string>, f: Foreign)
    ensures var empty := RoomInfo(None, None, None, None);
      RtcConfigResponse(response, empty, f).0 == 0 <==>
        && response.Some?
        && ReadString(f.parse(response.value), ["Result", "RoomID"]).Some?
        && ReadString(f.parse(response.value), ["Result", "UserID"]).Some?
        && ReadString(f.parse(response.value), ["Result", "Token"]).Some?
        && ReadString(f.parse(response.value), ["Result", "TaskID"]).Some?
  {
  }

  /**
   * A reply that does not parse reads nothing: the room is left as it was, so the result is 0
   * exactly when the caller's room was already complete.
   */
  lemma RtcConfigUnparsedKeepsRoom(response: string, room: RoomInfo, f: Foreign)
    requires f.parse(response).None?
    ensures RtcConfigResponse(Some(response), room, f) == (if Complete(room) then 0 else -1, room)
  {
    ReadPathFromNothing(["Result", "RoomID"]);
    ReadPathFromNothing(["Result", "UserID"]);
    ReadPathFromNothing(["Result", "Token"]);
    ReadPathFromNothing(["Result", "TaskID"]);
  }
}
