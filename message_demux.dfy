/**
 * The inbound-message handling of the high-quality ESP32 kit: a message frame is `tag(4) | length(4) | JSON`,
 * copied into a static 4096-byte buffer, NUL-terminated, parsed from offset 8, and dispatched on its
 * 4-byte tag; a `subv` frame whose JSON has `"type": "subtitle"` yields one subtitle line per element of
 * `data` that has both `userId` and `text`.
 */
module MessageDemux {
  import opened Common
  import opened Json

  /** The size of the static `message_buffer`. */
  const MESSAGE_BUFFER_SIZE: nat := 4096

  /** Where the JSON text starts: after the 4-byte tag and the 4-byte length. */
  const HEADER_SIZE: nat := 8

  /** The C literal `"subv"`, with its NUL. */
  const SUBV: seq<Byte> := [0x73, 0x75, 0x62, 0x76, 0x00]

  // ---------------------------------------------------------------- the tag check

  /** Four bytes as one little-endian 32-bit word. */
  function Pack(b0: Byte, b1: Byte, b2: Byte, b3: Byte): bv32
  {
    (b0 as bv32) | ((b1 as bv32) << 8) | ((b2 as bv32) << 16) | ((b3 as bv32) << 24)
  }

  /** Each byte can be read back out of the word. */
  lemma Unpack(b0: Byte, b1: Byte, b2: Byte, b3: Byte)
    ensures (Pack(b0, b1, b2, b3) & 0xFF) as Byte == b0
    ensures ((Pack(b0, b1, b2, b3) >> 8) & 0xFF) as Byte == b1
    ensures ((Pack(b0, b1, b2, b3) >> 16) & 0xFF) as Byte == b2
    ensures (Pack(b0, b1, b2, b3) >> 24) as Byte == b3
  {
  }

  /** Different bytes make different words. */
  lemma PackInjective(a0: Byte, a1: Byte, a2: Byte, a3: Byte, b0: Byte, b1: Byte, b2: Byte, b3: Byte)
    requires Pack(a0, a1, a2, a3) == Pack(b0, b1, b2, b3)
    ensures a0 == b0 && a1 == b1 && a2 == b2 && a3 == b3
  {
    Unpack(a0, a1, a2, a3);
    Unpack(b0, b1, b2, b3);
  }

  /** `*(const uint32_t*)p` on a little-endian target: the first four bytes as one 32-bit word. */
  function Word(s: seq<Byte>): (w: bv32)
    requires |s| >= 4
  {
    Pack(s[0], s[1], s[2], s[3])
  }

  /** Two words loaded this way are equal exactly when the four bytes are. */
  lemma WordEqual(a: seq<Byte>, b: seq<Byte>)
    requires |a| >= 4 && |b| >= 4
    ensures Word(a) == Word(b) <==> a[..4] == b[..4]
  {
    if Word(a) == Word(b) {
      PackInjective(a[0], a[1], a[2], a[3], b[0], b[1], b[2], b[3]);
    }
    assert a[..4] == [a[0], a[1], a[2], a[3]];
    assert b[..4] == [b[0], b[1], b[2], b[3]];
  }

  /** `_is_target_message`: false for a NULL message or target, else whether the first four bytes agree. */
  function IsTargetMessage(message: Option<seq<Byte>>, target: Option<seq<Byte>>): (r: bool)
    requires message.Some? ==> |message.value| >= 4
    requires target.Some? ==> |target.value| >= 4
    ensures r <==> message.Some? && target.Some? && message.value[..4] == target.value[..4]
  {
    WordEqualOn(message, target);
    message.Some? && target.Some? && Word(message.value) == Word(target.value)
  }

  lemma WordEqualOn(message: Option<seq<Byte>>, target: Option<seq<Byte>>)
    requires message.Some? ==> |message.value| >= 4
    requires target.Some? ==> |target.value| >= 4
    ensures message.Some? && target.Some? ==> (Word(message.value) == Word(target.value) <==> message.value[..4] == target.value[..4])
  {
    if message.Some? && target.Some? {
      WordEqual(message.value, target.value);
    }
  }

  // ---------------------------------------------------------------- subtitles

  /** One line `on_subtitle_message_received` logs: the string values of `userId` and `text` (NULL when not strings). */
  datatype Entry = Entry(userId: Option<string>, text: Option<string>)

  /** The line one element of `data` yields: only when it has both keys, whatever their types. */
  function EntryOf(element: Json): (r: Option<Entry>)
    ensures r.Some? <==> GetObjectItem(Some(element), "userId").Some? && GetObjectItem(Some(element), "text").Some?
    ensures r.Some? ==> r.value == Entry(StringValue(GetObjectItem(Some(element), "userId")), StringValue(GetObjectItem(Some(element), "text")))
  {
    var userId := GetObjectItem(Some(element), "userId");
    var text := GetObjectItem(Some(element), "text");
    if userId.Some? && text.Some? then Some(Entry(StringValue(userId), StringValue(text))) else None
  }

  /** The lines the elements yield, in order. */
  function EntriesOf(elements: seq<Json>): (r: seq<Entry>)
    ensures |r| <= |elements|
    decreases |elements|
  {
    if |elements| == 0 then []
    else
      var e := EntryOf(elements[|elements| - 1]);
      EntriesOf(elements[..|elements| - 1]) + (if e.Some? then [e.value] else [])
  }

  /** Elements are handled one at a time: the lines of two runs of elements are the lines of each, in order. */
  lemma {:induction false} EntriesOfAppend(a: seq<Json>, b: seq<Json>)
    ensures EntriesOf(a + b) == EntriesOf(a) + EntriesOf(b)
    decreases |b|
  {
    if |b| == 0 {
      assert a + b == a;
    } else {
      var b' := b[..|b| - 1];
      assert (a + b)[..|a + b| - 1] == a + b';
      assert (a + b)[|a + b| - 1] == b[|b| - 1];
      EntriesOfAppend(a, b');
    }
  }

  /** Each line comes from one element, and no element yields more than one: there are at most as many lines as elements. */
  lemma {:induction false} EntriesOfSound(elements: seq<Json>)
    ensures |EntriesOf(elements)| <= |elements|
    ensures forall k :: 0 <= k < |EntriesOf(elements)| ==>
      exists i :: 0 <= i < |elements| && EntryOf(elements[i]) == Some(EntriesOf(elements)[k])
    decreases |elements|
  {
    if |elements| > 0 {
      var init := elements[..|elements| - 1];
      EntriesOfSound(init);
      forall k | 0 <= k < |EntriesOf(init)|
        ensures exists i :: 0 <= i < |elements| && EntryOf(elements[i]) == Some(EntriesOf(elements)[k])
      {
        var i :| 0 <= i < |init| && EntryOf(init[i]) == Some(EntriesOf(init)[k]);
        assert elements[i] == init[i];
      }
    }
  }

  /** When every element has both keys, the lines are the elements' lines one for one. */
  lemma {:induction false} EntriesOfComplete(elements: seq<Json>)
    requires forall i :: 0 <= i < |elements| ==> EntryOf(elements[i]).Some?
    ensures |EntriesOf(elements)| == |elements|
    ensures forall i :: 0 <= i < |elements| ==> Some(EntriesOf(elements)[i]) == EntryOf(elements[i])
    decreases |elements|
  {
    if |elements| > 0 {
      var init := elements[..|elements| - 1];
      assert forall i :: 0 <= i < |init| ==> init[i] == elements[i];
      EntriesOfComplete(init);
    }
  }

  /**
   * The type check as written: `strcmp("subtitle", cJSON_GetStringValue(type))` once `type` is present.
   * `None` stands for a `type` that is present but not a string, where the comparison is handed NULL.
   */
  function TypeIsSubtitleAsWritten(root: Json): (r: Option<bool>)
    ensures r.None? <==> GetObjectItem(Some(root), "type").Some? && StringValue(GetObjectItem(Some(root), "type")).None?
    ensures r == Some(true) <==> StringValue(GetObjectItem(Some(root), "type")) == Some("subtitle")
  {
    var typeItem := GetObjectItem(Some(root), "type");
    if typeItem.None? then Some(false)
    else
      var s := StringValue(typeItem);
      if s.None? then None else Some(s.value == "subtitle")
  }

  /** A `type` member holding a number reaches the comparison with NULL. */
  lemma NumericTypeReachesNull()
    ensures TypeIsSubtitleAsWritten(JObject([Member("type", JNumber(7))])).None?
  {
    var root := JObject([Member("type", JNumber(7))]);
    assert SameKey("type", "type");
    assert GetObjectItem(Some(root), "type") == Some(JNumber(7));
  }

  /** The type check as intended: a `type` that is not the string "subtitle" is not a subtitle. */
  function TypeIsSubtitle(root: Json): (r: bool)
    ensures r <==> StringValue(GetObjectItem(Some(root), "type")) == Some("subtitle")
    ensures r <==> TypeIsSubtitleAsWritten(root) == Some(true)
  {
    StringValue(GetObjectItem(Some(root), "type")) == Some("subtitle")
  }

  /** The lines a parsed subtitle message yields. */
  function SubtitleEntries(root: Json): seq<Entry>
  {
    if TypeIsSubtitle(root) then EntriesOf(Children(GetObjectItem(Some(root), "data"))) else []
  }

  /** `on_subtitle_message_received`, with the intended type check: the lines it logs. */
  method OnSubtitle(root: Json) returns (entries: seq<Entry>)
    ensures entries == SubtitleEntries(root)
    ensures !TypeIsSubtitle(root) ==> entries == []
  {
    entries := [];
    if !TypeIsSubtitle(root) {
      return;
    }
    var data := Children(GetObjectItem(Some(root), "data"));
    var i := 0;
    while i < |data|
      invariant 0 <= i <= |data|
      invariant entries == EntriesOf(data[..i])
    {
      var e := EntryOf(data[i]);
      assert data[..i + 1][..i] == data[..i];
      if e.Some? {
        entries := entries + [e.value];
      }
      i := i + 1;
    }
    assert data[..|data|] == data;
  }

  // ---------------------------------------------------------------- the frame

  /** The text `cJSON_Parse` reads from a NUL-terminated buffer: everything before the first NUL. */
  function CString(s: seq<Byte>): (r: seq<Byte>)
    ensures r <= s
    ensures forall k :: 0 <= k < |r| ==> r[k] != 0
    ensures |r| < |s| ==> s[|r|] == 0
    decreases |s|
  {
    if |s| == 0 || s[0] == 0 then [] else [s[0]] + CString(s[1..])
  }

  /** A NUL ends the text: what follows it is never read. */
  lemma {:induction false} CStringStops(x: seq<Byte>, y: seq<Byte>)
    ensures CString(x + [0] + y) == CString(x)
    decreases |x|
  {
    if |x| > 0 && x[0] != 0 {
      assert (x + [0] + y)[1..] == x[1..] + [0] + y;
      CStringStops(x[1..], y);
    }
  }

  /** What becomes of one inbound message. */
  datatype Outcome =
    | TooShort                    // no more than the 8-byte header: "unknown message"
    | Unparsed                    // the text after the header is not JSON: "unknown message"
    | Subtitles(lines: seq<Entry>)  // a `subv` frame
    | OtherJson(text: seq<Byte>)  // JSON under another tag: "unknown json message", with its text

  /** The text of a message after its header, as the parser sees it. */
  function Payload(message: seq<Byte>): seq<Byte>
    requires |message| > HEADER_SIZE
  {
    CString(message[HEADER_SIZE..])
  }

  /** A buffer holding the message and then a NUL shows the parser the message's own text. */
  lemma BufferText(buffer: seq<Byte>, message: seq<Byte>)
    requires HEADER_SIZE < |message| < |buffer|
    requires buffer[..|message|] == message && buffer[|message|] == 0
    ensures CString(buffer[HEADER_SIZE..]) == Payload(message)
  {
    var rest := buffer[|message| + 1..];
    assert buffer[HEADER_SIZE..] == message[HEADER_SIZE..] + [0] + rest;
    CStringStops(message[HEADER_SIZE..], rest);
  }

  /**
   * What the callback demands of the transport: a message longer than the header must fit the static
   * buffer together with its two NULs, since the copy is not checked against the buffer's size.
   */
  predicate FitsBuffer(message: seq<Byte>)
  {
    |message| <= HEADER_SIZE || |message| + 2 <= MESSAGE_BUFFER_SIZE
  }

  /** The outcome of a message, from the message alone. */
  function Demux(message: seq<Byte>, parse: seq<Byte> -> Option<Json>): (r: Outcome)
    requires FitsBuffer(message)
    ensures r == TooShort <==> |message| <= HEADER_SIZE
    ensures r.Subtitles? ==> IsTargetMessage(Some(message), Some(SUBV))
    ensures r.OtherJson? ==> r.text == Payload(message) && !IsTargetMessage(Some(message), Some(SUBV))
  {
    if |message| <= HEADER_SIZE then TooShort
    else
      match parse(Payload(message))
      case None => Unparsed
      case Some(root) =>
        if IsTargetMessage(Some(message), Some(SUBV)) then Subtitles(SubtitleEntries(root))
        else OtherJson(Payload(message))
  }

  /**
   * `_on_volc_message_data`. `buffer` is the static buffer, which keeps the bytes of earlier messages;
   * `parse` is `cJSON_Parse`.
   */
  method OnMessageData(message: seq<Byte>, buffer: array<Byte>, parse: seq<Byte> -> Option<Json>) returns (outcome: Outcome)
    requires buffer.Length == MESSAGE_BUFFER_SIZE
    requires FitsBuffer(message)
    modifies buffer
    ensures outcome == Demux(message, parse)
    ensures HEADER_SIZE < |message| ==>
      && buffer[..|message|] == message
      && buffer[|message|] == 0 && buffer[|message| + 1] == 0
      && buffer[|message| + 2..] == old(buffer[|message| + 2..])
    ensures |message| <= HEADER_SIZE ==> buffer[..] == old(buffer[..])
  {
    if |message| <= HEADER_SIZE {
      return TooShort;
    }
    StoreMessage(buffer, message);
    BufferText(buffer[..], message);
    var text := CString(buffer[HEADER_SIZE..]);
    var root := parse(text);
    if root.None? {
      return Unparsed;
    }
    if IsTargetMessage(Some(message), Some(SUBV)) {
      var lines := OnSubtitle(root.value);
      outcome := Subtitles(lines);
    } else {
      outcome := OtherJson(text);
    }
  }

  /** The copy into the static buffer and the two NULs after it. */
  method StoreMessage(buffer: array<Byte>, message: seq<Byte>)
    requires |message| + 2 <= buffer.Length
    modifies buffer
    ensures buffer[..|message|] == message
    ensures buffer[|message|] == 0 && buffer[|message| + 1] == 0
    ensures buffer[|message| + 2..] == old(buffer[|message| + 2..])
  {
    CopyInto(buffer, 0, message);
    buffer[|message|] := 0;
    buffer[|message| + 1] := 0;
    assert buffer[..|message|] == message;
  }

  // ---------------------------------------------------------------- properties of the demux

  /** Only the tag selects the handler: the 4-byte length field is never read, so two messages differing only there fare alike. */
  lemma LengthFieldIgnored(m1: seq<Byte>, m2: seq<Byte>, parse: seq<Byte> -> Option<Json>)
    requires |m1| == |m2| && |m1| > HEADER_SIZE && FitsBuffer(m1)
    requires m1[..4] == m2[..4] && m1[HEADER_SIZE..] == m2[HEADER_SIZE..]
    ensures Demux(m1, parse) == Demux(m2, parse)
  {
  }

  /**
   * The four outcomes and when each happens: a header-sized message is refused whatever the parser would
   * say, unparsable text dispatches nothing, a `subv` tag yields the subtitle lines, any other tag is
   * reported with its text.
   */
  lemma DemuxCases(message: seq<Byte>, parse: seq<Byte> -> Option<Json>)
    requires FitsBuffer(message)
    ensures Demux(message, parse) == TooShort <==> |message| <= HEADER_SIZE
    ensures Demux(message, parse) == Unparsed <==> |message| > HEADER_SIZE && parse(Payload(message)).None?
    ensures Demux(message, parse).Subtitles? <==>
      |message| > HEADER_SIZE && parse(Payload(message)).Some? && message[..4] == SUBV[..4]
    ensures Demux(message, parse).Subtitles? ==>
      Demux(message, parse).lines == SubtitleEntries(parse(Payload(message)).value)
    ensures Demux(message, parse).OtherJson? <==>
      |message| > HEADER_SIZE && parse(Payload(message)).Some? && message[..4] != SUBV[..4]
    ensures Demux(message, parse).OtherJson? ==> Demux(message, parse).text == Payload(message)
  {
  }

  /** Bytes after the first NUL of the JSON text never reach the parser. */
  lemma TextEndsAtNul(head: seq<Byte>, text: seq<Byte>, tail: seq<Byte>)
    requires |head| == HEADER_SIZE
    ensures |head + text + [0] + tail| > HEADER_SIZE
    ensures Payload(head + text + [0] + tail) == CString(text)
  {
    assert (head + text + [0] + tail)[HEADER_SIZE..] == text + [0] + tail;
    CStringStops(text, tail);
  }
}
