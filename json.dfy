/**
 * The slice of the cJSON library the core relies on, as a value tree: object lookup
 * (`cJSON_GetObjectItem`, which ignores ASCII case), iteration (`cJSON_ArrayForEach`),
 * `cJSON_GetStringValue`, and the dotted-path readers `volc_json_read_string` / `volc_json_read_int`.
 * Parsing and printing stay abstract; callers receive them as functions.
 */
module Json {
  import opened Common

  /** A parsed cJSON node. Numbers keep the integer view (`valueint`) the core reads. */
  datatype Json =
    | JNull
    | JFalse
    | JTrue
    | JNumber(num: int)
    | JString(str: string)
    | JArray(items: seq<Json>)
    | JObject(members: seq<Member>)

  /** One `"key" : value` entry of an object, in document order. */
  datatype Member = Member(key: string, value: Json)

  /** `tolower` on one character of the C locale. */
  function Lower(c: char): (r: char)
    ensures ('A' <= c <= 'Z') ==> r as int == c as int + 32
    ensures !('A' <= c <= 'Z') ==> r == c
    ensures !('A' <= r <= 'Z')
  {
    if 'A' <= c <= 'Z' then (c as int + 32) as char else c
  }

  /** `case_insensitive_strcmp(a, b) == 0`. */
  predicate SameKey(a: string, b: string)
  {
    |a| == |b| && forall i :: 0 <= i < |a| ==> Lower(a[i]) == Lower(b[i])
  }

  lemma SameKeyEquivalence(a: string, b: string, c: string)
    ensures SameKey(a, a)
    ensures SameKey(a, b) ==> SameKey(b, a)
    ensures SameKey(a, b) && SameKey(b, c) ==> SameKey(a, c)
  {
  }

  /** Keys of different lengths, or whose first letters differ, never match. */
  lemma KeysDiffer(a: string, b: string)
    requires |a| != |b| || (0 < |a| && Lower(a[0]) != Lower(b[0]))
    ensures !SameKey(a, b)
  {
  }

  /** Member `i` is the first whose key matches `key`. */
  predicate FirstMatchAt(ms: seq<Member>, key: string, i: int)
    requires 0 <= i < |ms|
  {
    SameKey(ms[i].key, key) && forall j :: 0 <= j < i ==> !SameKey(ms[j].key, key)
  }

  /**
   * The value of the first member whose key matches `key`: the member cJSON's lookup stops at when it
   * walks the members from the first. Defined from the last member back, the shape objects are built in.
   */
  function FirstMatch(ms: seq<Member>, key: string): Option<Json>
    decreases |ms|
  {
    if |ms| == 0 then None
    else
      var r := FirstMatch(ms[..|ms| - 1], key);
      if r.Some? then r
      else if SameKey(ms[|ms| - 1].key, key) then Some(ms[|ms| - 1].value)
      else None
  }

  /** The lookup finds nothing exactly when no key matches, and otherwise the value of the first member that matches. */
  lemma {:induction false} FirstMatchSpec(ms: seq<Member>, key: string)
    ensures FirstMatch(ms, key).None? <==> forall i :: 0 <= i < |ms| ==> !SameKey(ms[i].key, key)
    ensures FirstMatch(ms, key).Some? ==>
      exists i :: 0 <= i < |ms| && FirstMatchAt(ms, key, i) && FirstMatch(ms, key).value == ms[i].value
    decreases |ms|
  {
    if |ms| > 0 {
      var init := ms[..|ms| - 1];
      FirstMatchSpec(init, key);
      assert forall i :: 0 <= i < |init| ==> init[i] == ms[i];
      if FirstMatch(init, key).Some? {
        var i :| 0 <= i < |init| && FirstMatchAt(init, key, i) && FirstMatch(init, key).value == init[i].value;
        assert FirstMatchAt(ms, key, i);
      } else if SameKey(ms[|ms| - 1].key, key) {
        assert FirstMatchAt(ms, key, |ms| - 1);
      }
    }
  }

  /** A member added at the end is found only when no earlier member matches. */
  lemma FirstMatchAdded(ms: seq<Member>, m: Member, key: string)
    ensures FirstMatch(ms + [m], key) ==
      if FirstMatch(ms, key).Some? then FirstMatch(ms, key)
      else if SameKey(m.key, key) then Some(m.value)
      else None
  {
    assert (ms + [m])[..|ms|] == ms;
  }

  /**
   * `cJSON_GetObjectItem`: NULL for a NULL node and for every node that is not an object
   * (an array's children carry no key, so no key matches them).
   */
  function GetObjectItem(j: Option<Json>, key: string): (r: Option<Json>)
    ensures !(j.Some? && j.value.JObject?) ==> r.None?
    ensures j.Some? && j.value.JObject? ==> r == FirstMatch(j.value.members, key)
  {
    match j
    case Some(JObject(ms)) => FirstMatch(ms, key)
    case _ => None
  }

  /** The nodes `cJSON_ArrayForEach` visits: the elements of an array, the values of an object, else none. */
  function Children(j: Option<Json>): seq<Json>
  {
    match j
    case Some(JArray(items)) => items
    case Some(JObject(ms)) => seq(|ms|, i requires 0 <= i < |ms| => ms[i].value)
    case _ => []
  }

  /** `cJSON_GetStringValue`: the text of a string node, NULL for anything else. */
  function StringValue(j: Option<Json>): (r: Option<string>)
    ensures r.Some? <==> j.Some? && j.value.JString?
    ensures r.Some? ==> j == Some(JString(r.value))
  {
    match j
    case Some(JString(s)) => Some(s)
    case _ => None
  }

  /** The node `volc_json_read_*` reaches by following the dot-separated `path`, one object lookup per segment. */
  function ReadPath(j: Option<Json>, path: seq<string>): (r: Option<Json>)
    decreases |path|
  {
    if |path| == 0 then j else ReadPath(GetObjectItem(j, path[0]), path[1..])
  }

  /** A missing node stays missing whatever path follows. */
  lemma {:induction false} ReadPathFromNothing(path: seq<string>)
    ensures ReadPath(None, path) == None
    decreases |path|
  {
    if |path| > 0 {
      ReadPathFromNothing(path[1..]);
    }
  }

  /** Following `p` then `q` is following `p + q`: a dotted path splits at any dot. */
  lemma {:induction false} ReadPathConcat(j: Option<Json>, p: seq<string>, q: seq<string>)
    ensures ReadPath(j, p + q) == ReadPath(ReadPath(j, p), q)
    decreases |p|
  {
    if |p| == 0 {
      assert p + q == q;
    } else {
      assert (p + q)[0] == p[0];
      assert (p + q)[1..] == p[1..] + q;
      ReadPathConcat(GetObjectItem(j, p[0]), p[1..], q);
    }
  }

  /** `volc_json_read_string`: succeeds exactly when the path ends at a string node. */
  function ReadString(j: Option<Json>, path: seq<string>): (r: Option<string>)
    ensures r.Some? <==> ReadPath(j, path).Some? && ReadPath(j, path).value.JString?
    ensures r.Some? ==> ReadPath(j, path) == Some(JString(r.value))
  {
    StringValue(ReadPath(j, path))
  }

  /** `volc_json_read_int`: succeeds exactly when the path ends at a number node. */
  function ReadInt(j: Option<Json>, path: seq<string>): (r: Option<int>)
    ensures r.Some? <==> ReadPath(j, path).Some? && ReadPath(j, path).value.JNumber?
    ensures r.Some? ==> ReadPath(j, path) == Some(JNumber(r.value))
  {
    match ReadPath(j, path)
    case Some(JNumber(n)) => Some(n)
    case _ => None
  }

  /** The keys of an object's members, in document order. */
  function Keys(ms: seq<Member>): seq<string>
    decreases |ms|
  {
    if |ms| == 0 then [] else Keys(ms[..|ms| - 1]) + [ms[|ms| - 1].key]
  }

  /** A member added at the end adds its key at the end. */
  lemma KeysAdded(ms: seq<Member>, m: Member)
    ensures Keys(ms + [m]) == Keys(ms) + [m.key]
  {
    assert (ms + [m])[..|ms|] == ms;
  }

  /**
   * `cJSON_AddStringToObject`: the key joins the end of the object's keys; a NULL value adds nothing
   * (the string node cannot be made). `AddStringLookup` states what lookups then find.
   */
  function AddString(ms: seq<Member>, key: string, value: Option<string>): (r: seq<Member>)
    ensures Keys(r) == Keys(ms) + (if value.Some? then [key] else [])
  {
    if value.Some? then
      var m := Member(key, JString(value.value));
      KeysAdded(ms, m);
      ms + [m]
    else ms
  }

  /** After `cJSON_AddStringToObject`, a lookup finds the new string only when no earlier member matches. */
  lemma AddStringLookup(ms: seq<Member>, key: string, value: Option<string>, k: string)
    ensures FirstMatch(AddString(ms, key, value), k) ==
      if FirstMatch(ms, k).Some? then FirstMatch(ms, k)
      else if value.Some? && SameKey(key, k) then Some(JString(value.value))
      else None
  {
    if value.Some? {
      FirstMatchAdded(ms, Member(key, JString(value.value)), k);
    }
  }

  /** `cJSON_AddNumberToObject`: the key joins the end of the object's keys. `AddNumberLookup` states what lookups then find. */
  function AddNumber(ms: seq<Member>, key: string, value: int): (r: seq<Member>)
    ensures Keys(r) == Keys(ms) + [key]
  {
    var m := Member(key, JNumber(value));
    KeysAdded(ms, m);
    ms + [m]
  }

  /** After `cJSON_AddNumberToObject`, a lookup finds the new number only when no earlier member matches. */
  lemma AddNumberLookup(ms: seq<Member>, key: string, value: int, k: string)
    ensures FirstMatch(AddNumber(ms, key, value), k) ==
      if FirstMatch(ms, k).Some? then FirstMatch(ms, k)
      else if SameKey(key, k) then Some(JNumber(value))
      else None
  {
    FirstMatchAdded(ms, Member(key, JNumber(value)), k);
  }
}
