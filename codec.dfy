/**
 * The command codec of src/protocol.c: the envelope builder, the tolerant
 * scalar-field extractor, the sparse merge of a getPilot reply into the
 * cached state, and the system-config text scanner.
 */
module Codec {
  import opened Wrappers
  import opened CText
  import opened Cwiz

  // ------------------------------------------------------------- envelope

  /** The text snprintf composes for a method name and an optional params body. */
  function Envelope(name: string, params: Option<string>): string
  {
    if params.Some? && |params.value| > 0 then
      "{\"method\":\"" + name + "\",\"params\":" + params.value + "}"
    else
      "{\"method\":\"" + name + "\"}"
  }

  /**
   * wiz_build_json_message. A NULL buffer or method is None; a composed
   * message that does not fit the capacity, terminator included, is refused
   * rather than truncated.
   */
  function BuildJsonMessage(capacity: Option<nat>, name: Option<CString>, params: Option<CString>): (r: Result<string>)
    ensures r.Failure? ==> r.error == ErrInvalidParam
    ensures capacity.None? || name.None? ==> r.Failure?
    ensures capacity.Some? && name.Some? ==>
              (r.Success? <==> |Envelope(name.value, params)| < capacity.value)
    ensures r.Success? ==> r.value == Envelope(name.value, params) && |r.value| < capacity.value
  {
    if capacity.None? || name.None? then Failure(ErrInvalidParam)
    else
      var text := Envelope(name.value, params);
      if |text| >= capacity.value then Failure(ErrInvalidParam) else Success(text)
  }

  /** NULL params and an empty params body give the same message. */
  lemma EmptyParamsOmitted(name: string)
    ensures Envelope(name, None) == Envelope(name, Some("")) == "{\"method\":\"" + name + "\"}"
  {
  }

  // -------------------------------------------------------- key validation

  /** The index the backward blank scan of _is_valid_key_start stops at, from p. */
  function SkipBackSpaces(s: string, p: nat): (r: nat)
    requires p < |s|
    ensures r <= p && (r > 0 ==> !IsJsonSpace(s[r]))
    ensures forall k :: r < k <= p ==> IsJsonSpace(s[k])
  {
    if p > 0 && IsJsonSpace(s[p]) then SkipBackSpaces(s, p - 1) else p
  }

  /** _is_valid_key_start: a match at m is accepted at offset 0 or after '{' or ','. */
  predicate KeyStartValid(s: string, m: nat)
    requires m <= |s|
  {
    m == 0 || s[SkipBackSpaces(s, m - 1)] in "{,"
  }

  /** j is the nearest non-blank index before m. */
  predicate NearestNonBlank(s: string, j: nat, m: nat)
    requires j < m <= |s|
  {
    !IsJsonSpace(s[j]) && forall k :: j < k < m ==> IsJsonSpace(s[k])
  }

  /** A match is a genuine key iff it is at offset 0 or the nearest non-blank character before it is '{' or ','. */
  lemma {:induction false} KeyStartValidMeaning(s: string, m: nat)
    requires 0 < m <= |s|
    ensures KeyStartValid(s, m) <==>
              exists j :: 0 <= j < m && NearestNonBlank(s, j, m) && s[j] in "{,"
  {
    var r := SkipBackSpaces(s, m - 1);
    if KeyStartValid(s, m) {
      assert !IsJsonSpace(s[r]);
      assert NearestNonBlank(s, r, m);
    } else {
      forall j | 0 <= j < m && NearestNonBlank(s, j, m)
        ensures s[j] !in "{,"
      {
        if j != r {
          assert false;
        }
      }
    }
  }

  method IsValidKeyStart(json: CString, m: nat) returns (valid: bool)
    requires m <= |json|
    ensures valid == KeyStartValid(json, m)
  {
    if m == 0 {
      return true;
    }
    var prev: nat := m - 1;
    while prev > 0 && IsJsonSpace(json[prev])
      invariant prev < m
      invariant SkipBackSpaces(json, prev) == SkipBackSpaces(json, m - 1)
    {
      prev := prev - 1;
    }
    valid := json[prev] == '{' || json[prev] == ',';
  }

  // ------------------------------------------------------ scalar extractor

  /** The search text "\"key\":" as snprintf writes it into a 64-byte buffer. */
  function SearchKey(key: string): (pat: string)
    ensures 3 <= |pat| <= 63 && pat[0] == '"'
    ensures |key| <= 60 ==> pat == "\"" + key + "\":"
  {
    var full := "\"" + key + "\":";
    if |full| <= 63 then full else full[..63]
  }

  /** pat occurs at j and that occurrence is a genuine key. */
  predicate GenuineAt(s: string, pat: string, j: nat)
  {
    MatchAt(s, pat, j) && KeyStartValid(s, j)
  }

  /** The first genuine occurrence of pat at or after from; false positives are skipped one character at a time. */
  function FindKey(s: string, pat: string, from: nat): (r: Option<nat>)
    requires from <= |s| + 1
    decreases |s| + 1 - from
    ensures r.Some? ==> from <= r.value && GenuineAt(s, pat, r.value)
    ensures r.Some? ==> forall j :: from <= j < r.value ==> !GenuineAt(s, pat, j)
    ensures r.None? ==> forall j :: from <= j ==> !GenuineAt(s, pat, j)
  {
    match Find(s, pat, from)
    case None => None
    case Some(m) => if KeyStartValid(s, m) then Some(m) else FindKey(s, pat, m + 1)
  }

  /** The key has a genuine occurrence in the body. */
  predicate KeyPresent(s: string, key: string)
  {
    FindKey(s, SearchKey(key), 0).Some?
  }

  /** The index of the value of the first genuine key: past the key and its blanks. */
  function ValueStart(s: string, key: string): (i: nat)
    requires KeyPresent(s, key)
    ensures i <= |s|
  {
    var m := FindKey(s, SearchKey(key), 0).value;
    SkipJsonSpaces(s, m + |SearchKey(key)|)
  }

  /** _json_get_int: atoi of the value of the first genuine key, -1 when there is none. */
  function IntField(s: string, key: string): int
  {
    if KeyPresent(s, key) then Atoi(s, ValueStart(s, key)) else -1
  }

  /** _json_get_bool: 1 when the value starts with 't' or 'T', 0 otherwise, -1 when the key is absent. */
  function BoolField(s: string, key: string): (r: int)
    ensures r == -1 <==> !KeyPresent(s, key)
    ensures r == 1 <==> KeyPresent(s, key) && At(s, ValueStart(s, key)) in "tT"
    ensures -1 <= r <= 1
  {
    if !KeyPresent(s, key) then -1
    else if At(s, ValueStart(s, key)) in "tT" then 1
    else 0
  }

  /** The forward blank skip of the extractor, from index p. */
  method SkipBlanks(json: CString, p: nat) returns (q: nat)
    requires p <= |json|
    ensures q == SkipJsonSpaces(json, p)
  {
    q := p;
    while q < |json| && IsJsonSpace(json[q])
      invariant p <= q <= |json|
      invariant SkipJsonSpaces(json, q) == SkipJsonSpaces(json, p)
    {
      q := q + 1;
    }
  }

  /** The loop over occurrences shared by both extractors: the first genuine key, then its value. */
  method FindValue(json: CString, key: string) returns (found: Option<nat>)
    ensures found.Some? <==> KeyPresent(json, key)
    ensures found.Some? ==> found.value == ValueStart(json, key)
  {
    var pat := SearchKey(key);
    var ptr := 0;
    while true
      invariant ptr <= |json| + 1
      invariant FindKey(json, pat, ptr) == FindKey(json, pat, 0)
      decreases |json| + 1 - ptr
    {
      var hit := Find(json, pat, ptr);
      if hit.None? {
        return None;
      }
      var m := hit.value;
      var valid := IsValidKeyStart(json, m);
      if valid {
        assert FindKey(json, pat, 0) == Some(m);
        var p := SkipBlanks(json, m + |pat|);
        return Some(p);
      }
      ptr := m + 1;
    }
  }

  method JsonGetInt(json: CString, key: string) returns (v: int)
    ensures v == IntField(json, key)
  {
    var found := FindValue(json, key);
    if found.None? {
      return -1;
    }
    return Atoi(json, found.value);
  }

  method JsonGetBool(json: CString, key: string) returns (v: int)
    ensures v == BoolField(json, key)
  {
    var found := FindValue(json, key);
    if found.None? {
      return -1;
    }
    var p := found.value;
    return if At(json, p) == 't' || At(json, p) == 'T' then 1 else 0;
  }

  /**
   * A key written right after '{' or ',' whose first letter does not occur
   * earlier is found at that position, and is the genuine key.
   */
  lemma KeyAfter(pre: string, key: string, rest: string)
    requires 0 < |key| <= 60 && key[0] != '"' && key[0] !in pre
    requires |pre| > 0 && pre[|pre| - 1] in "{,"
    ensures FindKey(pre + SearchKey(key) + rest, SearchKey(key), 0) == Some(|pre|)
    ensures KeyPresent(pre + SearchKey(key) + rest, key)
    ensures ValueStart(pre + SearchKey(key) + rest, key) ==
              SkipJsonSpaces(pre + SearchKey(key) + rest, |pre| + |SearchKey(key)|)
  {
    var pat := SearchKey(key);
    var s := pre + pat + rest;
    SliceMid(pre, pat, rest);
    assert pat[1] == key[0];
    forall k | 1 <= k < |pre| + 1
      ensures s[k] != pat[1]
    {
      if k < |pre| {
        assert s[k] == pre[k];
      } else {
        assert s[k] == pat[0];
      }
    }
    FindAfterGap(s, pat, 0, |pre|, 1);
    assert s[|pre| - 1] == pre[|pre| - 1];
    assert SkipBackSpaces(s, |pre| - 1) == |pre| - 1;
    assert KeyStartValid(s, |pre|);
  }

  lemma Regroup(a: string, b: string, c: string)
    ensures a + b + c == a + (b + c)
  {
  }

  lemma Regroup4(a: string, b: string, c: string, d: string)
    ensures a + b + c + d == a + (b + c + d)
  {
  }

  /** An integer written with "%d" as a genuine key's value reads back as itself. */
  lemma IntFieldAfter(pre: string, key: string, n: nat, post: string)
    requires 0 < |key| <= 60 && key[0] != '"' && key[0] !in pre
    requires |pre| > 0 && pre[|pre| - 1] in "{,"
    requires post == [] || !IsDigit(post[0])
    ensures IntField(pre + SearchKey(key) + Dec(n) + post, key) == n
  {
    var a := pre + SearchKey(key);
    var s := a + Dec(n) + post;
    Regroup(a, Dec(n), post);
    KeyAfter(pre, key, Dec(n) + post);
    DecAfter(a, n, post);
    assert KeyPresent(s, key) && ValueStart(s, key) == |a|;
  }

  /** Decimal digits followed by a non-digit: no blank to skip, and atoi reads the number. */
  lemma DecAfter(a: string, n: nat, post: string)
    requires post == [] || !IsDigit(post[0])
    ensures SkipJsonSpaces(a + Dec(n) + post, |a|) == |a|
    ensures Atoi(a + Dec(n) + post, |a|) == n
  {
    var d := Dec(n);
    var s := a + d + post;
    assert s[|a|] == d[0];
    assert s[|a|..|a| + |d|] == d;
    assert |a| + |d| == |s| || s[|a| + |d|] == post[0];
    AtoiDecAt(s, |a|, n);
  }

  /** A single-field body written with "%d" reads back as the value it was written from. */
  lemma SingleFieldRoundTrip(key: string, n: nat)
    requires 0 < |key| <= 60 && key[0] != '"' && key[0] != '{'
    ensures IntField("{" + SearchKey(key) + Dec(n) + "}", key) == n
  {
    IntFieldAfter("{", key, n, "}");
  }

  // ------------------------------------------------------ getPilot merge

  /** The sparse update: a field takes its extracted value unless that is the sentinel -1. */
  function MergeValues(st: BulbState, on: int, dimming: int, temp: int, sceneId: int,
                       r: int, g: int, b: int, rssi: int): BulbState
  {
    st.(on := if on != -1 then on == 1 else st.on,
        brightness := if dimming != -1 then ToU8(dimming) else st.brightness,
        temp := if temp != -1 then ToU16(temp) else st.temp,
        sceneId := if sceneId != -1 then ToU16(sceneId) else st.sceneId,
        rgb := Rgb(if r != -1 then ToU8(r) else st.rgb.r,
                   if g != -1 then ToU8(g) else st.rgb.g,
                   if b != -1 then ToU8(b) else st.rgb.b),
        rssi := if rssi != -1 then rssi else st.rssi)
  }

  /**
   * wiz_parse_get_pilot_response on a non-NULL body: each of state, dimming,
   * temp, sceneId, r, g, b and rssi overwrites its cached field unless its
   * extractor returned the sentinel -1; integers are narrowed to the field's
   * width. speed, rgbcw and src are never touched.
   */
  function MergePilot(json: string, st: BulbState): (r: BulbState)
    ensures r.speed == st.speed && r.rgbcw == st.rgbcw && r.src == st.src
    ensures !KeyPresent(json, "state") ==> r.on == st.on
    ensures KeyPresent(json, "state") ==> (r.on <==> At(json, ValueStart(json, "state")) in "tT")
  {
    MergeValues(st, BoolField(json, "state"), IntField(json, "dimming"), IntField(json, "temp"),
                IntField(json, "sceneId"), IntField(json, "r"), IntField(json, "g"),
                IntField(json, "b"), IntField(json, "rssi"))
  }

  /** A field whose key is absent keeps its cached value. */
  lemma MergeKeepsAbsentFields(json: string, st: BulbState)
    ensures !KeyPresent(json, "dimming") ==> MergePilot(json, st).brightness == st.brightness
    ensures !KeyPresent(json, "temp") ==> MergePilot(json, st).temp == st.temp
    ensures !KeyPresent(json, "sceneId") ==> MergePilot(json, st).sceneId == st.sceneId
    ensures !KeyPresent(json, "r") ==> MergePilot(json, st).rgb.r == st.rgb.r
    ensures !KeyPresent(json, "g") ==> MergePilot(json, st).rgb.g == st.rgb.g
    ensures !KeyPresent(json, "b") ==> MergePilot(json, st).rgb.b == st.rgb.b
    ensures !KeyPresent(json, "rssi") ==> MergePilot(json, st).rssi == st.rssi
  {
  }

  /** A present integer field other than -1 is stored, narrowed to the field's width. */
  lemma MergeTakesPresentFields(json: string, st: BulbState)
    ensures IntField(json, "dimming") != -1 ==>
              (KeyPresent(json, "dimming") &&
               MergePilot(json, st).brightness == ToU8(Atoi(json, ValueStart(json, "dimming"))))
    ensures IntField(json, "temp") != -1 ==>
              (KeyPresent(json, "temp") &&
               MergePilot(json, st).temp == ToU16(Atoi(json, ValueStart(json, "temp"))))
    ensures IntField(json, "sceneId") != -1 ==>
              (KeyPresent(json, "sceneId") &&
               MergePilot(json, st).sceneId == ToU16(Atoi(json, ValueStart(json, "sceneId"))))
    ensures IntField(json, "r") != -1 ==>
              (KeyPresent(json, "r") &&
               MergePilot(json, st).rgb.r == ToU8(Atoi(json, ValueStart(json, "r"))))
    ensures IntField(json, "g") != -1 ==>
              (KeyPresent(json, "g") &&
               MergePilot(json, st).rgb.g == ToU8(Atoi(json, ValueStart(json, "g"))))
    ensures IntField(json, "b") != -1 ==>
              (KeyPresent(json, "b") &&
               MergePilot(json, st).rgb.b == ToU8(Atoi(json, ValueStart(json, "b"))))
    ensures IntField(json, "rssi") != -1 ==>
              (KeyPresent(json, "rssi") &&
               MergePilot(json, st).rssi == Atoi(json, ValueStart(json, "rssi")))
  {
  }

  /** An integer field that reads as -1, absent or present, keeps its cached value. */
  lemma MergeKeepsSentinelFields(json: string, st: BulbState)
    ensures IntField(json, "dimming") == -1 ==> MergePilot(json, st).brightness == st.brightness
    ensures IntField(json, "temp") == -1 ==> MergePilot(json, st).temp == st.temp
    ensures IntField(json, "sceneId") == -1 ==> MergePilot(json, st).sceneId == st.sceneId
    ensures IntField(json, "r") == -1 ==> MergePilot(json, st).rgb.r == st.rgb.r
    ensures IntField(json, "g") == -1 ==> MergePilot(json, st).rgb.g == st.rgb.g
    ensures IntField(json, "b") == -1 ==> MergePilot(json, st).rgb.b == st.rgb.b
    ensures IntField(json, "rssi") == -1 ==> MergePilot(json, st).rssi == st.rssi
  {
  }

  /** Merging the same reply twice is merging it once. */
  lemma MergeIdempotent(json: string, st: BulbState)
    ensures MergePilot(json, MergePilot(json, st)) == MergePilot(json, st)
  {
  }

  /** wiz_parse_get_pilot_response; hasOut false stands for a NULL state pointer. */
  method ParseGetPilotResponse(json: Option<CString>, hasOut: bool, st: BulbState) returns (ret: Status, st': BulbState)
    ensures json.None? || !hasOut ==> ret == ErrInvalidParam && st' == st
    ensures json.Some? && hasOut ==> ret == Ok && st' == MergePilot(json.value, st)
  {
    if json.None? || !hasOut {
      return ErrInvalidParam, st;
    }
    var text := json.value;
    var on := JsonGetBool(text, "state");
    var dimming := JsonGetInt(text, "dimming");
    var temp := JsonGetInt(text, "temp");
    var sceneId := JsonGetInt(text, "sceneId");
    var r := JsonGetInt(text, "r");
    var g := JsonGetInt(text, "g");
    var b := JsonGetInt(text, "b");
    var rssi := JsonGetInt(text, "rssi");
    st' := MergeInto(st, on, dimming, temp, sceneId, r, g, b, rssi);
    ret := Ok;
  }

  /** The field-by-field writes of wiz_parse_get_pilot_response, each guarded by its sentinel test. */
  method MergeInto(st: BulbState, on: int, dimming: int, temp: int, sceneId: int,
                   r: int, g: int, b: int, rssi: int) returns (st': BulbState)
    ensures st' == MergeValues(st, on, dimming, temp, sceneId, r, g, b, rssi)
  {
    st' := st;
    if on != -1 { st' := st'.(on := on == 1); }
    if dimming != -1 { st' := st'.(brightness := ToU8(dimming)); }
    if temp != -1 { st' := st'.(temp := ToU16(temp)); }
    if sceneId != -1 { st' := st'.(sceneId := ToU16(sceneId)); }
    if r != -1 { st' := st'.(rgb := st'.rgb.(r := ToU8(r))); }
    if g != -1 { st' := st'.(rgb := st'.rgb.(g := ToU8(g))); }
    if b != -1 { st' := st'.(rgb := st'.rgb.(b := ToU8(b))); }
    if rssi != -1 { st' := st'.(rssi := rssi); }
  }

  // ---------------------------------------------------- examples of replies

  /** The reply {"state":true,"dimming":50}, written as its pieces. */
  const StateDimmingReply := "{" + SearchKey("state") + "true," + SearchKey("dimming") + Dec(50) + "}"

  /** Its state key follows '{' and reads true. */
  lemma StateExample()
    ensures BoolField(StateDimmingReply, "state") == 1
  {
    var rest := "true," + SearchKey("dimming") + Dec(50) + "}";
    assert StateDimmingReply == "{" + SearchKey("state") + rest;
    KeyAfter("{", "state", rest);
    var i := 1 + |SearchKey("state")|;
    assert StateDimmingReply[i] == 't';
  }

  /** Its dimming key follows ',' and reads 50. */
  lemma DimmingExample()
    ensures IntField(StateDimmingReply, "dimming") == 50
  {
    var pre := "{" + SearchKey("state") + "true,";
    assert 'd' !in pre;
    IntFieldAfter(pre, "dimming", 50, "}");
  }

  /** An absent key reads as the sentinel -1, not as 0. */
  lemma AbsentSceneExample()
    ensures IntField(StateDimmingReply, "sceneId") == -1
  {
    assert 'I' !in Dec(50);
    FindAbsent(StateDimmingReply, SearchKey("sceneId"), 0, 'I');
  }

  /**
   * A match that is not at a key position is skipped by advancing one
   * character: the first genuine key is then sought from just past it.
   */
  lemma FalsePositiveSkipped(s: string, key: string, m: nat)
    requires Find(s, SearchKey(key), 0) == Some(m) && !KeyStartValid(s, m)
    ensures FindKey(s, SearchKey(key), 0) == FindKey(s, SearchKey(key), m + 1)
    ensures KeyPresent(s, key) ==> FindKey(s, SearchKey(key), 0).value > m
  {
  }

  /** MergePilot's brightness is the dimming extractor's value, narrowed, unless that is -1. */
  lemma MergeBrightness(json: string, st: BulbState)
    ensures MergePilot(json, st).brightness ==
              if IntField(json, "dimming") != -1 then ToU8(IntField(json, "dimming")) else st.brightness
  {
  }

  /** MergePilot's rssi is the rssi extractor's value unless that is -1. */
  lemma MergeRssi(json: string, st: BulbState)
    ensures MergePilot(json, st).rssi ==
              if IntField(json, "rssi") != -1 then IntField(json, "rssi") else st.rssi
  {
  }

  /** A negative integer written with "%d" as a genuine key's value reads back as itself. */
  lemma NegFieldAfter(pre: string, key: string, n: nat, post: string)
    requires 0 < |key| <= 60 && key[0] != '"' && key[0] !in pre
    requires |pre| > 0 && pre[|pre| - 1] in "{,"
    requires post == [] || !IsDigit(post[0])
    ensures IntField(pre + SearchKey(key) + "-" + Dec(n) + post, key) == -(n as int)
  {
    var a := pre + SearchKey(key);
    var s := a + "-" + Dec(n) + post;
    Regroup4(a, "-", Dec(n), post);
    KeyAfter(pre, key, "-" + Dec(n) + post);
    NegDecAfter(a, n, post);
    assert KeyPresent(s, key) && ValueStart(s, key) == |a|;
  }

  /** A minus sign, decimal digits, then a non-digit: atoi reads the negated number. */
  lemma NegDecAfter(a: string, n: nat, post: string)
    requires post == [] || !IsDigit(post[0])
    ensures SkipJsonSpaces(a + "-" + Dec(n) + post, |a|) == |a|
    ensures Atoi(a + "-" + Dec(n) + post, |a|) == -(n as int)
  {
    var b := a + "-";
    DecAfter(b, n, post);
    MinusThenDigits(b, Dec(n), post);
    AtoiMinus(b + Dec(n) + post, |a|);
  }

  lemma MinusThenDigits(b: string, d: string, post: string)
    requires |b| > 0 && b[|b| - 1] == '-' && |d| > 0 && AllDigits(d)
    ensures (b + d + post)[|b| - 1] == '-' && IsDigit((b + d + post)[|b|])
  {
    assert (b + d + post)[|b|] == d[0];
  }

  /** atoi at a minus sign followed by a digit is the negation of atoi just past the sign. */
  lemma AtoiMinus(s: string, i: nat)
    requires i + 1 < |s| && s[i] == '-' && IsDigit(s[i + 1])
    ensures Atoi(s, i) == -Atoi(s, i + 1)
  {
    assert SkipSpaces(s, i) == i;
    assert SkipSpaces(s, i + 1) == i + 1;
  }

  /** The reply {"rssi":-1}, written as its pieces. */
  const RssiMinusOneReply := "{" + SearchKey("rssi") + "-" + Dec(1) + "}"

  /** The sentinel collision: a genuine "rssi":-1 is indistinguishable from an absent rssi and leaves the cache alone. */
  lemma RssiSentinelCollision(st: BulbState)
    ensures KeyPresent(RssiMinusOneReply, "rssi")
    ensures MergePilot(RssiMinusOneReply, st).rssi == st.rssi
  {
    KeyAfter("{", "rssi", "-" + Dec(1) + "}");
    assert RssiMinusOneReply == "{" + SearchKey("rssi") + ("-" + Dec(1) + "}");
    NegFieldAfter("{", "rssi", 1, "}");
    MergeRssi(RssiMinusOneReply, st);
  }

  /** The refresh does not clamp: a reply {"dimming":0} caches brightness 0, below the documented 10. */
  lemma MergeIgnoresBrightnessRange(st: BulbState)
    ensures MergePilot("{" + SearchKey("dimming") + Dec(0) + "}", st).brightness == 0
  {
    SingleFieldRoundTrip("dimming", 0);
    MergeBrightness("{" + SearchKey("dimming") + Dec(0) + "}", st);
  }

  // ------------------------------------------------------- system config

  /**
   * The text wiz_parse_system_config reads after the first plain occurrence
   * of key: skip the key and one more character, then spaces and quotes, then
   * take at most width characters up to a quote. None when the key is absent
   * or nothing is left to read, in which case sscanf writes nothing. The skip
   * stops at the terminator (see Findings: the C code can step past it).
   */
  function StringField(s: CString, key: string, width: nat): (r: Option<string>)
    ensures r.Some? ==> 1 <= |r.value| <= width && '"' !in r.value && r.value[0] != ' '
    ensures Find(s, key, 0).None? ==> r.None?
  {
    match Find(s, key, 0)
    case None => None
    case Some(m) =>
      var start := SkipSpaceQuote(s, Min(m + |key| + 1, |s|));
      var end := ScanEnd(s, start, width);
      if end == start then None else Some(s[start..end])
  }

  /** The scan of one field: strstr, the skip loop, then sscanf's bounded copy. */
  method ScanStringField(json: CString, key: string, width: nat) returns (r: Option<string>)
    ensures r == StringField(json, key, width)
  {
    var hit := Find(json, key, 0);
    if hit.None? {
      return None;
    }
    var ptr := Min(hit.value + |key| + 1, |json|);
    var from := ptr;
    while At(json, ptr) == ' ' || At(json, ptr) == '"'
      invariant from <= ptr <= |json|
      invariant SkipSpaceQuote(json, ptr) == SkipSpaceQuote(json, from)
      decreases |json| - ptr
    {
      ptr := ptr + 1;
    }
    var end := ScanEnd(json, ptr, width);
    r := if end == ptr then None else Some(json[ptr..end]);
  }

  /** The identity fields a system-config reply updates; absent or empty ones are kept. */
  function MergeConfig(json: CString, info: BulbInfo): (r: BulbInfo)
    ensures r.homeId == info.homeId && r.roomId == info.roomId
    ensures |r.macAddress| <= Max(|info.macAddress|, MacWidth)
  {
    var mac := StringField(json, "\"mac\":", MacWidth);
    var moduleName := StringField(json, "\"moduleName\":", ModuleNameWidth);
    var fw := StringField(json, "\"fwVersion\":", FirmwareWidth);
    info.(macAddress := if mac.Some? then mac.value else info.macAddress,
          moduleName := if moduleName.Some? then moduleName.value else info.moduleName,
          firmwareVersion := if fw.Some? then fw.value else info.firmwareVersion)
  }

  function Max(a: int, b: int): int { if a >= b then a else b }

  /** wiz_parse_system_config; hasOut false stands for a NULL info pointer. */
  method ParseSystemConfig(json: Option<CString>, hasOut: bool, info: BulbInfo) returns (ret: Status, info': BulbInfo)
    ensures json.None? || !hasOut ==> ret == ErrInvalidParam && info' == info
    ensures json.Some? && hasOut ==> ret == Ok && info' == MergeConfig(json.value, info)
  {
    if json.None? || !hasOut {
      return ErrInvalidParam, info;
    }
    info' := info;
    var mac := ScanStringField(json.value, "\"mac\":", MacWidth);
    if mac.Some? { info' := info'.(macAddress := mac.value); }
    var moduleName := ScanStringField(json.value, "\"moduleName\":", ModuleNameWidth);
    if moduleName.Some? { info' := info'.(moduleName := moduleName.value); }
    var fw := ScanStringField(json.value, "\"fwVersion\":", FirmwareWidth);
    if fw.Some? { info' := info'.(firmwareVersion := fw.value); }
    ret := Ok;
  }

  /** A field that is absent from the reply keeps its previous value. */
  lemma MergeConfigKeepsAbsent(json: CString, info: BulbInfo)
    ensures Find(json, "\"mac\":", 0).None? ==> MergeConfig(json, info).macAddress == info.macAddress
    ensures Find(json, "\"moduleName\":", 0).None? ==> MergeConfig(json, info).moduleName == info.moduleName
    ensures Find(json, "\"fwVersion\":", 0).None? ==> MergeConfig(json, info).firmwareVersion == info.firmwareVersion
  {
  }

  /**
   * A quoted value written right after its key is read back exactly, as long
   * as it fits the width, has no quote and does not start with a blank.
   */
  lemma StringFieldRoundTrip(key: string, v: string, width: nat)
    requires |key| > 0 && key[0] != '{' && '\0' !in key
    requires 1 <= |v| <= width && '"' !in v && '\0' !in v && v[0] != ' '
    ensures '\0' !in "{" + key + "\"" + v + "\"}"
    ensures StringField("{" + key + "\"" + v + "\"}", key, width) == Some(v)
  {
    var a := "{" + key + "\"";
    var s := a + v + "\"}";
    var rest := "\"" + v + "\"}";
    assert s == "{" + key + rest;
    SliceMid("{", key, rest);
    FindAfterOne(s, key, 0);
    assert Min(1 + |key| + 1, |s|) == |a|;
    QuotedValueAt(a, v, "\"}", width);
    assert Find(s, key, 0) == Some(1);
    assert SkipSpaceQuote(s, |a|) == |a|;
  }

  /** A value between the text before it and a closing quote is scanned exactly. */
  lemma QuotedValueAt(a: string, v: string, b: string, width: nat)
    requires 1 <= |v| <= width && '"' !in v && '\0' !in v && v[0] != ' '
    requires |b| > 0 && b[0] == '"'
    ensures SkipSpaceQuote(a + v + b, |a|) == |a|
    ensures ScanEnd(a + v + b, |a|, width) == |a| + |v|
    ensures (a + v + b)[|a|..|a| + |v|] == v
  {
    var s := a + v + b;
    assert s[|a|] == v[0];
    forall k | |a| <= k < |a| + |v|
      ensures s[k] == v[k - |a|]
    {
    }
    assert s[|a| + |v|] == b[0];
    ScanEndAt(s, |a|, width, |a| + |v|);
  }

  /**
   * As written: the scan works on the whole receive buffer, whose bytes past
   * the reply's terminator are left over from earlier use. The key is found
   * in the C string, but the pointer then advances by the key's length plus
   * one without looking at the terminator.
   */
  function StringFieldInBuffer(buf: string, received: nat, key: string, width: nat): (r: Option<string>)
    requires received < |buf| && buf[received] == '\0'
  {
    var text := CStr(buf[..received]);
    match Find(text, key, 0)
    case None => None
    case Some(m) =>
      var start := SkipSpaceQuote(buf, m + |key| + 1);
      var end := ScanEnd(buf, start, width);
      if end == start then None else Some(buf[start..end])
  }

  /**
   * A reply that ends with its key: the C code reads past the terminator into
   * bytes an earlier datagram left behind, while the intended reading finds
   * no value at all.
   */
  lemma StaleBytesReadPastTerminator(key: CString, stale: string, width: nat)
    requires 1 <= |stale| <= width && '"' !in stale && '\0' !in stale && stale[0] != ' '
    ensures StringFieldInBuffer(key + "\0" + stale + "\"", |key|, key, width) == Some(stale)
    ensures StringField(key, key, width) == None
  {
    var buf := key + "\0" + stale + "\"";
    assert buf[..|key|] == key;
    CStrOfCString(key);
    assert key[0..|key|] == key;
    assert Find(key, key, 0) == Some(0);
    QuotedValueAt(key + "\0", stale, "\"", width);
  }

  /** The concrete case: a reply ending in "mac": over a buffer that still holds a1b2c3d4e5f6". */
  lemma StaleMacExample(key: CString, stale: string)
    requires key == "\"mac\":" && stale == "a1b2c3d4e5f6"
    ensures StringFieldInBuffer(key + "\0" + stale + "\"", 6, key, MacWidth) == Some(stale)
    ensures StringField(key, key, MacWidth) == None
  {
    StaleBytesReadPastTerminator(key, stale, MacWidth);
  }
}
