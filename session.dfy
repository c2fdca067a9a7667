/**
 * The bulb session of bulb.c: one wiz_bulb per device, holding its address,
 * the cached state and device info, and the commands that send a setPilot
 * or getPilot request and update the cache on success. The socket is the
 * oracle of the transport: the session keeps the outcomes still to come and
 * a log of every datagram sent.
 */
module Session {
  import opened Wrappers
  import opened CText
  import opened Cwiz
  import opened Codec
  import opened Transport
  import opened Builder

  /** The message buffer of the single-field commands and of update_state. */
  const MessageSize := 256
  /** The message buffer of apply_pilot. */
  const PilotMessageSize := 512
  /** The params buffer of apply_pilot. */
  const ParamsSize := 384
  /** Every command's response buffer. */
  const ResponseSize := 1024

  /** Everything a wiz_bulb holds, as a value. */
  datatype Snapshot = Snapshot(
    ipAddress: string,
    addr: Endpoint,
    state: BulbState,
    info: BulbInfo,
    network: seq<Outcome>,
    sent: seq<Datagram>)

  const EmptyInfo := BulbInfo("", "", "", "", "")

  class Bulb {
    /** The text address, truncated to the 15 characters the field holds. */
    var ipAddress: string
    /** The peer address; every recvfrom overwrites it with the sender's. */
    var addr: Endpoint
    var state: BulbState
    var info: BulbInfo
    /** What the socket will observe on the attempts still to come. */
    var network: seq<Outcome>
    /** Every datagram sent so far. */
    var sent: seq<Datagram>

    constructor (ip: string, network: seq<Outcome>)
      ensures Fields() == Snapshot(Truncate(ip, IpWidth), Endpoint(ip, Port), ZeroState, EmptyInfo, network, [])
    {
      ipAddress := Truncate(ip, IpWidth);
      addr := Endpoint(ip, Port);
      state := ZeroState;
      info := EmptyInfo;
      this.network := network;
      sent := [];
    }

    function Fields(): Snapshot
      reads this
    {
      Snapshot(ipAddress, addr, state, info, network, sent)
    }
  }

  /**
   * wiz_bulb_create. A NULL ip, a socket that cannot be created and an ip
   * that inet_pton rejects give NULL; the last two are outcomes of calls
   * into the system, passed in as flags.
   */
  method Create(ip: Option<CString>, socketOk: bool, ipParses: bool, network: seq<Outcome>) returns (bulb: Bulb?)
    ensures bulb == null <==> ip.None? || !socketOk || !ipParses
    ensures bulb != null ==> fresh(bulb)
    ensures bulb != null ==> bulb.Fields() == Snapshot(Truncate(ip.value, IpWidth), Endpoint(ip.value, Port),
                                                       ZeroState, EmptyInfo, network, [])
  {
    if ip.None? || !socketOk || !ipParses {
      return null;
    }
    bulb := new Bulb(ip.value, network);
  }

  /** The suffix of the oracle left after n attempts. */
  function Drop(s: seq<Outcome>, n: nat): (r: seq<Outcome>)
    ensures n <= |s| ==> s == s[..n] + r
    ensures n >= |s| ==> r == []
  {
    if n <= |s| then s[n..] else []
  }

  // ------------------------------------------------------------ one request

  /** A command's status, the session after it, and the reply bytes. */
  datatype Step = Step(status: Status, after: Snapshot, reply: string)

  /**
   * Building a request into a buffer of the given capacity and exchanging it:
   * a message that does not fit is refused with nothing sent; otherwise the
   * datagrams go to the log, the attempts used leave the oracle and the
   * peer address is the one the last recvfrom wrote.
   */
  function Transact(s: Snapshot, capacity: nat, name: CString, params: Option<CString>): (r: Step)
    ensures r.after.ipAddress == s.ipAddress && r.after.state == s.state && r.after.info == s.info
    ensures r.status in {Ok, ErrSocket, ErrTimeout, ErrInvalidParam}
    ensures r.status == ErrInvalidParam <==> |Envelope(name, params)| >= capacity
    ensures r.status == ErrInvalidParam ==> r.after == s
    ensures |s.sent| <= |r.after.sent| <= |s.sent| + MaxRetries && r.after.sent[..|s.sent|] == s.sent
    ensures forall i :: |s.sent| <= i < |r.after.sent| ==> r.after.sent[i].payload == Envelope(name, params)
    ensures r.status != ErrInvalidParam ==> |r.after.sent| > |s.sent|
    ensures r.status == Ok ==> 1 <= |r.reply| < ResponseSize
  {
    match BuildJsonMessage(Some(capacity), Some(name), params)
    case Failure(e) => Step(e, s, "")
    case Success(msg) =>
      var x := ExchangeSpec(s.network, s.addr, Some(msg), ResponseSize);
      ExchangeGuarantees(s.network, s.addr, Some(msg), ResponseSize);
      RunSendsMessage(s.network, 0, s.addr, msg, InitialWaitUs, ResponseSize);
      RunOutcome(s.network, 0, s.addr, msg, InitialWaitUs, ResponseSize);
      Step(x.status, s.(addr := x.addr, network := Drop(s.network, x.used), sent := s.sent + x.sends), x.reply)
  }

  /** The exchange itself, on the heap: _wiz_send_param and the first half of update_state and apply_pilot. */
  method Talk(bulb: Bulb, capacity: nat, name: CString, params: Option<CString>) returns (ret: Status, reply: string)
    modifies bulb
    ensures var r := Transact(old(bulb.Fields()), capacity, name, params);
            ret == r.status && reply == r.reply && bulb.Fields() == r.after
  {
    var built := BuildJsonMessage(Some(capacity), Some(name), params);
    if built.Failure? {
      return built.error, "";
    }
    var x := SendReceive(bulb.network, bulb.addr, Some(built.value), ResponseSize);
    bulb.addr := x.addr;
    bulb.network := Drop(bulb.network, x.used);
    bulb.sent := bulb.sent + x.sends;
    return x.status, x.reply;
  }

  /** The cache after a command: the new state on success, unchanged otherwise. */
  function Commit(r: Step, st: BulbState): (c: Step)
    ensures c.status == r.status && c.reply == r.reply
    ensures c.after.(state := r.after.state) == r.after
    ensures c.after.state == if r.status == Ok then st else r.after.state
  {
    if r.status == Ok then r.(after := r.after.(state := st)) else r
  }

  // ---------------------------------------------------------- request bodies

  function BoolText(b: bool): string
  {
    if b then "true" else "false"
  }

  /** The params of turn_on and turn_off. */
  function SwitchRequest(on: bool): CString
  {
    if on then "{\"state\":true}" else "{\"state\":false}"
  }

  /** The snprintf of set_brightness, set_rgb, set_temperature and set_scene; %d prints no NUL. */
  function BrightnessRequest(c: nat): CString
  {
    "{\"dimming\":" + Dec(c) + "}"
  }

  function RgbRequest(c: Rgb): CString
  {
    "{\"r\":" + Dec(c.r) + ",\"g\":" + Dec(c.g) + ",\"b\":" + Dec(c.b) + "}"
  }

  function TemperatureRequest(t: nat): CString
  {
    "{\"temp\":" + Dec(t) + "}"
  }

  function SceneRequest(id: nat): CString
  {
    "{\"sceneId\":" + Dec(id) + "}"
  }

  // ---------------------------------------------------- the single commands

  function SwitchSpec(s: Snapshot, on: bool): Step
  {
    Commit(Transact(s, MessageSize, "setPilot", Some(SwitchRequest(on))), s.state.(on := on))
  }

  function SetBrightnessSpec(s: Snapshot, brightness: U8): Step
  {
    var c := ClampBrightness(brightness);
    Commit(Transact(s, MessageSize, "setPilot", Some(BrightnessRequest(c))),
           s.state.(brightness := c, on := true))
  }

  function SetRgbSpec(s: Snapshot, r: U8, g: U8, b: U8): Step
  {
    Commit(Transact(s, MessageSize, "setPilot", Some(RgbRequest(Rgb(r, g, b)))),
           s.state.(rgb := Rgb(r, g, b)))
  }

  function SetTemperatureSpec(s: Snapshot, temp: U16): Step
  {
    var c := ClampTemp(temp);
    Commit(Transact(s, MessageSize, "setPilot", Some(TemperatureRequest(c))), s.state.(temp := c))
  }

  function SetSceneSpec(s: Snapshot, sceneId: U16): Step
  {
    Commit(Transact(s, MessageSize, "setPilot", Some(SceneRequest(sceneId))),
           s.state.(sceneId := sceneId))
  }

  /** getPilot without params; on success the reply, up to its first NUL, is merged into the cache. */
  function UpdateStateSpec(s: Snapshot): Step
  {
    var r := Transact(s, MessageSize, "getPilot", None);
    Commit(r, MergePilot(CStr(r.reply), s.state))
  }

  /** The result of each command when the bulb pointer is NULL. */
  const NoBulb := ErrInvalidParam

  method TurnOn(bulb: Bulb?) returns (ret: Status)
    modifies bulb
    ensures bulb == null ==> ret == NoBulb
    ensures bulb != null ==> var r := SwitchSpec(old(bulb.Fields()), true);
              ret == r.status && bulb.Fields() == r.after
  {
    if bulb == null {
      return NoBulb;
    }
    var reply;
    ret, reply := Talk(bulb, MessageSize, "setPilot", Some("{\"state\":true}"));
    if ret == Ok {
      bulb.state := bulb.state.(on := true);
    }
  }

  method TurnOff(bulb: Bulb?) returns (ret: Status)
    modifies bulb
    ensures bulb == null ==> ret == NoBulb
    ensures bulb != null ==> var r := SwitchSpec(old(bulb.Fields()), false);
              ret == r.status && bulb.Fields() == r.after
  {
    if bulb == null {
      return NoBulb;
    }
    var reply;
    ret, reply := Talk(bulb, MessageSize, "setPilot", Some("{\"state\":false}"));
    if ret == Ok {
      bulb.state := bulb.state.(on := false);
    }
  }

  method SetBrightness(bulb: Bulb?, brightness: U8) returns (ret: Status)
    modifies bulb
    ensures bulb == null ==> ret == NoBulb
    ensures bulb != null ==> var r := SetBrightnessSpec(old(bulb.Fields()), brightness);
              ret == r.status && bulb.Fields() == r.after
  {
    if bulb == null {
      return NoBulb;
    }
    var v := brightness;
    if v < 10 {
      v := 10;
    }
    if v > 100 {
      v := 100;
    }
    var params := BrightnessRequest(v);
    var reply;
    ret, reply := Talk(bulb, MessageSize, "setPilot", Some(params));
    if ret == Ok {
      bulb.state := bulb.state.(brightness := v, on := true);
    }
  }

  method SetRgb(bulb: Bulb?, r: U8, g: U8, b: U8) returns (ret: Status)
    modifies bulb
    ensures bulb == null ==> ret == NoBulb
    ensures bulb != null ==> var x := SetRgbSpec(old(bulb.Fields()), r, g, b);
              ret == x.status && bulb.Fields() == x.after
  {
    if bulb == null {
      return NoBulb;
    }
    var params := RgbRequest(Rgb(r, g, b));
    var reply;
    ret, reply := Talk(bulb, MessageSize, "setPilot", Some(params));
    if ret == Ok {
      bulb.state := bulb.state.(rgb := Rgb(r, g, b));
    }
  }

  method SetTemperature(bulb: Bulb?, temp: U16) returns (ret: Status)
    modifies bulb
    ensures bulb == null ==> ret == NoBulb
    ensures bulb != null ==> var r := SetTemperatureSpec(old(bulb.Fields()), temp);
              ret == r.status && bulb.Fields() == r.after
  {
    if bulb == null {
      return NoBulb;
    }
    var v := temp;
    if v < TempMin {
      v := TempMin;
    }
    if v > TempMax {
      v := TempMax;
    }
    var params := TemperatureRequest(v);
    var reply;
    ret, reply := Talk(bulb, MessageSize, "setPilot", Some(params));
    if ret == Ok {
      bulb.state := bulb.state.(temp := v);
    }
  }

  method SetScene(bulb: Bulb?, sceneId: U16) returns (ret: Status)
    modifies bulb
    ensures bulb == null ==> ret == NoBulb
    ensures bulb != null ==> var r := SetSceneSpec(old(bulb.Fields()), sceneId);
              ret == r.status && bulb.Fields() == r.after
  {
    if bulb == null {
      return NoBulb;
    }
    var params := SceneRequest(sceneId);
    var reply;
    ret, reply := Talk(bulb, MessageSize, "setPilot", Some(params));
    if ret == Ok {
      bulb.state := bulb.state.(sceneId := sceneId);
    }
  }

  method UpdateState(bulb: Bulb?) returns (ret: Status)
    modifies bulb
    ensures bulb == null ==> ret == NoBulb
    ensures bulb != null ==> var r := UpdateStateSpec(old(bulb.Fields()));
              ret == r.status && bulb.Fields() == r.after
  {
    if bulb == null {
      return NoBulb;
    }
    var reply;
    ret, reply := Talk(bulb, MessageSize, "getPilot", None);
    if ret != Ok {
      return;
    }
    ret := MergeReply(bulb, reply);
  }

  /** The second half of update_state: the reply's C string is parsed into the cache. */
  method MergeReply(bulb: Bulb, reply: string) returns (ret: Status)
    modifies bulb
    ensures ret == Ok && bulb.Fields() == old(bulb.Fields()).(state := MergePilot(CStr(reply), old(bulb.state)))
  {
    var merged;
    ret, merged := ParseGetPilotResponse(Some(CStr(reply)), true, bulb.state);
    bulb.state := merged;
  }

  /** wiz_bulb_get_state: a copy of the cache; hasOut false stands for a NULL out-pointer. */
  method GetState(bulb: Bulb?, hasOut: bool) returns (ret: Status, st: Option<BulbState>)
    ensures bulb == null || !hasOut ==> ret == ErrInvalidParam && st.None?
    ensures bulb != null && hasOut ==> ret == Ok && st == Some(bulb.state)
  {
    if bulb == null || !hasOut {
      return ErrInvalidParam, None;
    }
    return Ok, Some(bulb.state);
  }

  // --------------------------------------------------------- apply_pilot

  /** The fields of apply_pilot, each as its snprintf format writes it. */
  function StateField(on: bool): CString
  {
    "\"state\":" + BoolText(on)
  }

  function DimmingField(n: nat): CString
  {
    "\"dimming\":" + Dec(n)
  }

  function RgbFields(c: Rgb): CString
  {
    "\"r\":" + Dec(c.r) + ",\"g\":" + Dec(c.g) + ",\"b\":" + Dec(c.b)
  }

  function TempField(n: nat): CString
  {
    "\"temp\":" + Dec(n)
  }

  function SceneField(n: nat): CString
  {
    "\"sceneId\":" + Dec(n)
  }

  function SpeedField(n: nat): CString
  {
    "\"speed\":" + Dec(n)
  }

  /** A body in braces. */
  function Braced(body: string): string
  {
    "{" + body + "}"
  }

  /** A field when its flag is set, nothing otherwise. */
  function Part(has: bool, field: string): seq<string>
  {
    if has then [field] else []
  }

  /** The fields apply_pilot writes, in its order: state, dimming, r/g/b, temp, sceneId, speed. */
  function PilotFields(p: Pilot): seq<string>
  {
    Part(p.hasState, StateField(p.state)) +
    Part(p.hasBrightness, DimmingField(p.brightness)) +
    Part(p.hasRgb, RgbFields(p.rgb)) +
    Part(p.hasTemp, TempField(p.temp)) +
    Part(p.hasSceneId, SceneField(p.sceneId)) +
    Part(p.hasSpeed, SpeedField(p.speed))
  }

  /** The fields separated by commas. */
  function Join(fs: seq<string>): string
  {
    if fs == [] then "" else if |fs| == 1 then fs[0] else fs[0] + "," + Join(fs[1..])
  }

  /** Each field followed by a comma, as the appends of apply_pilot leave them. */
  function Terminated(fs: seq<string>): string
  {
    if fs == [] then "" else fs[0] + "," + Terminated(fs[1..])
  }

  /** The params body of apply_pilot. */
  function PilotBody(p: Pilot): CString
  {
    FieldsAreCStrings(p);
    JoinIsCString(PilotFields(p));
    Braced(Join(PilotFields(p)))
  }

  /** No field apply_pilot prints holds a NUL. */
  lemma FieldsAreCStrings(p: Pilot)
    ensures forall f :: f in PilotFields(p) ==> '\0' !in f
  {
    var a, b, c := Part(p.hasState, StateField(p.state)), Part(p.hasBrightness, DimmingField(p.brightness)),
                   Part(p.hasRgb, RgbFields(p.rgb));
    var d, e, g := Part(p.hasTemp, TempField(p.temp)), Part(p.hasSceneId, SceneField(p.sceneId)),
                   Part(p.hasSpeed, SpeedField(p.speed));
    assert PilotFields(p) == a + b + c + d + e + g;
  }

  /** Fields without a NUL join into a text without one. */
  lemma {:induction false} JoinIsCString(fs: seq<string>)
    requires forall f :: f in fs ==> '\0' !in f
    ensures '\0' !in Braced(Join(fs))
    ensures '\0' !in Join(fs)
    decreases |fs|
  {
    if |fs| > 1 {
      assert forall f :: f in fs[1..] ==> f in fs;
      JoinIsCString(fs[1..]);
    }
  }

  /** The cache after a successful apply_pilot: exactly the flagged fields are written. */
  function Patch(st: BulbState, p: Pilot): BulbState
  {
    st.(on := if p.hasState then p.state else st.on,
        brightness := if p.hasBrightness then p.brightness else st.brightness,
        rgb := if p.hasRgb then p.rgb else st.rgb,
        temp := if p.hasTemp then p.temp else st.temp,
        sceneId := if p.hasSceneId then p.sceneId else st.sceneId,
        speed := if p.hasSpeed then p.speed else st.speed)
  }

  function ApplyPilotSpec(s: Snapshot, p: Pilot): Step
  {
    Commit(Transact(s, PilotMessageSize, "setPilot", Some(PilotBody(p))), Patch(s.state, p))
  }

  lemma {:induction false} TerminatedSnoc(fs: seq<string>, f: string)
    ensures Terminated(fs + [f]) == Terminated(fs) + f + ","
  {
    if fs != [] {
      assert (fs + [f])[1..] == fs[1..] + [f];
      TerminatedSnoc(fs[1..], f);
    } else {
      assert [f][1..] == [];
    }
  }

  lemma {:induction false} TerminatedJoin(fs: seq<string>)
    requires fs != []
    ensures Terminated(fs) == Join(fs) + ","
  {
    if |fs| > 1 {
      TerminatedJoin(fs[1..]);
    } else {
      assert fs[1..] == [];
    }
  }

  /** One optional append of apply_pilot: params grows by the field and a comma when the flag is set. */
  lemma AppendPart(params: string, fs: seq<string>, has: bool, f: string)
    requires params == "{" + Terminated(fs)
    ensures (if has then params + f + "," else params) == "{" + Terminated(fs + Part(has, f))
  {
    if has {
      TerminatedSnoc(fs, f);
    } else {
      assert fs + [] == fs;
    }
  }

  /** Dropping the trailing comma, if any, and closing the brace yields the joined body. */
  lemma CloseBody(params: string, fs: seq<string>)
    requires params == "{" + Terminated(fs)
    ensures (if |params| > 1 && params[|params| - 1] == ',' then params[..|params| - 1] else params) + "}"
            == Braced(Join(fs))
  {
    if fs != [] {
      TerminatedJoin(fs);
      assert params == "{" + Join(fs) + ",";
      assert params[..|params| - 1] == "{" + Join(fs);
    }
  }

  /** The six optional parts, accumulated in the order apply_pilot appends them. */
  lemma PilotFieldsInOrder(p: Pilot)
    ensures PilotFields(p) ==
            [] + Part(p.hasState, StateField(p.state)) + Part(p.hasBrightness, DimmingField(p.brightness))
            + Part(p.hasRgb, RgbFields(p.rgb)) + Part(p.hasTemp, TempField(p.temp))
            + Part(p.hasSceneId, SceneField(p.sceneId)) + Part(p.hasSpeed, SpeedField(p.speed))
  {
    assert [] + Part(p.hasState, StateField(p.state)) == Part(p.hasState, StateField(p.state));
  }

  lemma BodyOfFields(p: Pilot, fs: seq<string>)
    requires fs == PilotFields(p)
    ensures PilotBody(p) == Braced(Join(fs))
  {
  }

  /** One guarded snprintf of apply_pilot: the field and a comma are appended when the flag is set. */
  method AppendField(params: string, ghost fs: seq<string>, has: bool, field: string) returns (grown: string)
    requires params == "{" + Terminated(fs)
    ensures grown == "{" + Terminated(fs + Part(has, field))
  {
    AppendPart(params, fs, has, field);
    grown := params;
    if has {
      grown := grown + field + ",";
    }
  }

  /** The params text apply_pilot composes in its 384-byte buffer. */
  method SerializePilot(p: Pilot) returns (params: string)
    ensures params == PilotBody(p)
  {
    params := "{";
    params := AppendField(params, [], p.hasState, StateField(p.state));
    ghost var fs := [] + Part(p.hasState, StateField(p.state));
    params := AppendField(params, fs, p.hasBrightness, DimmingField(p.brightness));
    fs := fs + Part(p.hasBrightness, DimmingField(p.brightness));
    params := AppendField(params, fs, p.hasRgb, RgbFields(p.rgb));
    fs := fs + Part(p.hasRgb, RgbFields(p.rgb));
    params := AppendField(params, fs, p.hasTemp, TempField(p.temp));
    fs := fs + Part(p.hasTemp, TempField(p.temp));
    params := AppendField(params, fs, p.hasSceneId, SceneField(p.sceneId));
    fs := fs + Part(p.hasSceneId, SceneField(p.sceneId));
    params := AppendField(params, fs, p.hasSpeed, SpeedField(p.speed));
    fs := fs + Part(p.hasSpeed, SpeedField(p.speed));
    PilotFieldsInOrder(p);
    BodyOfFields(p, fs);
    params := CloseParams(params, fs);
  }

  /** The end of apply_pilot's composition: the trailing comma, if any, becomes the closing brace. */
  method CloseParams(params: string, ghost fs: seq<string>) returns (body: string)
    requires params == "{" + Terminated(fs)
    ensures body == Braced(Join(fs))
  {
    CloseBody(params, fs);
    body := params;
    if |body| > 1 && body[|body| - 1] == ',' {
      body := body[..|body| - 1];
    }
    body := body + "}";
  }

  method ApplyPilot(bulb: Bulb?, builder: PilotBuilder?) returns (ret: Status)
    modifies bulb
    ensures bulb == null || builder == null ==> ret == ErrInvalidParam
    ensures bulb != null && builder == null ==> bulb.Fields() == old(bulb.Fields())
    ensures bulb != null && builder != null ==>
              var r := ApplyPilotSpec(old(bulb.Fields()), old(builder.Fields()));
              ret == r.status && bulb.Fields() == r.after
  {
    if bulb == null || builder == null {
      return ErrInvalidParam;
    }
    var params := SerializePilot(builder.Fields());
    var reply;
    ret, reply := Talk(bulb, PilotMessageSize, "setPilot", Some(params));
    if ret == Ok {
      bulb.state := PatchState(bulb.state, builder.Fields());
    }
  }

  /** The cache update of apply_pilot: one guarded assignment per flagged field. */
  method PatchState(st: BulbState, p: Pilot) returns (n: BulbState)
    ensures n == Patch(st, p)
  {
    n := st;
    if p.hasState {
      n := n.(on := p.state);
    }
    if p.hasBrightness {
      n := n.(brightness := p.brightness);
    }
    if p.hasRgb {
      n := n.(rgb := p.rgb);
    }
    if p.hasTemp {
      n := n.(temp := p.temp);
    }
    if p.hasSceneId {
      n := n.(sceneId := p.sceneId);
    }
    if p.hasSpeed {
      n := n.(speed := p.speed);
    }
  }

  // ------------------------------------------------------------ properties

  /** A failed command leaves the cached state as it was; no command touches the ip text or the info. */
  lemma FailureKeepsCache(s: Snapshot, on: bool, v: U8, r: U8, g: U8, b: U8, t: U16, id: U16, p: Pilot)
    ensures var x := SwitchSpec(s, on); x.status != Ok ==> x.after.state == s.state
    ensures var x := SetBrightnessSpec(s, v); x.status != Ok ==> x.after.state == s.state
    ensures var x := SetRgbSpec(s, r, g, b); x.status != Ok ==> x.after.state == s.state
    ensures var x := SetTemperatureSpec(s, t); x.status != Ok ==> x.after.state == s.state
    ensures var x := SetSceneSpec(s, id); x.status != Ok ==> x.after.state == s.state
    ensures var x := UpdateStateSpec(s); x.status != Ok ==> x.after.state == s.state
    ensures var x := ApplyPilotSpec(s, p); x.status != Ok ==> x.after.state == s.state
    ensures var x := ApplyPilotSpec(s, p); x.after.info == s.info && x.after.ipAddress == s.ipAddress
    ensures var x := UpdateStateSpec(s); x.after.info == s.info && x.after.ipAddress == s.ipAddress
  {
  }

  /** |Dec(n)| for the widths the commands print. */
  lemma DecWidth(n: nat)
    ensures n < 0x100 ==> |Dec(n)| <= 3
    ensures n < 0x1_0000 ==> |Dec(n)| <= 5
  {
    if n < 0x100 {
      DecLength(n, 3);
    }
    if n < 0x1_0000 {
      DecLength(n, 5);
    }
  }

  /** The length of a request, from the lengths of its method name and params. */
  lemma EnvelopeLength(name: string, params: Option<string>)
    ensures params.Some? && |params.value| > 0 ==> |Envelope(name, params)| == |name| + |params.value| + 23
    ensures params.None? ==> |Envelope(name, params)| == |name| + 13
  {
  }

  /** A request whose params are under 128 characters fits the 256-byte buffer, so it is sent. */
  lemma SmallRequestSent(s: Snapshot, name: CString, params: Option<CString>, st: BulbState)
    requires |name| <= 9 && (params.Some? ==> |params.value| < 128)
    ensures Commit(Transact(s, MessageSize, name, params), st).status in {Ok, ErrSocket, ErrTimeout}
  {
    EnvelopeLength(name, params);
  }

  lemma SwitchFits(s: Snapshot, on: bool)
    ensures SwitchSpec(s, on).status in {Ok, ErrSocket, ErrTimeout}
  {
    SmallRequestSent(s, "setPilot", Some(SwitchRequest(on)), s.state.(on := on));
  }

  lemma BrightnessFits(s: Snapshot, v: U8)
    ensures |BrightnessRequest(ClampBrightness(v))| < 64
    ensures SetBrightnessSpec(s, v).status in {Ok, ErrSocket, ErrTimeout}
  {
    var c := ClampBrightness(v);
    DecWidth(c);
    SmallRequestSent(s, "setPilot", Some(BrightnessRequest(c)), s.state.(brightness := c, on := true));
  }

  lemma RgbFits(s: Snapshot, r: U8, g: U8, b: U8)
    ensures |RgbRequest(Rgb(r, g, b))| < 128
    ensures SetRgbSpec(s, r, g, b).status in {Ok, ErrSocket, ErrTimeout}
  {
    DecWidth(r);
    DecWidth(g);
    DecWidth(b);
    SmallRequestSent(s, "setPilot", Some(RgbRequest(Rgb(r, g, b))), s.state.(rgb := Rgb(r, g, b)));
  }

  lemma TemperatureFits(s: Snapshot, t: U16)
    ensures |TemperatureRequest(ClampTemp(t))| < 64
    ensures SetTemperatureSpec(s, t).status in {Ok, ErrSocket, ErrTimeout}
  {
    var c := ClampTemp(t);
    DecWidth(c);
    SmallRequestSent(s, "setPilot", Some(TemperatureRequest(c)), s.state.(temp := c));
  }

  lemma SceneFits(s: Snapshot, id: U16)
    ensures |SceneRequest(id)| < 64
    ensures SetSceneSpec(s, id).status in {Ok, ErrSocket, ErrTimeout}
  {
    DecWidth(id);
    SmallRequestSent(s, "setPilot", Some(SceneRequest(id)), s.state.(sceneId := id));
  }

  lemma UpdateFits(s: Snapshot)
    ensures UpdateStateSpec(s).status in {Ok, ErrSocket, ErrTimeout}
  {
    var r := Transact(s, MessageSize, "getPilot", None);
    SmallRequestSent(s, "getPilot", None, MergePilot(CStr(r.reply), s.state));
  }

  /**
   * Every single-field request fits its 64- or 128-byte params buffer and
   * the 256-byte message buffer, so these commands never fail with
   * INVALID_PARAM once the bulb is non-NULL: their status is the exchange's.
   */
  lemma CommandsFit(s: Snapshot, on: bool, v: U8, r: U8, g: U8, b: U8, t: U16, id: U16)
    ensures |BrightnessRequest(ClampBrightness(v))| < 64 && |RgbRequest(Rgb(r, g, b))| < 128
    ensures |TemperatureRequest(ClampTemp(t))| < 64 && |SceneRequest(id)| < 64
    ensures SwitchSpec(s, on).status in {Ok, ErrSocket, ErrTimeout}
    ensures SetBrightnessSpec(s, v).status in {Ok, ErrSocket, ErrTimeout}
    ensures SetRgbSpec(s, r, g, b).status in {Ok, ErrSocket, ErrTimeout}
    ensures SetTemperatureSpec(s, t).status in {Ok, ErrSocket, ErrTimeout}
    ensures SetSceneSpec(s, id).status in {Ok, ErrSocket, ErrTimeout}
    ensures UpdateStateSpec(s).status in {Ok, ErrSocket, ErrTimeout}
  {
    SwitchFits(s, on);
    BrightnessFits(s, v);
    RgbFits(s, r, g, b);
    TemperatureFits(s, t);
    SceneFits(s, id);
    UpdateFits(s);
  }

  lemma {:induction false} TerminatedAppend(a: seq<string>, b: seq<string>)
    ensures Terminated(a + b) == Terminated(a) + Terminated(b)
  {
    if a != [] {
      assert (a + b)[1..] == a[1..] + b;
      TerminatedAppend(a[1..], b);
    } else {
      assert [] + b == b;
    }
  }

  lemma PartLength(has: bool, f: string, max: nat)
    requires |f| <= max
    ensures |Terminated(Part(has, f))| <= max + 1
  {
    if has {
      assert [f][1..] == [];
    }
  }

  /** The longest text each field can print. */
  lemma FieldWidths(p: Pilot)
    ensures |StateField(p.state)| <= 13 && |DimmingField(p.brightness)| <= 13
    ensures |RgbFields(p.rgb)| <= 23 && |TempField(p.temp)| <= 12
    ensures |SceneField(p.sceneId)| <= 15 && |SpeedField(p.speed)| <= 11
  {
    DecWidth(p.brightness);
    DecWidth(p.rgb.r);
    DecWidth(p.rgb.g);
    DecWidth(p.rgb.b);
    DecWidth(p.temp);
    DecWidth(p.sceneId);
    DecWidth(p.speed);
  }

  lemma TerminatedLength(a: seq<string>, b: seq<string>, c: seq<string>,
                         d: seq<string>, e: seq<string>, f: seq<string>)
    ensures |Terminated(a + b + c + d + e + f)| ==
            |Terminated(a)| + |Terminated(b)| + |Terminated(c)| +
            |Terminated(d)| + |Terminated(e)| + |Terminated(f)|
  {
    TerminatedAppend(a, b);
    TerminatedAppend(a + b, c);
    TerminatedAppend(a + b + c, d);
    TerminatedAppend(a + b + c + d, e);
    TerminatedAppend(a + b + c + d + e, f);
  }

  /** The params body apply_pilot composes is at most 94 characters. */
  lemma PilotBodyLength(p: Pilot)
    ensures |PilotBody(p)| <= 94
  {
    FieldsLength(p);
    BracedLength(PilotFields(p), 93);
  }

  /** With every field set, the fields and their commas take 93 characters at most. */
  lemma FieldsLength(p: Pilot)
    ensures |Terminated(PilotFields(p))| <= 93
  {
    FieldWidths(p);
    var a := Part(p.hasState, StateField(p.state));
    var b := Part(p.hasBrightness, DimmingField(p.brightness));
    var c := Part(p.hasRgb, RgbFields(p.rgb));
    var d := Part(p.hasTemp, TempField(p.temp));
    var e := Part(p.hasSceneId, SceneField(p.sceneId));
    var f := Part(p.hasSpeed, SpeedField(p.speed));
    PartLength(p.hasState, StateField(p.state), 13);
    PartLength(p.hasBrightness, DimmingField(p.brightness), 13);
    PartLength(p.hasRgb, RgbFields(p.rgb), 23);
    PartLength(p.hasTemp, TempField(p.temp), 12);
    PartLength(p.hasSceneId, SceneField(p.sceneId), 15);
    PartLength(p.hasSpeed, SpeedField(p.speed), 11);
    SixPartsLength(a, b, c, d, e, f);
  }

  lemma SixPartsLength(a: seq<string>, b: seq<string>, c: seq<string>,
                       d: seq<string>, e: seq<string>, f: seq<string>)
    requires |Terminated(a)| <= 14 && |Terminated(b)| <= 14 && |Terminated(c)| <= 24
    requires |Terminated(d)| <= 13 && |Terminated(e)| <= 16 && |Terminated(f)| <= 12
    ensures |Terminated(a + b + c + d + e + f)| <= 93
  {
    TerminatedLength(a, b, c, d, e, f);
  }

  /** Braces replace the trailing comma and add one character. */
  lemma BracedLength(fs: seq<string>, bound: nat)
    requires 1 <= bound && |Terminated(fs)| <= bound
    ensures |Braced(Join(fs))| <= bound + 1
  {
    if fs != [] {
      TerminatedJoin(fs);
    }
  }

  /**
   * Since the body is at most 94 characters, no snprintf into the 384-byte
   * params buffer truncates and the whole message fits the 512-byte buffer:
   * apply_pilot never fails with INVALID_PARAM once both pointers are set.
   */
  lemma PilotBodyFits(s: Snapshot, p: Pilot)
    ensures |PilotBody(p)| < ParamsSize
    ensures |Envelope("setPilot", Some(PilotBody(p)))| < PilotMessageSize
    ensures ApplyPilotSpec(s, p).status in {Ok, ErrSocket, ErrTimeout}
  {
    PilotBodyLength(p);
  }

  /** A builder with nothing set sends an empty params object. */
  lemma EmptyBuilderBody()
    ensures PilotBody(EmptyPilot) == "{}"
    ensures Envelope("setPilot", Some(PilotBody(EmptyPilot))) == "{\"method\":\"setPilot\",\"params\":{}}"
  {
    EmptyFields();
    EmptyParamsEnvelope();
  }

  lemma EmptyFields()
    ensures PilotFields(EmptyPilot) == []
  {
  }

  /** The empty object is still sent as params: only a NULL or empty params text is omitted. */
  lemma EmptyParamsEnvelope()
    ensures Envelope("setPilot", Some("{}")) == "{\"method\":\"setPilot\",\"params\":{}}"
  {
  }

  /** A body {"key":n} written with %d reads back as n. */
  lemma ReadBack(open: string, key: string, n: nat)
    requires 0 < |key| <= 60 && key[0] != '"' && key[0] != '{' && open == "{\"" + key + "\":"
    ensures IntField(open + Dec(n) + "}", key) == n
  {
    assert "{\"" + key + "\":" == "{" + ("\"" + key + "\":");
    SingleFieldRoundTrip(key, n);
  }

  /** The value each single-field request carries reads back through the extractor. */
  lemma BrightnessReadsBack(c: nat)
    ensures IntField(BrightnessRequest(c), "dimming") == c
  {
    ReadBack("{\"dimming\":", "dimming", c);
  }

  lemma TemperatureReadsBack(t: nat)
    ensures IntField(TemperatureRequest(t), "temp") == t
  {
    ReadBack("{\"temp\":", "temp", t);
  }

  lemma SceneReadsBack(id: nat)
    ensures IntField(SceneRequest(id), "sceneId") == id
  {
    ReadBack("{\"sceneId\":", "sceneId", id);
  }

  /** set_brightness(5) sends the params {"dimming":10} in a setPilot request on every attempt. */
  lemma BrightnessFiveMessage(s: Snapshot)
    ensures var x := SetBrightnessSpec(s, 5);
            forall i :: |s.sent| <= i < |x.after.sent| ==>
              x.after.sent[i].payload == Envelope("setPilot", Some("{\"dimming\":10}"))
  {
    DimmingTen();
  }

  /** The brightness 5 is raised to 10 and printed as two digits. */
  lemma DimmingTen()
    ensures BrightnessRequest(ClampBrightness(5)) == "{\"dimming\":10}"
  {
    assert ClampBrightness(5) == 10;
    assert Dec(10) == "10";
  }

  /** A builder with one field group set serialises to that field in braces. */
  lemma SingleBody(p: Pilot, f: string)
    requires PilotFields(p) == [f]
    ensures PilotBody(p) == "{" + f + "}"
  {
  }

  /** A builder holding one setter call serialises to the body the matching direct command sends. */
  lemma BuilderMatchesSwitch(on: bool)
    ensures PilotBody(WithState(EmptyPilot, on)) == SwitchRequest(on)
  {
    var p := WithState(EmptyPilot, on);
    assert PilotFields(p) == [StateField(on)];
    SingleBody(p, StateField(on));
    SwitchText(on);
  }

  /** The literal bodies of turn_on and turn_off are the state field in braces. */
  lemma SwitchText(on: bool)
    ensures "{" + StateField(on) + "}" == SwitchRequest(on)
  {
    if on {
      assert "{" + StateField(true) + "}" == "{\"state\":true}";
    } else {
      assert "{" + StateField(false) + "}" == "{\"state\":false}";
    }
  }

  lemma BuilderMatchesBrightness(v: U8)
    ensures PilotBody(WithBrightness(EmptyPilot, v)) == BrightnessRequest(ClampBrightness(v))
  {
    var p := WithBrightness(EmptyPilot, v);
    var f := DimmingField(ClampBrightness(v));
    assert PilotFields(p) == [f];
    SingleBody(p, f);
    assert "{" + f + "}" == "{\"dimming\":" + Dec(ClampBrightness(v)) + "}";
  }

  lemma BuilderMatchesRgb(r: U8, g: U8, b: U8)
    ensures PilotBody(WithRgb(EmptyPilot, r, g, b)) == RgbRequest(Rgb(r, g, b))
  {
    var p := WithRgb(EmptyPilot, r, g, b);
    var f := RgbFields(Rgb(r, g, b));
    assert PilotFields(p) == [f];
    SingleBody(p, f);
    assert "{" + f + "}" == "{\"r\":" + Dec(r) + ",\"g\":" + Dec(g) + ",\"b\":" + Dec(b) + "}";
  }

  lemma BuilderMatchesTemperature(t: U16)
    ensures PilotBody(WithTemperature(EmptyPilot, t)) == TemperatureRequest(ClampTemp(t))
  {
    var p := WithTemperature(EmptyPilot, t);
    var f := TempField(ClampTemp(t));
    assert PilotFields(p) == [f];
    SingleBody(p, f);
    assert "{" + f + "}" == "{\"temp\":" + Dec(ClampTemp(t)) + "}";
  }

  lemma BuilderMatchesScene(id: U16)
    ensures PilotBody(WithScene(EmptyPilot, id)) == SceneRequest(id)
  {
    var p := WithScene(EmptyPilot, id);
    var f := SceneField(id);
    assert PilotFields(p) == [f];
    SingleBody(p, f);
    assert "{" + f + "}" == "{\"sceneId\":" + Dec(id) + "}";
  }

  /** Patch writes exactly the flagged fields and nothing else; an empty builder changes nothing. */
  lemma PatchWritesFlaggedFields(st: BulbState, p: Pilot)
    ensures var n := Patch(st, p);
            (n.on == if p.hasState then p.state else st.on) &&
            (n.brightness == if p.hasBrightness then p.brightness else st.brightness) &&
            (n.rgb == if p.hasRgb then p.rgb else st.rgb) &&
            (n.temp == if p.hasTemp then p.temp else st.temp) &&
            (n.sceneId == if p.hasSceneId then p.sceneId else st.sceneId) &&
            (n.speed == if p.hasSpeed then p.speed else st.speed) &&
            n.rgbcw == st.rgbcw && n.src == st.src && n.rssi == st.rssi
    ensures Patch(st, EmptyPilot) == st
    ensures Patch(Patch(st, p), p) == Patch(st, p)
  {
  }

  /**
   * Brightness through the builder and through set_brightness send the same
   * datagrams and end in the same session, except that set_brightness also
   * marks the bulb on.
   */
  lemma BuilderBrightnessKeepsPower(s: Snapshot, v: U8)
    ensures var x := ApplyPilotSpec(s, WithBrightness(EmptyPilot, v));
            var y := SetBrightnessSpec(s, v);
            x.status == y.status && x.after.sent == y.after.sent &&
            x.after.network == y.after.network && x.after.addr == y.after.addr &&
            (x.status == Ok ==> x.after.state.on == s.state.on && y.after.state.on &&
                                x.after.state.brightness == y.after.state.brightness)
  {
    BuilderMatchesBrightness(v);
    BrightnessFits(s, v);
  }

  /** A successful refresh is the sparse merge of the reply, so the fields getPilot never carries survive. */
  lemma UpdateKeepsUnreportedFields(s: Snapshot)
    ensures var x := UpdateStateSpec(s);
            x.status == Ok ==>
              x.after.state == MergePilot(CStr(x.reply), s.state) &&
              x.after.state.speed == s.state.speed && x.after.state.rgbcw == s.state.rgbcw &&
              x.after.state.src == s.state.src
  {
  }
}
