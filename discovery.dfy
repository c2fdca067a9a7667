/**
 * The discovery registry of discovery.c: a list of bulbs found by a
 * broadcast, deduplicated by mac address, and the per-datagram processing
 * of wiz_discover_bulbs. The linked list is a sequence in list order; the
 * datagrams a discovery run receives are a finite list given up front.
 */
module Discovery {
  import opened Wrappers
  import opened CText
  import opened Cwiz
  import opened Codec
  import opened Transport

  /** A registry entry: the sender's ip and the mac it reported. */
  datatype DiscoveredBulb = DiscoveredBulb(ip: string, mac: string)

  /** No two entries share a mac. */
  predicate DistinctMacs(entries: seq<DiscoveredBulb>)
  {
    forall i, j :: 0 <= i < j < |entries| ==> entries[i].mac != entries[j].mac
  }

  /** Every stored text fits its field: 15 characters of ip, 17 of mac. */
  predicate FitFields(entries: seq<DiscoveredBulb>)
  {
    forall i :: 0 <= i < |entries| ==> |entries[i].ip| <= IpWidth && |entries[i].mac| <= MacWidth
  }

  predicate HasMac(entries: seq<DiscoveredBulb>, mac: string)
  {
    exists i :: 0 <= i < |entries| && entries[i].mac == mac
  }

  /** registry_add_bulb on the list: a known mac changes nothing, a new one is appended at the tail. */
  function Register(entries: seq<DiscoveredBulb>, ip: string, mac: string): seq<DiscoveredBulb>
  {
    if HasMac(entries, mac) then entries
    else entries + [DiscoveredBulb(Truncate(ip, IpWidth), Truncate(mac, MacWidth))]
  }

  /** The first entry whose mac equals mac, as strcmp compares them. */
  function Lookup(entries: seq<DiscoveredBulb>, mac: string): (r: Option<DiscoveredBulb>)
    ensures r.Some? ==> r.value in entries && r.value.mac == mac
    ensures r.None? <==> !HasMac(entries, mac)
  {
    if entries == [] then None
    else if entries[0].mac == mac then Some(entries[0])
    else
      var r := Lookup(entries[1..], mac);
      assert forall i :: 1 <= i < |entries| ==> entries[i] == entries[1..][i - 1];
      r
  }

  class Registry {
    /** The bulbs in list order, head first. */
    var bulbs: seq<DiscoveredBulb>
    var count: int

    /** wiz_bulb_registry_create: calloc gives an empty list and a zero count. */
    constructor ()
      ensures bulbs == [] && count == 0
      ensures Valid()
    {
      bulbs := [];
      count := 0;
    }

    /** The registry's invariant: count is the list length and the macs are pairwise distinct. */
    ghost predicate Valid()
      reads this
    {
      count == |bulbs| && DistinctMacs(bulbs) && FitFields(bulbs)
    }
  }

  /** registry_add_bulb: walk the list for the mac, then append a new entry and count it. */
  method AddBulb(registry: Registry, ip: string, mac: string)
    modifies registry
    ensures registry.bulbs == Register(old(registry.bulbs), ip, mac)
    ensures registry.count == old(registry.count) + |registry.bulbs| - |old(registry.bulbs)|
  {
    var i := 0;
    while i < |registry.bulbs|
      invariant 0 <= i <= |registry.bulbs|
      invariant forall j :: 0 <= j < i ==> registry.bulbs[j].mac != mac
    {
      if registry.bulbs[i].mac == mac {
        return;
      }
      i := i + 1;
    }
    registry.bulbs := registry.bulbs + [DiscoveredBulb(Truncate(ip, IpWidth), Truncate(mac, MacWidth))];
    registry.count := registry.count + 1;
  }

  /** wiz_registry_get_by_mac: NULL for a NULL argument or an unknown mac. */
  method GetByMac(registry: Registry?, mac: Option<CString>) returns (r: Option<DiscoveredBulb>)
    ensures registry == null || mac.None? ==> r.None?
    ensures registry != null && mac.Some? ==> r == Lookup(registry.bulbs, mac.value)
  {
    if registry == null || mac.None? {
      return None;
    }
    var i := 0;
    while i < |registry.bulbs|
      invariant 0 <= i <= |registry.bulbs|
      invariant Lookup(registry.bulbs, mac.value) == Lookup(registry.bulbs[i..], mac.value)
    {
      if registry.bulbs[i].mac == mac.value {
        return Some(registry.bulbs[i]);
      }
      assert registry.bulbs[i..][1..] == registry.bulbs[i + 1..];
      i := i + 1;
    }
    return None;
  }

  // ------------------------------------------------------ registry properties

  /** Adding a mac already present changes nothing: the first-seen ip is kept. */
  lemma RegisterDuplicate(entries: seq<DiscoveredBulb>, ip: string, mac: string)
    requires HasMac(entries, mac)
    ensures Register(entries, ip, mac) == entries
    ensures Lookup(Register(entries, ip, mac), mac) == Lookup(entries, mac)
  {
  }

  /** A new mac is appended at the tail: earlier entries keep their places and the length grows by one. */
  lemma RegisterAppends(entries: seq<DiscoveredBulb>, ip: string, mac: string)
    requires !HasMac(entries, mac)
    ensures var r := Register(entries, ip, mac);
            |r| == |entries| + 1 && r[..|entries|] == entries &&
            r[|entries|] == DiscoveredBulb(Truncate(ip, IpWidth), Truncate(mac, MacWidth))
  {
    var r := Register(entries, ip, mac);
    assert r[..|entries|] == entries;
  }

  /**
   * Registering keeps the invariant for macs of at most 17 characters, as
   * every caller passes (a longer mac is cut on storing and could then
   * collide with an entry that the untruncated comparison missed).
   */
  lemma RegisterKeepsValid(entries: seq<DiscoveredBulb>, ip: string, mac: string)
    requires DistinctMacs(entries) && FitFields(entries) && |mac| <= MacWidth
    ensures DistinctMacs(Register(entries, ip, mac)) && FitFields(Register(entries, ip, mac))
  {
    RegisterKeepsDistinct(entries, ip, mac);
  }

  lemma RegisterKeepsDistinct(entries: seq<DiscoveredBulb>, ip: string, mac: string)
    requires DistinctMacs(entries) && |mac| <= MacWidth
    ensures DistinctMacs(Register(entries, ip, mac))
  {
    if !HasMac(entries, mac) {
      var r := Register(entries, ip, mac);
      forall i, j | 0 <= i < j < |r|
        ensures r[i].mac != r[j].mac
      {
        if j == |entries| {
          assert r[i] == entries[i];
        } else {
          assert r[i] == entries[i] && r[j] == entries[j];
        }
      }
    }
  }

  /** With distinct macs the lookup finds the unique entry with that mac. */
  lemma LookupUnique(entries: seq<DiscoveredBulb>, mac: string, i: nat)
    requires DistinctMacs(entries) && i < |entries| && entries[i].mac == mac
    ensures Lookup(entries, mac) == Some(entries[i])
  {
    if i > 0 {
      assert entries[0].mac != mac;
      assert DistinctMacs(entries[1..]) by {
        forall a, b | 0 <= a < b < |entries[1..]|
          ensures entries[1..][a].mac != entries[1..][b].mac
        {
          assert entries[1..][a] == entries[a + 1] && entries[1..][b] == entries[b + 1];
        }
      }
      LookupUnique(entries[1..], mac, i - 1);
    }
  }

  /** After registering, a lookup of that mac finds the first-seen entry, or the new one. */
  lemma LookupAfterRegister(entries: seq<DiscoveredBulb>, ip: string, mac: string)
    requires DistinctMacs(entries) && |mac| <= MacWidth
    ensures Lookup(Register(entries, ip, mac), mac) ==
            if HasMac(entries, mac) then Lookup(entries, mac)
            else Some(DiscoveredBulb(Truncate(ip, IpWidth), mac))
  {
    if !HasMac(entries, mac) {
      var r := Register(entries, ip, mac);
      RegisterKeepsDistinct(entries, ip, mac);
      assert r[|entries|].mac == mac;
      LookupUnique(r, mac, |entries|);
    }
  }

  // ------------------------------------------------------- the datagrams

  /** What one recvfrom of the discovery loop returned. */
  datatype Arrival =
    | Packet(from: Endpoint, payload: string)
    | RecvError

  /** recvfrom reads at most 2047 bytes into the 2048-byte response buffer. */
  const DiscoveryReceiveMax := 2047

  /** The C string the loop scans: the bytes received, up to their first NUL. */
  function ResponseText(payload: string): (text: CString)
  {
    CStr(payload[..Min(|payload|, DiscoveryReceiveMax)])
  }

  /** The mac a payload carries: the scan of wiz_parse_system_config with width 17. */
  function MacOf(payload: string): Option<string>
  {
    StringField(ResponseText(payload), "\"mac\":", MacWidth)
  }

  /**
   * One iteration of the receive loop: an error or an empty datagram is
   * skipped; a datagram whose mac can be read registers the sender's ip, a
   * datagram without one is ignored (see Findings for what the C code does
   * when a key is present but no mac follows).
   */
  function DatagramEffect(entries: seq<DiscoveredBulb>, a: Arrival): seq<DiscoveredBulb>
  {
    match a
    case RecvError => entries
    case Packet(from, payload) =>
      if |payload| == 0 then entries
      else match MacOf(payload)
        case None => entries
        case Some(mac) => Register(entries, from.ip, mac)
  }

  /** The registry after the datagrams, in arrival order. */
  function Absorb(entries: seq<DiscoveredBulb>, arrivals: seq<Arrival>): seq<DiscoveredBulb>
  {
    if arrivals == [] then entries
    else DatagramEffect(Absorb(entries, arrivals[..|arrivals| - 1]), arrivals[|arrivals| - 1])
  }

  /** The registration broadcast, with the local mac and ip it announces. */
  function RegistrationMessage(mac: string, ip: string): string
  {
    "{\"method\":\"registration\",\"params\":{\"phoneMac\":\"" + mac +
    "\",\"register\":false,\"phoneIp\":\"" + ip + "\",\"id\":\"1\"}}"
  }

  /** The outcomes of the system calls before the receive loop. */
  datatype Setup = Setup(socketOk: bool, broadcastOk: bool, timeoutOk: bool, addressParses: bool, sendOk: bool)

  /** The status a failed setup returns, or None when the loop is reached. */
  function SetupFailure(setup: Setup): Option<Status>
  {
    if !setup.socketOk || !setup.broadcastOk || !setup.timeoutOk then Some(ErrSocket)
    else if !setup.addressParses then Some(ErrInvalidParam)
    else if !setup.sendOk then Some(ErrSocket)
    else None
  }

  /** Every step before sendto succeeded, so the broadcast goes out (whether or not sendto then fails). */
  predicate ReachesSend(setup: Setup)
  {
    setup.socketOk && setup.broadcastOk && setup.timeoutOk && setup.addressParses
  }

  /** The defaults the registration uses when the local interface cannot be read. */
  const DefaultLocalIp := "0.0.0.0"
  const DefaultLocalMac := "000000000000"

  /** The registration message for what get_local_ip_mac found, or for the defaults. */
  function LocalRegistration(local: Option<(string, string)>): string
  {
    if local.Some? then RegistrationMessage(local.value.1, local.value.0)
    else RegistrationMessage(DefaultLocalMac, DefaultLocalIp)
  }

  /**
   * wiz_discover_bulbs. local is what get_local_ip_mac found (None when it
   * failed). Returns a negative status or the registry's count, and the
   * broadcast it sent.
   */
  method DiscoverBulbs(registry: Registry?, broadcast: Option<CString>, setup: Setup,
                       local: Option<(string, string)>, arrivals: seq<Arrival>)
    returns (ret: int, sent: seq<Datagram>)
    requires registry != null ==> registry.Valid()
    modifies registry
    ensures registry == null || broadcast.None? ==> ret == ErrInvalidParam.Code() && sent == []
    ensures registry != null && broadcast.None? ==>
              registry.bulbs == old(registry.bulbs) && registry.count == old(registry.count)
    ensures registry != null && broadcast.Some? && SetupFailure(setup).Some? ==>
              ret == SetupFailure(setup).value.Code() && registry.bulbs == old(registry.bulbs) &&
              registry.count == old(registry.count)
    ensures registry != null && broadcast.Some? && SetupFailure(setup).None? ==>
              registry.bulbs == Absorb(old(registry.bulbs), arrivals) && registry.Valid() &&
              ret == |registry.bulbs|
    ensures registry != null && broadcast.Some? ==>
              sent == if ReachesSend(setup) then [Datagram(Endpoint(broadcast.value, Port), LocalRegistration(local))] else []
  {
    if registry == null || broadcast.None? {
      return ErrInvalidParam.Code(), [];
    }
    if !setup.socketOk || !setup.broadcastOk || !setup.timeoutOk {
      return ErrSocket.Code(), [];
    }
    if !setup.addressParses {
      return ErrInvalidParam.Code(), [];
    }
    var ip, mac := DefaultLocalIp, DefaultLocalMac;
    if local.Some? {
      ip, mac := local.value.0, local.value.1;
    }
    sent := [Datagram(Endpoint(broadcast.value, Port), RegistrationMessage(mac, ip))];
    if !setup.sendOk {
      return ErrSocket.Code(), sent;
    }
    ghost var start := registry.bulbs;
    for i := 0 to |arrivals|
      invariant registry.bulbs == Absorb(start, arrivals[..i])
      invariant registry.Valid()
    {
      assert arrivals[..i + 1][..i] == arrivals[..i];
      var a := arrivals[i];
      if a.Packet? {
        var received := Min(|a.payload|, DiscoveryReceiveMax);
        if received > 0 {
          var text := CStr(a.payload[..received]);
          var found := ScanStringField(text, "\"mac\":", MacWidth);
          if found.Some? {
            RegisterKeepsValid(registry.bulbs, a.from.ip, found.value);
            AddBulb(registry, a.from.ip, found.value);
          }
        }
      }
    }
    assert arrivals[..|arrivals|] == arrivals;
    return registry.count, sent;
  }

  // ------------------------------------------------------ datagram properties

  /** A datagram either leaves the registry alone or registers its sender's ip with the mac it carries. */
  lemma DatagramRegistersSender(entries: seq<DiscoveredBulb>, from: Endpoint, payload: string)
    ensures var r := DatagramEffect(entries, Packet(from, payload));
            r == entries ||
            (MacOf(payload).Some? && !HasMac(entries, MacOf(payload).value) &&
             r == entries + [DiscoveredBulb(Truncate(from.ip, IpWidth), MacOf(payload).value)])
  {
  }

  /** A payload without the "mac": key changes nothing, and neither does an error or an empty datagram. */
  lemma IgnoredDatagrams(entries: seq<DiscoveredBulb>, from: Endpoint, payload: string)
    ensures Find(ResponseText(payload), "\"mac\":", 0).None? ==> DatagramEffect(entries, Packet(from, payload)) == entries
    ensures DatagramEffect(entries, Packet(from, "")) == entries
    ensures DatagramEffect(entries, RecvError) == entries
  {
  }

  /**
   * The fold keeps the registry's invariant and only appends: entries
   * present before the run stay first and in order, so the count the run
   * returns includes them.
   */
  lemma {:induction false} AbsorbKeepsValid(entries: seq<DiscoveredBulb>, arrivals: seq<Arrival>)
    requires DistinctMacs(entries) && FitFields(entries)
    ensures var r := Absorb(entries, arrivals);
            DistinctMacs(r) && FitFields(r) && |entries| <= |r| && r[..|entries|] == entries
  {
    if arrivals != [] {
      var before := Absorb(entries, arrivals[..|arrivals| - 1]);
      AbsorbKeepsValid(entries, arrivals[..|arrivals| - 1]);
      var a := arrivals[|arrivals| - 1];
      if a.Packet? && |a.payload| > 0 && MacOf(a.payload).Some? {
        RegisterKeepsValid(before, a.from.ip, MacOf(a.payload).value);
        if !HasMac(before, MacOf(a.payload).value) {
          RegisterAppends(before, a.from.ip, MacOf(a.payload).value);
          var r := Absorb(entries, arrivals);
          assert r[..|entries|] == r[..|before|][..|entries|];
        }
      }
    }
  }

  /** A reply {"mac":"v"} registers v for its sender, when v is a fresh mac of up to 17 characters. */
  lemma MacReplyRegisters(entries: seq<DiscoveredBulb>, from: Endpoint, v: string)
    requires 1 <= |v| <= MacWidth && '"' !in v && '\0' !in v && v[0] != ' '
    requires !HasMac(entries, v)
    ensures DatagramEffect(entries, Packet(from, "{" + "\"mac\":" + "\"" + v + "\"}")) ==
            entries + [DiscoveredBulb(Truncate(from.ip, IpWidth), v)]
  {
    MacOfReply(v);
    assert Truncate(v, MacWidth) == v;
  }

  /** The scan reads back the mac of a reply {"mac":"v"}. */
  lemma MacOfReply(v: string)
    requires 1 <= |v| <= MacWidth && '"' !in v && '\0' !in v && v[0] != ' '
    ensures MacOf("{" + "\"mac\":" + "\"" + v + "\"}") == Some(v)
  {
    var key := "\"mac\":";
    var payload := "{" + key + "\"" + v + "\"}";
    StringFieldRoundTrip(key, v, MacWidth);
    ShortResponse(payload);
  }

  /** A datagram that fits the buffer and holds no NUL is scanned whole. */
  lemma ShortResponse(payload: string)
    requires |payload| <= DiscoveryReceiveMax && '\0' !in payload
    ensures ResponseText(payload) == payload
  {
    assert payload[..Min(|payload|, DiscoveryReceiveMax)] == payload;
    var text: CString := payload;
    CStrOfCString(text);
  }

  // ----------------------------------------------------------- as written

  /**
   * As written: once "mac": is found, sscanf("%17[^\"]") may match nothing
   * (the key is followed only by quotes or blanks), leaves mac_str
   * uninitialised, and registry_add_bulb registers whatever the stack held.
   * junk stands for those bytes.
   */
  function DatagramEffectAsWritten(entries: seq<DiscoveredBulb>, a: Arrival, junk: string): seq<DiscoveredBulb>
  {
    match a
    case RecvError => entries
    case Packet(from, payload) =>
      if |payload| == 0 || Find(ResponseText(payload), "\"mac\":", 0).None? then entries
      else match MacOf(payload)
        case None => Register(entries, from.ip, junk)
        case Some(mac) => Register(entries, from.ip, mac)
  }

  /**
   * The datagram "mac":"" registers an entry with an arbitrary mac as
   * written, while the corrected processing ignores it.
   */
  lemma EmptyMacRegistersJunk(from: Endpoint, junk: string, payload: string)
    requires payload == "\"mac\":\"\""
    ensures DatagramEffectAsWritten([], Packet(from, payload), junk) ==
            [DiscoveredBulb(Truncate(from.ip, IpWidth), Truncate(junk, MacWidth))]
    ensures DatagramEffect([], Packet(from, payload)) == []
  {
    var key := "\"mac\":";
    assert payload == key + "\"\"";
    ShortResponse(payload);
    assert payload[..|key|] == key;
    assert Find(payload, key, 0) == Some(0);
    assert SkipSpaceQuote(payload, 7) == 8;
    assert ScanEnd(payload, 8, MacWidth) == 8;
    assert MacOf(payload) == None;
  }
}
