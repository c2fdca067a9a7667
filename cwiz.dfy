/**
 * The public header of the WiZ client: protocol constants, the error codes,
 * the fixed-width fields of the state snapshot and the colour records.
 */
module Cwiz {
  import opened Wrappers

  const Port := 38899
  /** Default per-socket receive timeout, in seconds. */
  const DefaultTimeout := 13
  const MaxRetries := 6
  const TempMin := 2200
  const TempMax := 6500
  const BrightnessMin := 10
  const BrightnessMax := 100

  type U8 = x: int | 0 <= x < 0x100
  type U16 = x: int | 0 <= x < 0x1_0000

  /** Assigning an int to a uint8_t field: reduction modulo 2^8. */
  function ToU8(v: int): (r: U8)
    ensures 0 <= v < 0x100 ==> r == v
    ensures (r - v) % 0x100 == 0
  {
    v % 0x100
  }

  /** Assigning an int to a uint16_t field: reduction modulo 2^16. */
  function ToU16(v: int): (r: U16)
    ensures 0 <= v < 0x1_0000 ==> r == v
    ensures (r - v) % 0x1_0000 == 0
  {
    v % 0x1_0000
  }

  /** The error codes of wiz_error_t. */
  datatype Status =
    | Ok
    | ErrSocket
    | ErrTimeout
    | ErrInvalidParam
    | ErrJsonParse
    | ErrNoResponse
    | ErrMalloc
    | ErrConnection
  {
    /** The integer the C API returns for this status. */
    function Code(): (c: int)
      ensures (this == Ok) <==> c == 0
      ensures this != Ok ==> -7 <= c < 0
    {
      match this
      case Ok => 0
      case ErrSocket => -1
      case ErrTimeout => -2
      case ErrInvalidParam => -3
      case ErrJsonParse => -4
      case ErrNoResponse => -5
      case ErrMalloc => -6
      case ErrConnection => -7
    }
  }

  /** The status a returned integer stands for, if any. */
  function StatusOf(c: int): (r: Option<Status>)
    ensures r.Some? ==> r.value.Code() == c
    ensures r.None? ==> forall s: Status :: s.Code() != c
  {
    if c == 0 then Some(Ok)
    else if c == -1 then Some(ErrSocket)
    else if c == -2 then Some(ErrTimeout)
    else if c == -3 then Some(ErrInvalidParam)
    else if c == -4 then Some(ErrJsonParse)
    else if c == -5 then Some(ErrNoResponse)
    else if c == -6 then Some(ErrMalloc)
    else if c == -7 then Some(ErrConnection)
    else None
  }

  /** The eight codes are distinct: a code determines its status. */
  lemma CodeInjective(a: Status, b: Status)
    requires a.Code() == b.Code()
    ensures a == b
  {
    assert StatusOf(a.Code()) == Some(a);
  }

  /** A value or the error code a C function would return instead. */
  datatype Result<+T> = Success(value: T) | Failure(error: Status)

  datatype Rgb = Rgb(r: U8, g: U8, b: U8)

  /** Red, green, blue, cool white and warm white. */
  datatype Rgbcw = Rgbcw(r: U8, g: U8, b: U8, c: U8, w: U8)

  /**
   * wiz_bulb_state_t. Brightness is documented as 10..100 but is a uint8_t;
   * rssi is a C int, modelled unbounded (see Atoi).
   */
  datatype BulbState = BulbState(
    on: bool,
    brightness: U8,
    sceneId: U16,
    speed: U8,
    temp: U16,
    rgb: Rgb,
    rgbcw: Rgbcw,
    src: string,
    rssi: int)

  /** The all-zero snapshot of a freshly calloc'ed session. */
  const ZeroState := BulbState(false, 0, 0, 0, 0, Rgb(0, 0, 0), Rgbcw(0, 0, 0, 0, 0), "", 0)

  /** wiz_bulb_info_t, whose text fields hold 17, 63, 31, 63 and 63 characters. */
  datatype BulbInfo = BulbInfo(
    macAddress: string,
    moduleName: string,
    firmwareVersion: string,
    homeId: string,
    roomId: string)

  const MacWidth := 17
  const ModuleNameWidth := 63
  const FirmwareWidth := 31
  /** An ip address as inet_ntop writes it fits a 16-byte buffer: 15 characters. */
  const IpWidth := 15

  /** A struct sockaddr_in: the host in dotted form and the port. */
  datatype Endpoint = Endpoint(ip: string, port: int)

  /** Clamping into [10, 100], as both the session and the builder do. */
  function ClampBrightness(b: U8): (r: U8)
    ensures BrightnessMin <= r <= BrightnessMax
    ensures BrightnessMin <= b <= BrightnessMax ==> r == b
    ensures b < BrightnessMin ==> r == BrightnessMin
    ensures b > BrightnessMax ==> r == BrightnessMax
  {
    if b < BrightnessMin then BrightnessMin else if b > BrightnessMax then BrightnessMax else b
  }

  /** Clamping into [TempMin, TempMax], as both the session and the builder do. */
  function ClampTemp(t: U16): (r: U16)
    ensures TempMin <= r <= TempMax
    ensures TempMin <= t <= TempMax ==> r == t
    ensures t < TempMin ==> r == TempMin
    ensures t > TempMax ==> r == TempMax
  {
    if t < TempMin then TempMin else if t > TempMax then TempMax else t
  }

  lemma ClampIdempotent(b: U8, t: U16)
    ensures ClampBrightness(ClampBrightness(b)) == ClampBrightness(b)
    ensures ClampTemp(ClampTemp(t)) == ClampTemp(t)
  {
  }
}
