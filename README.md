# cwiz: a verified model of a WiZ smart-bulb client

cwiz is a small C library that controls WiZ smart bulbs over the WiZ UDP text
protocol on port 38899. A command is a JSON datagram
`{"method":"setPilot","params":{...}}` that the library sends and retransmits
until the bulb answers. The library keeps a cached copy of each bulb's state
and updates it only when a command succeeds. It parses a bulb's `getPilot`
and `getSystemConfig` replies with a tolerant scalar extractor. It composes
multi-field updates through a "pilot builder". It discovers bulbs by
broadcasting a registration datagram and collecting the macs that answer. It
also offers a few utilities: error strings, warm/cool white interpolation,
`#RRGGBB` parsing and a static table of the bulb's scenes.

This project models that library in Dafny and proves its contracts:

| module (file) | models |
|---|---|
| `Wrappers` (wrappers.dfy) | `Option` |
| `CText` (ctext.dfy) | the libc behaviour the code relies on, restated: C strings up to their first NUL, `strstr`, `strncpy` truncation, `atoi`, `%d`, `isxdigit`/`%02x`, the `sscanf("%N[^\"]")` copy |
| `Cwiz` (cwiz.dfy) | include/cwiz.h: constants, the status enum, the state, info and colour structs, the fixed-width integer narrowing, the clamps |
| `Codec` (codec.dfy) | the formatter and parsers of src/protocol.c |
| `Transport` (transport.dfy) | `wiz_send_receive`: the retry loop, run against an oracle of per-attempt outcomes |
| `Builder` (builder.dfy) | src/pilot_builder.c: a class with the builder's twelve fields |
| `Session` (session.dfy) | src/bulb.c: a `Bulb` class holding the address, the cache, the oracle and a log of sent datagrams |
| `Discovery` (discovery.dfy) | src/discovery.c: the registry class, the per-datagram processing and `wiz_discover_bulbs` |
| `Utils` (utils.dfy) | src/utils.c |
| `Scenes` (scenes.dfy) | src/scenes.c |

The code is modelled in its own form:
- Loops and in-place updates become methods with loop invariants. Each is proved equal to a specification function: `SendReceive` equals `ExchangeSpec`, `JsonGetInt` equals `IntField`, `ApplyPilot` equals `ApplyPilotSpec`, `ScanNames` equals `FindName`.
- The properties are proved as lemmas about those functions.
- The network is a sequence of outcomes (`SendFailed`, `NoReply`, `Reply(bytes, sender)`). Attempts past its end observe `NoReply`.
- A datagram that `recvfrom` receives also overwrites the session's peer address with the sender's, as the code does.
- NULL pointers the code checks become `Option` values or nullable references. The code's `uint8_t`/`uint16_t` fields are `U8`/`U16`, with the narrowing of the parsers written out as reduction modulo 2^8 and 2^16.

Constants agree with include/cwiz.h:10-14: port 38899, timeout 13 s, 6 retries, temperature range 2200..6500.

The interpolation of `wiz_rgb_to_rgbcw` floors, as the integer division at src/utils.c:49 does. So 4350 K gives c = 127 and w = 128.

## Model

| member | source | states |
|---|---|---|
| Cwiz.Status.Code | include/cwiz.h:17-26 | `WIZ_OK` is 0 and every error code lies in -7..-1 |
| Cwiz.StatusOf | include/cwiz.h:17-26 | an integer maps back to the status with that code, and to None exactly when no status has it |
| Cwiz.CodeInjective | include/cwiz.h:17-26 | the eight codes are pairwise distinct |
| Cwiz.ToU8 | src/protocol.c:172-188 | the store into a `uint8_t` field keeps values in 0..255 and otherwise agrees with the input modulo 256 |
| Cwiz.ToU16 | src/protocol.c:175-179 | the store into a `uint16_t` field keeps values in 0..65535 and otherwise agrees modulo 65536 |
| Cwiz.ClampBrightness | src/bulb.c:96-97 | the result lies in 10..100, equals the input when it is in range and is the nearer bound otherwise |
| Cwiz.ClampTemp | src/bulb.c:128-129 | the result lies in 2200..6500, equals the input when it is in range and is the nearer bound otherwise |
| Cwiz.ClampIdempotent | src/pilot_builder.c:30-33 | clamping twice is clamping once, for brightness and for temperature |
| CText.CStr | src/protocol.c:60-64 | the C string in a buffer is its longest NUL-free prefix, and a NUL follows it when it is shorter than the buffer |
| CText.CStrOfCString | src/protocol.c:64 | a NUL-free text is its own C string |
| CText.Find | src/protocol.c:124 | `strstr`: the first match at or after the start, with no match before it; None when there is no match at all |
| CText.Truncate | src/discovery.c:86-89 | `strncpy` into an n-byte field keeps a prefix of at most n-1 characters, and the whole text when it fits |
| CText.SkipSpaces | src/protocol.c:132 | the leading blanks `atoi` skips: every skipped character is a blank and the first one kept is not |
| CText.SkipJsonSpaces | src/protocol.c:129-131 | the skip loop stops at the first character that is not space, tab, newline or carriage return |
| CText.DigitsEnd | src/protocol.c:132 | the run of digits `atoi` reads ends at the first non-digit |
| CText.Dec | src/bulb.c:100 | `%d` of a non-negative number prints at least one digit and only digits |
| CText.NumDec | src/bulb.c:100 | reading back the digits `%d` printed gives the number |
| CText.DecLength | src/bulb.c:99-100 | a number below 10^k prints in at most k digits |
| CText.AtoiDecAt | src/protocol.c:132 | `atoi` at a `%d` text that is followed by a non-digit returns the printed number |
| CText.ScanEnd | src/protocol.c:208 | the `%N[^"]` copy takes at most N characters, none of them a quote or the terminator |
| CText.SkipSpaceQuote | src/protocol.c:206-207 | the skip loop passes only spaces and quotes and stops at neither |
| CText.HexValue | src/utils.c:74 | a hex digit of either case has a value below 16 |
| CText.DigitChar | src/bulb.c:100 | the digit printed for d < 10 reads back as d |
| Codec.BuildJsonMessage | src/protocol.c:79-98 | a NULL buffer or method, or a message that does not fit with its terminator, is INVALID_PARAM; otherwise the result is exactly the `{"method":...}` envelope and shorter than the buffer, so no truncated success exists |
| Codec.EmptyParamsOmitted | src/protocol.c:86-91 | NULL params and empty params both give `{"method":"M"}` |
| Codec.SkipBackSpaces | src/protocol.c:106-109 | the backward scan passes only whitespace and stops at a non-blank or at the start |
| Codec.KeyStartValidMeaning | src/protocol.c:101-113 | a match is a genuine key iff it is at offset 0 or the nearest non-blank before it is `{` or `,` (both directions) |
| Codec.IsValidKeyStart | src/protocol.c:101-113 | the backward loop decides exactly that predicate |
| Codec.SearchKey | src/protocol.c:117-119 | the sought text is `"key":`, truncated by the 64-byte buffer only for keys over 60 characters |
| Codec.FindKey | src/protocol.c:124-136 | the first genuine match at or after the start: false positives are skipped one character at a time; None when no genuine match exists |
| Codec.ValueStart | src/protocol.c:127-131 | the value of a present key begins within the text; `KeyAfter` gives its exact place |
| Codec.BoolField | src/protocol.c:142-161 | -1 iff the key is absent; 1 iff the first character of the value is `t` or `T`; 0 otherwise |
| Codec.SkipBlanks | src/protocol.c:129-131 | the whitespace loop reaches the first non-blank |
| Codec.FindValue | src/protocol.c:121-136 | the strstr/validate loop finds a value iff the key is genuinely present, at the position the specification gives |
| Codec.JsonGetInt | src/protocol.c:116-139 | `_json_get_int` returns the `atoi` of the first genuine value, -1 when the key is absent |
| Codec.JsonGetBool | src/protocol.c:142-161 | `_json_get_bool` returns the three-valued reading of `BoolField` |
| Codec.KeyAfter | src/protocol.c:124-131 | a key written right after `{` or `,` is found there as a genuine key, and its value starts after the following blanks |
| Codec.IntFieldAfter | src/protocol.c:116-139 | a key followed by a `%d` value and then a non-digit reads back as that value |
| Codec.DecAfter | src/protocol.c:129-132 | a `%d` text followed by a non-digit has no blanks to skip and `atoi` reads it whole |
| Codec.SingleFieldRoundTrip | src/protocol.c:116-139 | the body `{"key":n}` that the commands send reads back as n |
| Codec.MergePilot | src/protocol.c:164-194 | the sparse merge never changes speed, rgbcw or src; the on flag is kept when `state` is absent and otherwise follows the first character of the value |
| Codec.MergeKeepsAbsentFields | src/protocol.c:169-191 | every field whose key is absent keeps its cached value |
| Codec.MergeTakesPresentFields | src/protocol.c:172-191 | each of dimming, temp, sceneId, r, g, b and rssi whose extracted value is not -1 is present and takes that value, narrowed to the field's width |
| Codec.MergeKeepsSentinelFields | src/protocol.c:172-191 | each of those seven fields whose extracted value is -1, whether the key is absent or the reply says -1, keeps its cached value |
| Codec.MergeIdempotent | src/protocol.c:164-194 | merging the same reply twice is merging it once |
| Codec.ParseGetPilotResponse | src/protocol.c:164-194 | a NULL body or a NULL state pointer is INVALID_PARAM with the state untouched; otherwise the result is OK with the state merged |
| Codec.MergeInto | src/protocol.c:169-191 | the eight guarded assignments perform the sentinel-guarded merge |
| Codec.StateExample | src/protocol.c:142-161 | in `{"state":true,"dimming":50}` the state reads as 1 |
| Codec.DimmingExample | src/protocol.c:116-139 | in the same reply the dimming reads as 50 |
| Codec.AbsentSceneExample | src/protocol.c:138 | in the same reply the absent sceneId reads as -1 |
| Codec.FalsePositiveSkipped | src/protocol.c:134-135 | a match that is not a genuine key is skipped: the search resumes one character later, and any genuine key found lies after it |
| Codec.MergeBrightness | src/protocol.c:172-173 | the cached brightness takes the narrowed dimming value exactly when it is not -1 |
| Codec.MergeRssi | src/protocol.c:190-191 | the cached rssi takes the rssi value exactly when it is not -1 |
| Codec.NegFieldAfter | src/protocol.c:132 | a key followed by `-` and digits reads back as the negative number |
| Codec.AtoiMinus | src/protocol.c:132 | `atoi` at a minus sign is the negation of `atoi` after it |
| Codec.RssiSentinelCollision | src/protocol.c:190-191 | the reply `{"rssi":-1}` carries the key, yet the cached rssi stays as it was: a genuine -1 cannot be told from an absent field |
| Codec.MergeIgnoresBrightnessRange | src/protocol.c:172-173 | a reported dimming of 0 is cached as 0: the merge does not clamp to 10..100 |
| Codec.StringField | src/protocol.c:203-227 | the extracted text has 1..width characters, holds no quote and does not start with a space; an absent key gives no text |
| Codec.ScanStringField | src/protocol.c:203-209 | strstr, the skip loop and the bounded copy compute `StringField` |
| Codec.MergeConfig | src/protocol.c:197-230 | home and room ids are untouched, and the mac field is never longer than 17 characters unless it already was |
| Codec.ParseSystemConfig | src/protocol.c:197-230 | a NULL body or a NULL info pointer is INVALID_PARAM with the info untouched; otherwise the result is OK with mac, moduleName and fwVersion merged by the corrected scan |
| Codec.MergeConfigKeepsAbsent | src/protocol.c:203-227 | a field whose key does not occur keeps its old value |
| Codec.StringFieldRoundTrip | src/protocol.c:203-209 | `{key"v"}` extracts exactly v when v fits the width and holds no quote |
| Codec.QuotedValueAt | src/protocol.c:206-208 | a value that follows the skip point and ends at a quote is copied exactly |
| Codec.StaleBytesReadPastTerminator | src/protocol.c:203-208 | when the reply ends with its key, the scan as written returns the stale bytes past the terminator, while the corrected scan finds nothing |
| Codec.StaleMacExample | src/discovery.c:186-193 | the concrete case: a reply ending in `"mac":` over a buffer still holding `a1b2c3d4e5f6"` |
| Transport.Received | src/protocol.c:60-64 | `recvfrom` into a buffer of n bytes stores at most n-1 bytes, no more than the datagram holds |
| Transport.WaitAt | src/protocol.c:41-72 | the wait before every attempt lies between 750000 µs and 13000000 µs |
| Transport.NextWaitAt | src/protocol.c:68-72 | adding 3000000 µs and capping at 13000000 µs moves the schedule one attempt on |
| Transport.RunStep | src/protocol.c:43-73 | one attempt: a send failure stops with SOCKET after no wait; a non-empty reply stops with OK, the truncated reply and its sender; silence or an empty reply retries with a longer wait, an empty reply also redirecting the next send to its sender |
| Transport.SendReceive | src/protocol.c:33-76 | the while loop computes `ExchangeSpec`: status, reply, sends, waits, attempts used and final peer address |
| Transport.FirstStop | src/protocol.c:43-73 | the first attempt that does not retry, with every earlier attempt retrying |
| Transport.RunOutcome | src/protocol.c:43-75 | the loop stops at the first non-retrying attempt: TIMEOUT iff all six retry, SOCKET iff it was a send failure, OK iff it was a reply, which is then non-empty and shorter than the buffer |
| Transport.RunSendsMessage | src/protocol.c:45-46 | every attempt sends the same message, and every attempt that sent waits |
| Transport.RunWaits | src/protocol.c:53-72 | the waits follow the schedule 750000 µs, +3000000 µs per failure, capped at 13000000 µs |
| Transport.WaitSchedule | src/protocol.c:41-72 | the schedule is 0.75, 3.75, 6.75, 9.75, 12.75 and 13 s, 46.75 s in all |
| Transport.ExchangeGuarantees | src/protocol.c:33-76 | at most six sends; a NULL message is INVALID_PARAM with no send; otherwise the status is OK, SOCKET or TIMEOUT |
| Transport.SendFailureIsImmediate | src/protocol.c:48-50 | a failed first send is SOCKET after one send and no wait |
| Transport.SilenceTimesOut | src/protocol.c:43-75 | a silent network is TIMEOUT after exactly six sends of the message to the same address |
| Transport.RunSameDest | src/protocol.c:59-61 | while no reply arrives, every send goes to the original address |
| Transport.ReplyOnFourthAttempt | src/protocol.c:63-66 | three silences then a reply is OK after four sends, with the reply truncated to the buffer and the sender as the new peer |
| Transport.EmptyReplyRedirects | src/protocol.c:59-68 | an empty reply is retried but still redirects the next send to its sender |
| Builder.PilotBuilder.constructor | src/pilot_builder.c:5-9 | a new builder has every flag and value zero |
| Builder.SetState | src/pilot_builder.c:17-22 | sets the state flag and value on a non-NULL builder; a NULL builder is left alone |
| Builder.SetBrightness | src/pilot_builder.c:24-37 | stores the clamped brightness and sets its flag |
| Builder.SetRgb | src/pilot_builder.c:39-48 | stores the three channels verbatim and sets the rgb flag |
| Builder.SetTemperature | src/pilot_builder.c:50-63 | stores the clamped temperature and sets its flag |
| Builder.SetScene | src/pilot_builder.c:65-72 | stores the scene id verbatim and sets its flag |
| Builder.SettersOwnTheirFields | src/pilot_builder.c:17-72 | each setter sets its flag, stores its (clamped) value and leaves every other field as it was |
| Builder.SettersIdempotent | src/pilot_builder.c:17-72 | calling a setter twice with the same argument is calling it once |
| Builder.LastWriteWins | src/pilot_builder.c:17-72 | a later call on the same field overwrites the earlier one |
| Builder.SettersCommute | src/pilot_builder.c:17-72 | setters of different fields can be called in either order |
| Builder.BuiltIsApiShaped | include/cwiz.h:126-137 | a builder reached through the public setters holds in-range values and never has the speed flag set |
| Builder.BuiltFlag | include/cwiz.h:98-111 | a group's flag is set iff some setter call of that group was made |
| Session.Bulb.constructor | src/bulb.c:35-51 | a new bulb holds the truncated ip text, the peer at port 38899, a zeroed cache and info, and an empty send log |
| Session.Create | src/bulb.c:30-60 | NULL iff the ip is NULL, the socket cannot be made or the ip does not parse; otherwise a fresh bulb in its initial state |
| Session.Transact | src/bulb.c:20-28 | a request that does not fit is INVALID_PARAM with nothing sent; otherwise at least one and at most six datagrams carrying the envelope are appended to the log, an OK reply is non-empty and shorter than 1024 bytes, and the cache, ip text and info are untouched |
| Session.Talk | src/bulb.c:20-28 | `_wiz_send_param` on the heap performs `Transact` |
| Session.Commit | src/bulb.c:77-80 | the new cache is written only on OK; nothing else in the session changes |
| Session.TurnOn | src/bulb.c:73-81 | sends `{"state":true}` and on OK sets only the on flag; a NULL bulb is INVALID_PARAM |
| Session.TurnOff | src/bulb.c:83-91 | sends `{"state":false}` and on OK clears only the on flag |
| Session.SetBrightness | src/bulb.c:93-108 | sends the clamped dimming and on OK caches it and marks the bulb on |
| Session.SetRgb | src/bulb.c:110-123 | sends the channels unclamped and on OK caches only the rgb |
| Session.SetTemperature | src/bulb.c:125-139 | sends the clamped temperature and on OK caches only the temperature |
| Session.SetScene | src/bulb.c:141-152 | sends the scene id unvalidated and on OK caches only the scene id |
| Session.UpdateState | src/bulb.c:154-171 | sends getPilot without params; on OK the reply, up to its first NUL, is merged into the cache; any error leaves it alone |
| Session.MergeReply | src/bulb.c:170 | the reply, up to its first NUL, is parsed into the cached state; the status is OK and no other field of the bulb changes |
| Session.GetState | src/bulb.c:173-179 | a copy of the cache with no transport call; a NULL argument is INVALID_PARAM |
| Session.AppendPart | src/bulb.c:193-211 | an optional append grows the text by the field and a comma exactly when its flag is set |
| Session.CloseBody | src/bulb.c:213-216 | dropping the trailing comma and adding the brace gives the comma-joined fields in braces |
| Session.AppendField | src/bulb.c:193-211 | one guarded `snprintf` keeps the text equal to `{` and the fields so far, each followed by a comma |
| Session.SerializePilot | src/bulb.c:188-216 | the composed params are the present fields in the order state, dimming, r/g/b, temp, sceneId, speed, comma-joined, in braces |
| Session.CloseParams | src/bulb.c:213-216 | the trailing comma, if any, becomes the closing brace |
| Session.ApplyPilot | src/bulb.c:181-243 | a NULL argument is INVALID_PARAM with the bulb untouched; otherwise the body is sent and on OK exactly the flagged fields are written |
| Session.PatchState | src/bulb.c:227-240 | the guarded assignments compute `Patch` |
| Session.PatchWritesFlaggedFields | src/bulb.c:227-240 | each field takes the builder's value iff its flag is set, and rgbcw, src and rssi never change; an empty builder changes nothing; patching is idempotent |
| Session.FailureKeepsCache | src/bulb.c:73-243 | on any non-OK status every command leaves the cache as it was; no command touches the ip text or the info |
| Session.EnvelopeLength | src/protocol.c:86-91 | the envelope's length is that of the method and params plus 23, or of the method plus 13 without params |
| Session.SmallRequestSent | src/bulb.c:20-28 | a request to a method of at most 9 characters whose params are under 128 characters fits the 256-byte buffer, so its status is OK, SOCKET or TIMEOUT |
| Session.SwitchFits | src/bulb.c:73-91 | turn_on and turn_off never fail with INVALID_PARAM on a non-NULL bulb |
| Session.BrightnessFits | src/bulb.c:99-102 | the dimming body fits 64 bytes and the command never fails with INVALID_PARAM |
| Session.RgbFits | src/bulb.c:113-116 | the rgb body fits 128 bytes and the command never fails with INVALID_PARAM |
| Session.TemperatureFits | src/bulb.c:131-134 | the temp body fits 64 bytes and the command never fails with INVALID_PARAM |
| Session.SceneFits | src/bulb.c:144-147 | the sceneId body fits 64 bytes and the command never fails with INVALID_PARAM |
| Session.UpdateFits | src/bulb.c:161-163 | the getPilot request always fits, so update_state never fails in the build step |
| Session.CommandsFit | src/bulb.c:93-171 | every single-field body fits its buffer, so each command's status is the exchange's |
| Session.FieldWidths | src/bulb.c:193-211 | each field apply_pilot prints has a fixed maximum width |
| Session.FieldsLength | src/bulb.c:193-211 | all fields with their commas take at most 93 characters |
| Session.PilotBodyLength | src/bulb.c:190-216 | the params body is at most 94 characters |
| Session.PilotBodyFits | src/bulb.c:185-221 | the body fits the 384-byte params buffer and the message fits 512 bytes, so apply_pilot never fails in the build step |
| Session.EmptyBuilderBody | src/bulb.c:190-221 | an empty builder yields `{}`, which is still sent as params |
| Session.EmptyParamsEnvelope | src/protocol.c:86-88 | `{}` is non-empty and so appears in the message |
| Session.ReadBack | src/bulb.c:99-100 | a `{"key":n}` body written with `%d` reads back as n through the extractor |
| Session.BrightnessReadsBack | src/bulb.c:100 | the dimming body reads back as its value |
| Session.TemperatureReadsBack | src/bulb.c:132 | the temp body reads back as its value |
| Session.SceneReadsBack | src/bulb.c:145 | the sceneId body reads back as its value |
| Session.BrightnessFiveMessage | src/bulb.c:96-102 | `set_brightness(5)` sends the params `{"dimming":10}` on every attempt |
| Session.DimmingTen | src/bulb.c:96-100 | brightness 5 is raised to 10 before it is printed |
| Session.SingleBody | src/bulb.c:213-216 | a single field is closed into `{field}` with no comma |
| Session.BuilderMatchesSwitch | src/bulb.c:190-216 | a builder holding only a state call sends the body turn_on or turn_off sends |
| Session.SwitchText | src/bulb.c:76 | the literal turn_on/turn_off bodies are the state field in braces |
| Session.BuilderMatchesBrightness | src/bulb.c:190-216 | a builder holding only a brightness call sends the body set_brightness sends |
| Session.BuilderMatchesRgb | src/bulb.c:190-216 | a builder holding only an rgb call sends the body set_rgb sends |
| Session.BuilderMatchesTemperature | src/bulb.c:190-216 | a builder holding only a temperature call sends the body set_temperature sends |
| Session.BuilderMatchesScene | src/bulb.c:190-216 | a builder holding only a scene call sends the body set_scene sends |
| Session.BuilderBrightnessKeepsPower | src/bulb.c:226-240 | brightness through the builder sends and ends like set_brightness, except that it does not mark the bulb on |
| Session.UpdateKeepsUnreportedFields | src/bulb.c:154-171 | a successful refresh is the sparse merge, so speed, rgbcw and src survive |
| Discovery.Lookup | src/discovery.c:214-222 | the first entry with that mac, and None iff no entry has it |
| Discovery.Registry.constructor | src/discovery.c:49-53 | a new registry is empty with count 0 |
| Discovery.AddBulb | src/discovery.c:69-104 | the list becomes `Register` of the old list, and count grows by exactly the number of entries added |
| Discovery.GetByMac | src/discovery.c:208-223 | NULL for a NULL argument; otherwise the lookup by mac |
| Discovery.RegisterDuplicate | src/discovery.c:72-78 | a mac already present changes nothing: the first-seen entry is kept |
| Discovery.RegisterAppends | src/discovery.c:80-103 | a new mac is appended at the tail with a 15-character ip and a 17-character mac, and earlier entries keep their order |
| Discovery.RegisterKeepsValid | src/discovery.c:69-104 | registration keeps macs pairwise distinct and stored fields within their widths |
| Discovery.RegisterKeepsDistinct | src/discovery.c:69-104 | registration keeps macs pairwise distinct |
| Discovery.LookupUnique | src/discovery.c:208-223 | with distinct macs, the lookup returns the unique entry with an equal mac |
| Discovery.LookupAfterRegister | src/discovery.c:69-104 | after registering a mac, the lookup finds the first-seen entry for it |
| Discovery.DiscoverBulbs | src/discovery.c:106-206 | NULL arguments are INVALID_PARAM and setup failures their code with the registry untouched; otherwise one registration datagram is broadcast, the datagrams are folded into the registry in arrival order, the registry stays valid and the result is the count, including earlier entries |
| Discovery.DatagramRegistersSender | src/discovery.c:178-197 | a datagram either changes nothing or appends its sender's ip with the mac it carries, when that mac is new |
| Discovery.IgnoredDatagrams | src/discovery.c:178-187 | receive errors, empty datagrams and datagrams without `"mac":` are ignored |
| Discovery.AbsorbKeepsValid | src/discovery.c:171-202 | folding any datagrams keeps macs distinct and fields within width, and never removes or reorders entries |
| Discovery.MacReplyRegisters | src/discovery.c:185-196 | a reply `{"mac":"v"}` with a new v registers its sender with mac v |
| Discovery.MacOfReply | src/discovery.c:186-193 | the mac read from `{"mac":"v"}` is v |
| Discovery.ShortResponse | src/discovery.c:175-179 | a NUL-free datagram that fits the buffer is scanned whole |
| Discovery.EmptyMacRegistersJunk | src/discovery.c:192-196 | for the datagram `"mac":""` the code as written registers whatever the uninitialised buffer held, while the corrected processing ignores it |
| Utils.StrErrorKnownCodes | src/utils.c:6-27 | the message is "Unknown error" exactly for integers that are no status code |
| Utils.StrErrorInjective | src/utils.c:6-27 | distinct statuses have distinct messages |
| Utils.RgbToRgbcw | src/utils.c:29-52 | r, g and b are copied; c + w = 255 at every temperature |
| Utils.WriteRgbcw | src/utils.c:30-31 | a NULL rgbcw is left alone and any other is written |
| Utils.CoolFloor | src/utils.c:45-51 | strictly between the limits, c is the floor of (temp-2200)·255/4300, which stays below 255, so the cast never wraps |
| Utils.RgbcwEnds | src/utils.c:38-43 | at or below 2200 K the result is all warm, at or above 6500 K all cool |
| Utils.RgbcwHalfway | src/utils.c:45-51 | 4350 K gives c = 127 and w = 128 |
| Utils.CoolMonotonic | src/utils.c:38-51 | a hotter temperature never gives less cool white |
| Utils.HexDecode | src/utils.c:59-80 | a colour is decoded iff exactly six hex digits remain after at most one `#` |
| Utils.HexToRgb | src/utils.c:54-83 | NULL arguments are INVALID_PARAM; otherwise OK iff the text decodes, with the decoded colour; on failure the output is untouched |
| Utils.HexRoundTrip | src/utils.c:73-80 | decoding the `#RRGGBB` text of a colour, with or without `#`, gives the colour back |
| Utils.HexCaseInsensitive | src/utils.c:67-80 | decoding ignores the case of the digits |
| Utils.OrangeExample | src/utils.c:73-82 | `#FF8000` and `ff8000` both give (255, 128, 0) |
| Utils.DoubleHashRejected | src/utils.c:59-65 | only one `#` is stripped, so `##FF8000` is refused |
| Scenes.TableIdsIncreasing | src/scenes.c:6-19 | table ids are strictly increasing |
| Scenes.TableNamesDistinct | src/scenes.c:6-19 | no two entries share a name |
| Scenes.RowsUnique | src/scenes.c:6-19 | rows that each differ from all later rows make the names pairwise distinct |
| Scenes.FindId | src/scenes.c:23-30 | the first position with that id, None iff no entry has it |
| Scenes.FindName | src/scenes.c:32-42 | the first position with that exact name, None iff no entry has it |
| Scenes.ScanIds | src/scenes.c:24-29 | the for loop computes `FindId` |
| Scenes.ScanNames | src/scenes.c:36-41 | the for loop computes `FindName` |
| Scenes.GetSceneName | src/scenes.c:23-30 | `wiz_get_scene_name` returns the table name of the id, NULL when there is none |
| Scenes.GetSceneId | src/scenes.c:32-42 | `wiz_get_scene_id` returns the id of an exact name match, 0 for an unknown or NULL name |
| Scenes.AllScenes | src/scenes.c:44-49 | the table of 37 entries, with 37 written into a non-NULL count |
| Scenes.NameOfEntry | src/scenes.c:23-30 | every entry's id looks up to its name |
| Scenes.IdOfEntry | src/scenes.c:32-42 | every entry's name looks up to its id |
| Scenes.NameIdRoundTrip | src/scenes.c:6-42 | `get_scene_id(get_scene_name(id)) == id` for every id that has a name |
| Scenes.IdsPositive | src/scenes.c:6-19 | every id is at least 1, so 0 never names a scene |
| Scenes.SceneNameNone | src/scenes.c:23-30 | NULL comes back iff the id is not in the table |
| Scenes.SceneIdZero | src/scenes.c:32-42 | 0 comes back iff the name is NULL or no entry has it |
| Scenes.GapHasNoScene | src/scenes.c:6-30 | ids 37..999 have no scene |
| Scenes.NamesCapitalized | src/scenes.c:6-19 | every name starts with a capital letter |
| Scenes.CaseSensitive | src/scenes.c:36 | `ocean` does not match `Ocean` |
| Scenes.RhythmExample | src/scenes.c:19 | 1000 is `Rhythm`, and back |

## Left out

- Socket creation, options and closing are calls into the system, as are `sendto` and `recvfrom` themselves; the outcome oracle stands for them. `Session.Create` takes the socket and `inet_pton` results as flags.
- The receive timeout that `setsockopt` applies per attempt is recorded in the schedule of waits, not enforced, since the model has no clock.
- `wiz_bulb_destroy`, `wiz_bulb_registry_destroy` and `wiz_pilot_builder_destroy` only free memory, which Dafny manages.
- `calloc`/`malloc` failure in `wiz_bulb_create`, `registry_add_bulb` and the create functions is not modelled, since allocation does not fail in Dafny. `wiz_pilot_builder_create` and `wiz_bulb_registry_create` therefore never return NULL.
- `get_local_ip_mac` enumerates network interfaces; its result is the `local` parameter of `Discovery.DiscoverBulbs`, and None stands for its failure.
- Discovery.DiscoverBulbs: the wall-clock condition and the EAGAIN test that end the receive loop are left out. The loop is a fold over the finite list of arrivals, and any other receive error is skipped, as in the code.
- Discovery.DiscoverBulbs: uses the corrected datagram processing of both findings below. A reply that ends with `"mac":` yields no mac, and a datagram whose mac scan matches nothing, such as `"mac":""`, is ignored. The code as written is modelled apart, by `Codec.StringFieldInBuffer` and `Discovery.DatagramEffectAsWritten`.
- Codec.ParseSystemConfig: uses the corrected scan `Codec.StringField`, as does `Codec.MergeConfig`. On a reply that ends with `"mac":`, `"moduleName":` or `"fwVersion":`, it keeps the field instead of copying the stale bytes past the terminator. The as-written reading is `Codec.StringFieldInBuffer`.
- `inet_ntop` of a datagram's sender is not modelled; an `Endpoint` already carries the sender's ip text.
- `atoi` is modelled without overflow, and `rssi` as an unbounded integer rather than a 32-bit `int`.
- The registry's linked list is a sequence field: the model does not capture node identity or aliasing. `Discovery.GetByMac` returns the entry's value rather than a pointer into the list.
- Session.SerializePilot: takes the builder's field values, read once by `Session.ApplyPilot`, rather than reading the heap builder field by field.
- Session.Talk: the bytes of the 1024-byte response buffer past the reply are not modelled; only the reply up to its length is kept.
- Discovery.RegisterKeepsValid: requires a mac of at most 17 characters, which every caller in discovery.c guarantees through the `%17[^"]` width.
- Discovery.RegisterKeepsDistinct: carries the same requirement, as does Discovery.LookupAfterRegister.
- The socket descriptor and the `port` field of `wiz_bulb` are not separate fields; the port is part of the peer `Endpoint`.
- The repository's command-line demo programs print and sleep; they are not part of this model.

## Findings

| source | as written | input that shows it | evidently intended | confidence | as-written member | corrected member |
|---|---|---|---|---|---|---|
| src/protocol.c:205 | after `strstr` finds `"mac":` (likewise `"moduleName":` at 214, `"fwVersion":` at 223, and discovery.c:188), the pointer advances by the key length plus one without checking for the terminator | a reply that ends with `"mac":`, in a buffer still holding `a1b2c3d4e5f6"` from an earlier datagram | stop at the end of the text and find no value | not executed | Codec.StaleBytesReadPastTerminator | Codec.StringField |
| src/discovery.c:192-196 | `mac_str` is uninitialised and is registered even when `sscanf` matched nothing | the datagram `"mac":""` | ignore a datagram that carries no mac | not executed | Discovery.EmptyMacRegistersJunk | Discovery.DatagramEffect |
