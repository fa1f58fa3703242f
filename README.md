# Hubspace light service — a Dafny model

This project models the light-control core of a small HTTP service that drives
Hubspace smart lights. The service has two endpoints worth modelling:

- `POST /control` checks a bearer token, logs in to the vendor cloud again,
  validates the request, picks the target lights (all of them, or those whose
  name matches case-insensitively), and then controls every target on its own
  worker. Each worker reads the device's attributes, writes power (attribute 1),
  brightness (attribute 2, as two hex digits) and colour (attribute 4) in that
  order, and stops at the first write that raises. The endpoint then reports
  one result per target, the overall success flag and a "Controlled k/n devices
  successfully" summary.
- `GET /lights` logs in again and lists every light with its decoded power,
  brightness and colour.

The vendor cloud is an input. Whether login and device listing succeed is a
boolean. The listed devices are `Device` objects, each with:

- a name, an id and a device class;
- the attribute list `getAttributes` returns, or none when it raises;
- an oracle giving the error message `writeAction` raises for each attribute
  id the device refuses;
- a trace of the writes it accepted.

Workers may finish in any order, so the fan-out takes an arbitrary pending
target at each step. Results are therefore stated up to order.

Modules:

- `Wrappers`: `Option`.
- `Text`: the Python string behaviour the service relies on, on ASCII text.
  It covers `upper`/`lower`, `replace('#', '')`, the `{:02X}` format, decimal
  rendering and `int(str)`.
- `Auth`: the token check.
- `Devices`: the device class, attribute decoding, the light filter and the
  name filter.
- `Control`: request validation, the write plan and the per-device worker
  `ControlDevice`, plus its properties.
- `Service`: the service object, its refresh of the light list, both
  endpoints, the fan-out and the aggregation.

## Model

| member | source | states |
|---|---|---|
| Auth.TokenAccepted | main.py:72-76 | the header is accepted exactly when it is present and equal to "Bearer " followed by the secret; a missing or empty header is refused |
| Auth.LowerCaseSchemeRefused | main.py:74 | the comparison is exact, so a lower-case "bearer " scheme is refused |
| Control.ValidationError | main.py:265-276 | a request is accepted exactly when it has a non-empty action, a brightness or a non-empty colour, the action upper-cases to ON or OFF, the brightness is in 0..100 and the colour starts with '#'; otherwise the detail is one of the four handler messages, and each check that fails first answers its own message: "At least one control parameter must be specified" when nothing is given, the action message for an action that is not ON or OFF, the brightness message for a level outside 0..100 once the action passed, the colour message for a colour without '#' once the others passed |
| Control.AcceptedActions | main.py:269-270 | on ASCII input, an accepted action is one of the 12 case spellings of "on" and "off" |
| Text.UpperIsOn | main.py:160 | on ASCII input, `action.upper() == "ON"` holds exactly for the four case spellings of "on" |
| Text.UpperIsOff | main.py:163 | on ASCII input, `action.upper() == "OFF"` holds exactly for the eight case spellings of "off" |
| Text.RemoveAll | main.py:177 | `replace('#', '')` leaves no '#', keeps every other character with its multiplicity, and never lengthens the string |
| Text.RemoveAllAppend | main.py:177 | removal distributes over concatenation, so the kept characters stay in their original order |
| Text.RemoveAllAbsent | main.py:177 | removing a character that does not occur changes nothing |
| Text.HexDigits | main.py:170 | the `{:X}` rendering is non-empty upper-case hex without a leading zero, one digit below 16 and two below 256, and its hex value is the number |
| Text.Format02X | main.py:170 | `{:02X}` gives at least two characters, starts with '-' exactly for a negative number, and gives exactly two on 0..255 |
| Text.Format02XByte | main.py:170 | on 0..255, `{:02X}` gives exactly the two hex digits of the high and low nibble, and their hex value is the number |
| Text.Format02XRoundTrip | main.py:170 | every natural number round-trips through `{:02X}` and the hex parser, in at least two characters |
| Text.DecimalString | main.py:313 | the decimal rendering of a count is non-empty, all digits, and has no leading zero |
| Text.DecimalRoundTrip | main.py:313 | rendering a count in decimal and parsing it with `int` gives the count back |
| Text.ParseInt | main.py:128 | `int` succeeds exactly on a digit string, optionally after one '+' or '-', and raises on everything else; it reads the digits in base ten and negates them after '-' |
| Text.HexByteReadAsDecimal | main.py:126-128 | a two-hex-digit byte read by `int` parses only when both digits are decimal, and then yields the digits read in base ten |
| Devices.Device.WriteAction | main.py:161 | `writeAction` either raises with the device's message for that attribute id, leaving the trace alone, or appends the write to the trace |
| Devices.FirstIndex | main.py:121 | `next(...)` finds the first attribute with the id: none before it has the id, and it has the id when it exists |
| Devices.DecodeAttributes | main.py:114-138 | `get_device_attributes` gives the empty result when `getAttributes` raises; power is only ever "ON" or "OFF", colour always starts with '#', and brightness is present only when the device listed a brightness attribute |
| Devices.DecodeFirstMatch | main.py:120-133 | each reading comes from the first attribute with its id: power is "ON" exactly when that value is "1", brightness is `int` of it, colour is "#" + it |
| Devices.DecodeRaisesEmpties | main.py:126-138 | when `int` raises on the first brightness value, the whole result is empty |
| Devices.DecodeAbsent | main.py:120-133 | a reading whose id no attribute carries is absent from the result |
| Devices.IsLight | main.py:100 | a light has a non-empty name and a five-character class, so the separate truthiness test on the class is implied by the comparison with "light" |
| Devices.LightFilter | main.py:95-101 | the lights are exactly the listed devices with a non-empty name and a class that lower-cases to "light"; no device is added or repeated |
| Devices.LightFilterAppend | main.py:96-101 | the filter distributes over concatenation, so the lights keep their listing order |
| Devices.LightFilterIdempotent | main.py:100-101 | filtering the lights again changes nothing |
| Devices.NameFilter | main.py:281 | the targets are exactly the lights whose lower-cased name equals the lower-cased requested name; no light is added or repeated |
| Devices.NameFilterAppend | main.py:281 | the name filter distributes over concatenation, so the targets keep the order of the light list |
| Devices.NameFilterCaseInsensitive | main.py:281 | names that differ only in ASCII case select the same targets |
| Control.FailIndex | main.py:151-187 | the index of the first planned write the device refuses: all writes before it are accepted, and it is refused when it exists |
| Control.CleanColor | main.py:177 | on ASCII input, cleaning never lengthens the colour, and a colour starting with '#' always loses at least that character |
| Control.CleanColorStripsHash | main.py:177 | a '#' followed by text without '#' cleans to that text upper-cased, in its own order |
| Control.Executed | main.py:151-187 | the writes a device accepts are a prefix of the plan, none of them refused, and the next planned write, when there is one, is refused |
| Control.Expected | main.py:140-189 | the result carries the device's name and id, succeeds exactly when the device accepted the whole plan, and then says "Successfully controlled <name>" |
| Control.WritePower | main.py:159-165 | the power block writes "01" for ON or "00" for OFF and reports that state; nothing is written after an earlier refusal |
| Control.WriteBrightness | main.py:168-172 | the brightness block writes the `{:02X}` text and reports the requested level; nothing is written after an earlier refusal |
| Control.WriteColor | main.py:175-180 | the colour block writes the cleaned colour only when it has six characters; nothing is written after an earlier refusal |
| Control.IssueWrites | main.py:158-180 | after the three blocks the trace holds the plan up to the first refusal, and the pending error is that refusal's message |
| Control.ControlDevice | main.py:140-189 | the device trace grows by exactly the planned writes before the first refusal, and the result is `Expected` |
| Control.PlanOrder | main.py:158-180 | writes go out as power, then brightness, then colour, at most one of each |
| Control.PlanContents | main.py:159-180 | power writes "01"/"00" for ON/OFF, brightness writes its `{:02X}` text, colour writes its cleaned six-character value, and nothing else is written |
| Control.FailureStopsWrites | main.py:151-187 | the device accepts a prefix of the plan and nothing after the first refusal; success holds exactly when nothing is refused; the message is "Successfully controlled <name>" or "Error controlling <name>: <error>" |
| Control.ReportedFields | main.py:153-180 | each reported field is the value set by an accepted write, and otherwise the value read before any write |
| Control.PowerOnOnly | main.py:159-165 | an ON-only request that succeeds reports power ON and keeps the brightness and colour read before |
| Control.AcceptedBrightnessEncoding | main.py:168-172 | an accepted brightness is written as two upper-case hex digits whose value is the level; 0 gives "00" and 100 gives "64" |
| Control.ColorValueShape | main.py:175-179 | a written colour has six characters, no '#' and no lower-case ASCII letter |
| Control.ShortColorWritesNothing | main.py:175-183 | "#ABC" passes validation but cleans to three characters, so nothing is written and the device succeeds |
| Control.ColorReadBack | main.py:131-133 | decoding a written colour gives back the colour the result reports |
| Control.BrightnessReadBack | main.py:126-128 | a written level decodes as its hex digits read in base ten, or empties every reading when a digit is A-F; only levels below 10 come back unchanged |
| Control.PowerReadBack | main.py:121-123 | the written ON value "01" decodes as OFF; only "1" decodes as ON |
| Service.SuccessCount | main.py:306 | the success count is at most the number of results |
| Service.AllSucceeded | main.py:306-312 | the count equals the number of results exactly when every result succeeded |
| Service.SuccessCountPermutation | main.py:291-306 | the count does not depend on the order the results arrive in |
| Service.Summary | main.py:313 | the summary starts with "Controlled " |
| Service.SummaryReadBack | main.py:313 | in the summary, the number before the '/' reads back as the success count and the number after it as the total |
| Service.SummaryDeterminesCounts | main.py:313 | different pairs of counts never give the same summary, so the message states both counts |
| Service.Targets | main.py:279-283 | without a name the targets are all lights; with one they are exactly the lights whose lower-cased name equals it |
| Service.Gate | main.py:258-283 | the control handler's errors are 401, 500, 400 or 404; 401 exactly when the token is refused, then 500 when the login fails, then 400 with the validation message, then 404 when a given name matches no light; a request that passes is dispatched to exactly `Targets` of the lights |
| Service.GateAccepts | main.py:258-283 | a request is dispatched exactly when the token and login pass, the request is valid and, when a name is given, some light carries it; it is then dispatched to lights of the vendor list only |
| Service.Info | main.py:235-241 | a listed light carries the device's name and id and its decoded brightness and colour; its power is the decoded ON or OFF, and "UNKNOWN" exactly when it could not be read |
| Service.NoLightsVacuousSuccess | main.py:305-313 | with no lights and no name, a valid request dispatches to nobody and reports success with "Controlled 0/0 devices successfully" |
| Service.Worker | main.py:293-296 | one worker controls its target and touches no other device |
| Service.Dispatch | main.py:288-303 | the results are a permutation of one `Expected` result per target, and each target's trace grows by its own executed writes |
| Service.LightService.InitializeHubspace | main.py:79-112 | on login success the light list is rebuilt as the filtered device list; on failure it is kept and false is returned |
| Service.LightService.GetLights | main.py:223-247 | a login failure answers 500; otherwise the light list is refreshed and every light is listed in order with its decoded readings |
| Service.LightService.ControlLights | main.py:249-318 | the checks answer 401, 500, 400 and 404 in that order. Otherwise the results are a permutation of one result per target. Overall success means the success count equals the total, and the summary states both counts. Only targets receive writes, and the light list is refreshed exactly when the token and the login pass |

## Left out

- FastAPI plumbing is not modelled: routing, uvicorn, `.env` loading and the `/` and `/test-env` endpoints, which only report configuration.
- The startup hook (main.py:192-196) and `/health` (main.py:320-334) are not modelled as endpoints. Both call `initialize_hubspace()`, which refreshes the light list exactly as `Service.LightService.InitializeHubspace` models it. `/health` then reports the login outcome and the number of lights.
- Service.LightService.ControlLights: pydantic's `Field(ge=0, le=100)` on brightness would reject an out-of-range level with 422 before the handler runs. The model keeps only the handler's own check, which answers 400.
- The vendor client is not modelled; it is network I/O.
  - `Hubspace(...)` and `getDevices()` become the `authOk` flag and the device list.
  - `getAttributes()` becomes a fixed attribute list, or `None` when it raises.
  - `writeAction` becomes a per-attribute-id refusal oracle.
  - A device whose refusals depend on anything else, such as time or earlier writes, is not covered.
- The attribute list does not reflect the device's own writes. What `getAttributes` returns is fixed per device, so a later read does not see an earlier write.
- Service.LightService.ControlLights requires that the vendor list holds no device object twice. Aliased devices are not modelled.
- Threads are not modelled as interleavings. Each worker runs as one atomic step, in any order. The results are stated up to order, as the handler appends them in completion order.
- The completion timestamp and all `print` logging are left out.
- The device accessors `getName()`, `getID()` and `getDeviceClass()` are treated as total.
  - At main.py:142-143, main.py:237-238, main.py:281 and main.py:292 they sit outside any `try`. An exception there would escape the handler or the worker; that path is not modelled.
  - main.py:137 calls `getName()` in the `except` branch of `get_device_attributes`. On the `/lights` path (main.py:235) an exception there escapes the handler. On the worker path it is caught at main.py:185 and reported as "Error controlling …". Neither path is modelled.
  - At main.py:97-98 `getName()` and `getDeviceClass()` sit inside the `try` of `initialize_hubspace`. An exception there would make it return false, so the handler would answer 500 with a partly rebuilt light list. That path is not modelled either: the model's login either fails before the loop or the whole loop runs.
- `str.upper` and `str.lower` are modelled on ASCII letters only. Unicode case mapping is not modelled.
- `int(str)` is modelled as an optional sign followed by ASCII digits. Surrounding whitespace, underscores, non-ASCII digits and non-string attribute values are not modelled.
- hubspace_control.py is not part of this model. It is a script run on import, and its only logic repeats the light filter and power decode of main.py.

## Behaviour of the code worth knowing

- Re-authentication (500) happens before validation (400). An invalid request with a failing login therefore answers 500.
- The colour check only tests for a leading '#'. The colour is written only when it cleans to exactly six characters, and its characters are never checked to be hex digits. Colours of other lengths are accepted and silently not written.
- What is written and what is read back do not use the same encodings.
  - Power is written as "01"/"00", but only "1" decodes as ON.
  - Brightness is written in hex, but decoded with a decimal `int`.
  - Hence `Control.PowerReadBack` and `Control.BrightnessReadBack` state the actual read-back rather than a round trip.
