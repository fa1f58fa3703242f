/**
 * Controlling one device: validating a control request, turning it into
 * attribute writes (power id 1, brightness id 2, colour id 4, in that order),
 * issuing them and building the per-device result (`control_device_thread`).
 */
module Control {
  import opened Wrappers
  import opened Text
  import opened Devices

  /** The body of a control request; `None` is a field left out of the JSON. */
  datatype Request = Request(name: Option<string>, action: Option<string>,
                             brightness: Option<int>, color: Option<string>)

  /** What one device reports back after a control attempt. */
  datatype DeviceResult = DeviceResult(name: string, deviceId: string, success: bool, message: string,
                                       power: Option<string>, brightness: Option<int>, color: Option<string>)

  /** Python truthiness of an optional string: present and non-empty. */
  predicate Given(s: Option<string>) {
    s.Some? && s.value != ""
  }

  // ---------------------------------------------------------------------
  // Validation

  const NO_PARAMETER := "At least one control parameter must be specified"
  const BAD_ACTION := "Action must be 'ON' or 'OFF'"
  const BAD_BRIGHTNESS := "Brightness must be between 0 and 100"
  const BAD_COLOR := "Color must be in hex format (e.g., '#FF0000')"

  /**
   * The request checks of `control_lights`, in the order the handler makes them;
   * the detail of the first one that fails, `None` when the request is accepted.
   */
  function ValidationError(req: Request): (detail: Option<string>)
    ensures detail.None? <==>
              && (Given(req.action) || req.brightness.Some? || Given(req.color))
              && (Given(req.action) ==> Upper(req.action.value) in {"ON", "OFF"})
              && (req.brightness.Some? ==> 0 <= req.brightness.value <= 100)
              && (Given(req.color) ==> req.color.value[0] == '#')
    ensures detail.Some? ==> detail.value in {NO_PARAMETER, BAD_ACTION, BAD_BRIGHTNESS, BAD_COLOR}
    ensures !(Given(req.action) || req.brightness.Some? || Given(req.color)) ==> detail == Some(NO_PARAMETER)
    ensures Given(req.action) && Upper(req.action.value) !in {"ON", "OFF"} ==> detail == Some(BAD_ACTION)
    ensures ((Given(req.action) ==> Upper(req.action.value) in {"ON", "OFF"})
             && req.brightness.Some? && !(0 <= req.brightness.value <= 100))
            ==> detail == Some(BAD_BRIGHTNESS)
    ensures ((Given(req.action) ==> Upper(req.action.value) in {"ON", "OFF"})
             && (req.brightness.Some? ==> 0 <= req.brightness.value <= 100)
             && Given(req.color) && req.color.value[0] != '#')
            ==> detail == Some(BAD_COLOR)
  {
    if !(Given(req.action) || req.brightness.Some? || Given(req.color)) then Some(NO_PARAMETER)
    else if Given(req.action) && Upper(req.action.value) != "ON" && Upper(req.action.value) != "OFF" then
      Some(BAD_ACTION)
    else if req.brightness.Some? && (req.brightness.value < 0 || req.brightness.value > 100) then
      Some(BAD_BRIGHTNESS)
    else if Given(req.color) && req.color.value[0] != '#' then Some(BAD_COLOR)
    else None
  }

  /** The accepted spellings of an action are exactly the case variants of ON and OFF. */
  lemma AcceptedActions(req: Request)
    requires ValidationError(req).None? && Given(req.action)
    ensures req.action.value in {"on", "oN", "On", "ON",
                                 "off", "ofF", "oFf", "oFF", "Off", "OfF", "OFf", "OFF"}
  {
    UpperIsOn(req.action.value);
    UpperIsOff(req.action.value);
  }

  // ---------------------------------------------------------------------
  // The writes a request asks for

  /** The power value written for an action: "01" for ON, "00" for OFF, none otherwise. */
  function PowerValue(action: Option<string>): Option<string> {
    if Given(action) then
      if Upper(action.value) == "ON" then Some("01")
      else if Upper(action.value) == "OFF" then Some("00")
      else None
    else None
  }

  /** `color.replace('#', '').upper()` */
  function CleanColor(color: string): (r: string)
    ensures |r| <= |color|
    ensures color != [] && color[0] == '#' ==> |r| < |color|
  {
    Upper(RemoveAll(color, '#'))
  }

  /** A '#' followed by text without one cleans to that text upper-cased, in its own order. */
  lemma CleanColorStripsHash(x: string)
    requires '#' !in x
    ensures CleanColor("#" + x) == Upper(x)
  {
    RemoveAllAppend("#", x, '#');
    RemoveAllAbsent(x, '#');
    assert RemoveAll("#", '#') == [] by {
      assert "#"[1..] == [];
    }
  }

  /** The colour value written: the cleaned colour when it has exactly six characters. */
  function ColorValue(color: Option<string>): Option<string> {
    if Given(color) && |CleanColor(color.value)| == 6 then Some(CleanColor(color.value)) else None
  }

  function PowerWrites(action: Option<string>): seq<Write> {
    if PowerValue(action).Some? then [Write(POWER, PowerValue(action).value)] else []
  }

  function BrightnessWrites(brightness: Option<int>): seq<Write> {
    if brightness.Some? then [Write(BRIGHTNESS, Format02X(brightness.value))] else []
  }

  function ColorWrites(color: Option<string>): seq<Write> {
    if ColorValue(color).Some? then [Write(COLOR, ColorValue(color).value)] else []
  }

  /** The writes a device is sent when none of them fails: power, then brightness, then colour. */
  function Plan(action: Option<string>, brightness: Option<int>, color: Option<string>): seq<Write> {
    PowerWrites(action) + BrightnessWrites(brightness) + ColorWrites(color)
  }

  /** Position of the first write the device refuses, `|plan|` when it refuses none. */
  function FailIndex(plan: seq<Write>, errors: map<int, string>): (k: nat)
    ensures k <= |plan|
    ensures forall i :: 0 <= i < k ==> plan[i].attrId !in errors
    ensures k < |plan| ==> plan[k].attrId in errors
  {
    if plan == [] then 0
    else if plan[0].attrId in errors then 0
    else 1 + FailIndex(plan[1..], errors)
  }

  /** The value written to `attrId` by the first write to it among `writes`. */
  function Applied(writes: seq<Write>, attrId: int): Option<string> {
    if writes == [] then None
    else if writes[0].attrId == attrId then Some(writes[0].value)
    else Applied(writes[1..], attrId)
  }

  lemma {:induction false} AppliedAbsent(writes: seq<Write>, attrId: int)
    requires forall i :: 0 <= i < |writes| ==> writes[i].attrId != attrId
    ensures Applied(writes, attrId) == None
  {
    if writes != [] {
      AppliedAbsent(writes[1..], attrId);
    }
  }

  /** The writes the device accepts: the plan up to, not including, the first refused one. */
  function Executed(d: Device, action: Option<string>, brightness: Option<int>, color: Option<string>): (done: seq<Write>)
    ensures done <= Plan(action, brightness, color)
    ensures forall i :: 0 <= i < |done| ==> done[i].attrId !in d.writeErrors
    ensures |done| < |Plan(action, brightness, color)| ==> Plan(action, brightness, color)[|done|].attrId in d.writeErrors
  {
    var plan := Plan(action, brightness, color);
    plan[..FailIndex(plan, d.writeErrors)]
  }

  /** The result fields once the writes `done` were accepted, before success and message are set. */
  function Partial(d: Device, done: seq<Write>, brightness: Option<int>): DeviceResult {
    var before := DecodeAttributes(d.attributes);
    DeviceResult(
      d.name, d.id, false, "",
      match Applied(done, POWER)
      case Some(v) => Some(if v == "01" then "ON" else "OFF")
      case None => before.power,
      if Applied(done, BRIGHTNESS).Some? then brightness else before.brightness,
      match Applied(done, COLOR)
      case Some(v) => Some("#" + v)
      case None => before.color)
  }

  /**
   * The result `control_device_thread` returns: success exactly when no planned
   * write is refused; each reported field is the one the accepted writes set,
   * or else the one read from the device beforehand.
   */
  function Expected(d: Device, action: Option<string>, brightness: Option<int>, color: Option<string>): (r: DeviceResult)
    ensures r.name == d.name && r.deviceId == d.id
    ensures r.success <==> Executed(d, action, brightness, color) == Plan(action, brightness, color)
    ensures r.success ==> r.message == "Successfully controlled " + d.name
  {
    var plan := Plan(action, brightness, color);
    var k := FailIndex(plan, d.writeErrors);
    Partial(d, plan[..k], brightness).(
      success := k == |plan|,
      message := if k == |plan| then "Successfully controlled " + d.name
                 else "Error controlling " + d.name + ": " + d.writeErrors[plan[k].attrId])
  }

  // ---------------------------------------------------------------------
  // Composition facts used to follow the writes stage by stage

  lemma {:induction false} FailIndexAppend(a: seq<Write>, b: seq<Write>, errors: map<int, string>)
    ensures FailIndex(a + b, errors) ==
              if FailIndex(a, errors) < |a| then FailIndex(a, errors) else |a| + FailIndex(b, errors)
  {
    if a != [] {
      assert (a + b)[1..] == a[1..] + b;
      FailIndexAppend(a[1..], b, errors);
    } else {
      assert a + b == b;
    }
  }

  lemma {:induction false} AppliedAppend(a: seq<Write>, b: seq<Write>, attrId: int)
    ensures Applied(a + b, attrId) == if Applied(a, attrId).Some? then Applied(a, attrId) else Applied(b, attrId)
  {
    if a != [] {
      assert (a + b)[1..] == a[1..] + b;
      AppliedAppend(a[1..], b, attrId);
    } else {
      assert a + b == b;
    }
  }

  /**
   * The state of one control attempt after the writes of `q` (a prefix of the
   * plan) were issued up to the first refusal: the device trace, the pending
   * error and the result built so far.
   */
  ghost predicate AfterWrites(d: Device, q: seq<Write>, trace: seq<Write>, oldTrace: seq<Write>,
                              error: Option<string>, result: DeviceResult, brightness: Option<int>)
  {
    var k := FailIndex(q, d.writeErrors);
    && trace == oldTrace + q[..k]
    && error == (if k < |q| then Some(d.writeErrors[q[k].attrId]) else None)
    && result == Partial(d, q[..k], brightness)
  }

  /** The result field an accepted write sets. */
  ghost function Record(result: DeviceResult, w: Write, brightness: Option<int>): DeviceResult {
    if w.attrId == POWER then result.(power := Some(if w.value == "01" then "ON" else "OFF"))
    else if w.attrId == BRIGHTNESS then result.(brightness := brightness)
    else if w.attrId == COLOR then result.(color := Some("#" + w.value))
    else result
  }

  /** Before any write: the result holds what was read from the device. */
  lemma StartWrites(d: Device, trace: seq<Write>, result: DeviceResult, brightness: Option<int>)
    requires var before := DecodeAttributes(d.attributes);
             result == DeviceResult(d.name, d.id, false, "", before.power, before.brightness, before.color)
    ensures AfterWrites(d, [], trace, trace, None, result, brightness)
  {
  }

  /**
   * One more write `w`: issued only while no earlier write was refused; it
   * either is refused (the error is kept) or is recorded in the trace and the result.
   */
  lemma StepWrite(d: Device, q: seq<Write>, w: Write, trace0: seq<Write>, trace1: seq<Write>, oldTrace: seq<Write>,
                  error0: Option<string>, error1: Option<string>, result0: DeviceResult, result1: DeviceResult,
                  brightness: Option<int>)
    requires AfterWrites(d, q, trace0, oldTrace, error0, result0, brightness)
    requires Applied(q, w.attrId).None?
    requires error0.Some? ==> trace1 == trace0 && error1 == error0 && result1 == result0
    requires error0.None? ==> error1 == (if w.attrId in d.writeErrors then Some(d.writeErrors[w.attrId]) else None)
    requires error0.None? ==> trace1 == (if error1.None? then trace0 + [w] else trace0)
    requires error0.None? ==> result1 == (if error1.None? then Record(result0, w, brightness) else result0)
    ensures AfterWrites(d, q + [w], trace1, oldTrace, error1, result1, brightness)
  {
    var k := FailIndex(q, d.writeErrors);
    FailIndexAppend(q, [w], d.writeErrors);
    assert [w][1..] == [];
    var k' := FailIndex(q + [w], d.writeErrors);
    if error0.None? && error1.None? {
      assert (q + [w])[..k'] == q[..k] + [w];
      AppliedAppend(q[..k], [w], POWER);
      AppliedAppend(q[..k], [w], BRIGHTNESS);
      AppliedAppend(q[..k], [w], COLOR);
      assert q[..k] == q;
    } else {
      assert (q + [w])[..k'] == q[..k];
      if k' < |q + [w]| {
        assert (q + [w])[k'] == if error0.None? then w else q[k];
      }
    }
  }

  /** After the whole plan: the trace holds the accepted writes and the result is `Expected`. */
  lemma FinishWrites(d: Device, action: Option<string>, brightness: Option<int>, color: Option<string>,
                     trace: seq<Write>, oldTrace: seq<Write>, error: Option<string>, result: DeviceResult)
    requires AfterWrites(d, Plan(action, brightness, color), trace, oldTrace, error, result, brightness)
    ensures trace == oldTrace + Executed(d, action, brightness, color)
    ensures (match error
             case None => result.(success := true, message := "Successfully controlled " + d.name)
             case Some(e) => result.(message := "Error controlling " + d.name + ": " + e, success := false))
            == Expected(d, action, brightness, color)
  {
  }

  /** The power block of `control_device_thread`: write "01" for ON or "00" for OFF. */
  method WritePower(device: Device, action: Option<string>, error: Option<string>, result: DeviceResult,
                    ghost q: seq<Write>, ghost oldTrace: seq<Write>, ghost brightness: Option<int>)
      returns (error': Option<string>, result': DeviceResult)
    modifies device
    requires AfterWrites(device, q, device.trace, oldTrace, error, result, brightness)
    requires Applied(q, POWER).None?
    ensures AfterWrites(device, q + PowerWrites(action), device.trace, oldTrace, error', result', brightness)
  {
    error', result' := error, result;
    assert PowerWrites(action) == [] ==> q + PowerWrites(action) == q;
    if Given(action) {
      var upper := Upper(action.value);
      if upper == "ON" || upper == "OFF" {
        var value := if upper == "ON" then "01" else "00";
        if error.None? {
          error' := device.WriteAction(POWER, value);
          if error'.None? {
            result' := result.(power := Some(upper));
          }
        }
        StepWrite(device, q, Write(POWER, value), old(device.trace), device.trace, oldTrace,
                  error, error', result, result', brightness);
      }
    }
  }

  /** The brightness block: write the `{:02X}` rendering of the level. */
  method WriteBrightness(device: Device, brightness: Option<int>, error: Option<string>, result: DeviceResult,
                         ghost q: seq<Write>, ghost oldTrace: seq<Write>)
      returns (error': Option<string>, result': DeviceResult)
    modifies device
    requires AfterWrites(device, q, device.trace, oldTrace, error, result, brightness)
    requires Applied(q, BRIGHTNESS).None?
    ensures AfterWrites(device, q + BrightnessWrites(brightness), device.trace, oldTrace, error', result', brightness)
  {
    error', result' := error, result;
    assert BrightnessWrites(brightness) == [] ==> q + BrightnessWrites(brightness) == q;
    if brightness.Some? {
      var hex := Format02X(brightness.value);
      if error.None? {
        error' := device.WriteAction(BRIGHTNESS, hex);
        if error'.None? {
          result' := result.(brightness := brightness);
        }
      }
      StepWrite(device, q, Write(BRIGHTNESS, hex), old(device.trace), device.trace, oldTrace,
                error, error', result, result', brightness);
    }
  }

  /** The colour block: write the cleaned colour when it has six characters. */
  method WriteColor(device: Device, color: Option<string>, error: Option<string>, result: DeviceResult,
                    ghost q: seq<Write>, ghost oldTrace: seq<Write>, ghost brightness: Option<int>)
      returns (error': Option<string>, result': DeviceResult)
    modifies device
    requires AfterWrites(device, q, device.trace, oldTrace, error, result, brightness)
    requires Applied(q, COLOR).None?
    ensures AfterWrites(device, q + ColorWrites(color), device.trace, oldTrace, error', result', brightness)
  {
    error', result' := error, result;
    assert ColorWrites(color) == [] ==> q + ColorWrites(color) == q;
    if Given(color) {
      var clean := CleanColor(color.value);
      if |clean| == 6 {
        if error.None? {
          error' := device.WriteAction(COLOR, clean);
          if error'.None? {
            result' := result.(color := Some("#" + clean));
          }
        }
        StepWrite(device, q, Write(COLOR, clean), old(device.trace), device.trace, oldTrace,
                  error, error', result, result', brightness);
      }
    }
  }

  /** The three write blocks in order, each skipped once an earlier write was refused. */
  method IssueWrites(device: Device, action: Option<string>, brightness: Option<int>, color: Option<string>,
                     result: DeviceResult)
      returns (error: Option<string>, result': DeviceResult)
    modifies device
    requires AfterWrites(device, [], device.trace, device.trace, None, result, brightness)
    ensures AfterWrites(device, Plan(action, brightness, color), device.trace, old(device.trace), error, result', brightness)
  {
    var p, b := PowerWrites(action), BrightnessWrites(brightness);
    assert [] + p == p && Applied([], POWER).None?;
    StagesApart(action, brightness);
    error, result' := WritePower(device, action, None, result, [], old(device.trace), brightness);
    error, result' := WriteBrightness(device, brightness, error, result', p, old(device.trace));
    error, result' := WriteColor(device, color, error, result', p + b, old(device.trace), brightness);
  }

  /** No stage writes an attribute an earlier stage writes. */
  lemma StagesApart(action: Option<string>, brightness: Option<int>)
    ensures Applied(PowerWrites(action), BRIGHTNESS).None?
    ensures Applied(PowerWrites(action) + BrightnessWrites(brightness), COLOR).None?
  {
    AppliedAbsent(PowerWrites(action) + BrightnessWrites(brightness), COLOR);
  }

  /**
   * `control_device_thread`: read the device, then write power, brightness and
   * colour in that order, stopping at the first write that raises.
   */
  method ControlDevice(device: Device, action: Option<string>, brightness: Option<int>, color: Option<string>)
      returns (result: DeviceResult)
    modifies device
    ensures device.trace == old(device.trace) + Executed(device, action, brightness, color)
    ensures result == Expected(device, action, brightness, color)
  {
    result := DeviceResult(device.name, device.id, false, "", None, None, None);
    var current := DecodeAttributes(device.attributes);
    result := result.(power := current.power, brightness := current.brightness, color := current.color);
    StartWrites(device, device.trace, result, brightness);
    var error;
    error, result := IssueWrites(device, action, brightness, color, result);
    FinishWrites(device, action, brightness, color, device.trace, old(device.trace), error, result);

    match error {
      case None =>
        result := result.(success := true, message := "Successfully controlled " + device.name);
      case Some(e) =>
        result := result.(message := "Error controlling " + device.name + ": " + e, success := false);
    }
  }

  // ---------------------------------------------------------------------
  // Properties of one control attempt

  /** Writes go out in the order power, brightness, colour, at most one of each. */
  lemma PlanOrder(action: Option<string>, brightness: Option<int>, color: Option<string>)
    ensures var plan := Plan(action, brightness, color);
            && |plan| <= 3
            && (forall i :: 0 <= i < |plan| ==> plan[i].attrId in {POWER, BRIGHTNESS, COLOR})
            && (forall i, j :: 0 <= i < j < |plan| ==> plan[i].attrId < plan[j].attrId)
  {
    StageShapes(action, brightness, color);
    StagedOrder(PowerWrites(action), BrightnessWrites(brightness), ColorWrites(color));
  }

  /** Each stage writes at most once, and only its own attribute. */
  lemma StageShapes(action: Option<string>, brightness: Option<int>, color: Option<string>)
    ensures var p := PowerWrites(action);
            |p| <= 1 && forall i :: 0 <= i < |p| ==> p[i].attrId == POWER
    ensures var b := BrightnessWrites(brightness);
            |b| <= 1 && forall i :: 0 <= i < |b| ==> b[i].attrId == BRIGHTNESS
    ensures var c := ColorWrites(color);
            |c| <= 1 && forall i :: 0 <= i < |c| ==> c[i].attrId == COLOR
  {
  }

  /** Three stages of at most one write each, to increasing ids, concatenate to increasing ids. */
  lemma StagedOrder(p: seq<Write>, b: seq<Write>, c: seq<Write>)
    requires |p| <= 1 && (forall i :: 0 <= i < |p| ==> p[i].attrId == POWER)
    requires |b| <= 1 && (forall i :: 0 <= i < |b| ==> b[i].attrId == BRIGHTNESS)
    requires |c| <= 1 && (forall i :: 0 <= i < |c| ==> c[i].attrId == COLOR)
    ensures var plan := p + b + c;
            && |plan| <= 3
            && (forall i :: 0 <= i < |plan| ==> plan[i].attrId in {POWER, BRIGHTNESS, COLOR})
            && (forall i, j :: 0 <= i < j < |plan| ==> plan[i].attrId < plan[j].attrId)
  {
    var plan := p + b + c;
    assert forall i :: 0 <= i < |plan| ==>
             plan[i].attrId == if i < |p| then POWER else if i < |p| + |b| then BRIGHTNESS else COLOR;
  }

  /** What is written to each attribute, if anything. */
  lemma PlanContents(action: Option<string>, brightness: Option<int>, color: Option<string>)
    ensures var plan := Plan(action, brightness, color);
            && Applied(plan, POWER) == PowerValue(action)
            && Applied(plan, BRIGHTNESS) == (if brightness.Some? then Some(Format02X(brightness.value)) else None)
            && Applied(plan, COLOR) == ColorValue(color)
  {
    PlanPower(action, brightness, color);
    PlanBrightness(action, brightness, color);
    PlanColor(action, brightness, color);
  }

  lemma PlanPower(action: Option<string>, brightness: Option<int>, color: Option<string>)
    ensures Applied(Plan(action, brightness, color), POWER) == PowerValue(action)
  {
    StageShapes(action, brightness, color);
    OtherStage(BrightnessWrites(brightness), BRIGHTNESS, POWER);
    OtherStage(ColorWrites(color), COLOR, POWER);
    PlanField(action, brightness, color, POWER);
  }

  lemma PlanBrightness(action: Option<string>, brightness: Option<int>, color: Option<string>)
    ensures Applied(Plan(action, brightness, color), BRIGHTNESS) ==
              if brightness.Some? then Some(Format02X(brightness.value)) else None
  {
    StageShapes(action, brightness, color);
    OtherStage(PowerWrites(action), POWER, BRIGHTNESS);
    OtherStage(ColorWrites(color), COLOR, BRIGHTNESS);
    PlanField(action, brightness, color, BRIGHTNESS);
  }

  /** A stage that writes only `own` leaves every other attribute alone. */
  lemma OtherStage(stage: seq<Write>, own: int, other: int)
    requires |stage| <= 1 && forall i :: 0 <= i < |stage| ==> stage[i].attrId == own
    requires other != own
    ensures Applied(stage, other).None?
  {
    if stage != [] {
      assert stage[1..] == [];
    }
  }

  lemma PlanColor(action: Option<string>, brightness: Option<int>, color: Option<string>)
    ensures Applied(Plan(action, brightness, color), COLOR) == ColorValue(color)
  {
    var c := ColorWrites(color);
    StagesApart(action, brightness);
    AppliedAppend(PowerWrites(action) + BrightnessWrites(brightness), c, COLOR);
    assert Applied(c, COLOR) == ColorValue(color);
  }

  /** The first write to an attribute in the plan comes from the earliest stage that writes it. */
  lemma PlanField(action: Option<string>, brightness: Option<int>, color: Option<string>, attrId: int)
    ensures var p, b, c := PowerWrites(action), BrightnessWrites(brightness), ColorWrites(color);
            Applied(Plan(action, brightness, color), attrId) ==
              if Applied(p, attrId).Some? then Applied(p, attrId)
              else if Applied(b, attrId).Some? then Applied(b, attrId)
              else Applied(c, attrId)
  {
    var p, b, c := PowerWrites(action), BrightnessWrites(brightness), ColorWrites(color);
    assert Plan(action, brightness, color) == p + (b + c);
    AppliedAppend(p, b + c, attrId);
    AppliedAppend(b, c, attrId);
  }

  /**
   * A device accepts the planned writes up to the first one it refuses and
   * none after it; the result succeeds exactly when it refuses none, and
   * otherwise names the error of the refused write.
   */
  lemma FailureStopsWrites(d: Device, action: Option<string>, brightness: Option<int>, color: Option<string>)
    ensures var plan := Plan(action, brightness, color);
            var done := Executed(d, action, brightness, color);
            var r := Expected(d, action, brightness, color);
            && |done| <= |plan| && done == plan[..|done|]
            && (forall i :: 0 <= i < |done| ==> done[i].attrId !in d.writeErrors)
            && (r.success <==> done == plan)
            && (r.success <==> forall i :: 0 <= i < |plan| ==> plan[i].attrId !in d.writeErrors)
            && (r.success ==> r.message == "Successfully controlled " + d.name)
            && (!r.success ==>
                  && plan[|done|].attrId in d.writeErrors
                  && r.message == "Error controlling " + d.name + ": " + d.writeErrors[plan[|done|].attrId])
            && r.name == d.name && r.deviceId == d.id
  {
  }

  /**
   * Each reported field is the value set by an accepted write to it, and
   * otherwise the value read from the device before any write.
   */
  lemma ReportedFields(d: Device, action: Option<string>, brightness: Option<int>, color: Option<string>)
    ensures var done := Executed(d, action, brightness, color);
            var r := Expected(d, action, brightness, color);
            var before := DecodeAttributes(d.attributes);
            && (Applied(done, POWER).Some? ==>
                  Given(action) && Upper(action.value) in {"ON", "OFF"} && r.power == Some(Upper(action.value)))
            && (Applied(done, POWER).None? ==> r.power == before.power)
            && (Applied(done, BRIGHTNESS).Some? ==> brightness.Some? && r.brightness == brightness)
            && (Applied(done, BRIGHTNESS).None? ==> r.brightness == before.brightness)
            && (Applied(done, COLOR).Some? ==>
                  Given(color) && r.color == Some("#" + CleanColor(color.value)) && |CleanColor(color.value)| == 6)
            && (Applied(done, COLOR).None? ==> r.color == before.color)
  {
    var plan := Plan(action, brightness, color);
    var done := Executed(d, action, brightness, color);
    PlanContents(action, brightness, color);
    AppliedPrefix(plan, |done|, POWER);
    AppliedPrefix(plan, |done|, BRIGHTNESS);
    AppliedPrefix(plan, |done|, COLOR);
  }

  /** A write found in a prefix is the write found in the whole sequence. */
  lemma {:induction false} AppliedPrefix(writes: seq<Write>, n: nat, attrId: int)
    requires n <= |writes|
    ensures Applied(writes[..n], attrId).Some? ==> Applied(writes[..n], attrId) == Applied(writes, attrId)
  {
    if n > 0 && writes[0].attrId != attrId {
      assert writes[..n][1..] == writes[1..][..n - 1];
      AppliedPrefix(writes[1..], n - 1, attrId);
    }
  }

  /**
   * A request that only turns lights on: a device that succeeds reports power
   * ON and keeps the brightness and colour it reported before.
   */
  lemma PowerOnOnly(d: Device, action: string)
    requires Upper(action) == "ON"
    ensures var r := Expected(d, Some(action), None, None);
            var before := DecodeAttributes(d.attributes);
            r.success ==> r.power == Some("ON") && r.brightness == before.brightness && r.color == before.color
  {
    ReportedFields(d, Some(action), None, None);
    var plan := Plan(Some(action), None, None);
    assert plan == [Write(POWER, "01")];
  }

  /**
   * On an accepted request the brightness write carries exactly two upper-case
   * hex digits whose value is the requested level (0 gives "00", 100 gives "64").
   */
  lemma AcceptedBrightnessEncoding(req: Request)
    requires ValidationError(req).None? && req.brightness.Some?
    ensures var hex := Format02X(req.brightness.value);
            |hex| == 2 && IsUpperHex(hex) && HexValue(hex) == req.brightness.value
    ensures Format02X(0) == "00" && Format02X(100) == "64"
  {
    Format02XByte(req.brightness.value);
    Format02XByte(0);
    Format02XByte(100);
  }

  /** The written colour: six characters, no '#', no lower-case ASCII letter. */
  lemma ColorValueShape(color: Option<string>)
    requires ColorValue(color).Some?
    ensures var v := ColorValue(color).value;
            |v| == 6 && '#' !in v && forall i :: 0 <= i < 6 ==> !('a' <= v[i] <= 'z')
  {
    var removed := RemoveAll(color.value, '#');
    var v := ColorValue(color).value;
    forall i | 0 <= i < 6
      ensures v[i] != '#' && !('a' <= v[i] <= 'z')
    {
      assert v[i] == UpperChar(removed[i]);
      assert removed[i] in removed;
    }
  }

  /**
   * An accepted colour need not lead to a write: "#ABC" passes validation, but
   * cleans to three characters, so nothing is written and the device succeeds.
   */
  lemma ShortColorWritesNothing(d: Device)
    ensures ValidationError(Request(None, None, None, Some("#ABC"))).None?
    ensures Plan(None, None, Some("#ABC")) == []
    ensures Expected(d, None, None, Some("#ABC")).success
  {
    ShortColorCleansShort();
    assert Plan(None, None, Some("#ABC")) == [] + [] + [];
    EmptyPlanSucceeds(d, None, None, Some("#ABC"));
  }

  lemma ShortColorCleansShort()
    ensures ColorValue(Some("#ABC")) == None
  {
    var c := "#ABC";
    assert c[1..] == "ABC";
    assert RemoveAll(c, '#') == RemoveAll(c[1..], '#');
  }

  /** With nothing to write, the device cannot refuse anything. */
  lemma EmptyPlanSucceeds(d: Device, action: Option<string>, brightness: Option<int>, color: Option<string>)
    requires Plan(action, brightness, color) == []
    ensures Expected(d, action, brightness, color).success
  {
  }

  // ---------------------------------------------------------------------
  // Reading back what was written

  /**
   * The colour read back from a written colour value is exactly the colour
   * the result reports.
   */
  lemma ColorReadBack(color: Option<string>)
    requires ColorValue(color).Some?
    ensures DecodeAttributes(Some([Attr(COLOR, ColorValue(color).value)])).color
            == Some("#" + CleanColor(color.value))
  {
    var attrs := [Attr(COLOR, ColorValue(color).value)];
    assert FirstIndex(attrs, BRIGHTNESS) == 1;
    assert FirstIndex(attrs, COLOR) == 0;
  }

  /**
   * Brightness is written in hex but read back as decimal text: a written level
   * comes back as its hex digits read in base ten when both are decimal digits,
   * and otherwise the parse raises and every reading is lost. Only levels below
   * ten come back unchanged.
   */
  lemma BrightnessReadBack(b: int)
    requires 0 <= b <= 100
    ensures var r := DecodeAttributes(Some([Attr(BRIGHTNESS, Format02X(b))]));
            && (b % 16 < 10 ==> r == Readings(None, Some(10 * (b / 16) + b % 16), None))
            && (b % 16 >= 10 ==> r == NO_READINGS)
            && (r.brightness == Some(b) <==> b < 10)
  {
    var attrs := [Attr(BRIGHTNESS, Format02X(b))];
    assert FirstIndex(attrs, POWER) == 1;
    assert FirstIndex(attrs, COLOR) == 1;
    HexByteReadAsDecimal(b);
  }

  /** The power value written for ON, "01", reads back as OFF, since only "1" reads as ON. */
  lemma PowerReadBack()
    ensures DecodeAttributes(Some([Attr(POWER, "01")])).power == Some("OFF")
    ensures DecodeAttributes(Some([Attr(POWER, "1")])).power == Some("ON")
  {
    var on := [Attr(POWER, "01")];
    assert FirstIndex(on, BRIGHTNESS) == 1;
    assert "01" != "1";
    var one := [Attr(POWER, "1")];
    assert FirstIndex(one, BRIGHTNESS) == 1;
  }
}
