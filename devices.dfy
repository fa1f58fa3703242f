/**
 * The vendor devices as the light service sees them, reading their attributes
 * (`get_device_attributes`) and picking out the lights (`initialize_hubspace`'s
 * filter and `control_lights`' name filter).
 *
 * A vendor device is abstracted to its name, id, device class, the attribute
 * list its `getAttributes` call returns (or `None` when that call raises), the
 * error message its `writeAction` raises for each attribute id it refuses, and
 * the trace of the writes it accepted.
 */
module Devices {
  import opened Wrappers
  import opened Text

  /** Attribute ids used by the service. */
  const POWER := 1
  const BRIGHTNESS := 2
  const COLOR := 4

  /** One entry of the raw attribute list, `{'id': id, 'value': value}`. */
  datatype Attr = Attr(id: int, value: string)

  /** One `writeAction(attrId, value)` call. */
  datatype Write = Write(attrId: int, value: string)

  class Device {
    const name: string
    const id: string
    const deviceClass: string
    /** What `getAttributes` returns; `None` when it raises. */
    const attributes: Option<seq<Attr>>
    /** `writeAction(k, _)` raises with message `writeErrors[k]` for every `k` in the map. */
    const writeErrors: map<int, string>
    /** The writes the device accepted, oldest first. */
    var trace: seq<Write>

    constructor (name: string, id: string, deviceClass: string,
                 attributes: Option<seq<Attr>>, writeErrors: map<int, string>)
      ensures this.name == name && this.id == id && this.deviceClass == deviceClass
      ensures this.attributes == attributes && this.writeErrors == writeErrors
      ensures trace == []
    {
      this.name := name;
      this.id := id;
      this.deviceClass := deviceClass;
      this.attributes := attributes;
      this.writeErrors := writeErrors;
      trace := [];
    }

    /** `writeAction`: either raises (the error message is returned) or records the write. */
    method WriteAction(attrId: int, value: string) returns (error: Option<string>)
      modifies this
      ensures error == if attrId in writeErrors then Some(writeErrors[attrId]) else None
      ensures trace == if error.None? then old(trace) + [Write(attrId, value)] else old(trace)
    {
      if attrId in writeErrors {
        error := Some(writeErrors[attrId]);
      } else {
        error := None;
        trace := trace + [Write(attrId, value)];
      }
    }
  }

  // ---------------------------------------------------------------------
  // Reading attributes

  /** The decoded state: the keys 'power', 'brightness' and 'color' of the result dict. */
  datatype Readings = Readings(power: Option<string>, brightness: Option<int>, color: Option<string>)

  const NO_READINGS := Readings(None, None, None)

  /** Position of the first attribute with the given id (`next(...)`), `|attrs|` if none. */
  function FirstIndex(attrs: seq<Attr>, id: int): (k: nat)
    ensures k <= |attrs|
    ensures forall j :: 0 <= j < k ==> attrs[j].id != id
    ensures k < |attrs| ==> attrs[k].id == id
  {
    if attrs == [] then 0
    else if attrs[0].id == id then 0
    else 1 + FirstIndex(attrs[1..], id)
  }

  function FirstValue(attrs: seq<Attr>, id: int): Option<string> {
    var k := FirstIndex(attrs, id);
    if k < |attrs| then Some(attrs[k].value) else None
  }

  /**
   * `get_device_attributes`: power from the first id-1 value ("1" is ON,
   * anything else OFF), brightness from the first id-2 value read as a decimal
   * integer, colour as '#' followed by the first id-4 value. A missing id leaves
   * its key out; `getAttributes` raising, or `int` raising on the brightness
   * text, gives the empty result.
   */
  function DecodeAttributes(attributes: Option<seq<Attr>>): (r: Readings)
    ensures attributes.None? ==> r == NO_READINGS
    ensures r.power.Some? ==> r.power.value in {"ON", "OFF"}
    ensures r.color.Some? ==> |r.color.value| >= 1 && r.color.value[0] == '#'
    ensures r.brightness.Some? ==> attributes.Some? && FirstValue(attributes.value, BRIGHTNESS).Some?
  {
    match attributes
    case None => NO_READINGS
    case Some(attrs) =>
      var power := FirstValue(attrs, POWER);
      var brightness := FirstValue(attrs, BRIGHTNESS);
      var color := FirstValue(attrs, COLOR);
      if brightness.Some? && ParseInt(brightness.value).None? then NO_READINGS
      else
        Readings(
          if power.Some? then Some(if power.value == "1" then "ON" else "OFF") else None,
          if brightness.Some? then ParseInt(brightness.value) else None,
          if color.Some? then Some("#" + color.value) else None)
  }

  /** True when attribute `i` is the first one carrying its id. */
  ghost predicate IsFirstWithId(attrs: seq<Attr>, i: int) {
    0 <= i < |attrs| && forall j :: 0 <= j < i ==> attrs[j].id != attrs[i].id
  }

  /** The decode raises: the first brightness value is not a decimal integer. */
  ghost predicate DecodeRaises(attrs: seq<Attr>) {
    exists i :: 0 <= i < |attrs| && IsFirstWithId(attrs, i) && attrs[i].id == BRIGHTNESS && ParseInt(attrs[i].value).None?
  }

  /** Each reading comes from the first attribute with its id, unless the decode raised. */
  lemma DecodeFirstMatch(attrs: seq<Attr>, i: int)
    requires IsFirstWithId(attrs, i)
    ensures var r := DecodeAttributes(Some(attrs));
            var v := attrs[i].value;
            && (attrs[i].id == BRIGHTNESS ==> r.brightness == ParseInt(v))
            && (attrs[i].id == POWER && !DecodeRaises(attrs) ==> r.power == Some(if v == "1" then "ON" else "OFF"))
            && (attrs[i].id == COLOR && !DecodeRaises(attrs) ==> r.color == Some("#" + v))
  {
    assert FirstIndex(attrs, attrs[i].id) == i;
    var k := FirstIndex(attrs, BRIGHTNESS);
    if k < |attrs| {
      assert IsFirstWithId(attrs, k);
    }
  }

  /** When `int` raises on the first brightness value, every reading is discarded. */
  lemma DecodeRaisesEmpties(attrs: seq<Attr>)
    requires DecodeRaises(attrs)
    ensures DecodeAttributes(Some(attrs)) == NO_READINGS
  {
    var b: int :| 0 <= b < |attrs| && IsFirstWithId(attrs, b) && attrs[b].id == BRIGHTNESS && ParseInt(attrs[b].value).None?;
    var k := FirstIndex(attrs, BRIGHTNESS);
    assert k == b;
  }

  /** A key is absent from the result when no attribute carries its id. */
  lemma DecodeAbsent(attrs: seq<Attr>, id: int)
    requires forall i :: 0 <= i < |attrs| ==> attrs[i].id != id
    ensures id == POWER ==> DecodeAttributes(Some(attrs)).power == None
    ensures id == BRIGHTNESS ==> DecodeAttributes(Some(attrs)).brightness == None
    ensures id == COLOR ==> DecodeAttributes(Some(attrs)).color == None
  {
    assert FirstIndex(attrs, id) == |attrs|;
  }

  // ---------------------------------------------------------------------
  // Selecting devices

  predicate Distinct(devices: seq<Device>) {
    forall i, j :: 0 <= i < j < |devices| ==> devices[i] != devices[j]
  }

  /**
   * A light: a device with a non-empty name whose class, lower-cased, is
   * "light". Such a class is never empty, so the separate truthiness test on
   * the class is implied.
   */
  predicate IsLight(d: Device): (light: bool)
    ensures light ==> d.name != "" && d.deviceClass != "" && |d.deviceClass| == 5
  {
    d.name != "" && Lower(d.deviceClass) == "light"
  }

  /** The lights among `devices`, in their original order. */
  function LightFilter(devices: seq<Device>): (lights: seq<Device>)
    ensures forall d :: d in lights ==> d in devices && IsLight(d)
    ensures forall d :: d in devices && IsLight(d) ==> d in lights
    ensures Distinct(devices) ==> Distinct(lights)
    ensures |lights| <= |devices|
  {
    if devices == [] then []
    else
      var last := devices[|devices| - 1];
      LightFilter(devices[..|devices| - 1]) + (if IsLight(last) then [last] else [])
  }

  /** The filter distributes over concatenation, so it keeps the relative order of the lights. */
  lemma {:induction false} LightFilterAppend(a: seq<Device>, b: seq<Device>)
    ensures LightFilter(a + b) == LightFilter(a) + LightFilter(b)
  {
    if b != [] {
      var b' := b[..|b| - 1];
      assert (a + b)[..|a + b| - 1] == a + b';
      LightFilterAppend(a, b');
    } else {
      assert a + b == a;
    }
  }

  /** Filtering an already filtered list changes nothing. */
  lemma {:induction false} LightFilterIdempotent(devices: seq<Device>)
    ensures LightFilter(LightFilter(devices)) == LightFilter(devices)
  {
    if devices != [] {
      var init := devices[..|devices| - 1];
      var last := devices[|devices| - 1];
      LightFilterIdempotent(init);
      LightFilterAppend(LightFilter(init), if IsLight(last) then [last] else []);
      assert LightFilter([last]) == LightFilter([]) + (if IsLight(last) then [last] else []) by {
        assert [last][..0] == [];
      }
    }
  }

  /** The devices whose lower-cased name equals the lower-cased `name`, in list order. */
  function NameFilter(lights: seq<Device>, name: string): (targets: seq<Device>)
    ensures forall d :: d in targets ==> d in lights && Lower(d.name) == Lower(name)
    ensures forall d :: d in lights && Lower(d.name) == Lower(name) ==> d in targets
    ensures Distinct(lights) ==> Distinct(targets)
    ensures |targets| <= |lights|
  {
    if lights == [] then []
    else
      var last := lights[|lights| - 1];
      NameFilter(lights[..|lights| - 1], name) + (if Lower(last.name) == Lower(name) then [last] else [])
  }

  /** The name filter distributes over concatenation, so the targets keep the lights' order. */
  lemma {:induction false} NameFilterAppend(a: seq<Device>, b: seq<Device>, name: string)
    ensures NameFilter(a + b, name) == NameFilter(a, name) + NameFilter(b, name)
  {
    if b != [] {
      var b' := b[..|b| - 1];
      assert (a + b)[..|a + b| - 1] == a + b';
      NameFilterAppend(a, b', name);
    } else {
      assert a + b == a;
    }
  }

  /** Names that differ only in ASCII case select the same devices. */
  lemma {:induction false} NameFilterCaseInsensitive(lights: seq<Device>, a: string, b: string)
    requires Lower(a) == Lower(b)
    ensures NameFilter(lights, a) == NameFilter(lights, b)
  {
    if lights != [] {
      NameFilterCaseInsensitive(lights[..|lights| - 1], a, b);
    }
  }
}
