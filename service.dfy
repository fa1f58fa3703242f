/**
 * The light service: its state (the configured bearer token and the light list
 * refreshed on every request), the refresh itself (`initialize_hubspace`), the
 * `/control` endpoint (`control_lights`: token check, re-authentication,
 * validation, name targeting, fan-out to one worker per target, aggregation)
 * and the `/lights` listing.
 *
 * The vendor login and device listing are inputs: `authOk` says whether
 * `Hubspace(...)` and `getDevices()` succeed, and `devices` is what
 * `getDevices()` returns.
 */
module Service {
  import opened Wrappers
  import opened Text
  import opened Auth
  import opened Devices
  import opened Control

  /** The `/control` response body (the completion timestamp is left out). */
  datatype ControlResponse = ControlResponse(success: bool, message: string, results: seq<DeviceResult>)

  /** An endpoint's outcome: a body, or an HTTP error with its status and detail. */
  datatype Reply<T> = Ok(body: T) | HttpError(status: int, detail: string)

  /** One entry of the `/lights` listing. */
  datatype LightInfo = LightInfo(name: string, deviceId: string, power: string,
                                 brightness: Option<int>, color: Option<string>)

  const UNAUTHORIZED := "Invalid or missing authorization token"
  const AUTH_FAILED := "Failed to authenticate with Hubspace"

  function NotFound(name: string): string {
    "No light found with name '" + name + "'"
  }

  // ---------------------------------------------------------------------
  // Aggregation

  /** `sum(1 for r in results if r.success)` */
  function SuccessCount(results: seq<DeviceResult>): (n: nat)
    ensures n <= |results|
  {
    if results == [] then 0
    else SuccessCount(results[..|results| - 1]) + (if results[|results| - 1].success then 1 else 0)
  }

  /** Every device succeeded exactly when the count reaches the number of results. */
  lemma {:induction false} AllSucceeded(results: seq<DeviceResult>)
    ensures SuccessCount(results) == |results| <==> forall i :: 0 <= i < |results| ==> results[i].success
  {
    if results != [] {
      var init := results[..|results| - 1];
      AllSucceeded(init);
      assert forall i :: 0 <= i < |init| ==> init[i] == results[i];
    }
  }

  /** The summary message of a dispatch. */
  function Summary(successes: nat, total: nat): (message: string)
    ensures "Controlled " <= message
  {
    "Controlled " + DecimalString(successes) + "/" + DecimalString(total) + " devices successfully"
  }

  /**
   * Reading the summary back: after "Controlled ", the number before the '/'
   * is the success count and the number between the '/' and the next space is
   * the total.
   */
  lemma SummaryReadBack(successes: nat, total: nat)
    ensures var rest := Summary(successes, total)[|"Controlled "|..];
            && ParseInt(TextBefore(rest, '/')) == Some(successes)
            && ParseInt(TextBefore(TextAfter(rest, '/'), ' ')) == Some(total)
  {
    var a, b, tail := DecimalString(successes), DecimalString(total), "devices successfully";
    var rest := a + (['/'] + (b + ([' '] + tail)));
    assert Summary(successes, total) == "Controlled " + rest;
    assert Summary(successes, total)[|"Controlled "|..] == rest;
    NotInDigits(a, '/');
    SplitOn(a, b + ([' '] + tail), '/');
    NotInDigits(b, ' ');
    SplitOn(b, tail, ' ');
    DecimalRoundTrip(successes);
    DecimalRoundTrip(total);
  }

  /** The summary states both counts: different counts never give the same message. */
  lemma SummaryDeterminesCounts(s1: nat, t1: nat, s2: nat, t2: nat)
    requires Summary(s1, t1) == Summary(s2, t2)
    ensures s1 == s2 && t1 == t2
  {
    SummaryReadBack(s1, t1);
    SummaryReadBack(s2, t2);
  }

  lemma {:induction false} SuccessCountAppend(a: seq<DeviceResult>, b: seq<DeviceResult>)
    ensures SuccessCount(a + b) == SuccessCount(a) + SuccessCount(b)
  {
    if b != [] {
      assert (a + b)[..|a + b| - 1] == a + b[..|b| - 1];
      SuccessCountAppend(a, b[..|b| - 1]);
    } else {
      assert a + b == a;
    }
  }

  /** The count does not depend on the order the results arrive in. */
  lemma {:induction false} SuccessCountPermutation(a: seq<DeviceResult>, b: seq<DeviceResult>)
    requires multiset(a) == multiset(b)
    ensures SuccessCount(a) == SuccessCount(b)
    decreases |a|
  {
    if a != [] {
      var x := a[|a| - 1];
      var a' := a[..|a| - 1];
      assert a == a' + [x];
      assert x in multiset(b);
      var j :| 0 <= j < |b| && b[j] == x;
      var b' := b[..j] + b[j + 1..];
      MultisetRemove(b, j);
      assert multiset(a') == multiset(a) - multiset{x};
      SuccessCountPermutation(a', b');
      SuccessCountRemove(b, j);
    } else {
      assert b == [];
    }
  }

  lemma MultisetRemove<T>(s: seq<T>, j: int)
    requires 0 <= j < |s|
    ensures multiset(s[..j] + s[j + 1..]) == multiset(s) - multiset{s[j]}
  {
    SplitAt(s, j);
  }

  lemma SplitAt<T>(s: seq<T>, j: int)
    requires 0 <= j < |s|
    ensures s == s[..j] + ([s[j]] + s[j + 1..])
  {
    assert s[j..] == [s[j]] + s[j + 1..];
    assert s == s[..j] + s[j..];
  }

  /** Taking one result out lowers the count by its own contribution. */
  lemma SuccessCountRemove(results: seq<DeviceResult>, j: int)
    requires 0 <= j < |results|
    ensures SuccessCount(results) ==
              SuccessCount(results[..j] + results[j + 1..]) + (if results[j].success then 1 else 0)
  {
    var left, x, right := results[..j], results[j], results[j + 1..];
    var mid := [x] + right;
    SplitAt(results, j);
    SuccessCountAppend(left, mid);
    SuccessCountAppend([x], right);
    SuccessCountOne(x);
    SuccessCountAppend(left, right);
  }

  lemma SuccessCountOne(x: DeviceResult)
    ensures SuccessCount([x]) == if x.success then 1 else 0
  {
    assert [x][..0] == [];
  }

  /** The indices `0 .. n - 1`. */
  function Indices(n: nat): (s: set<int>)
    ensures forall i :: i in s <==> 0 <= i < n
  {
    if n == 0 then {} else Indices(n - 1) + {n - 1}
  }

  /** The multiset of the elements of `xs` at the indices in `s`. */
  ghost function Pick<T>(xs: seq<T>, s: set<int>): multiset<T> {
    if xs == [] then multiset{}
    else Pick(xs[..|xs| - 1], s) + (if |xs| - 1 in s then multiset{xs[|xs| - 1]} else multiset{})
  }

  lemma {:induction false} PickAll<T>(xs: seq<T>, s: set<int>)
    requires forall i :: 0 <= i < |xs| ==> i in s
    ensures Pick(xs, s) == multiset(xs)
  {
    if xs != [] {
      PickAll(xs[..|xs| - 1], s);
      assert xs == xs[..|xs| - 1] + [xs[|xs| - 1]];
    }
  }

  lemma {:induction false} PickNone<T>(xs: seq<T>)
    ensures Pick(xs, {}) == multiset{}
  {
    if xs != [] {
      PickNone(xs[..|xs| - 1]);
    }
  }

  lemma {:induction false} PickRemove<T>(xs: seq<T>, s: set<int>, j: int)
    requires j in s && 0 <= j < |xs|
    ensures Pick(xs, s) == Pick(xs, s - {j}) + multiset{xs[j]}
  {
    if j < |xs| - 1 {
      PickRemove(xs[..|xs| - 1], s, j);
    } else {
      PickOutside(xs[..|xs| - 1], s, j);
    }
  }

  /** One more element taken: it moves from the pending part to the collected part. */
  lemma PickStep<T>(xs: seq<T>, s: set<int>, j: int, done: seq<T>)
    requires j in s && 0 <= j < |xs|
    requires multiset(done) + Pick(xs, s) == multiset(xs)
    ensures multiset(done + [xs[j]]) + Pick(xs, s - {j}) == multiset(xs)
  {
    PickRemove(xs, s, j);
  }

  /** Nothing pending: the collected elements are a permutation of all of them. */
  lemma PickDone<T>(xs: seq<T>, done: seq<T>)
    requires multiset(done) + Pick(xs, {}) == multiset(xs)
    ensures multiset(done) == multiset(xs) && |done| == |xs|
  {
    PickNone(xs);
    assert |multiset(done)| == |multiset(xs)|;
  }

  lemma {:induction false} PickOutside<T>(xs: seq<T>, s: set<int>, j: int)
    requires j >= |xs|
    ensures Pick(xs, s) == Pick(xs, s - {j})
  {
    if xs != [] {
      PickOutside(xs[..|xs| - 1], s, j);
    }
  }

  // ---------------------------------------------------------------------
  // Request handling, as values

  /** The targets of a request: the lights with the requested name, or all of them. */
  function Targets(lights: seq<Device>, name: Option<string>): (targets: seq<Device>)
    ensures !Given(name) ==> targets == lights
    ensures Given(name) ==> forall d :: d in targets ==> d in lights && Lower(d.name) == Lower(name.value)
    ensures Given(name) ==> forall d :: d in lights && Lower(d.name) == Lower(name.value) ==> d in targets
  {
    if Given(name) then NameFilter(lights, name.value) else lights
  }

  /**
   * How far a control request gets: the HTTP error it ends with, in the
   * handler's order (token, re-authentication, validation, name), or the
   * devices it is dispatched to.
   */
  function Gate(tokenOk: bool, authOk: bool, devices: seq<Device>, req: Request): (r: Reply<seq<Device>>)
    ensures r.HttpError? ==> r.status in {401, 500, 400, 404}
    ensures r == HttpError(401, UNAUTHORIZED) <==> !tokenOk
    ensures tokenOk && !authOk ==> r == HttpError(500, AUTH_FAILED)
    ensures ValidationError(req).Some? && tokenOk && authOk ==> r == HttpError(400, ValidationError(req).value)
    ensures tokenOk && authOk && ValidationError(req).None? && Given(req.name)
              && NameFilter(LightFilter(devices), req.name.value) == []
            ==> r == HttpError(404, NotFound(req.name.value))
    ensures r.Ok? ==> r.body == Targets(LightFilter(devices), req.name)
  {
    if !tokenOk then HttpError(401, UNAUTHORIZED)
    else if !authOk then HttpError(500, AUTH_FAILED)
    else if ValidationError(req).Some? then HttpError(400, ValidationError(req).value)
    else if Given(req.name) && NameFilter(LightFilter(devices), req.name.value) == [] then
      HttpError(404, NotFound(req.name.value))
    else Ok(Targets(LightFilter(devices), req.name))
  }

  /**
   * A request is dispatched exactly when the token and login pass, the request
   * is valid and, when a name is given, some light carries it; it is then
   * dispatched to lights only.
   */
  lemma GateAccepts(tokenOk: bool, authOk: bool, devices: seq<Device>, req: Request)
    ensures var r := Gate(tokenOk, authOk, devices, req);
            r.Ok? <==> && tokenOk && authOk && ValidationError(req).None?
                       && (Given(req.name) ==>
                             exists d :: d in devices && IsLight(d) && Lower(d.name) == Lower(req.name.value))
    ensures var r := Gate(tokenOk, authOk, devices, req);
            r.Ok? ==> forall d :: d in r.body ==> d in devices && IsLight(d)
  {
    var lights := LightFilter(devices);
    if tokenOk && authOk && ValidationError(req).None? && Given(req.name) {
      var named := NameFilter(lights, req.name.value);
      if named != [] {
        assert named[0] in lights;
      }
    }
  }

  /** The result each target produces, in dispatch order. */
  function ExpectedAll(targets: seq<Device>, req: Request): seq<DeviceResult> {
    seq(|targets|, i requires 0 <= i < |targets| => Expected(targets[i], req.action, req.brightness, req.color))
  }

  /** The `/lights` listing of the given lights, in order. */
  function Listing(lights: seq<Device>): seq<LightInfo> {
    seq(|lights|, i requires 0 <= i < |lights| => Info(lights[i]))
  }

  lemma ListingSnoc(lights: seq<Device>, i: int)
    requires 0 <= i < |lights|
    ensures Listing(lights[..i + 1]) == Listing(lights[..i]) + [Info(lights[i])]
  {
    assert lights[..i + 1][..i] == lights[..i];
  }

  /** A light entry of `/lights`: power defaults to "UNKNOWN" when it could not be read. */
  function Info(d: Device): (info: LightInfo)
    ensures info.name == d.name && info.deviceId == d.id
    ensures info.power in {"ON", "OFF", "UNKNOWN"}
    ensures info.power == "UNKNOWN" <==> DecodeAttributes(d.attributes).power.None?
    ensures DecodeAttributes(d.attributes).power.Some? ==> info.power == DecodeAttributes(d.attributes).power.value
    ensures info.brightness == DecodeAttributes(d.attributes).brightness
    ensures info.color == DecodeAttributes(d.attributes).color
  {
    var readings := DecodeAttributes(d.attributes);
    LightInfo(d.name, d.id, if readings.power.Some? then readings.power.value else "UNKNOWN",
              readings.brightness, readings.color)
  }

  /**
   * With no lights and no name, a valid request is dispatched to nobody and
   * reports overall success, "Controlled 0/0 devices successfully".
   */
  lemma NoLightsVacuousSuccess(devices: seq<Device>, req: Request)
    requires Gate(true, true, devices, req).Ok? && LightFilter(devices) == []
    ensures var expected := ExpectedAll(Gate(true, true, devices, req).body, req);
            && expected == []
            && SuccessCount(expected) == |expected|
            && Summary(SuccessCount(expected), |expected|) == "Controlled 0/0 devices successfully"
  {
    assert Targets([], req.name) == [];
    assert ExpectedAll([], req) == [];
    SummaryNone();
  }

  lemma SummaryNone()
    ensures Summary(0, 0) == "Controlled 0/0 devices successfully"
  {
    assert DecimalString(0) == "0";
  }

  // ---------------------------------------------------------------------
  // Fan-out

  /**
   * The worker loop of `control_lights`: one `control_device_thread` per
   * target. Workers finish in any order, so each step takes an arbitrary
   * pending target; the results therefore hold one result per target, up to
   * order.
   */
  method Dispatch(targets: seq<Device>, req: Request) returns (results: seq<DeviceResult>)
    requires Distinct(targets)
    modifies targets
    ensures multiset(results) == multiset(ExpectedAll(targets, req))
    ensures |results| == |targets|
    ensures forall i :: 0 <= i < |targets| ==>
              targets[i].trace == old(targets[i].trace) + Executed(targets[i], req.action, req.brightness, req.color)
  {
    ghost var expected := ExpectedAll(targets, req);
    ghost var before := Traces(targets);
    results := [];
    var pending := Indices(|targets|);
    PickAll(expected, pending);
    while pending != {}
      invariant forall i :: i in pending ==> 0 <= i < |targets|
      invariant multiset(results) + Pick(expected, pending) == multiset(expected)
      invariant Progress(targets, req, before, pending)
      decreases pending
    {
      var j :| j in pending;
      var result := Worker(targets, req, before, pending, j);
      PickStep(expected, pending, j, results);
      results := results + [result];
      pending := pending - {j};
    }
    PickDone(expected, results);
    ProgressDone(targets, req, before);
  }

  /** The traces of the given devices, in order. */
  ghost function Traces(devices: seq<Device>): (traces: seq<seq<Write>>)
    reads devices
    ensures |traces| == |devices|
    ensures forall i :: 0 <= i < |devices| ==> traces[i] == devices[i].trace
  {
    seq(|devices|, i requires 0 <= i < |devices| reads devices => devices[i].trace)
  }

  lemma ProgressDone(targets: seq<Device>, req: Request, before: seq<seq<Write>>)
    requires Progress(targets, req, before, {})
    ensures forall i :: 0 <= i < |targets| ==>
              targets[i].trace == before[i] + Executed(targets[i], req.action, req.brightness, req.color)
  {
  }

  /** Every finished target has done its writes on top of its trace `before`; a pending one none yet. */
  ghost predicate Progress(targets: seq<Device>, req: Request, before: seq<seq<Write>>, pending: set<int>)
    reads targets
  {
    && |before| == |targets|
    && forall i :: 0 <= i < |targets| ==>
         targets[i].trace == before[i] + (if i in pending then [] else Executed(targets[i], req.action, req.brightness, req.color))
  }

  /** One worker thread: control pending target `j`; no other target is touched. */
  method Worker(targets: seq<Device>, req: Request, ghost before: seq<seq<Write>>, ghost pending: set<int>, j: int)
      returns (result: DeviceResult)
    requires Distinct(targets) && j in pending && 0 <= j < |targets|
    requires Progress(targets, req, before, pending)
    modifies targets[j]
    ensures result == Expected(targets[j], req.action, req.brightness, req.color)
    ensures Progress(targets, req, before, pending - {j})
  {
    result := ControlDevice(targets[j], req.action, req.brightness, req.color);
    forall i | 0 <= i < |targets|
      ensures targets[i].trace == before[i] + (if i in pending - {j} then [] else Executed(targets[i], req.action, req.brightness, req.color))
    {
      if i != j {
        assert targets[i] != targets[j];
      }
    }
  }

  // ---------------------------------------------------------------------
  // The service

  class LightService {
    /** The bearer token clients must present. */
    const secretToken: string
    /** The lights found by the last successful refresh. */
    var lights: seq<Device>

    constructor (secretToken: string)
      ensures this.secretToken == secretToken && lights == []
    {
      this.secretToken := secretToken;
      lights := [];
    }

    /**
     * `initialize_hubspace`: log in and list the devices; on success rebuild
     * the light list from scratch, on failure leave it as it was.
     */
    method InitializeHubspace(authOk: bool, devices: seq<Device>) returns (ok: bool)
      modifies this
      ensures ok == authOk
      ensures lights == if authOk then LightFilter(devices) else old(lights)
    {
      if !authOk {
        return false;
      }
      lights := [];
      for i := 0 to |devices|
        invariant lights == LightFilter(devices[..i])
      {
        var device := devices[i];
        assert devices[..i + 1][..i] == devices[..i];
        if device.name != "" && device.deviceClass != "" && Lower(device.deviceClass) == "light" {
          lights := lights + [device];
        }
      }
      assert devices[..|devices|] == devices;
      return true;
    }

    /** `/lights`: refresh, then report every light's name, id and current readings. */
    method GetLights(authOk: bool, devices: seq<Device>) returns (reply: Reply<seq<LightInfo>>)
      modifies this
      ensures lights == if authOk then LightFilter(devices) else old(lights)
      ensures !authOk ==> reply == HttpError(500, AUTH_FAILED)
      ensures authOk ==> reply == Ok(Listing(lights))
    {
      var ok := InitializeHubspace(authOk, devices);
      if !ok {
        return HttpError(500, AUTH_FAILED);
      }
      var found := lights;
      var listing: seq<LightInfo> := [];
      for i := 0 to |found|
        invariant lights == found
        invariant listing == Listing(found[..i])
      {
        var device := found[i];
        var attrs := DecodeAttributes(device.attributes);
        ListingSnoc(found, i);
        listing := listing + [LightInfo(device.name, device.id,
                                        if attrs.power.Some? then attrs.power.value else "UNKNOWN",
                                        attrs.brightness, attrs.color)];
      }
      assert found[..|found|] == found;
      return Ok(listing);
    }

    /**
     * `/control`: check the token, re-authenticate, validate, select the
     * targets, control every target (the workers finish in any order, so the
     * next finished target is an arbitrary pending one), then aggregate.
     */
    method ControlLights(authorization: Option<string>, authOk: bool, devices: seq<Device>, req: Request)
        returns (reply: Reply<ControlResponse>)
      requires Distinct(devices)
      modifies this, devices
      ensures var gate := Gate(TokenAccepted(authorization, secretToken), authOk, devices, req);
              && (gate.HttpError? ==> reply == HttpError(gate.status, gate.detail))
              && (gate.Ok? ==>
                    var expected := ExpectedAll(gate.body, req);
                    && reply.Ok?
                    && multiset(reply.body.results) == multiset(expected)
                    && reply.body.success == (SuccessCount(expected) == |expected|)
                    && reply.body.message == Summary(SuccessCount(expected), |expected|))
      ensures lights == if TokenAccepted(authorization, secretToken) && authOk then LightFilter(devices) else old(lights)
      ensures var gate := Gate(TokenAccepted(authorization, secretToken), authOk, devices, req);
              forall d :: d in devices ==>
                d.trace == old(d.trace) + (if gate.Ok? && d in gate.body
                                           then Executed(d, req.action, req.brightness, req.color) else [])
    {
      if !TokenAccepted(authorization, secretToken) {
        return HttpError(401, UNAUTHORIZED);
      }
      var ok := InitializeHubspace(authOk, devices);
      if !ok {
        return HttpError(500, AUTH_FAILED);
      }
      var invalid := ValidationError(req);
      if invalid.Some? {
        return HttpError(400, invalid.value);
      }
      var targets := lights;
      if Given(req.name) {
        targets := NameFilter(lights, req.name.value);
        if targets == [] {
          return HttpError(404, NotFound(req.name.value));
        }
      }
      assert targets == Targets(LightFilter(devices), req.name);

      assert forall i :: 0 <= i < |targets| ==> targets[i] in devices;
      var results := Dispatch(targets, req);
      forall d | d in devices
        ensures d.trace == old(d.trace) + (if d in targets then Executed(d, req.action, req.brightness, req.color) else [])
      {
        if d in targets {
          var i :| 0 <= i < |targets| && targets[i] == d;
        }
      }
      assert Gate(true, true, devices, req) == Ok(targets);
      SuccessCountPermutation(results, ExpectedAll(targets, req));

      var successCount := SuccessCount(results);
      var totalCount := |results|;
      reply := Ok(ControlResponse(successCount == totalCount, Summary(successCount, totalCount), results));
    }
  }
}
