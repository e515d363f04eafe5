/**
 * The pure data handling of FusionSolarClient (src/fusion_solar_py/client.py): how the
 * replies of the data endpoints are checked and projected, and how `get_last_plant_data`
 * and `_get_last_value` turn a day's time series into "last valid value" records.
 * Python's float() of a string is the opaque partial function `parse`.
 */
module Telemetry {
  import opened Wrappers
  import opened Values

  /** The dict `_get_last_value` returns: {"time": ..., "value": ...}. */
  datatype LastValue = LastValue(time: Json, value: Option<real>)

  /** One entry of the dict `get_last_plant_data` returns (Missing is Python's None). */
  datatype Extracted = Missing | Flag(b: bool) | Number(x: real) | Last(record: LastValue)

  /** The keys `get_last_plant_data` skips. */
  const IgnoredKeys: set<string> := {"xAxis", "stationTimezone", "clientTimezone", "stationDn"}

  // ---------------------------------------------------------------- _get_last_value

  /** The record for index i: `measurement_times[i]` is evaluated first, then `float(values[i])`. */
  function Reading(v: Json, times: Json, i: nat, parse: string -> Option<real>): (r: Result<LastValue, Error>)
    ensures r.Ok? <==> At(times, i).Ok? && ToFloat(v, parse).Ok?
    ensures r.Ok? ==> r.value == LastValue(At(times, i).value, Some(ToFloat(v, parse).value))
  {
    var time :- At(times, i);
    var x :- ToFloat(v, parse);
    Ok(LastValue(time, Some(x)))
  }

  /** `found_values` once the loop has visited `values[..n]`, or the exception it raised. */
  function Found(values: seq<Json>, times: Json, parse: string -> Option<real>, n: nat): Result<seq<LastValue>, Error>
    requires n <= |values|
  {
    if n == 0 then Ok([])
    else
      var found :- Found(values, times, parse, n - 1);
      if values[n - 1] == Dashes then Ok(found)
      else
        var rec :- Reading(values[n - 1], times, n - 1, parse);
        Ok(found + [rec])
  }

  /** Once the loop has raised, later entries change nothing: the first failing entry decides. */
  lemma {:induction false} FoundFirstFailure(values: seq<Json>, times: Json, parse: string -> Option<real>, i: nat, n: nat)
    requires i <= n <= |values| && Found(values, times, parse, i).Err?
    ensures Found(values, times, parse, n) == Found(values, times, parse, i)
  {
    if i < n {
      FoundFirstFailure(values, times, parse, i, n - 1);
    }
  }

  /** What `_get_last_value` returns: the last record found, or the current time `now`
      with no value when every entry is "--". */
  function LastValueOf(values: seq<Json>, times: Json, parse: string -> Option<real>, now: string): Result<LastValue, Error> {
    var found :- Found(values, times, parse, |values|);
    if |found| > 0 then Ok(found[|found| - 1]) else Ok(LastValue(JStr(now), None))
  }

  lemma {:induction false} FoundOkIff(values: seq<Json>, times: Json, parse: string -> Option<real>, n: nat)
    requires n <= |values|
    ensures Found(values, times, parse, n).Ok? <==>
      forall i :: 0 <= i < n && values[i] != Dashes ==> Reading(values[i], times, i, parse).Ok?
  {
    if n > 0 {
      FoundOkIff(values, times, parse, n - 1);
    }
  }

  lemma {:induction false} FoundNothing(values: seq<Json>, times: Json, parse: string -> Option<real>, n: nat)
    requires n <= |values|
    requires forall j :: 0 <= j < n ==> values[j] == Dashes
    ensures Found(values, times, parse, n) == Ok([])
  {
    if n > 0 {
      FoundNothing(values, times, parse, n - 1);
    }
  }

  lemma {:induction false} FoundEndsWith(values: seq<Json>, times: Json, parse: string -> Option<real>, n: nat, i: nat)
    requires i < n <= |values|
    requires values[i] != Dashes
    requires forall j :: i < j < n ==> values[j] == Dashes
    requires Found(values, times, parse, n).Ok?
    ensures Reading(values[i], times, i, parse).Ok?
    ensures var found := Found(values, times, parse, n).value;
      |found| > 0 && found[|found| - 1] == Reading(values[i], times, i, parse).value
  {
    if i < n - 1 {
      FoundEndsWith(values, times, parse, n - 1, i);
    }
  }

  /**
   * `_get_last_value` returns the record of the largest index whose entry is not "--":
   * its time is `measurement_times` at that index and its value the parsed entry.
   */
  lemma LastValueIsLastValidEntry(values: seq<Json>, times: Json, parse: string -> Option<real>, now: string, i: nat)
    requires i < |values| && values[i] != Dashes
    requires forall j :: i < j < |values| ==> values[j] == Dashes
    requires LastValueOf(values, times, parse, now).Ok?
    ensures At(times, i).Ok? && ToFloat(values[i], parse).Ok?
    ensures LastValueOf(values, times, parse, now).value
         == LastValue(At(times, i).value, Some(ToFloat(values[i], parse).value))
  {
    FoundEndsWith(values, times, parse, |values|, i);
  }

  /** With every entry "--" the value is None and the time is the current time. */
  lemma LastValueOfAllMissing(values: seq<Json>, times: Json, parse: string -> Option<real>, now: string)
    requires forall j :: 0 <= j < |values| ==> values[j] == Dashes
    ensures LastValueOf(values, times, parse, now) == Ok(LastValue(JStr(now), None))
  {
    FoundNothing(values, times, parse, |values|);
  }

  /**
   * `_get_last_value` raises exactly when some entry other than "--", at any index, is not
   * a number or has no matching measurement time.
   */
  lemma LastValueOfFailsIff(values: seq<Json>, times: Json, parse: string -> Option<real>, now: string)
    ensures LastValueOf(values, times, parse, now).Err? <==>
      exists i :: 0 <= i < |values| && values[i] != Dashes && Reading(values[i], times, i, parse).Err?
  {
    FoundOkIff(values, times, parse, |values|);
  }

  // ---------------------------------------------------------------- get_last_plant_data

  /**
   * The value `get_last_plant_data` stores for one key: a list gives its `_get_last_value`
   * record, "--" gives None, a key starting with "exist" gives its truthiness, anything else
   * its float(); whatever raises gives None.
   */
  function FieldValue(key: string, v: Json, times: Json, parse: string -> Option<real>, now: string): Extracted {
    if v.JList? then
      match LastValueOf(v.items, times, parse, now)
      case Ok(record) => Last(record)
      case Err(_) => Missing
    else if v == Dashes then Missing
    else if StartsWith(key, "exist") then Flag(Truthy(v))
    else
      match ToFloat(v, parse)
      case Ok(x) => Number(x)
      case Err(_) => Missing
  }

  // ---------------------------------------------------------------- get_plant_ids

  /** `[obj["dn"] for obj in station_list]` over the items of the station list. */
  function PlantIdsOf(stations: seq<Json>): (r: Result<seq<Json>, Error>)
    ensures r.Ok? <==> forall i :: 0 <= i < |stations| ==> Lookup(stations[i], "dn").Ok?
    ensures r.Ok? ==> (|r.value| == |stations|
      && forall i :: 0 <= i < |stations| ==> r.value[i] == Lookup(stations[i], "dn").value)
    ensures r.Err? ==> exists i :: 0 <= i < |stations| && Lookup(stations[i], "dn") == Err(r.error)
  {
    if stations == [] then Ok([])
    else
      var id :- Lookup(stations[0], "dn");
      var rest :- PlantIdsOf(stations[1..]);
      Ok([id] + rest)
  }

  // ---------------------------------------------------------------- get_device_ids

  /** One pass of `device_key[device["mocTypeName"]] = device["dn"]`: the right-hand side is
      evaluated first, then the key, and the key must be hashable. */
  function DeviceEntry(device: Json): (r: Result<(Json, Json), Error>)
    ensures r.Ok? <==> Lookup(device, "dn").Ok? && Lookup(device, "mocTypeName").Ok?
                       && Hashable(Lookup(device, "mocTypeName").value)
    ensures r.Ok? ==> r.value == (Lookup(device, "mocTypeName").value, Lookup(device, "dn").value)
  {
    var dn :- Lookup(device, "dn");
    var name :- Lookup(device, "mocTypeName");
    if Hashable(name) then Ok((name, dn)) else Err(TypeError)
  }

  /** The dict `get_device_ids` builds from the devices it visited, or the exception raised. */
  function DeviceKeys(devices: seq<Json>): Result<map<Json, Json>, Error> {
    if devices == [] then Ok(map[])
    else
      var keys :- DeviceKeys(devices[..|devices| - 1]);
      var entry :- DeviceEntry(devices[|devices| - 1]);
      Ok(keys[entry.0 := entry.1])
  }

  lemma {:induction false} DeviceKeysOkIff(devices: seq<Json>)
    ensures DeviceKeys(devices).Ok? <==> forall i :: 0 <= i < |devices| ==> DeviceEntry(devices[i]).Ok?
  {
    if devices != [] {
      DeviceKeysOkIff(devices[..|devices| - 1]);
    }
  }

  /** The first device whose entry fails decides the exception: nothing after it is visited. */
  lemma {:induction false} DeviceKeysFirstFailure(devices: seq<Json>, i: nat)
    requires i <= |devices| && DeviceKeys(devices[..i]).Err?
    ensures DeviceKeys(devices) == DeviceKeys(devices[..i])
  {
    if i < |devices| {
      var init := devices[..|devices| - 1];
      assert init[..i] == devices[..i];
      DeviceKeysFirstFailure(init, i);
    } else {
      assert devices[..i] == devices;
    }
  }

  /** The device dict has exactly one key per mocTypeName seen. */
  lemma {:induction false} DeviceKeysNames(devices: seq<Json>)
    requires DeviceKeys(devices).Ok?
    ensures forall i :: 0 <= i < |devices| ==> DeviceEntry(devices[i]).Ok?
    ensures forall k :: k in DeviceKeys(devices).value <==>
      exists i :: 0 <= i < |devices| && DeviceEntry(devices[i]).Ok? && DeviceEntry(devices[i]).value.0 == k
  {
    DeviceKeysOkIff(devices);
    if devices != [] {
      var n := |devices| - 1;
      var init := devices[..n];
      DeviceKeysNames(init);
      var keys := DeviceKeys(devices).value;
      var entry := DeviceEntry(devices[n]).value;
      assert keys == DeviceKeys(init).value[entry.0 := entry.1];
      forall k | k in keys
        ensures exists i :: 0 <= i < |devices| && DeviceEntry(devices[i]).Ok? && DeviceEntry(devices[i]).value.0 == k
      {
        if k != entry.0 {
          var i :| 0 <= i < |init| && DeviceEntry(init[i]).Ok? && DeviceEntry(init[i]).value.0 == k;
          assert init[i] == devices[i];
        }
      }
      forall k | exists i :: 0 <= i < |devices| && DeviceEntry(devices[i]).Ok? && DeviceEntry(devices[i]).value.0 == k
        ensures k in keys
      {
        var i :| 0 <= i < |devices| && DeviceEntry(devices[i]).Ok? && DeviceEntry(devices[i]).value.0 == k;
        if i < n {
          assert init[i] == devices[i];
        }
      }
    }
  }

  /** When several devices share a mocTypeName, the dict keeps the dn of the LAST of them. */
  lemma {:induction false} DeviceKeysLastWins(devices: seq<Json>, i: nat)
    requires DeviceKeys(devices).Ok?
    requires i < |devices| && DeviceEntry(devices[i]).Ok?
    requires forall j :: i < j < |devices| && DeviceEntry(devices[j]).Ok? ==>
      DeviceEntry(devices[j]).value.0 != DeviceEntry(devices[i]).value.0
    ensures DeviceEntry(devices[i]).value.0 in DeviceKeys(devices).value
    ensures DeviceKeys(devices).value[DeviceEntry(devices[i]).value.0] == DeviceEntry(devices[i]).value.1
  {
    var n := |devices| - 1;
    DeviceKeysOkIff(devices);
    if i < n {
      var init := devices[..n];
      assert init[i] == devices[i];
      forall j | i < j < |init| && DeviceEntry(init[j]).Ok?
        ensures DeviceEntry(init[j]).value.0 != DeviceEntry(init[i]).value.0
      {
        assert init[j] == devices[j];
      }
      DeviceKeysLastWins(init, i);
    }
  }

  // ---------------------------------------------------------------- active_power_control

  /** The settings `active_power_control` accepts and the code it sends for each. */
  const PowerSettings: map<string, nat> := map[
    "No limit" := 0,
    "Zero Export Limitation" := 5,
    "Limited Power Grid (kW)" := 6,
    "Limited Power Grid (%)" := 7]

  /** The number a string of decimal digits denotes. */
  function DigitsValue(s: string): nat
    requires forall i :: 0 <= i < |s| ==> '0' <= s[i] <= '9'
  {
    if s == [] then 0 else DigitsValue(s[..|s| - 1]) * 10 + (s[|s| - 1] as int - '0' as int)
  }

  /** The decimal digits of n, as an f-string renders an int: digits only, no leading zero,
      denoting n. */
  function Decimal(n: nat): (r: string)
    ensures |r| >= 1 && forall i :: 0 <= i < |r| ==> '0' <= r[i] <= '9'
    ensures DigitsValue(r) == n
    ensures r[0] != '0' || r == "0"
  {
    var digit := ['0' + (n % 10) as char];
    if n < 10 then digit
    else
      var rest := Decimal(n / 10);
      assert (rest + digit)[..|rest|] == rest;
      rest + digit
  }

  /** The codes of the power settings render as their single digit. */
  lemma SettingCodesRender()
    ensures Decimal(0) == "0" && Decimal(5) == "5" && Decimal(6) == "6" && Decimal(7) == "7"
    ensures ChangeValues(PowerSettings["Zero Export Limitation"]) == "[{\"id\":\"230190032\",\"value\":\"5\"}]"
  {
  }

  /** The "changeValues" form field for a setting code; 230190032 is the signal
      "Active Power Control". */
  function ChangeValues(code: nat): string {
    "[{\"id\":\"230190032\",\"value\":\"" + Decimal(code) + "\"}]"
  }

  lemma PowerSettingTable()
    ensures PowerSettings.Keys == {"No limit", "Zero Export Limitation", "Limited Power Grid (kW)", "Limited Power Grid (%)"}
    ensures PowerSettings["No limit"] == 0 && PowerSettings["Zero Export Limitation"] == 5
    ensures PowerSettings["Limited Power Grid (kW)"] == 6 && PowerSettings["Limited Power Grid (%)"] == 7
    ensures forall a, b :: a in PowerSettings && b in PowerSettings && a != b ==> PowerSettings[a] != PowerSettings[b]
  {
  }

  // ---------------------------------------------------------------- reply checks

  /** The power status object: the three fields of `data`, as the server sent them. */
  datatype PowerStatus = PowerStatus(currentPowerKw: Json, energyTodayKwh: Json, energyKwh: Json)

  /** `get_power_status` after `r.json()`. */
  function PowerStatusOf(reply: Json): (r: Result<PowerStatus, Error>)
    ensures r.Ok? <==>
      && reply.JObj? && "data" in reply.fields && reply.fields["data"].JObj?
      && var data := reply.fields["data"].fields;
         "currentPower" in data && "dailyEnergy" in data && "cumulativeEnergy" in data
    ensures r.Ok? ==> var data := reply.fields["data"].fields;
      r.value == PowerStatus(data["currentPower"], data["dailyEnergy"], data["cumulativeEnergy"])
  {
    var data :- Lookup(reply, "data");
    var current :- Lookup(data, "currentPower");
    var today :- Lookup(data, "dailyEnergy");
    var total :- Lookup(data, "cumulativeEnergy");
    Ok(PowerStatus(current, today, total))
  }

  const StationListFailedMsg: string := "Failed to retrieve station list"

  /** `get_station_list` after `r.json()`: a falsy "success" raises FusionSolarException,
      otherwise `data.list` is returned. */
  function StationListOf(reply: Json): (r: Result<Json, Error>)
    ensures reply.JObj? && "success" in reply.fields && !Truthy(reply.fields["success"])
      ==> r == Err(FusionSolarError(StationListFailedMsg))
    ensures r.Ok? <==>
      && reply.JObj? && "success" in reply.fields && Truthy(reply.fields["success"])
      && "data" in reply.fields && reply.fields["data"].JObj? && "list" in reply.fields["data"].fields
    ensures r.Ok? ==> r.value == reply.fields["data"].fields["list"]
  {
    var success :- Lookup(reply, "success");
    if !Truthy(success) then Err(FusionSolarError(StationListFailedMsg))
    else
      var data :- Lookup(reply, "data");
      Lookup(data, "list")
  }

  /**
   * The check shared by get_plant_flow, get_plant_stats and get_optimizer_stats:
   * `not reply["success"] or not "data" in reply` raises FusionSolarException(failure).
   */
  function CheckedPayload(reply: Json, failure: string): (r: Result<Json, Error>)
    ensures r.Ok? <==> reply.JObj? && "success" in reply.fields && Truthy(reply.fields["success"]) && "data" in reply.fields
    ensures r.Ok? ==> r.value == reply
    ensures reply.JObj? && "success" in reply.fields && (!Truthy(reply.fields["success"]) || "data" !in reply.fields)
      ==> r == Err(FusionSolarError(failure))
  {
    match reply
    case JObj(fields) =>
      if "success" !in fields then Err(KeyError(JStr("success")))
      else if !Truthy(fields["success"]) || "data" !in fields then Err(FusionSolarError(failure))
      else Ok(reply)
    case _ => Err(TypeError)
  }

  /** `get_plant_flow`: the whole checked reply. */
  function PlantFlowOf(reply: Json, plantId: string): Result<Json, Error> {
    CheckedPayload(reply, "Failed to retrieve plant flow for " + plantId)
  }

  /** `get_plant_stats` and `get_optimizer_stats` (which share the message): the checked reply's data. */
  function StatsOf(reply: Json, id: string): Result<Json, Error> {
    var checked :- CheckedPayload(reply, "Failed to retrieve plant status for " + id);
    Lookup(checked, "data")
  }

  /** `get_device_ids`: the devices its loop visits, `device_data["data"]`. */
  function DeviceRecordsOf(reply: Json): Result<seq<Json>, Error> {
    var data :- Lookup(reply, "data");
    Records(data)
  }
}
