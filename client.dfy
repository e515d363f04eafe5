/**
 * FusionSolarClient (src/fusion_solar_py/client.py) as a class over the session state it
 * mutates: the company id, the session headers, and the scripted transport.
 *
 * Every data call the source decorates with `logged_in` is an `Operation`; `Invoke` is the
 * decorator and `Attempt` the undecorated body. `get_plant_ids` and `active_power_control`
 * call other decorated operations, so the two recurse into each other on `Depth`.
 */
module Client {
  import opened Wrappers
  import opened Values
  import opened Session
  import opened Telemetry

  datatype Operation =
    | PowerStatusCall                     // get_power_status
    | PlantIds                            // get_plant_ids
    | StationList                         // get_station_list
    | DeviceIds                           // get_device_ids
    | ActivePowerControl(setting: string) // active_power_control
    | PlantFlow(plantId: string)          // get_plant_flow
    | PlantStats(plantId: string)         // get_plant_stats
    | OptimizerStats(inverterId: string)  // get_optimizer_stats

  /** What a decorated call returns (Done is the None of active_power_control). */
  datatype Value =
    | Status(status: PowerStatus)
    | Ids(ids: seq<Json>)
    | Document(doc: Json)
    | Devices(keys: map<Json, Json>)
    | Done

  const TotalKpiPath: string := "/rest/pvms/web/station/v1/station/total-real-kpi"
  const StationListPath: string := "/rest/pvms/web/station/v1/station/station-list"
  const DeviceListPath: string := "/rest/neteco/web/config/device/v1/device-list"
  const SetConfigPath: string := "/rest/pvms/web/device/v1/deviceExt/set-config-signals"
  const EnergyFlowPath: string := "/rest/pvms/web/station/v1/overview/energy-flow"
  const EnergyBalancePath: string := "/rest/pvms/web/station/v1/overview/energy-balance"
  const OptimizerInfoPath: string := "/rest/pvms/web/station/v1/layout/optimizer-info"
  const ParentDnParam: string := "conditionParams.parentDn"
  const UnknownSettingMsg: string := "Unknown power setting"
  const InvalidPlantDataMsg: string := "Invalid plant_data object passed."

  /** How deeply an operation nests decorated calls. */
  function Depth(op: Operation): nat {
    if op.PlantIds? || op.ActivePowerControl? then 1 else 0
  }

  /** The method and path of the one request a non-nesting operation makes. */
  function Endpoint(op: Operation): (Verb, string)
    requires Depth(op) == 0
  {
    match op
    case PowerStatusCall => (Get, TotalKpiPath)
    case StationList => (Post, StationListPath)
    case DeviceIds => (Get, DeviceListPath)
    case PlantFlow(_) => (Get, EnergyFlowPath)
    case PlantStats(_) => (Get, EnergyBalancePath)
    case OptimizerStats(_) => (Get, OptimizerInfoPath)
  }

  /** The parameters of a non-nesting operation's request that depend on the session:
      `get_device_ids` asks for the devices under the stored company id. */
  function Query(op: Operation, companyId: Json): (q: map<string, Json>)
    requires Depth(op) == 0
    ensures op.DeviceIds? <==> ParentDnParam in q
    ensures op.DeviceIds? ==> q == map[ParentDnParam := companyId]
    ensures !op.DeviceIds? ==> q == map[]
  {
    if op.DeviceIds? then map[ParentDnParam := companyId] else map[]
  }

  /** What a non-nesting operation makes of its reply once `r.json()` succeeded. */
  function Reply(op: Operation, reply: Json): Result<Value, Error>
    requires Depth(op) == 0
  {
    match op
    case PowerStatusCall =>
      var status :- PowerStatusOf(reply);
      Ok(Status(status))
    case StationList =>
      var list :- StationListOf(reply);
      Ok(Document(list))
    case DeviceIds =>
      var devices :- DeviceRecordsOf(reply);
      var keys :- DeviceKeys(devices);
      Ok(Devices(keys))
    case PlantFlow(id) =>
      var flow :- PlantFlowOf(reply, id);
      Ok(Document(flow))
    case PlantStats(id) =>
      var stats :- StatsOf(reply, id);
      Ok(Document(stats))
    case OptimizerStats(id) =>
      var stats :- StatsOf(reply, id);
      Ok(Document(stats))
  }

  /** Iterating an object a decorated call returned, each item then subscripted with a
      string key (see Values.Records): only lists, and empty containers, get through. */
  function ValueRecords(v: Value): Result<seq<Json>, Error> {
    match v
    case Document(doc) => Records(doc)
    case Ids(ids) => Ok(ids)
    case Devices(keys) => if keys == map[] then Ok([]) else Err(TypeError)
    case _ => Err(TypeError)
  }

  /** `v[key]` on an object a decorated call returned. */
  function ValueLookup(v: Value, key: string): Result<Json, Error> {
    match v
    case Devices(keys) => if JStr(key) in keys then Ok(keys[JStr(key)]) else Err(KeyError(JStr(key)))
    case Document(doc) => Lookup(doc, key)
    case _ => Err(TypeError)
  }

  /** The form `active_power_control` posts to the dongle. */
  function ControlForm(dongle: Json, code: nat): map<string, Json> {
    map["dn" := dongle, "changeValues" := JStr(ChangeValues(code))]
  }

  /** The undecorated body of an operation. */
  function AttemptSpec(op: Operation, s: Snapshot, cfg: Config): Step<Value> {
    match op
    case PlantIds => PlantIdsSpec(s, cfg)
    case ActivePowerControl(setting) => PowerControlSpec(setting, s, cfg)
    case _ => CallSpec(op, s, cfg)
  }

  /** The body of a call that makes one request and no decorated call. */
  function CallSpec(op: Operation, s: Snapshot, cfg: Config): (st: Step<Value>)
    requires Depth(op) == 0
    ensures st.after.sent == s.sent + [Request(Endpoint(op).0, cfg.subdomain, Endpoint(op).1, Query(op, s.companyId), s.headers)]
    ensures st.after.companyId == s.companyId && st.after.headers == s.headers
  {
    var sent := Fetch(s, Endpoint(op).0, cfg.subdomain, Endpoint(op).1, Query(op, s.companyId));
    match sent.out
    case Err(e) => Step(Err(e), sent.after)
    case Ok(resp) =>
      match ParseJson(resp)
      case Err(e) => Step(Err(e), sent.after)
      case Ok(reply) => Step(Reply(op, reply), sent.after)
  }

  /** `get_plant_ids`: the "dn" of every station the decorated station-list call returns. */
  function PlantIdsSpec(s: Snapshot, cfg: Config): Step<Value> {
    var inner := CallInvokeSpec(StationList, s, cfg);
    match inner.out
    case Err(e) => Step(Err(e), inner.after)
    case Ok(stations) =>
      match ValueRecords(stations)
      case Err(e) => Step(Err(e), inner.after)
      case Ok(records) =>
        match PlantIdsOf(records)
        case Err(e) => Step(Err(e), inner.after)
        case Ok(ids) => Step(Ok(Ids(ids)), inner.after)
  }

  /** `active_power_control`: refuse an unknown setting, look the dongle up through the
      decorated device-list call, then post the setting's code to it. */
  function PowerControlSpec(setting: string, s: Snapshot, cfg: Config): Step<Value> {
    if setting !in PowerSettings then Step(Err(ValueError(UnknownSettingMsg)), s)
    else
      var inner := CallInvokeSpec(DeviceIds, s, cfg);
      match inner.out
      case Err(e) => Step(Err(e), inner.after)
      case Ok(devices) =>
        match ValueLookup(devices, "Dongle")
        case Err(e) => Step(Err(e), inner.after)
        case Ok(dongle) =>
          var sent := Fetch(inner.after, Post, cfg.subdomain, SetConfigPath, ControlForm(dongle, PowerSettings[setting]));
          match sent.out
          case Err(e) => Step(Err(e), sent.after)
          case Ok(_) => Step(Ok(Done), sent.after)
  }

  /** The errors on which `logged_in` logs in and tries once more. */
  predicate ShouldRetry(r: Result<Value, Error>) {
    r.Err? && Retryable(r.error)
  }

  /** What `logged_in` does once the body has run: hand its result back, or run it again
      from the state a successful login left. */
  datatype Decision = Return(step: Step<Value>) | RunAgain(from: Snapshot)

  /** `logged_in`: on JSONDecodeError or HTTPError log in once (whose exception goes to the
      caller) and run the body again; anything else goes to the caller as it is. */
  function LoggedIn(first: Step<Value>, cfg: Config): Decision {
    if ShouldRetry(first.out) then
      var login := LoginSpec(first.after, cfg);
      if login.out.Err? then Return(Step(Err(login.out.error), login.after)) else RunAgain(login.after)
    else Return(first)
  }

  /** A decorated call: the body, then what `logged_in` decides; a second run is returned
      whatever it does. */
  function InvokeSpec(op: Operation, s: Snapshot, cfg: Config): Step<Value> {
    match LoggedIn(AttemptSpec(op, s, cfg), cfg)
    case Return(st) => st
    case RunAgain(from) => AttemptSpec(op, from, cfg)
  }

  /** A decorated call that makes no decorated call itself, as the calls that nest it see it. */
  function CallInvokeSpec(op: Operation, s: Snapshot, cfg: Config): Step<Value>
    requires Depth(op) == 0
  {
    match LoggedIn(CallSpec(op, s, cfg), cfg)
    case Return(st) => st
    case RunAgain(from) => CallSpec(op, from, cfg)
  }

  /** A non-nesting operation's body is the single-request call. */
  lemma FlatAttempt(op: Operation, s: Snapshot, cfg: Config)
    requires Depth(op) == 0
    ensures AttemptSpec(op, s, cfg) == CallSpec(op, s, cfg)
  {
  }

  lemma CallInvokeIsInvoke(op: Operation, s: Snapshot, cfg: Config)
    requires Depth(op) == 0
    ensures CallInvokeSpec(op, s, cfg) == InvokeSpec(op, s, cfg)
  {
    FlatAttempt(op, s, cfg);
    var first := CallSpec(op, s, cfg);
    if LoggedIn(first, cfg).RunAgain? {
      FlatAttempt(op, LoggedIn(first, cfg).from, cfg);
    }
  }

  /** The requests `logged_in` issues around a non-nesting call that succeeds or fails
      for good at once: just the call's. */
  lemma NotRetriedRequests(op: Operation, s: Snapshot, cfg: Config) returns (t: seq<Request>)
    requires Depth(op) == 0 && !ShouldRetry(CallSpec(op, s, cfg).out)
    ensures CallInvokeSpec(op, s, cfg) == CallSpec(op, s, cfg)
    ensures CallInvokeSpec(op, s, cfg).after.sent == s.sent + t && |t| == 1
    ensures Hits(t, Endpoint(op).1) == 1 && Hits(t, ValidateUserPath) == 0
  {
    var req := Request(Endpoint(op).0, cfg.subdomain, Endpoint(op).1, Query(op, s.companyId), s.headers);
    EndpointIsDataPath(op);
    HitsOne(req, Endpoint(op).1);
    HitsOne(req, ValidateUserPath);
    t := [req];
  }

  /** ... whose retry's login fails: the call's request and the login's. */
  lemma LoginFailedRequests(op: Operation, s: Snapshot, cfg: Config) returns (t: seq<Request>)
    requires Depth(op) == 0 && ShouldRetry(CallSpec(op, s, cfg).out)
    requires LoginSpec(CallSpec(op, s, cfg).after, cfg).out.Err?
    ensures var login := LoginSpec(CallSpec(op, s, cfg).after, cfg);
      CallInvokeSpec(op, s, cfg) == Step(Err(login.out.error), login.after)
    ensures CallInvokeSpec(op, s, cfg).after.sent == s.sent + t
    ensures Hits(t, Endpoint(op).1) == 1 && Hits(t, ValidateUserPath) == 1
  {
    var first := CallSpec(op, s, cfg);
    var req := Request(Endpoint(op).0, cfg.subdomain, Endpoint(op).1, Query(op, s.companyId), s.headers);
    EndpointIsDataPath(op);
    var l := LoginHits(first.after, cfg, Endpoint(op).1);
    TraceHits(req, l, [], Endpoint(op).1);
    AppendSteps(s.sent, first.after.sent, LoginSpec(first.after, cfg).after.sent, LoginSpec(first.after, cfg).after.sent, [req], l, []);
    t := [req] + l + [];
  }

  /** ... whose retry's login succeeds: the call's request, the login's, the call's again. */
  lemma RetriedRequests(op: Operation, s: Snapshot, cfg: Config) returns (t: seq<Request>)
    requires Depth(op) == 0 && ShouldRetry(CallSpec(op, s, cfg).out)
    requires LoginSpec(CallSpec(op, s, cfg).after, cfg).out.Ok?
    ensures CallInvokeSpec(op, s, cfg).after.sent == s.sent + t
    ensures Hits(t, Endpoint(op).1) == 2 && Hits(t, ValidateUserPath) == 1
  {
    var first := CallSpec(op, s, cfg);
    var login := LoginSpec(first.after, cfg);
    var req := Request(Endpoint(op).0, cfg.subdomain, Endpoint(op).1, Query(op, s.companyId), s.headers);
    var again := Request(Endpoint(op).0, cfg.subdomain, Endpoint(op).1, Query(op, login.after.companyId), login.after.headers);
    EndpointIsDataPath(op);
    var l := LoginHits(first.after, cfg, Endpoint(op).1);
    TraceHits(req, l, [again], Endpoint(op).1);
    CallRetried(op, s, cfg);
    AppendSteps(s.sent, first.after.sent, login.after.sent, CallSpec(op, login.after, cfg).after.sent, [req], l, [again]);
    t := [req] + l + [again];
  }

  lemma CallRetried(op: Operation, s: Snapshot, cfg: Config)
    requires Depth(op) == 0 && ShouldRetry(CallSpec(op, s, cfg).out)
    requires LoginSpec(CallSpec(op, s, cfg).after, cfg).out.Ok?
    ensures var login := LoginSpec(CallSpec(op, s, cfg).after, cfg);
      CallInvokeSpec(op, s, cfg) == CallSpec(op, login.after, cfg)
  {
  }

  /** The requests `logged_in` issues around a non-nesting call: the call's request, then,
      when it is retried, a login and (when that succeeded) the call's request once more. */
  lemma FlatInvokeRequests(op: Operation, s: Snapshot, cfg: Config) returns (t: seq<Request>)
    requires Depth(op) == 0
    ensures CallInvokeSpec(op, s, cfg).after.sent == s.sent + t
    ensures var first := CallSpec(op, s, cfg);
      && Hits(t, Endpoint(op).1) == (if ShouldRetry(first.out) && LoginSpec(first.after, cfg).out.Ok? then 2 else 1)
      && Hits(t, ValidateUserPath) == (if ShouldRetry(first.out) then 1 else 0)
      && (!ShouldRetry(first.out) ==> |t| == 1)
  {
    var first := CallSpec(op, s, cfg);
    if !ShouldRetry(first.out) {
      t := NotRetriedRequests(op, s, cfg);
    } else if LoginSpec(first.after, cfg).out.Err? {
      t := LoginFailedRequests(op, s, cfg);
    } else {
      t := RetriedRequests(op, s, cfg);
    }
  }

  /** No operation's endpoint is one of the login's. */
  lemma EndpointIsDataPath(op: Operation)
    requires Depth(op) == 0
    ensures DataPath(Endpoint(op).1)
  {
  }

  /** Counting over a retried call's requests: the call's own, the login's, and the retry's. */
  lemma TraceHits(req: Request, login: seq<Request>, retry: seq<Request>, path: string)
    requires req.path == path && DataPath(path)
    requires Hits(login, ValidateUserPath) == 1 && Hits(login, path) == 0
    requires |retry| <= 1 && forall k :: 0 <= k < |retry| ==> retry[k].path == path
    ensures Hits([req] + login + retry, path) == 1 + |retry|
    ensures Hits([req] + login + retry, ValidateUserPath) == 1
  {
    HitsOne(req, path);
    HitsOne(req, ValidateUserPath);
    HitsAppend([req], login, path);
    HitsAppend([req], login, ValidateUserPath);
    HitsAppend([req] + login, retry, path);
    HitsAppend([req] + login, retry, ValidateUserPath);
    if retry != [] {
      assert retry == [retry[0]];
      HitsOne(retry[0], path);
      HitsOne(retry[0], ValidateUserPath);
    }
  }

  /**
   * `logged_in` around a non-nesting call: a result that is not a JSONDecodeError or an
   * HTTPError is returned as it is, with nothing more sent; otherwise exactly one login
   * follows, the endpoint is requested a second time only when that login succeeded, and
   * a failing login's exception goes to the caller.
   */
  lemma RetriesOnce(op: Operation, s: Snapshot, cfg: Config)
    requires Depth(op) == 0
    ensures var first := AttemptSpec(op, s, cfg);
      var st := InvokeSpec(op, s, cfg);
      && |s.sent| < |st.after.sent| && st.after.sent[..|s.sent|] == s.sent
      && (!ShouldRetry(first.out) ==> st == first && |st.after.sent| == |s.sent| + 1)
      && Hits(Issued(s, st.after), ValidateUserPath) == (if ShouldRetry(first.out) then 1 else 0)
      && Hits(Issued(s, st.after), Endpoint(op).1) ==
           (if ShouldRetry(first.out) && LoginSpec(first.after, cfg).out.Ok? then 2 else 1)
      && (ShouldRetry(first.out) && LoginSpec(first.after, cfg).out.Err? ==>
           st.out == Err(LoginSpec(first.after, cfg).out.error))
  {
    FlatAttempt(op, s, cfg);
    CallInvokeIsInvoke(op, s, cfg);
    var t := FlatInvokeRequests(op, s, cfg);
    var after := InvokeSpec(op, s, cfg).after;
    assert Issued(s, after) == t;
  }

  /** `get_plant_ids` ends where its station-list call ended. */
  lemma PlantIdsRequests(s: Snapshot, cfg: Config) returns (t: seq<Request>)
    ensures PlantIdsSpec(s, cfg).after.sent == s.sent + t
    ensures PlantIdsSpec(s, cfg).after == CallInvokeSpec(StationList, s, cfg).after
    ensures Hits(t, ValidateUserPath) <= 1
  {
    t := FlatInvokeRequests(StationList, s, cfg);
  }

  /** Where `active_power_control` ends: where its device-list call ended, or one POST to
      the dongle later. */
  lemma PowerControlShape(setting: string, s: Snapshot, cfg: Config)
    requires setting in PowerSettings
    ensures var inner := CallInvokeSpec(DeviceIds, s, cfg);
      var after := PowerControlSpec(setting, s, cfg).after;
      if inner.out.Ok? && ValueLookup(inner.out.value, "Dongle").Ok? then
        var dongle := ValueLookup(inner.out.value, "Dongle").value;
        after.sent == inner.after.sent
          + [Request(Post, cfg.subdomain, SetConfigPath, ControlForm(dongle, PowerSettings[setting]), inner.after.headers)]
      else after == inner.after
  {
  }

  /** `active_power_control` issues its device-list call's requests and, when the dongle is
      found, one POST more. */
  lemma PowerControlRequests(setting: string, s: Snapshot, cfg: Config) returns (t: seq<Request>)
    ensures PowerControlSpec(setting, s, cfg).after.sent == s.sent + t
    ensures Hits(t, ValidateUserPath) <= 1
  {
    if setting !in PowerSettings {
      t := [];
    } else {
      var inner := CallInvokeSpec(DeviceIds, s, cfg);
      var i := FlatInvokeRequests(DeviceIds, s, cfg);
      PowerControlShape(setting, s, cfg);
      if inner.out.Ok? && ValueLookup(inner.out.value, "Dongle").Ok? {
        var dongle := ValueLookup(inner.out.value, "Dongle").value;
        var req := Request(Post, cfg.subdomain, SetConfigPath, ControlForm(dongle, PowerSettings[setting]), inner.after.headers);
        HitsOne(req, ValidateUserPath);
        HitsAppend(i, [req], ValidateUserPath);
        AppendTwo(s.sent, inner.after.sent, PowerControlSpec(setting, s, cfg).after.sent, i, [req]);
        t := i + [req];
      } else {
        t := i;
      }
    }
  }

  /** The requests an undecorated body issues: no login of its own, at most one inside
      the decorated call it makes. */
  lemma AttemptLogins(op: Operation, s: Snapshot, cfg: Config) returns (t: seq<Request>)
    ensures AttemptSpec(op, s, cfg).after.sent == s.sent + t
    ensures Hits(t, ValidateUserPath) <= Depth(op)
  {
    match op {
      case PlantIds =>
        t := PlantIdsRequests(s, cfg);
      case ActivePowerControl(setting) =>
        t := PowerControlRequests(setting, s, cfg);
      case _ =>
        var req := Request(Endpoint(op).0, cfg.subdomain, Endpoint(op).1, Query(op, s.companyId), s.headers);
        HitsOne(req, ValidateUserPath);
        t := [req];
    }
  }

  /** The three ways `logged_in` ends around any call. */
  lemma InvokeCases(op: Operation, s: Snapshot, cfg: Config)
    ensures var first := AttemptSpec(op, s, cfg);
      var login := LoginSpec(first.after, cfg);
      var st := InvokeSpec(op, s, cfg);
      && (!ShouldRetry(first.out) ==> st == first)
      && (ShouldRetry(first.out) && login.out.Err? ==> st == Step(Err(login.out.error), login.after))
      && (ShouldRetry(first.out) && login.out.Ok? ==> st == AttemptSpec(op, login.after, cfg))
  {
  }

  /** `get_device_ids` asks for the devices under the stored company id: its first request
      carries the company id the session had. */
  lemma DeviceListUsesCompanyId(s: Snapshot, cfg: Config)
    ensures var st := InvokeSpec(DeviceIds, s, cfg);
      |s.sent| < |st.after.sent| && st.after.sent[|s.sent|].body == map[ParentDnParam := s.companyId]
  {
    var first := CallSpec(DeviceIds, s, cfg);
    FlatAttempt(DeviceIds, s, cfg);
    InvokeCases(DeviceIds, s, cfg);
    if ShouldRetry(first.out) {
      var login := LoginSpec(first.after, cfg);
      LoginTrace(first.after, cfg);
      assert login.after.sent[|s.sent|] == first.after.sent[|s.sent|];
      if login.out.Ok? {
        FlatAttempt(DeviceIds, login.after, cfg);
        assert CallSpec(DeviceIds, login.after, cfg).after.sent[|s.sent|] == login.after.sent[|s.sent|];
      }
    }
  }

  /** After a successful re-login, `get_device_ids` asks again under the company id that
      login stored from its company/current reply. */
  lemma RetriedDeviceListUsesNewCompanyId(s: Snapshot, cfg: Config)
    requires ShouldRetry(CallSpec(DeviceIds, s, cfg).out)
    requires LoginSpec(CallSpec(DeviceIds, s, cfg).after, cfg).out.Ok?
    ensures var first := CallSpec(DeviceIds, s, cfg);
      var sent := InvokeSpec(DeviceIds, s, cfg).after.sent;
      && |first.after.inbox| >= 3 && CompanyIdOf(first.after.inbox[1]).Ok? && |sent| > 0
      && sent[|sent| - 1].body == map[ParentDnParam := CompanyIdOf(first.after.inbox[1]).value]
  {
    var first := CallSpec(DeviceIds, s, cfg);
    var login := LoginSpec(first.after, cfg);
    LoginSucceedsIff(first.after, cfg);
    FlatAttempt(DeviceIds, s, cfg);
    FlatAttempt(DeviceIds, login.after, cfg);
    CallRetried(DeviceIds, s, cfg);
    CallInvokeIsInvoke(DeviceIds, s, cfg);
  }

  lemma HitsOfThree(x: seq<Request>, y: seq<Request>, z: seq<Request>, path: string)
    ensures Hits(x + y + z, path) == Hits(x, path) + Hits(y, path) + Hits(z, path)
  {
    HitsAppend(x, y, path);
    HitsAppend(x + y, z, path);
  }

  /** The requests a decorated call issues, with at most 2 * Depth(op) + 1 logins among
      them: one for a plain call, three for a call that makes a decorated call itself. */
  lemma InvokeLogins(op: Operation, s: Snapshot, cfg: Config) returns (t: seq<Request>)
    ensures InvokeSpec(op, s, cfg).after.sent == s.sent + t
    ensures Hits(t, ValidateUserPath) <= 2 * Depth(op) + 1
  {
    InvokeCases(op, s, cfg);
    var first := AttemptSpec(op, s, cfg);
    var a := AttemptLogins(op, s, cfg);
    if !ShouldRetry(first.out) {
      t := a;
    } else {
      var login := LoginSpec(first.after, cfg);
      var l := LoginHits(first.after, cfg, StationListPath);
      var b: seq<Request> := [];
      var last := login.after;
      if login.out.Ok? {
        b := AttemptLogins(op, login.after, cfg);
        last := AttemptSpec(op, login.after, cfg).after;
      }
      AppendSteps(s.sent, first.after.sent, login.after.sent, last.sent, a, l, b);
      HitsOfThree(a, l, b, ValidateUserPath);
      t := a + l + b;
    }
  }

  /** An unknown setting is refused before anything is sent, and is not retried. */
  lemma UnknownSettingSendsNothing(setting: string, s: Snapshot, cfg: Config)
    requires setting !in PowerSettings
    ensures InvokeSpec(ActivePowerControl(setting), s, cfg) == Step(Err(ValueError(UnknownSettingMsg)), s)
  {
  }

  class FusionSolarClient {
    const config: Config
    var companyId: Json
    var headers: map<string, Json>
    var inbox: seq<Response>
    var sent: seq<Request>

    function State(): Snapshot
      reads this
    {
      Snapshot(companyId, headers, inbox, sent)
    }

    /** The part of `__init__` before `_login`: no company id, no headers set. */
    constructor (config: Config, server: seq<Response>)
      ensures this.config == config && State() == Initial(server)
    {
      this.config := config;
      companyId := JNull;
      headers := map[];
      inbox := server;
      sent := [];
    }

    /** `FusionSolarClient(username, password, huawei_subdomain)`: construct, then log in.
        When `out` is an error the Python constructor raised and the object is never seen. */
    static method Create(config: Config, server: seq<Response>) returns (client: FusionSolarClient, out: Result<(), Error>)
      ensures fresh(client) && client.config == config
      ensures Step(out, client.State()) == LoginSpec(Initial(server), config)
    {
      client := new FusionSolarClient(config, server);
      out := client.Login();
    }

    /** One request through `self._session`. */
    method Send(verb: Verb, subdomain: string, path: string, body: map<string, Json>) returns (r: Result<Response, Error>)
      modifies this
      ensures Step(r, State()) == Exchange(old(State()), verb, subdomain, path, body)
    {
      sent := sent + [Request(verb, subdomain, path, body, headers)];
      if inbox == [] {
        r := Err(ConnectionError);
      } else {
        r := Ok(inbox[0]);
        inbox := inbox[1..];
      }
    }

    /** A request followed by `r.raise_for_status()`. */
    method Fetch(verb: Verb, subdomain: string, path: string, body: map<string, Json>) returns (r: Result<Response, Error>)
      modifies this
      ensures Step(r, State()) == Session.Fetch(old(State()), verb, subdomain, path, body)
    {
      var resp :- Send(verb, subdomain, path, body);
      r := RaiseForStatus(resp);
    }

    /** `_login`: validate the credentials, store the company id, store the CSRF token. */
    method Login() returns (out: Result<(), Error>)
      modifies this
      ensures Step(out, State()) == LoginSpec(old(State()), config)
    {
      out := ValidateUser();
      if out.Err? {
        return;
      }
      out := StoreCompanyId();
      if out.Err? {
        return;
      }
      out := StoreCsrfToken();
    }

    /** The first request of `_login`: POST the credentials to the login subdomain. */
    method ValidateUser() returns (out: Result<(), Error>)
      modifies this
      ensures Step(out, State()) == Session.ValidateUser(old(State()), config)
    {
      var resp :- Fetch(Post, LoginSubdomain(config.subdomain), ValidateUserPath, Credentials(config));
      out := CheckLoginReply(resp, config.render);
    }

    /** The second request of `_login`: fetch and store the company id. */
    method StoreCompanyId() returns (out: Result<(), Error>)
      modifies this
      ensures Step(out, State()) == Session.StoreCompanyId(old(State()), config)
    {
      var resp :- Fetch(Get, config.subdomain, CompanyPath, map[]);
      var id :- CompanyIdOf(resp);
      companyId := id;
      out := Ok(());
    }

    /** The third request of `_login`: fetch the CSRF token and add it to the headers. */
    method StoreCsrfToken() returns (out: Result<(), Error>)
      modifies this
      ensures Step(out, State()) == Session.StoreCsrfToken(old(State()), config)
    {
      var resp :- Fetch(Get, config.subdomain, SessionPath, map[]);
      var token :- CsrfTokenOf(resp);
      headers := headers[CsrfHeader := token];
      out := Ok(());
    }

    /** A decorated call: the `logged_in` wrapper around `Attempt`. */
    method Invoke(op: Operation) returns (r: Result<Value, Error>)
      modifies this
      decreases Depth(op), 2
      ensures Step(r, State()) == InvokeSpec(op, old(State()), config)
    {
      r := Attempt(op);
      if r.Err? && Retryable(r.error) {
        var login := Login();
        if login.Err? {
          return Err(login.error);
        }
        r := Attempt(op);
      }
    }

    /** The undecorated body of a data call. */
    method Attempt(op: Operation) returns (r: Result<Value, Error>)
      modifies this
      decreases Depth(op), 1
      ensures Step(r, State()) == AttemptSpec(op, old(State()), config)
    {
      match op {
        case PlantIds =>
          CallInvokeIsInvoke(StationList, State(), config);
          var stations :- Invoke(StationList);
          var records :- ValueRecords(stations);
          var ids :- PlantIdsOf(records);
          r := Ok(Ids(ids));
        case ActivePowerControl(setting) =>
          if setting !in PowerSettings {
            return Err(ValueError(UnknownSettingMsg));
          }
          CallInvokeIsInvoke(DeviceIds, State(), config);
          var devices :- Invoke(DeviceIds);
          var dongle :- ValueLookup(devices, "Dongle");
          var resp :- Fetch(Post, config.subdomain, SetConfigPath, ControlForm(dongle, PowerSettings[setting]));
          r := Ok(Done);
        case DeviceIds =>
          var resp :- Fetch(Get, config.subdomain, DeviceListPath, Query(DeviceIds, companyId));
          var reply :- ParseJson(resp);
          var devices :- DeviceRecordsOf(reply);
          var keys :- BuildDeviceKey(devices);
          r := Ok(Devices(keys));
        case _ =>
          var resp :- Fetch(Endpoint(op).0, config.subdomain, Endpoint(op).1, Query(op, companyId));
          var reply :- ParseJson(resp);
          r := Reply(op, reply);
      }
    }
  }

  /** `_get_last_value`: collect the non-"--" entries with their times, return the last. */
  method GetLastValue(values: seq<Json>, times: Json, parse: string -> Option<real>, now: string)
    returns (r: Result<LastValue, Error>)
    ensures r == LastValueOf(values, times, parse, now)
  {
    var found: seq<LastValue> := [];
    for i := 0 to |values|
      invariant Found(values, times, parse, i) == Ok(found)
    {
      if values[i] != Dashes {
        var time := At(times, i);
        if time.Err? {
          FoundFirstFailure(values, times, parse, i + 1, |values|);
          return Err(time.error);
        }
        var x := ToFloat(values[i], parse);
        if x.Err? {
          FoundFirstFailure(values, times, parse, i + 1, |values|);
          return Err(x.error);
        }
        found := found + [LastValue(time.value, Some(x.value))];
      }
    }
    if |found| > 0 {
      r := Ok(found[|found| - 1]);
    } else {
      r := Ok(LastValue(JStr(now), None));
    }
  }

  /**
   * `get_last_plant_data`: without an "xAxis" entry the data is refused; otherwise every key
   * except the ignored ones is mapped to the value FieldValue describes.
   */
  method GetLastPlantData(plantData: map<string, Json>, parse: string -> Option<real>, now: string)
    returns (r: Result<map<string, Extracted>, Error>)
    ensures r.Err? <==> "xAxis" !in plantData
    ensures r.Err? ==> r.error == FusionSolarError(InvalidPlantDataMsg)
    ensures r.Ok? ==> r.value.Keys == plantData.Keys - IgnoredKeys
    ensures r.Ok? ==> forall key :: key in r.value ==>
      r.value[key] == FieldValue(key, plantData[key], plantData["xAxis"], parse, now)
  {
    if "xAxis" !in plantData {
      return Err(FusionSolarError(InvalidPlantDataMsg));
    }
    var times := plantData["xAxis"];
    var extracted: map<string, Extracted> := map[];
    var todo := plantData.Keys;
    while todo != {}
      invariant todo <= plantData.Keys
      invariant extracted.Keys == plantData.Keys - todo - IgnoredKeys
      invariant forall key :: key in extracted ==>
        extracted[key] == FieldValue(key, plantData[key], times, parse, now)
      decreases |todo|
    {
      var key :| key in todo;
      todo := todo - {key};
      if key in IgnoredKeys {
        continue;
      }
      var value := plantData[key];
      if value.JList? {
        var last := GetLastValue(value.items, times, parse, now);
        extracted := extracted[key := if last.Ok? then Last(last.value) else Missing];
      } else if value == Dashes {
        extracted := extracted[key := Missing];
      } else if StartsWith(key, "exist") {
        extracted := extracted[key := Flag(Truthy(value))];
      } else {
        var x := ToFloat(value, parse);
        extracted := extracted[key := if x.Ok? then Number(x.value) else Missing];
      }
    }
    r := Ok(extracted);
  }

  /** The loop of `get_device_ids` filling `device_key`. */
  method BuildDeviceKey(devices: seq<Json>) returns (r: Result<map<Json, Json>, Error>)
    ensures r == DeviceKeys(devices)
  {
    var deviceKey: map<Json, Json> := map[];
    for i := 0 to |devices|
      invariant DeviceKeys(devices[..i]) == Ok(deviceKey)
    {
      assert devices[..i + 1][..i] == devices[..i];
      var entry := DeviceEntry(devices[i]);
      if entry.Err? {
        DeviceKeysFirstFailure(devices, i + 1);
        return Err(entry.error);
      }
      var (name, dn) := entry.value;
      deviceKey := deviceKey[name := dn];
    }
    assert devices[..|devices|] == devices;
    r := Ok(deviceKey);
  }
}
