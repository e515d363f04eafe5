/**
 * The session side of FusionSolarClient (src/fusion_solar_py/client.py): the abstract
 * transport the client talks through, and `_login` as a function from the session it
 * starts with to the outcome and the session it leaves behind.
 *
 * The network is a script: `inbox` holds the responses the server will give, in order,
 * and every request the client issues takes the next one and is appended to `sent`.
 */
module Session {
  import opened Wrappers
  import opened Values

  datatype Verb = Get | Post

  /** A request: method, the subdomain of fusionsolar.huawei.com it goes to, the path,
      the JSON or form body (for a GET: the query parameters that carry session state),
      and the session headers it carried. */
  datatype Request = Request(
    verb: Verb,
    subdomain: string,
    path: string,
    body: map<string, Json>,
    headers: map<string, Json>)

  /** A response: HTTP status, the decoded body text, and what `Response.json()` yields
      for that body (None: the body is not JSON and `json()` raises JSONDecodeError). */
  datatype Response = Response(status: int, text: string, json: Option<Json>)

  /** The client state the login and the data calls read and write. */
  datatype Snapshot = Snapshot(
    companyId: Json,
    headers: map<string, Json>,
    inbox: seq<Response>,
    sent: seq<Request>)

  /** The outcome of a step together with the state it leaves behind. */
  datatype Step<T> = Step(out: Result<T, Error>, after: Snapshot)

  /** The constructor arguments of FusionSolarClient. `render` is Python's str() applied
      to a JSON value that is not a string, which the model leaves opaque. */
  datatype Config = Config(user: string, password: string, subdomain: string, render: Json -> string)

  const ValidateUserPath: string := "/unisso/v2/validateUser.action"
  const CompanyPath: string := "/rest/neteco/web/organization/v2/company/current"
  const SessionPath: string := "/unisess/v1/auth/session"
  const CsrfHeader: string := "roarand"
  const DataPrefix: string := "{\"data\":"
  const LoginFailedPrefix: string := "Failed to login into FusionSolarAPI: "
  const WrongSubdomainMsg: string := "Invalid response received. Please check the correct Huawei subdomain."
  const NoDataMsg: string := "Failed to login into FusionSolarAPI."

  /** The state of a freshly constructed client talking to a server that will answer `server`. */
  function Initial(server: seq<Response>): Snapshot {
    Snapshot(JNull, map[], server, [])
  }

  /**
   * The subdomain the login request goes to: a "regionNN" subdomain loses its first eight
   * characters (Python's slice `[8:]`, which yields "" on a shorter string).
   */
  function LoginSubdomain(subdomain: string): (r: string)
    ensures StartsWith(subdomain, "region") && |subdomain| >= 8 ==> subdomain[..8] + r == subdomain
    ensures StartsWith(subdomain, "region") && |subdomain| < 8 ==> r == ""
    ensures !StartsWith(subdomain, "region") ==> r == subdomain
  {
    if StartsWith(subdomain, "region") then
      if |subdomain| >= 8 then subdomain[8..] else ""
    else subdomain
  }

  lemma DefaultSubdomainLogsInAtEu5()
    ensures LoginSubdomain("region01eu5") == "eu5"
    ensures LoginSubdomain("intl") == "intl"
  {
  }

  /** The JSON body of the login POST. */
  function Credentials(cfg: Config): map<string, Json> {
    map["organizationName" := JStr(""), "username" := JStr(cfg.user), "password" := JStr(cfg.password)]
  }

  /** One request through the session: it is logged with the current headers and takes the
      next scripted response; with none left the transport raises ConnectionError. */
  function Exchange(s: Snapshot, verb: Verb, subdomain: string, path: string, body: map<string, Json>): (st: Step<Response>)
    ensures st.after.sent == s.sent + [Request(verb, subdomain, path, body, s.headers)]
    ensures st.after.companyId == s.companyId && st.after.headers == s.headers
    ensures s.inbox == [] ==> st.out == Err(ConnectionError) && st.after.inbox == []
    ensures s.inbox != [] ==> st.out == Ok(s.inbox[0]) && st.after.inbox == s.inbox[1..]
  {
    var logged := s.(sent := s.sent + [Request(verb, subdomain, path, body, s.headers)]);
    if s.inbox == [] then Step(Err(ConnectionError), logged)
    else Step(Ok(s.inbox[0]), logged.(inbox := s.inbox[1..]))
  }

  /** `Response.raise_for_status()`: 4xx and 5xx statuses raise HTTPError. */
  function RaiseForStatus(r: Response): (res: Result<Response, Error>)
    ensures res.Ok? <==> !(400 <= r.status < 600)
    ensures res.Ok? ==> res.value == r
    ensures res.Err? ==> res.error == HttpError(r.status)
  {
    if 400 <= r.status < 600 then Err(HttpError(r.status)) else Ok(r)
  }

  /** `Response.json()`. */
  function ParseJson(r: Response): (res: Result<Json, Error>)
    ensures res.Ok? <==> r.json.Some?
    ensures res.Ok? ==> res.value == r.json.value
    ensures res.Err? ==> res.error == JsonDecodeError
  {
    match r.json
    case Some(j) => Ok(j)
    case None => Err(JsonDecodeError)
  }

  /** A request followed by `raise_for_status()`, the pattern of every call in client.py. */
  function Fetch(s: Snapshot, verb: Verb, subdomain: string, path: string, body: map<string, Json>): (st: Step<Response>)
    ensures st.after.sent == s.sent + [Request(verb, subdomain, path, body, s.headers)]
    ensures st.after.companyId == s.companyId && st.after.headers == s.headers
    ensures st.out.Ok? <==> s.inbox != [] && RaiseForStatus(s.inbox[0]).Ok?
    ensures st.out.Ok? ==> st.out.value == s.inbox[0]
    ensures st.after.inbox == if s.inbox == [] then [] else s.inbox[1..]
  {
    var st := Exchange(s, verb, subdomain, path, body);
    match st.out
    case Err(e) => Step(Err(e), st.after)
    case Ok(r) => Step(RaiseForStatus(r), st.after)
  }

  /** How the server's errorMsg appears in the exception text: a string verbatim, any other
      value as Python's str() renders it. */
  function Text(v: Json, render: Json -> string): string {
    if v.JStr? then v.s else render(v)
  }

  /**
   * The check of the validateUser reply: a truthy `errorCode` raises AuthenticationException
   * carrying `errorMsg`; a missing key or a reply that is not a JSON object raises too.
   */
  function CheckLoginReply(r: Response, render: Json -> string): (res: Result<(), Error>)
    ensures res.Ok? <==>
      r.json.Some? && r.json.value.JObj? && "errorCode" in r.json.value.fields
      && !Truthy(r.json.value.fields["errorCode"])
    ensures (r.json.Some? && r.json.value.JObj? && "errorCode" in r.json.value.fields
             && Truthy(r.json.value.fields["errorCode"]) && "errorMsg" in r.json.value.fields)
      ==> res == Err(AuthenticationError(LoginFailedPrefix + Text(r.json.value.fields["errorMsg"], render)))
  {
    var j :- ParseJson(r);
    var code :- Lookup(j, "errorCode");
    if Truthy(code) then
      var msg :- Lookup(j, "errorMsg");
      Err(AuthenticationError(LoginFailedPrefix + Text(msg, render)))
    else
      Ok(())
  }

  /** `response_data["data"]["moDn"]` after the check that "data" is in the reply. */
  function CompanyIdIn(j: Json): (res: Result<Json, Error>)
    ensures j.JObj? && "data" !in j.fields ==> res == Err(AuthenticationError(NoDataMsg))
    ensures res.Ok? <==>
      j.JObj? && "data" in j.fields && j.fields["data"].JObj? && "moDn" in j.fields["data"].fields
    ensures res.Ok? ==> res.value == j.fields["data"].fields["moDn"]
  {
    match Contains(j, "data")
    case Err(e) => Err(e)
    case Ok(hasData) =>
      if !hasData then Err(AuthenticationError(NoDataMsg))
      else if j.JObj? then Lookup(j.fields["data"], "moDn")
      else Err(TypeError)  // a list or a string holding "data" cannot be subscripted with it
  }

  /**
   * The company id from the company/current reply. A body that does not start with
   * {"data": once stripped means a wrong subdomain; a JSON object without "data" is refused.
   */
  function CompanyIdOf(r: Response): (res: Result<Json, Error>)
    ensures !StartsWith(Strip(r.text), DataPrefix) ==> res == Err(AuthenticationError(WrongSubdomainMsg))
    ensures (StartsWith(Strip(r.text), DataPrefix) && r.json.Some? && r.json.value.JObj?
             && "data" !in r.json.value.fields) ==> res == Err(AuthenticationError(NoDataMsg))
    ensures res.Ok? <==>
      && StartsWith(Strip(r.text), DataPrefix)
      && r.json.Some? && r.json.value.JObj? && "data" in r.json.value.fields
      && r.json.value.fields["data"].JObj? && "moDn" in r.json.value.fields["data"].fields
    ensures res.Ok? ==> res.value == r.json.value.fields["data"].fields["moDn"]
  {
    if !StartsWith(Strip(r.text), DataPrefix) then
      Err(AuthenticationError(WrongSubdomainMsg))
    else
      match r.json
      case None => Err(JsonDecodeError)
      case Some(j) => CompanyIdIn(j)
  }

  /** The CSRF token from the auth/session reply. */
  function CsrfTokenOf(r: Response): (res: Result<Json, Error>)
    ensures res.Ok? <==> r.json.Some? && r.json.value.JObj? && "csrfToken" in r.json.value.fields
    ensures res.Ok? ==> res.value == r.json.value.fields["csrfToken"]
  {
    var j :- ParseJson(r);
    Lookup(j, "csrfToken")
  }

  /** The first login step: POST the credentials to the login subdomain and check the reply. */
  function ValidateUser(s: Snapshot, cfg: Config): (st: Step<()>)
    ensures st.after == Fetch(s, Post, LoginSubdomain(cfg.subdomain), ValidateUserPath, Credentials(cfg)).after
  {
    var r := Fetch(s, Post, LoginSubdomain(cfg.subdomain), ValidateUserPath, Credentials(cfg));
    match r.out
    case Err(e) => Step(Err(e), r.after)
    case Ok(resp) => Step(CheckLoginReply(resp, cfg.render), r.after)
  }

  /** The second login step: fetch company/current and store its id as `_company_id`. */
  function StoreCompanyId(s: Snapshot, cfg: Config): (st: Step<()>)
    ensures st.after.sent == s.sent + [Request(Get, cfg.subdomain, CompanyPath, map[], s.headers)]
    ensures st.after.headers == s.headers
    ensures st.out.Err? ==> st.after.companyId == s.companyId
  {
    var r := Fetch(s, Get, cfg.subdomain, CompanyPath, map[]);
    match r.out
    case Err(e) => Step(Err(e), r.after)
    case Ok(resp) =>
      match CompanyIdOf(resp)
      case Err(e) => Step(Err(e), r.after)
      case Ok(id) => Step(Ok(()), r.after.(companyId := id))
  }

  /** The third login step: fetch auth/session and store its csrfToken as the "roarand" header. */
  function StoreCsrfToken(s: Snapshot, cfg: Config): (st: Step<()>)
    ensures st.after.sent == s.sent + [Request(Get, cfg.subdomain, SessionPath, map[], s.headers)]
    ensures st.after.companyId == s.companyId
    ensures st.out.Err? ==> st.after.headers == s.headers
  {
    var r := Fetch(s, Get, cfg.subdomain, SessionPath, map[]);
    match r.out
    case Err(e) => Step(Err(e), r.after)
    case Ok(resp) =>
      match CsrfTokenOf(resp)
      case Err(e) => Step(Err(e), r.after)
      case Ok(token) => Step(Ok(()), r.after.(headers := r.after.headers[CsrfHeader := token]))
  }

  /**
   * `_login`: the three steps in order; the first failure ends the login, and what an
   * earlier step stored stays stored.
   */
  function LoginSpec(s: Snapshot, cfg: Config): Step<()> {
    var first := ValidateUser(s, cfg);
    if first.out.Err? then first
    else
      var second := StoreCompanyId(first.after, cfg);
      if second.out.Err? then second
      else StoreCsrfToken(second.after, cfg)
  }

  /** The number of requests in `reqs` that went to `path`. */
  function Hits(reqs: seq<Request>, path: string): nat {
    if reqs == [] then 0
    else Hits(reqs[..|reqs| - 1], path) + (if reqs[|reqs| - 1].path == path then 1 else 0)
  }

  lemma {:induction false} HitsAppend(a: seq<Request>, b: seq<Request>, path: string)
    ensures Hits(a + b, path) == Hits(a, path) + Hits(b, path)
  {
    if b == [] {
      assert a + b == a;
    } else {
      assert (a + b)[..|a + b| - 1] == a + b[..|b| - 1];
      HitsAppend(a, b[..|b| - 1], path);
    }
  }

  /** The requests a step issued, when it only appended to the log. */
  function Issued(before: Snapshot, after: Snapshot): seq<Request>
    requires |before.sent| <= |after.sent|
  {
    after.sent[|before.sent|..]
  }

  /** Three steps that each append to the log append their concatenation. */
  lemma AppendSteps(a: seq<Request>, b: seq<Request>, c: seq<Request>, d: seq<Request>,
                    x: seq<Request>, y: seq<Request>, z: seq<Request>)
    requires b == a + x && c == b + y && d == c + z
    ensures d == a + (x + y + z)
  {
  }

  /** Two steps that each append to the log append their concatenation. */
  lemma AppendTwo(a: seq<Request>, b: seq<Request>, c: seq<Request>, x: seq<Request>, y: seq<Request>)
    requires b == a + x && c == b + y
    ensures c == a + (x + y)
  {
  }

  /** The requests one login issues: the credentials POST, then the company and the session
      requests as far as the login gets. */
  lemma LoginRequests(s: Snapshot, cfg: Config) returns (t: seq<Request>)
    ensures LoginSpec(s, cfg).after.sent == s.sent + t
    ensures 1 <= |t| <= 3
    ensures t[0] == Request(Post, LoginSubdomain(cfg.subdomain), ValidateUserPath, Credentials(cfg), s.headers)
    ensures forall k :: 1 <= k < |t| ==> t[k].path in {CompanyPath, SessionPath}
  {
    var first := ValidateUser(s, cfg);
    var r0 := Request(Post, LoginSubdomain(cfg.subdomain), ValidateUserPath, Credentials(cfg), s.headers);
    if first.out.Err? {
      t := [r0];
      return;
    }
    var second := StoreCompanyId(first.after, cfg);
    var r1 := Request(Get, cfg.subdomain, CompanyPath, map[], first.after.headers);
    if second.out.Err? {
      AppendTwo(s.sent, first.after.sent, second.after.sent, [r0], [r1]);
      t := [r0] + [r1];
      return;
    }
    var third := StoreCsrfToken(second.after, cfg);
    var r2 := Request(Get, cfg.subdomain, SessionPath, map[], second.after.headers);
    AppendSteps(s.sent, first.after.sent, second.after.sent, third.after.sent, [r0], [r1], [r2]);
    t := [r0] + [r1] + [r2];
  }

  /** A path no login request goes to. */
  predicate DataPath(path: string) {
    path != ValidateUserPath && path != CompanyPath && path != SessionPath
  }

  lemma {:induction false} HitsNone(reqs: seq<Request>, path: string)
    requires forall k :: 0 <= k < |reqs| ==> reqs[k].path != path
    ensures Hits(reqs, path) == 0
  {
    if reqs != [] {
      HitsNone(reqs[..|reqs| - 1], path);
    }
  }

  lemma HitsOne(req: Request, path: string)
    ensures Hits([req], path) == if req.path == path then 1 else 0
  {
    assert [req][..0] == [];
  }

  /** A login posts the credentials exactly once and touches no data endpoint. */
  lemma LoginHits(s: Snapshot, cfg: Config, path: string) returns (t: seq<Request>)
    requires DataPath(path)
    ensures LoginSpec(s, cfg).after.sent == s.sent + t
    ensures Hits(t, ValidateUserPath) == 1 && Hits(t, path) == 0
  {
    t := LoginRequests(s, cfg);
    CredentialsPostedOnce(t);
    HitsNone(t, path);
  }

  /** A log that grew by `t`, seen from the old log's end. */
  lemma Appended(a: seq<Request>, t: seq<Request>, b: seq<Request>)
    requires b == a + t
    ensures |b| == |a| + |t| && b[..|a|] == a && b[|a|..] == t
    ensures forall k :: 0 <= k < |t| ==> b[|a| + k] == t[k]
  {
  }

  /** A login's requests: the credentials POST, then only company and session requests. */
  lemma CredentialsPostedOnce(t: seq<Request>)
    requires |t| >= 1 && t[0].path == ValidateUserPath
    requires forall k :: 1 <= k < |t| ==> t[k].path in {CompanyPath, SessionPath}
    ensures Hits(t, ValidateUserPath) == 1
  {
    assert t == [t[0]] + t[1..];
    HitsAppend([t[0]], t[1..], ValidateUserPath);
    HitsOne(t[0], ValidateUserPath);
    HitsNone(t[1..], ValidateUserPath);
  }

  /** Only a successful login replaces the "roarand" header, and the company id only changes
      once the third request has gone out. */
  lemma LoginSessionEffects(s: Snapshot, cfg: Config)
    ensures var st := LoginSpec(s, cfg);
      && (st.out.Err? ==> st.after.headers == s.headers)
      && (st.after.companyId != s.companyId ==> |st.after.sent| == |s.sent| + 3)
  {
  }

  /**
   * Every login issues exactly one credentials POST, first, followed by at most two other
   * requests; only a successful login replaces the "roarand" header, and the company id only
   * changes once the third request has been issued.
   */
  lemma LoginTrace(s: Snapshot, cfg: Config)
    ensures var st := LoginSpec(s, cfg);
      && |s.sent| + 1 <= |st.after.sent| <= |s.sent| + 3
      && st.after.sent[..|s.sent|] == s.sent
      && st.after.sent[|s.sent|] == Request(Post, LoginSubdomain(cfg.subdomain), ValidateUserPath, Credentials(cfg), s.headers)
      && Hits(Issued(s, st.after), ValidateUserPath) == 1
      && (st.out.Err? ==> st.after.headers == s.headers)
      && (st.after.companyId != s.companyId ==> |st.after.sent| == |s.sent| + 3)
  {
    var t := LoginRequests(s, cfg);
    Appended(s.sent, t, LoginSpec(s, cfg).after.sent);
    CredentialsPostedOnce(t);
    LoginSessionEffects(s, cfg);
  }

  /** Login succeeds exactly when all three replies pass their checks; it then consumes
      three responses, stores the company id and sets the CSRF header. */
  lemma LoginSucceedsIff(s: Snapshot, cfg: Config)
    ensures var st := LoginSpec(s, cfg);
      st.out.Ok? <==>
        && |s.inbox| >= 3
        && RaiseForStatus(s.inbox[0]).Ok? && CheckLoginReply(s.inbox[0], cfg.render).Ok?
        && RaiseForStatus(s.inbox[1]).Ok? && CompanyIdOf(s.inbox[1]).Ok?
        && RaiseForStatus(s.inbox[2]).Ok? && CsrfTokenOf(s.inbox[2]).Ok?
    ensures var st := LoginSpec(s, cfg);
      st.out.Ok? ==>
        && st.after.inbox == s.inbox[3..]
        && st.after.companyId == CompanyIdOf(s.inbox[1]).value
        && st.after.headers == s.headers[CsrfHeader := CsrfTokenOf(s.inbox[2]).value]
  {
  }

  /** A 4xx or 5xx reply to any of the three login requests ends the login with that
      status's HTTPError, the exception a `logged_in` wrapper further out retries on. */
  lemma LoginHttpError(s: Snapshot, cfg: Config)
    ensures |s.inbox| >= 1 && RaiseForStatus(s.inbox[0]).Err? ==>
      LoginSpec(s, cfg).out == Err(HttpError(s.inbox[0].status))
    ensures (&& |s.inbox| >= 2
             && RaiseForStatus(s.inbox[0]).Ok? && CheckLoginReply(s.inbox[0], cfg.render).Ok?
             && RaiseForStatus(s.inbox[1]).Err?)
      ==> LoginSpec(s, cfg).out == Err(HttpError(s.inbox[1].status))
    ensures (&& |s.inbox| >= 3
             && RaiseForStatus(s.inbox[0]).Ok? && CheckLoginReply(s.inbox[0], cfg.render).Ok?
             && RaiseForStatus(s.inbox[1]).Ok? && CompanyIdOf(s.inbox[1]).Ok?
             && RaiseForStatus(s.inbox[2]).Err?)
      ==> LoginSpec(s, cfg).out == Err(HttpError(s.inbox[2].status))
  {
  }

  /** A reply with a truthy errorCode (or otherwise refused) ends the login after one request:
      the exception carries the server's errorMsg and the session keeps its company id and headers. */
  lemma LoginRejectedKeepsSession(s: Snapshot, cfg: Config)
    requires s.inbox != [] && RaiseForStatus(s.inbox[0]).Ok?
    requires CheckLoginReply(s.inbox[0], cfg.render).Err?
    ensures var st := LoginSpec(s, cfg);
      && st.out == Err(CheckLoginReply(s.inbox[0], cfg.render).error)
      && st.after.companyId == s.companyId && st.after.headers == s.headers
      && st.after.inbox == s.inbox[1..] && |st.after.sent| == |s.sent| + 1
  {
  }

  /** A company reply that is not a {"data": ...} document, or lacks the id, ends the login
      after two requests with the company id and the headers unchanged. */
  lemma LoginWrongSubdomainKeepsSession(s: Snapshot, cfg: Config)
    requires |s.inbox| >= 2 && RaiseForStatus(s.inbox[0]).Ok? && CheckLoginReply(s.inbox[0], cfg.render).Ok?
    requires RaiseForStatus(s.inbox[1]).Ok? && CompanyIdOf(s.inbox[1]).Err?
    ensures var st := LoginSpec(s, cfg);
      && st.out == Err(CompanyIdOf(s.inbox[1]).error)
      && st.after.companyId == s.companyId && st.after.headers == s.headers
      && |st.after.sent| == |s.sent| + 2
  {
  }

  /** A failure of the CSRF step leaves the company id of the second reply stored while the
      "roarand" header keeps its old value: the session is left partly updated. */
  lemma LoginCsrfFailureKeepsCompanyId(s: Snapshot, cfg: Config)
    requires |s.inbox| >= 3
    requires RaiseForStatus(s.inbox[0]).Ok? && CheckLoginReply(s.inbox[0], cfg.render).Ok?
    requires RaiseForStatus(s.inbox[1]).Ok? && CompanyIdOf(s.inbox[1]).Ok?
    requires RaiseForStatus(s.inbox[2]).Err? || CsrfTokenOf(s.inbox[2]).Err?
    ensures var st := LoginSpec(s, cfg);
      && st.out.Err?
      && st.after.companyId == CompanyIdOf(s.inbox[1]).value
      && st.after.headers == s.headers
  {
  }
}
