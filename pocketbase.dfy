/** The HTTP half of the PocketBase service: the cached admin token, the
    two authentication endpoints tried in order, the request that retries
    once with a new token after 401 or 403, and the task operations built
    on it. The network is a parameter: `Network` says what each endpoint
    answers to the n-th call of the session. */
module PocketBase {
  import opened JsonValue
  import opened Models
  import opened TaskRecords

  /** What an HTTP exchange ends with: a value, an `HTTPStatusError`
      carrying the status, or any other exception (connection failure,
      AttributeError, validation error, ...). */
  datatype HttpOutcome<+T> = Done(value: T) | StatusError(status: int) | OtherError

  /** One HTTP call made by the client, in the order made. */
  datatype Call =
    | AuthCall(endpoint: string)
    | DataCall(verb: string, url: string, body: Option<Json>)

  /** The reply to an authentication POST; `body` is the decoded JSON. */
  datatype AuthReply = AuthUnreachable | AuthResponse(status: int, body: Json)

  /** The reply to a data request; `content` is absent when the body is empty. */
  datatype DataReply = DataUnreachable | DataResponse(status: int, content: Option<Json>)

  /** The server: the reply to the call made when `n` calls have already
      been made; a data request also depends on the bearer token sent. */
  datatype Network = Network(auth: (nat, string) -> AuthReply, data: (nat, Call, Json) -> DataReply)

  /** The outcome of a sequence of calls, the token left behind and the
      calls made. */
  datatype Exchange<+T> = Exchange(outcome: HttpOutcome<T>, token: Json, calls: seq<Call>)

  const Collection: string := "infographic_tasks"

  /** `raise_for_status` lets 2xx through and raises on everything else. */
  predicate IsSuccess(status: int)
  {
    200 <= status < 300
  }

  /** The v0.23+ endpoint first, then the older admin endpoint. */
  function AuthEndpoints(baseUrl: string): (r: seq<string>)
    ensures |r| == 2
    ensures r[0] == baseUrl + "/api/collections/_superusers/auth-with-password"
    ensures r[1] == baseUrl + "/api/admins/auth-with-password"
  {
    [baseUrl + "/api/collections/_superusers/auth-with-password",
     baseUrl + "/api/admins/auth-with-password"]
  }

  function RecordsUrl(baseUrl: string): string
  {
    baseUrl + "/api/collections/" + Collection + "/records"
  }

  function Prepend<T>(calls: seq<Call>, e: Exchange<T>): (r: Exchange<T>)
    ensures r.outcome == e.outcome && r.token == e.token && r.calls == calls + e.calls
  {
    Exchange(e.outcome, e.token, calls + e.calls)
  }

  // ----- authentication -----

  /** The endpoint loop from position `i` on, `at` calls into the session:
      the first 200 wins and stores `data.get("token")`; when none answers
      200, the status of the last reply decides between raising and `""`. */
  function TryFrom(endpoints: seq<string>, net: Network, at: nat, token: Json, i: nat, lastStatus: int): (r: Exchange<Json>)
    requires i <= |endpoints|
    decreases |endpoints| - i
  {
    if i == |endpoints| then
      Exchange(if IsSuccess(lastStatus) then Done(JStr("")) else StatusError(lastStatus), token, [])
    else
      var call := AuthCall(endpoints[i]);
      match net.auth(at, endpoints[i])
      case AuthUnreachable => Exchange(OtherError, token, [call])
      case AuthResponse(status, body) =>
        if status == 200 then
          if body.JObj? then
            var issued := if "token" in body.fields then body.fields["token"] else JNull;
            Exchange(Done(issued), issued, [call])
          else Exchange(OtherError, token, [call])
        else Prepend([call], TryFrom(endpoints, net, at + 1, token, i + 1, status))
  }

  /** `_get_auth_token`: a truthy cached token is returned without a call. */
  function AuthSpec(baseUrl: string, net: Network, at: nat, token: Json): Exchange<Json>
  {
    if Truthy(token) then Exchange(Done(token), token, [])
    else TryFrom(AuthEndpoints(baseUrl), net, at, token, 0, 0)
  }

  /** `raise_for_status()` then `response.json() if response.content else {}`. */
  function Finish(reply: DataReply, token: Json, calls: seq<Call>): (r: Exchange<Json>)
    ensures r.token == token && r.calls == calls
    ensures r.outcome.Done? <==> reply.DataResponse? && IsSuccess(reply.status)
    ensures reply.DataResponse? && !IsSuccess(reply.status) ==> r.outcome == StatusError(reply.status)
  {
    match reply
    case DataUnreachable => Exchange(OtherError, token, calls)
    case DataResponse(status, content) =>
      if !IsSuccess(status) then Exchange(StatusError(status), token, calls)
      else Exchange(Done(if content.Some? then content.value else EmptyObject), token, calls)
  }

  /** `_request`: authenticate, send, and on 401 or 403 forget the token,
      authenticate again and send once more. */
  function RequestSpec(baseUrl: string, net: Network, at: nat, token: Json, call: Call): Exchange<Json>
  {
    var first := AuthSpec(baseUrl, net, at, token);
    if !first.outcome.Done? then first
    else
      var at1 := at + |first.calls|;
      var sent := first.calls + [call];
      var reply := net.data(at1, call, first.outcome.value);
      if reply.DataResponse? && reply.status in {401, 403} then
        var second := AuthSpec(baseUrl, net, at1 + 1, JNull);
        if !second.outcome.Done? then Prepend(sent, second)
        else
          var at2 := at1 + 1 + |second.calls|;
          Finish(net.data(at2, call, second.outcome.value), second.token, sent + second.calls + [call])
      else Finish(reply, first.token, sent)
  }

  // ----- the task operations, after the request -----

  /** `items[0]` of a truthy `items`. */
  function FirstOf(items: Json): Outcome<Json>
  {
    match items
    case JArr(xs) => if |xs| > 0 then Ok(xs[0]) else Raised
    case JStr(s) => if |s| > 0 then Ok(JStr([s[0]])) else Raised
    case _ => Raised
  }

  /** `get_task_by_url` after the request: the first listed record, newest
      first; an `HTTPStatusError` is caught as "no task". */
  function ByUrlResult(reply: HttpOutcome<Json>): (r: HttpOutcome<Option<Task>>)
    ensures reply.StatusError? ==> r == Done(None)
    ensures reply.OtherError? ==> r.OtherError?
    ensures reply.Done? && HasKey(reply.value, "items") && reply.value.fields["items"].JArr?
            && |reply.value.fields["items"].items| > 0
            ==> (r.Done? <==> ParseTask(reply.value.fields["items"].items[0]).Ok?)
    ensures r.Done? && r.value.Some? ==> reply.Done? && HasKey(reply.value, "items")
  {
    match reply
    case StatusError(_) => Done(None)
    case OtherError => OtherError
    case Done(response) =>
      match GetOr(response, "items", JArr([]))
      case Raised => OtherError
      case Ok(items) =>
        if !Truthy(items) then Done(None)
        else
          match FirstOf(items)
          case Raised => OtherError
          case Ok(first) =>
            match ParseTask(first)
            case Raised => OtherError
            case Ok(t) => Done(Some(t))
  }

  /** `get_task_by_id` after the request. */
  function ByIdResult(reply: HttpOutcome<Json>): (r: HttpOutcome<Option<Task>>)
    ensures reply.StatusError? ==> r == Done(None)
    ensures reply.Done? ==> (r.Done? <==> ParseTask(reply.value).Ok?)
    ensures r.Done? && r.value.Some? ==> reply.Done? && ParseTask(reply.value) == Ok(r.value.value)
    ensures reply.OtherError? ==> r.OtherError?
  {
    match reply
    case StatusError(_) => Done(None)
    case OtherError => OtherError
    case Done(response) =>
      match ParseTask(response)
      case Raised => OtherError
      case Ok(t) => Done(Some(t))
  }

  /** `create_task` / `update_task_status` after the request: errors propagate. */
  function ParsedResult(reply: HttpOutcome<Json>): (r: HttpOutcome<Task>)
    ensures r.StatusError? <==> reply.StatusError?
    ensures r.Done? <==> reply.Done? && ParseTask(reply.value).Ok?
    ensures r.Done? ==> ParseTask(reply.value) == Ok(r.value)
  {
    match reply
    case StatusError(s) => StatusError(s)
    case OtherError => OtherError
    case Done(response) =>
      match ParseTask(response)
      case Raised => OtherError
      case Ok(t) => Done(t)
  }

  /** `delete_task` after the request: an `HTTPStatusError` means false. */
  function DeleteResult(reply: HttpOutcome<Json>): (r: HttpOutcome<bool>)
    ensures reply.Done? <==> r == Done(true)
    ensures reply.StatusError? <==> r == Done(false)
    ensures reply.OtherError? <==> r.OtherError?
  {
    match reply
    case StatusError(_) => Done(false)
    case OtherError => OtherError
    case Done(_) => Done(true)
  }

  // ----- the service object -----

  class PocketBaseService {
    const baseUrl: string
    /** `self._token`; `JNull` is `None`. */
    var token: Json
    /** Every HTTP call made so far, in order. */
    var log: seq<Call>

    constructor(baseUrl: string)
      ensures this.baseUrl == baseUrl && token == JNull && log == []
    {
      this.baseUrl := baseUrl;
      token := JNull;
      log := [];
    }

    method GetAuthToken(net: Network) returns (r: HttpOutcome<Json>)
      modifies this
      ensures var e := AuthSpec(baseUrl, net, |old(log)|, old(token));
        r == e.outcome && token == e.token && log == old(log) + e.calls
    {
      if Truthy(token) {
        return Done(token);
      }
      var endpoints := AuthEndpoints(baseUrl);
      ghost var at0 := |log|;
      ghost var log0 := log;
      var i := 0;
      var lastStatus := 0;
      while i < |endpoints|
        invariant 0 <= i <= |endpoints| && |log| == at0 + i && log[..at0] == log0
        invariant token == old(token)
        invariant AuthSpec(baseUrl, net, at0, old(token))
                  == Prepend(log[at0..], TryFrom(endpoints, net, at0 + i, old(token), i, lastStatus))
      {
        var reply := net.auth(|log|, endpoints[i]);
        ghost var before := log[at0..];
        log := log + [AuthCall(endpoints[i])];
        assert log[at0..] == before + [AuthCall(endpoints[i])];
        match reply {
          case AuthUnreachable =>
            return OtherError;
          case AuthResponse(status, body) =>
            if status == 200 {
              if !body.JObj? {
                return OtherError;
              }
              token := if "token" in body.fields then body.fields["token"] else JNull;
              return Done(token);
            }
            lastStatus := status;
        }
        i := i + 1;
      }
      assert log == old(log) + log[at0..];
      r := if IsSuccess(lastStatus) then Done(JStr("")) else StatusError(lastStatus);
    }

    /** `_request`: the retried request of the source. */
    method Request(net: Network, call: Call) returns (r: HttpOutcome<Json>)
      modifies this
      ensures var e := RequestSpec(baseUrl, net, |old(log)|, old(token), call);
        r == e.outcome && token == e.token && log == old(log) + e.calls
    {
      ghost var log0, at0, token0 := log, |log|, token;
      var headers := GetAuthToken(net);
      ghost var first := AuthSpec(baseUrl, net, at0, token0);
      if !headers.Done? {
        return headers;
      }
      var reply := net.data(|log|, call, headers.value);
      log := log + [call];
      ghost var sent := first.calls + [call];
      assert log == log0 + sent;
      if reply.DataResponse? && reply.status in {401, 403} {
        token := JNull;
        ghost var at1 := |log|;
        headers := GetAuthToken(net);
        ghost var second := AuthSpec(baseUrl, net, at1, JNull);
        if !headers.Done? {
          assert log == log0 + (sent + second.calls);
          return headers;
        }
        reply := net.data(|log|, call, headers.value);
        log := log + [call];
        assert log == log0 + (sent + second.calls + [call]);
      }
      r := Finish(reply, token, []).outcome;
    }

    method GetTaskByUrl(net: Network, url: string) returns (r: HttpOutcome<Option<Task>>)
      modifies this
      ensures var e := RequestSpec(baseUrl, net, |old(log)|, old(token), ByUrlCall(baseUrl, url));
        r == ByUrlResult(e.outcome) && token == e.token && log == old(log) + e.calls
    {
      var reply := Request(net, ByUrlCall(baseUrl, url));
      r := ByUrlResult(reply);
    }

    method GetTaskById(net: Network, id: string) returns (r: HttpOutcome<Option<Task>>)
      modifies this
      ensures var e := RequestSpec(baseUrl, net, |old(log)|, old(token), DataCall("GET", RecordsUrl(baseUrl) + "/" + id, None));
        r == ByIdResult(e.outcome) && token == e.token && log == old(log) + e.calls
    {
      var reply := Request(net, DataCall("GET", RecordsUrl(baseUrl) + "/" + id, None));
      r := ByIdResult(reply);
    }

    method CreateTask(net: Network, url: string) returns (r: HttpOutcome<Task>)
      modifies this
      ensures var e := RequestSpec(baseUrl, net, |old(log)|, old(token), DataCall("POST", RecordsUrl(baseUrl), Some(CreateBody(url))));
        r == ParsedResult(e.outcome) && token == e.token && log == old(log) + e.calls
    {
      var reply := Request(net, DataCall("POST", RecordsUrl(baseUrl), Some(CreateBody(url))));
      r := ParsedResult(reply);
    }

    method UpdateTaskStatus(net: Network, id: string, status: TaskStatus, result: Option<ArticleData>, error: Option<string>)
      returns (r: HttpOutcome<Task>)
      modifies this
      ensures var e := RequestSpec(baseUrl, net, |old(log)|, old(token),
                                   DataCall("PATCH", RecordsUrl(baseUrl) + "/" + id, Some(UpdateBody(status, result, error))));
        r == ParsedResult(e.outcome) && token == e.token && log == old(log) + e.calls
    {
      var reply := Request(net, DataCall("PATCH", RecordsUrl(baseUrl) + "/" + id, Some(UpdateBody(status, result, error))));
      r := ParsedResult(reply);
    }

    method DeleteTask(net: Network, id: string) returns (r: HttpOutcome<bool>)
      modifies this
      ensures var e := RequestSpec(baseUrl, net, |old(log)|, old(token), DataCall("DELETE", RecordsUrl(baseUrl) + "/" + id, None));
        r == DeleteResult(e.outcome) && token == e.token && log == old(log) + e.calls
    {
      var reply := Request(net, DataCall("DELETE", RecordsUrl(baseUrl) + "/" + id, None));
      r := DeleteResult(reply);
    }
  }

  /** The listing request of `get_task_by_url`: records with this URL,
      newest first. */
  function ByUrlCall(baseUrl: string, url: string): Call
  {
    DataCall("GET", RecordsUrl(baseUrl) + "?filter=url=\"" + url + "\"&sort=-created", None)
  }

  // ----- properties -----

  /** The number of data requests among some calls. */
  function DataCount(calls: seq<Call>): nat
  {
    if calls == [] then 0
    else (if calls[0].DataCall? then 1 else 0) + DataCount(calls[1..])
  }

  lemma {:induction false} DataCountAppend(a: seq<Call>, b: seq<Call>)
    ensures DataCount(a + b) == DataCount(a) + DataCount(b)
    decreases |a|
  {
    if a != [] {
      assert (a + b)[0] == a[0];
      assert (a + b)[1..] == a[1..] + b;
      DataCountAppend(a[1..], b);
    } else {
      assert a + b == b;
    }
  }

  /** Calls that are all authentications contain no data request. */
  lemma {:induction false} NoDataCalls(calls: seq<Call>)
    requires forall k :: 0 <= k < |calls| ==> calls[k].AuthCall?
    ensures DataCount(calls) == 0
    decreases |calls|
  {
    if calls != [] {
      NoDataCalls(calls[1..]);
    }
  }

  /** The endpoint loop only authenticates: it calls the endpoints in
      order, each at most once, never more than there are. */
  lemma {:induction false} TryFromCalls(endpoints: seq<string>, net: Network, at: nat, token: Json, i: nat, lastStatus: int)
    requires i <= |endpoints|
    ensures var e := TryFrom(endpoints, net, at, token, i, lastStatus);
      && |e.calls| <= |endpoints| - i
      && (forall k :: 0 <= k < |e.calls| ==> e.calls[k] == AuthCall(endpoints[i + k]))
    decreases |endpoints| - i
  {
    if i < |endpoints| {
      match net.auth(at, endpoints[i]) {
        case AuthUnreachable =>
        case AuthResponse(status, body) =>
          if status != 200 {
            TryFromCalls(endpoints, net, at + 1, token, i + 1, status);
          }
      }
    }
  }

  /** A truthy cached token is used as it is, without calling anyone. */
  lemma CachedTokenReused(baseUrl: string, net: Network, at: nat, token: Json)
    requires Truthy(token)
    ensures AuthSpec(baseUrl, net, at, token) == Exchange(Done(token), token, [])
  {
  }

  /** Without a token, authentication tries the endpoints in order, at most
      the two of them, and sends no data request. */
  lemma AuthCallsInOrder(baseUrl: string, net: Network, at: nat, token: Json)
    ensures var e := AuthSpec(baseUrl, net, at, token);
      && |e.calls| <= 2
      && (forall k :: 0 <= k < |e.calls| ==> e.calls[k] == AuthCall(AuthEndpoints(baseUrl)[k]))
      && DataCount(e.calls) == 0
  {
    if !Truthy(token) {
      TryFromCalls(AuthEndpoints(baseUrl), net, at, token, 0, 0);
    }
    NoDataCalls(AuthSpec(baseUrl, net, at, token).calls);
  }

  /** The first endpoint to answer 200 with a dict provides the token, which
      is cached; the older endpoint is tried only after the newer one
      answered something else. */
  lemma FirstSuccessWins(baseUrl: string, net: Network, at: nat, token: Json, body: Json)
    requires !Truthy(token)
    requires net.auth(at, AuthEndpoints(baseUrl)[0]) == AuthResponse(200, body) && body.JObj?
    ensures var issued := if "token" in body.fields then body.fields["token"] else JNull;
      AuthSpec(baseUrl, net, at, token) == Exchange(Done(issued), issued, [AuthCall(AuthEndpoints(baseUrl)[0])])
  {
  }

  lemma FallbackToOlderEndpoint(baseUrl: string, net: Network, at: nat, token: Json, status: int, body: Json)
    requires !Truthy(token) && status != 200
    requires net.auth(at, AuthEndpoints(baseUrl)[0]).AuthResponse?
    requires net.auth(at, AuthEndpoints(baseUrl)[0]).status == status
    requires net.auth(at + 1, AuthEndpoints(baseUrl)[1]) == AuthResponse(200, body) && body.JObj?
    ensures var e := AuthSpec(baseUrl, net, at, token);
      var issued := if "token" in body.fields then body.fields["token"] else JNull;
      e == Exchange(Done(issued), issued, [AuthCall(AuthEndpoints(baseUrl)[0]), AuthCall(AuthEndpoints(baseUrl)[1])])
  {
    var endpoints := AuthEndpoints(baseUrl);
    var issued := if "token" in body.fields then body.fields["token"] else JNull;
    assert TryFrom(endpoints, net, at + 1, token, 1, status) == Exchange(Done(issued), issued, [AuthCall(endpoints[1])]);
  }

  /** When neither endpoint answers 200 the last reply's status decides:
      an error status raises, a non-200 success yields the empty token. */
  lemma AllEndpointsFail(baseUrl: string, net: Network, at: nat, token: Json, s0: int, b0: Json, s1: int, b1: Json)
    requires !Truthy(token) && s0 != 200 && s1 != 200
    requires net.auth(at, AuthEndpoints(baseUrl)[0]) == AuthResponse(s0, b0)
    requires net.auth(at + 1, AuthEndpoints(baseUrl)[1]) == AuthResponse(s1, b1)
    ensures AuthSpec(baseUrl, net, at, token).outcome == (if IsSuccess(s1) then Done(JStr("")) else StatusError(s1))
    ensures AuthSpec(baseUrl, net, at, token).token == token
  {
    var endpoints := AuthEndpoints(baseUrl);
    var last := TryFrom(endpoints, net, at + 2, token, 2, s1);
    assert TryFrom(endpoints, net, at + 1, token, 1, s0) == Prepend([AuthCall(endpoints[1])], last);
  }

  /** A request sends the data request at most twice, and twice only when
      the first reply was 401 or 403. */
  lemma {:induction false} AtMostOneRetry(baseUrl: string, net: Network, at: nat, token: Json, call: Call)
    requires call.DataCall?
    ensures var e := RequestSpec(baseUrl, net, at, token, call);
      DataCount(e.calls) <= 2
    ensures var e := RequestSpec(baseUrl, net, at, token, call);
      var a := AuthSpec(baseUrl, net, at, token);
      DataCount(e.calls) == 2 ==>
        && a.outcome.Done?
        && net.data(at + |a.calls|, call, a.outcome.value).DataResponse?
        && net.data(at + |a.calls|, call, a.outcome.value).status in {401, 403}
  {
    var first := AuthSpec(baseUrl, net, at, token);
    AuthCallsInOrder(baseUrl, net, at, token);
    var e := RequestSpec(baseUrl, net, at, token, call);
    if first.outcome.Done? {
      var at1 := at + |first.calls|;
      var sent := first.calls + [call];
      DataCountAppend(first.calls, [call]);
      assert DataCount([call]) == 1;
      var reply := net.data(at1, call, first.outcome.value);
      if reply.DataResponse? && reply.status in {401, 403} {
        var second := AuthSpec(baseUrl, net, at1 + 1, JNull);
        AuthCallsInOrder(baseUrl, net, at1 + 1, JNull);
        DataCountAppend(sent, second.calls);
        DataCountAppend(sent + second.calls, [call]);
      }
    }
  }

  /** With a cached token and a first reply that is neither 401 nor 403,
      exactly one call is made; the outcome is that reply's body when its
      status is 2xx and an `HTTPStatusError` otherwise. */
  lemma CachedTokenSingleCall(baseUrl: string, net: Network, at: nat, token: Json, call: Call, status: int, content: Option<Json>)
    requires Truthy(token)
    requires net.data(at, call, token) == DataResponse(status, content) && status !in {401, 403}
    ensures var e := RequestSpec(baseUrl, net, at, token, call);
      && e.calls == [call] && e.token == token
      && e.outcome == (if IsSuccess(status) then Done(if content.Some? then content.value else EmptyObject)
                       else StatusError(status))
  {
  }

  /** After a 401 or 403 the token is forgotten and the endpoints are asked
      again before the single retry. */
  lemma {:induction false} RetryReauthenticates(baseUrl: string, net: Network, at: nat, token: Json, call: Call)
    requires Truthy(token)
    requires net.data(at, call, token).DataResponse? && net.data(at, call, token).status in {401, 403}
    ensures var e := RequestSpec(baseUrl, net, at, token, call);
      && |e.calls| >= 2 && e.calls[0] == call
      && e.calls[1] == AuthCall(AuthEndpoints(baseUrl)[0])
  {
    var second := AuthSpec(baseUrl, net, at + 1, JNull);
    var e := RequestSpec(baseUrl, net, at, token, call);
    assert second.calls != [] && second.calls[0] == AuthCall(AuthEndpoints(baseUrl)[0]) by {
      var endpoints := AuthEndpoints(baseUrl);
      assert second == TryFrom(endpoints, net, at + 1, JNull, 0, 0);
    }
    assert e.calls[..2] == [call, second.calls[0]] || e.calls[1] == second.calls[0];
  }

  /** Every outcome of a request that is not an exception came from a 2xx
      reply. */
  lemma {:induction false} DoneMeansSuccess(baseUrl: string, net: Network, at: nat, token: Json, call: Call)
    requires RequestSpec(baseUrl, net, at, token, call).outcome.Done?
    ensures var a := AuthSpec(baseUrl, net, at, token);
      && a.outcome.Done?
      && var reply := net.data(at + |a.calls|, call, a.outcome.value);
      && reply.DataResponse?
      && (IsSuccess(reply.status) || reply.status in {401, 403})
  {
  }
}
