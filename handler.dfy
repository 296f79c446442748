/**
 * The application's exception handler: which failures are reported, how each
 * kind of failure becomes a JSON error envelope, and the request-context log
 * written for failures nobody expected.
 */
module Handler {
  import opened Wrappers
  import opened Ascii
  import opened PhpValue
  import opened Http
  import opened Throwables
  import opened UuidPattern
  import opened Logger

  const Unauthorized401: int := 401
  const NotFound404: int := 404
  const Unprocessable422: int := 422
  const ServerError500: int := 500

  const UnauthorizedCode: string := "UNAUTHORIZED"
  const InternalServerErrorCode: string := "INTERNAL_SERVER_ERROR"

  /** What the action key and the endpoint context use when the route declares no method. */
  const MissingMethod: string := "-"
  const UnknownMethod: string := "UNKNOWN"
  const DescriptionPrefix: string := "Erro na execução da API "

  /** One entry of the `errors` list of a response. */
  datatype InternalError = InternalError(code: string)

  /** The body of every error response: `DefaultResponse(null, false, $errors, $code)`. */
  datatype Envelope = Envelope(success: bool, data: Value, errors: seq<InternalError>)

  datatype JsonResponse = JsonResponse(status: int, body: Envelope)

  /** What `render` does with a failure: answer it here, or hand it to the framework's own rendering. */
  datatype Outcome = Respond(response: JsonResponse) | Delegate

  /** What `report` does with a failure. */
  datatype ReportDecision = Skip | ReportToFramework

  /** `report`: policy failures are never reported; everything else goes to the framework. */
  function Report(ex: Throwable): (d: ReportDecision)
    ensures d.Skip? <==> ex.kind.Policy?
  {
    if ex.kind.Policy? then Skip else ReportToFramework
  }

  /** `jsonError`: the fixed failure envelope around `errors`, sent with status `code`. */
  function JsonError(code: int, errors: seq<InternalError>): (r: JsonResponse)
    ensures r.status == code
    ensures !r.body.success && r.body.data == Null
    ensures r.body.errors == errors
  {
    JsonResponse(code, Envelope(false, Null, errors))
  }

  // ---------------------------------------------------------------------
  // invalidJson

  /** One error per message, in order. */
  function MessageErrors(messages: seq<string>): (r: seq<InternalError>)
    ensures |r| == |messages|
    ensures forall j :: 0 <= j < |messages| ==> r[j] == InternalError(messages[j])
  {
    seq(|messages|, j requires 0 <= j < |messages| => InternalError(messages[j]))
  }

  /** The messages of all fields, field after field: every error is one of the messages. */
  function Flatten(fields: seq<FieldMessages>): (r: seq<InternalError>)
    ensures forall x :: x in r ==>
              exists i, j :: 0 <= i < |fields| && 0 <= j < |fields[i].messages| && x == InternalError(fields[i].messages[j])
  {
    if fields == [] then []
    else Flatten(fields[..|fields| - 1]) + MessageErrors(fields[|fields| - 1].messages)
  }

  /** How many messages the fields hold together: at least as many as any one field. */
  function TotalMessages(fields: seq<FieldMessages>): (n: nat)
    ensures forall i :: 0 <= i < |fields| ==> |fields[i].messages| <= n
  {
    if fields == [] then 0
    else TotalMessages(fields[..|fields| - 1]) + |fields[|fields| - 1].messages|
  }

  /** One error per message: the flattened list is exactly as long as all messages together. */
  lemma {:induction false} FlattenLength(fields: seq<FieldMessages>)
    ensures |Flatten(fields)| == TotalMessages(fields)
  {
    if fields != [] {
      FlattenLength(fields[..|fields| - 1]);
    }
  }

  /** Where field `i`'s messages start in the flattened list. */
  function Offset(fields: seq<FieldMessages>, i: nat): nat
    requires i <= |fields|
  {
    TotalMessages(fields[..i])
  }

  lemma OffsetStep(fields: seq<FieldMessages>, i: nat)
    requires i < |fields|
    ensures Offset(fields, i + 1) == Offset(fields, i) + |fields[i].messages|
  {
    assert fields[..i + 1][..i] == fields[..i];
  }

  /** Later fields start later: field `i`'s messages all come before field `k`'s. */
  lemma {:induction false} OffsetsOrdered(fields: seq<FieldMessages>, i: nat, k: nat)
    requires i < k <= |fields|
    ensures Offset(fields, i) + |fields[i].messages| <= Offset(fields, k)
    decreases k - i
  {
    OffsetStep(fields, i);
    if i + 1 < k {
      OffsetsOrdered(fields, i + 1, k);
    }
  }

  /**
   * Message `j` of field `i` is the error at position `Offset(fields, i) + j`:
   * errors are ordered by field, then by message within the field.
   */
  lemma {:induction false} FlattenAt(fields: seq<FieldMessages>, i: nat, j: nat)
    requires i < |fields| && j < |fields[i].messages|
    ensures Offset(fields, i) + j < |Flatten(fields)|
    ensures Flatten(fields)[Offset(fields, i) + j] == InternalError(fields[i].messages[j])
  {
    var n := |fields| - 1;
    var init := fields[..n];
    FlattenLength(init);
    assert Offset(fields, n) == TotalMessages(init);
    if i == n {
      assert fields[..i] == init;
    } else {
      assert init[..i] == fields[..i];
      FlattenAt(init, i, j);
    }
  }

  lemma FlattenStep(fields: seq<FieldMessages>, i: nat)
    requires i < |fields|
    ensures Flatten(fields[..i + 1]) == Flatten(fields[..i]) + MessageErrors(fields[i].messages)
  {
    assert fields[..i + 1][..i] == fields[..i];
  }

  lemma MessageErrorsStep(messages: seq<string>, j: nat)
    requires j < |messages|
    ensures MessageErrors(messages[..j + 1]) == MessageErrors(messages[..j]) + [InternalError(messages[j])]
  {
  }

  /** `invalidJson`: every message of every field becomes one error, answered with 422. */
  method InvalidJson(fields: seq<FieldMessages>) returns (r: JsonResponse)
    ensures r == JsonError(Unprocessable422, Flatten(fields))
  {
    var errors: seq<InternalError> := [];
    var i := 0;
    while i < |fields|
      invariant 0 <= i <= |fields|
      invariant errors == Flatten(fields[..i])
    {
      var messages := fields[i].messages;
      var j := 0;
      while j < |messages|
        invariant 0 <= j <= |messages|
        invariant errors == Flatten(fields[..i]) + MessageErrors(messages[..j])
      {
        MessageErrorsStep(messages, j);
        errors := errors + [InternalError(messages[j])];
        j := j + 1;
      }
      assert messages[..j] == messages;
      FlattenStep(fields, i);
      i := i + 1;
    }
    assert fields[..i] == fields;
    r := JsonError(Unprocessable422, errors);
  }

  // ---------------------------------------------------------------------
  // render

  /** A proper subclass of `BaseException`: rendered by the framework. */
  predicate IsDomainSubclass(ex: Throwable) {
    ex.kind.Domain? && !ex.kind.exactBase
  }

  /** A failure that none of render's four first branches catches. */
  predicate Unexpected(ex: Throwable) {
    !ex.kind.RouteNotFound? && !IsDomainSubclass(ex) && !ex.kind.Validation? && !ex.kind.Unauthorized?
  }

  /**
   * The response of render, first matching branch first: only proper
   * subclasses of `BaseException` are left to the framework, and every
   * response render builds itself is a failure without data.
   */
  function RenderOutcome(ex: Throwable): (o: Outcome)
    ensures o.Delegate? <==> IsDomainSubclass(ex)
    ensures o.Respond? ==> !o.response.body.success && o.response.body.data == Null
    ensures o.Respond? ==> o.response.status in {Unauthorized401, NotFound404, Unprocessable422, ServerError500}
  {
    if ex.kind.RouteNotFound? then Respond(JsonError(NotFound404, []))
    else if IsDomainSubclass(ex) then Delegate
    else if ex.kind.Validation? then Respond(JsonError(Unprocessable422, Flatten(ex.kind.fields)))
    else if ex.kind.Unauthorized? then Respond(JsonError(Unauthorized401, [InternalError(UnauthorizedCode)]))
    else Respond(JsonError(ServerError500, [InternalError(InternalServerErrorCode)]))
  }

  /**
   * The classification render performs, branch by branch, in both
   * directions: each status belongs to exactly one kind of failure.
   */
  lemma RenderClassification(ex: Throwable)
    ensures var o := RenderOutcome(ex);
            && (o.Delegate? <==> IsDomainSubclass(ex))
            && (o.Respond? ==> !o.response.body.success && o.response.body.data == Null)
            && (o.Respond? ==> o.response.status in {Unauthorized401, NotFound404, Unprocessable422, ServerError500})
            && (o.Respond? && o.response.status == NotFound404 <==> ex.kind.RouteNotFound?)
            && (ex.kind.RouteNotFound? ==> o.response.body.errors == [])
            && (o.Respond? && o.response.status == Unprocessable422 <==> ex.kind.Validation?)
            && (o.Respond? && o.response.status == Unauthorized401 <==> ex.kind.Unauthorized?)
            && (ex.kind.Unauthorized? ==> o.response.body.errors == [InternalError(UnauthorizedCode)])
            && (o.Respond? && o.response.status == ServerError500 <==> Unexpected(ex))
  {
  }

  /**
   * Nothing of an unexpected failure reaches the client: all of them get the
   * same response, whatever their message, line, file or kind.
   */
  lemma UnexpectedIsOpaque(ex1: Throwable, ex2: Throwable)
    requires Unexpected(ex1) && Unexpected(ex2)
    ensures RenderOutcome(ex1) == RenderOutcome(ex2)
    ensures RenderOutcome(ex1) == Respond(JsonError(ServerError500, [InternalError(InternalServerErrorCode)]))
  {
  }

  // ---------------------------------------------------------------------
  // logWithContext

  /**
   * The action key of a failed request: `REQUEST_<METHOD>_<NORMALISED URI>_ERROR`,
   * with no lower-case letter anywhere.
   */
  function RequestAction(route: Route): (r: string)
    ensures |r| == 8 + |FirstMethodOr(route, MissingMethod)| + 1 + |ApplyUuidRegexPattern(route.uri)| + 6
    ensures r[..8] == "REQUEST_" && r[|r| - 6..] == "_ERROR"
    ensures r[8..|r| - 6] == Upper(FirstMethodOr(route, MissingMethod)) + "_" + Upper(ApplyUuidRegexPattern(route.uri))
    ensures forall i :: 0 <= i < |r| ==> !IsLowerLetter(r[i])
  {
    var m, n := FirstMethodOr(route, MissingMethod), ApplyUuidRegexPattern(route.uri);
    ActionParts(m, n);
    "REQUEST_" + Upper(m + "_" + n) + "_ERROR"
  }

  /** The pieces of an action key built from method `m` and normalised path `n`. */
  lemma ActionParts(m: string, n: string)
    ensures var r := "REQUEST_" + Upper(m + "_" + n) + "_ERROR";
            && |r| == 8 + |m| + 1 + |n| + 6
            && r[..8] == "REQUEST_" && r[|r| - 6..] == "_ERROR"
            && r[8..|r| - 6] == Upper(m) + "_" + Upper(n)
            && forall i :: 0 <= i < |r| ==> !IsLowerLetter(r[i])
  {
    var u := Upper(m + "_" + n);
    var r := "REQUEST_" + u + "_ERROR";
    UpperConcat(m + "_", n);
    UpperConcat(m, "_");
    assert r[8..|r| - 6] == u;
    forall i | 0 <= i < |r| ensures !IsLowerLetter(r[i]) {
      if 8 <= i < |r| - 6 {
        assert r[i] == u[i - 8];
      }
    }
  }

  /**
   * The description of a failed request: the fixed prefix, the method and
   * the route's uri as written, without normalisation.
   */
  function RequestDescription(route: Route): (r: string)
    ensures |r| == |DescriptionPrefix| + |FirstMethodOr(route, MissingMethod)| + 1 + |route.uri|
    ensures r[..|DescriptionPrefix|] == DescriptionPrefix
    ensures r[|DescriptionPrefix|..|DescriptionPrefix| + |FirstMethodOr(route, MissingMethod)| + 1]
            == FirstMethodOr(route, MissingMethod) + " "
    ensures r[|r| - |route.uri|..] == route.uri
  {
    DescriptionPrefix + FirstMethodOr(route, MissingMethod) + " " + route.uri
  }

  /** The request context logged with the failure: endpoint, query and body, and the time. */
  function RequestContext(route: Route, request: HttpRequest, now: int): (v: Value)
    ensures v.Arr? && Keys(v.entries) == [StrKey("endpoint"), StrKey("request"), StrKey("request_time")]
    ensures Get(v.entries, StrKey("endpoint"))
            == Some(Arr([Entry(StrKey("method"), Str(FirstMethodOr(route, UnknownMethod))), Entry(StrKey("url"), Str(request.url))]))
    ensures Get(v.entries, StrKey("request"))
            == Some(Arr([Entry(StrKey("query"), request.query), Entry(StrKey("body"), request.body)]))
    ensures Get(v.entries, StrKey("request_time")) == Some(Time(now))
  {
    var endpoint := Arr([Entry(StrKey("method"), Str(FirstMethodOr(route, UnknownMethod))), Entry(StrKey("url"), Str(request.url))]);
    var req := Arr([Entry(StrKey("query"), request.query), Entry(StrKey("body"), request.body)]);
    var e, q, t := Entry(StrKey("endpoint"), endpoint), Entry(StrKey("request"), req), Entry(StrKey("request_time"), Time(now));
    assert |"endpoint"| != |"request"| && |"endpoint"| != |"request_time"| && |"request"| != |"request_time"|;
    GetOfTriple(e, q, t);
    Arr([e, q, t])
  }

  /** The createLog call of `logWithContext`, if the request has a route. */
  function ContextLogArgs(ex: Throwable, env: LogEnv): (a: Option<LogArgs>)
    ensures a.Some? <==> env.request.route.Some?
    ensures a.Some? ==> a.value.error == Some(ex) && a.value.logLevel == DefaultLevel
    ensures a.Some? ==> var route := env.request.route.value;
              && a.value.value == RequestContext(route, env.request, env.now)
              && a.value.action == RequestAction(route)
              && a.value.description == RequestDescription(route)
  {
    match env.request.route
    case None => None
    case Some(route) =>
      Some(DefaultArgs(RequestDescription(route), RequestAction(route), RequestContext(route, env.request, env.now), Some(ex)))
  }

  /** The records `logWithContext` adds to `sink`. */
  function ContextEmitted(sink: LogSink, ex: Throwable, env: LogEnv): seq<LogRecord> {
    match ContextLogArgs(ex, env)
    case None => []
    case Some(args) => Emitted(sink, args, env)
  }

  /** `logWithContext`: nothing without a route, otherwise exactly one createLog. */
  method LogWithContext(sink: LogSink, ex: Throwable, env: LogEnv)
    modifies sink
    ensures sink.records == old(sink.records) + ContextEmitted(sink, ex, env)
    ensures env.identity.LookupRaises? ==> sink.records == old(sink.records)
  {
    var route := env.request.route;
    if route.None? {
      return;
    }
    var r := route.value;
    var context := RequestContext(r, env.request, env.now);
    var _ := CreateLog(sink, DefaultArgs(RequestDescription(r), RequestAction(r), context, Some(ex)), env);
  }

  /**
   * With a route, an identity lookup that returns and a working sink, the
   * failure is logged exactly once, at debug level, with the request action,
   * and with the request context followed by the failure under `error` as
   * its value.
   */
  lemma ContextLogged(sink: LogSink, ex: Throwable, env: LogEnv)
    requires env.request.route.Some? && env.identity.Found? && !sink.failing
    ensures var sent := ContextEmitted(sink, ex, env);
            var route := env.request.route.value;
            && |sent| == 1
            && sent[0].channel == LogChannel && sent[0].level == DefaultLevel
            && sent[0].context.action == RequestAction(route)
            && sent[0].context.description == RequestDescription(route)
            && Get(sent[0].context.value.entries, ErrorKey) == Some(BeautifyException(ex))
            && Get(sent[0].context.value.entries, StrKey("endpoint"))
               == Some(Arr([Entry(StrKey("method"), Str(FirstMethodOr(route, UnknownMethod))), Entry(StrKey("url"), Str(env.request.url))]))
            && Get(sent[0].context.value.entries, StrKey("request_time")) == Some(Time(env.now))
            && sent[0].context.value
               == Arr(RequestContext(route, env.request, env.now).entries + [Entry(ErrorKey, BeautifyException(ex))])
  {
    var route := env.request.route.value;
    var args := ContextArgsOf(ex, env, route);
    DefaultLevelIsSeverity();
    var sent := Emitted(sink, args, env);
    assert |sent| == 1;
    assert sent[0].context == BuildContext(args, env, env.identity.user);
    ContextLacksError(route, env.request, env.now);
  }

  /** The request context has no `error` key, so the failure is appended after it. */
  lemma ContextLacksError(route: Route, request: HttpRequest, now: int)
    ensures ErrorKey !in Keys(RequestContext(route, request, now).entries)
  {
    assert |"error"| !in {|"endpoint"|, |"request"|, |"request_time"|};
  }

  lemma ContextArgsOf(ex: Throwable, env: LogEnv, route: Route) returns (args: LogArgs)
    requires env.request.route == Some(route)
    ensures ContextLogArgs(ex, env) == Some(args)
    ensures args == DefaultArgs(RequestDescription(route), RequestAction(route), RequestContext(route, env.request, env.now), Some(ex))
  {
    args := DefaultArgs(RequestDescription(route), RequestAction(route), RequestContext(route, env.request, env.now), Some(ex));
  }

  /**
   * The handler class defines no `getUserFromJwt`, so the lookup inside
   * createLog raises, createLog returns its failed result, and logWithContext
   * drops it: nothing is logged, route or not.
   */
  lemma HandlerLogsNothing(sink: LogSink, ex: Throwable, env: LogEnv)
    requires env.identity.LookupRaises?
    ensures ContextEmitted(sink, ex, env) == []
  {
    match ContextLogArgs(ex, env)
    case None =>
    case Some(args) =>
      assert Emitted(sink, args, env) == [];
  }

  /** Without a route nothing is logged. */
  lemma NoRouteNoLog(sink: LogSink, ex: Throwable, env: LogEnv)
    requires env.request.route.None?
    ensures ContextEmitted(sink, ex, env) == []
  {
  }

  /**
   * Routes that differ only in the UUID of one segment, with or without
   * hyphens, share one action key.
   */
  lemma ActionIgnoresUuid(methods: seq<string>, p: string, q: string,
                          hex1: string, dashes1: seq<bool>, hex2: string, dashes2: seq<bool>)
    requires |hex1| == 32 && AllHex(hex1) && |dashes1| == 4
    requires |hex2| == 32 && AllHex(hex2) && |dashes2| == 4
    ensures RequestAction(Route(methods, p + "/" + UuidText(hex1, dashes1) + q))
         == RequestAction(Route(methods, p + "/" + UuidText(hex2, dashes2) + q))
  {
    UuidSegmentNormalized(p, hex1, dashes1, q);
    UuidSegmentNormalized(p, hex2, dashes2, q);
  }

  /**
   * `render`: answers as RenderOutcome says, and logs the request context
   * exactly when the failure is unexpected. The debug dump is not modelled
   * (debug off).
   */
  method Render(sink: LogSink, ex: Throwable, env: LogEnv) returns (out: Outcome)
    modifies sink
    ensures out == RenderOutcome(ex)
    ensures sink.records == old(sink.records) + (if Unexpected(ex) then ContextEmitted(sink, ex, env) else [])
    ensures env.identity.LookupRaises? ==> sink.records == old(sink.records)
  {
    if ex.kind.RouteNotFound? {
      return Respond(JsonError(NotFound404, []));
    }
    if ex.kind.Domain? && !ex.kind.exactBase {
      return Delegate;
    }
    if ex.kind.Validation? {
      var response := InvalidJson(ex.kind.fields);
      return Respond(response);
    }
    if ex.kind.Unauthorized? {
      return Respond(JsonError(Unauthorized401, [InternalError(UnauthorizedCode)]));
    }
    LogWithContext(sink, ex, env);
    return Respond(JsonError(ServerError500, [InternalError(InternalServerErrorCode)]));
  }

  /**
   * The generic failure that `defaultErrorHandling` throws for a non-domain
   * failure is exactly a `BaseException`, so render tries to log it and
   * answers 500; its code `UNKNOW_ERROR_TRY_AGAIN` never reaches the client
   * through render.
   */
  lemma HandledErrorRendersAs500(ex: Throwable)
    requires !IsBaseException(ex)
    ensures Unexpected(HandledError(ex))
    ensures Report(HandledError(ex)) == ReportToFramework
    ensures RenderOutcome(HandledError(ex)) == Respond(JsonError(ServerError500, [InternalError(InternalServerErrorCode)]))
  {
  }
}
