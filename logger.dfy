/**
 * The `Logger` trait: the structured log record that `createLog` assembles
 * and sends to the `log_service` channel, and `defaultErrorHandling`, which
 * turns any non-domain failure into one logged, generic domain failure.
 *
 * What the PHP code reads from globals (a fresh UUID, the clock, the user in
 * the JWT, the current request) arrives here in a LogEnv value; the log
 * channel is a LogSink object whose list of records grows as logs are sent.
 */
module Logger {
  import opened Wrappers
  import opened Ascii
  import opened PhpValue
  import opened Throwables
  import opened Http

  const LogChannel: string := "log_service"
  const SuccessMessage: string := "Log feito com sucesso"
  const FailureMessage: string := "Falha ao enviar Log"
  const DefaultLevel: string := "debug"
  const DefaultType: string := "server"
  const UnknownErrorCode: string := "UNKNOW_ERROR_TRY_AGAIN"
  const UnknownCaller: string := "unknown_method"
  /** The level `defaultErrorHandling` logs at when its caller gives none. */
  const DefaultErrorLevel: string := "error"
  const ErrorKey: Key := StrKey("error")

  /**
   * Where `defaultErrorHandling` creates its generic failure. `getFile()`
   * gives an absolute path; this is its part relative to the application root.
   */
  const LoggerFile: string := "app/Traits/Logger.php"
  const UnknownErrorLine: int := 133

  /** The severity methods of a log channel; calling `->{$level}()` with any other name fails. */
  const Severities: set<string> := {"debug", "info", "notice", "warning", "error", "critical", "alert", "emergency"}

  /** `beautifyException`: message, line and file of a failure, in that order. */
  function BeautifyException(e: Throwable): (v: Value)
    ensures v.Arr? && Keys(v.entries) == [StrKey("msg"), StrKey("line"), StrKey("file")]
    ensures Get(v.entries, StrKey("msg")) == Some(Str(e.message))
    ensures Get(v.entries, StrKey("line")) == Some(Int(e.line))
    ensures Get(v.entries, StrKey("file")) == Some(Str(e.file))
  {
    var msg, line, file := Entry(StrKey("msg"), Str(e.message)), Entry(StrKey("line"), Int(e.line)), Entry(StrKey("file"), Str(e.file));
    assert "file"[0] != "line"[0] && |"file"| != |"msg"| && |"line"| != |"msg"|;
    GetOfTriple(msg, line, file);
    Arr([msg, line, file])
  }

  /** The user found in the request's JWT; each field may be missing. */
  datatype JwtUser = JwtUser(userId: Option<string>, companyId: Option<string>, adminUserId: Option<string>)

  /**
   * What `$this->getUserFromJwt()` does in the class that uses the trait. The
   * trait does not define the method, so in a class that does not define it
   * either the call raises an `Error`.
   */
  datatype Identity = LookupRaises(error: Throwable) | Found(user: Option<JwtUser>)

  /** What createLog reads besides its arguments: `Uuid::uuid4()`, `now()`, `getUserFromJwt()`, `request()`. */
  datatype LogEnv = LogEnv(uuid: string, now: int, identity: Identity, request: HttpRequest)

  /** The default level is already lower-case and is a severity. */
  lemma DefaultLevelIsSeverity()
    ensures Lower(DefaultLevel) == DefaultLevel && DefaultLevel in Severities
  {
    assert forall i :: 0 <= i < |DefaultLevel| ==> !IsUpperLetter(DefaultLevel[i]);
  }

  /** The parameters of createLog; times are milliseconds since the epoch. */
  datatype LogArgs = LogArgs(
    description: string,
    action: string,
    value: Value,
    error: Option<Throwable>,
    idUser: Option<string>,
    idCompany: Option<string>,
    entityId: Option<string>,
    entity: Option<string>,
    logLevel: string,
    logType: string,
    requestDatetime: Option<int>,
    responseDatetime: Option<int>)

  /** A createLog call that passes only the first four parameters. */
  function DefaultArgs(description: string, action: string, value: Value, error: Option<Throwable>): (a: LogArgs)
    ensures a.logLevel == DefaultLevel && a.logType == DefaultType
    ensures a.idUser.None? && a.idCompany.None? && a.entityId.None? && a.entity.None?
    ensures a.requestDatetime.None? && a.responseDatetime.None?
  {
    LogArgs(description, action, value, error, None, None, None, None, DefaultLevel, DefaultType, None, None)
  }

  /** The context array sent with every log record. */
  datatype LogContext = LogContext(
    uuid: string,
    description: string,
    action: string,
    logType: string,
    logLevel: string,
    entity: string,
    entityId: Option<string>,
    userId: Option<string>,
    companyId: Option<string>,
    adminUserId: Option<string>,
    origin: Option<string>,
    referer: Option<string>,
    url: string,
    ip: Option<string>,
    endpointUrl: string,
    endpointMethod: string,
    date: int,
    requestDatetime: Option<int>,
    responseDatetime: Option<int>,
    requestDurationMilliseconds: Option<nat>,
    value: Value)

  /** One call of `Log::channel($channel)->{$level}($message, $context)` that went through. */
  datatype LogRecord = LogRecord(channel: string, level: string, message: string, context: LogContext)

  /** The array createLog returns. */
  datatype LogResult =
    | Logged(message: string, uuid: string, data: LogContext)
    | LogFailed(message: string, detail: Value)

  /**
   * The `value` entry: any value becomes an array, and a failure, when there
   * is one, is stored under the key `error`.
   */
  function RecordValue(value: Value, error: Option<Throwable>): (r: Value)
    ensures r.Arr?
    ensures error.None? ==> r == AsArray(value)
    ensures error.Some? ==> Get(r.entries, ErrorKey) == Some(BeautifyException(error.value))
    ensures error.Some? ==> forall k :: k != ErrorKey ==> Get(r.entries, k) == Get(AsArray(value).entries, k)
    ensures error.Some? && ErrorKey !in Keys(AsArray(value).entries) ==>
              r.entries == AsArray(value).entries + [Entry(ErrorKey, BeautifyException(error.value))]
  {
    var v := AsArray(value);
    if error.Some? then Arr(Put(v.entries, ErrorKey, BeautifyException(error.value))) else v
  }

  /** Carbon's `diffInMilliseconds`, absolute by default. */
  function DiffInMilliseconds(from: int, to: int): (d: nat)
    ensures to >= from ==> d == to - from
    ensures to < from ==> d == from - to
  {
    if to >= from then to - from else from - to
  }

  /** `request_duration_milliseconds`: present exactly when both times are. */
  function RequestDuration(requested: Option<int>, responded: Option<int>): (d: Option<nat>)
    ensures d.Some? <==> requested.Some? && responded.Some?
    ensures d.Some? ==> d.value == DiffInMilliseconds(requested.value, responded.value)
  {
    if requested.Some? && responded.Some? then Some(DiffInMilliseconds(requested.value, responded.value)) else None
  }

  /**
   * `data_get($user, ...)` for the three fields the logger reads: null when
   * there is no authenticated user, the token's field otherwise.
   */
  function UserId(user: Option<JwtUser>): (r: Option<string>)
    ensures user.None? ==> r.None?
    ensures user.Some? ==> r == user.value.userId
  {
    if user.Some? then user.value.userId else None
  }

  function CompanyId(user: Option<JwtUser>): (r: Option<string>)
    ensures user.None? ==> r.None?
    ensures user.Some? ==> r == user.value.companyId
  {
    if user.Some? then user.value.companyId else None
  }

  function AdminUserId(user: Option<JwtUser>): (r: Option<string>)
    ensures user.None? ==> r.None?
    ensures user.Some? ==> r == user.value.adminUserId
  {
    if user.Some? then user.value.adminUserId else None
  }

  /**
   * The context createLog assembles once `user` has been looked up. The level
   * is lower-cased first and upper-cased in the context; a null entity
   * upper-cases to "".
   */
  function BuildContext(args: LogArgs, env: LogEnv, user: Option<JwtUser>): (c: LogContext)
    ensures c.uuid == env.uuid && c.description == args.description && c.action == args.action
    ensures c.logType == Upper(args.logType) && c.logLevel == Upper(args.logLevel)
    ensures c.entity == Upper(args.entity.GetOr("")) && c.entityId == args.entityId
    ensures c.userId == args.idUser.OrElse(UserId(user))
    ensures c.companyId == args.idCompany.OrElse(CompanyId(user))
    ensures c.adminUserId == AdminUserId(user)
    ensures user.None? ==> c.adminUserId.None?
    ensures c.origin == env.request.origin && c.referer == env.request.referer
    ensures c.url == env.request.url && c.ip == env.request.ip
    ensures c.endpointUrl == env.request.url && c.endpointMethod == env.request.verb
    ensures c.date == env.now
    ensures c.requestDatetime == args.requestDatetime && c.responseDatetime == args.responseDatetime
    ensures c.requestDurationMilliseconds == RequestDuration(args.requestDatetime, args.responseDatetime)
    ensures c.value == RecordValue(args.value, args.error)
  {
    var level := Lower(args.logLevel);
    UpperOfLower(args.logLevel);
    var r := env.request;
    LogContext(
      env.uuid, args.description, args.action,
      Upper(args.logType), Upper(level), Upper(args.entity.GetOr("")), args.entityId,
      args.idUser.OrElse(UserId(user)), args.idCompany.OrElse(CompanyId(user)), AdminUserId(user),
      r.origin, r.referer, r.url, r.ip, r.url, r.verb,
      env.now, args.requestDatetime, args.responseDatetime,
      RequestDuration(args.requestDatetime, args.responseDatetime),
      RecordValue(args.value, args.error))
  }

  /**
   * A log channel. When `failing` is set, or when asked for a method that is
   * not a severity, it raises `fault` and records nothing.
   */
  class LogSink {
    var records: seq<LogRecord>
    const failing: bool
    const fault: Throwable

    constructor (failing: bool, fault: Throwable)
      ensures records == [] && this.failing == failing && this.fault == fault
    {
      records := [];
      this.failing := failing;
      this.fault := fault;
    }

    predicate Accepts(level: string) {
      !failing && level in Severities
    }

    method Write(channel: string, level: string, message: string, context: LogContext) returns (raised: Option<Throwable>)
      modifies this
      ensures raised == (if Accepts(level) then None else Some(fault))
      ensures records == old(records) + (if Accepts(level) then [LogRecord(channel, level, message, context)] else [])
    {
      if Accepts(level) {
        records := records + [LogRecord(channel, level, message, context)];
        raised := None;
      } else {
        raised := Some(fault);
      }
    }
  }

  /**
   * The records one createLog call adds to `sink`: exactly one when the
   * identity lookup returns and the sink accepts the lower-cased level, on
   * `log_service`, at a severity, with the description as message and a
   * context whose level is that severity upper-cased; nothing otherwise.
   */
  function Emitted(sink: LogSink, args: LogArgs, env: LogEnv): (r: seq<LogRecord>)
    ensures |r| <= 1
    ensures |r| == 1 <==> env.identity.Found? && sink.Accepts(Lower(args.logLevel))
    ensures |r| == 1 ==> r[0].channel == LogChannel && r[0].level in Severities
                         && r[0].level == Lower(args.logLevel) && r[0].message == args.description
                         && r[0].context.uuid == env.uuid && r[0].context.logLevel == Upper(r[0].level)
  {
    UpperOfLower(args.logLevel);
    var level := Lower(args.logLevel);
    match env.identity
    case LookupRaises(_) => []
    case Found(user) =>
      if sink.Accepts(level) then [LogRecord(LogChannel, level, args.description, BuildContext(args, env, user))] else []
  }

  /** What a failed createLog reports: the lookup's error if it raised, the sink's fault otherwise. */
  function FailureCause(sink: LogSink, env: LogEnv): (e: Throwable)
    ensures env.identity.LookupRaises? ==> e == env.identity.error
    ensures env.identity.Found? ==> e == sink.fault
  {
    if env.identity.LookupRaises? then env.identity.error else sink.fault
  }

  /**
   * What one createLog call returns: never a failure that escapes, only a
   * failed result carrying what was raised, and a success exactly when the
   * identity lookup returns and the sink accepts the level.
   */
  function CreateLogResult(sink: LogSink, args: LogArgs, env: LogEnv): (r: LogResult)
    ensures r.Logged? <==> env.identity.Found? && sink.Accepts(Lower(args.logLevel))
    ensures sink.failing || env.identity.LookupRaises? ==> r.LogFailed?
    ensures r.Logged? ==> r.message == SuccessMessage && r.uuid == r.data.uuid == env.uuid
    ensures r.LogFailed? ==> r.message == FailureMessage && r.detail == BeautifyException(FailureCause(sink, env))
  {
    match env.identity
    case LookupRaises(e) => LogFailed(FailureMessage, BeautifyException(e))
    case Found(user) =>
      if sink.Accepts(Lower(args.logLevel)) then Logged(SuccessMessage, env.uuid, BuildContext(args, env, user))
      else LogFailed(FailureMessage, BeautifyException(sink.fault))
  }

  /**
   * `createLog`: build the context, send it, and report the outcome instead
   * of raising. A lookup that raises ends the call before anything is sent.
   */
  method CreateLog(sink: LogSink, args: LogArgs, env: LogEnv) returns (r: LogResult)
    modifies sink
    ensures r == CreateLogResult(sink, args, env)
    ensures sink.records == old(sink.records) + Emitted(sink, args, env)
  {
    var uuid := env.uuid;
    var logLevel := Lower(args.logLevel);
    var value := CoerceValue(args.value, args.error);
    var requestDuration: Option<nat> := None;
    if args.requestDatetime.Some? && args.responseDatetime.Some? {
      requestDuration := Some(DiffInMilliseconds(args.requestDatetime.value, args.responseDatetime.value));
    }
    if env.identity.LookupRaises? {
      LookupRaisedOutcome(sink, args, env);
      return LogFailed(FailureMessage, BeautifyException(env.identity.error));
    }
    var user := env.identity.user;
    FoundOutcome(sink, args, env, user);
    UpperOfLower(args.logLevel);
    var context := LogContext(
      uuid, args.description, args.action,
      Upper(args.logType), Upper(logLevel), Upper(args.entity.GetOr("")), args.entityId,
      args.idUser.OrElse(UserId(user)), args.idCompany.OrElse(CompanyId(user)), AdminUserId(user),
      env.request.origin, env.request.referer, env.request.url, env.request.ip,
      env.request.url, env.request.verb,
      env.now, args.requestDatetime, args.responseDatetime, requestDuration, value);
    assert context == BuildContext(args, env, user);
    ghost var sent := if sink.Accepts(logLevel) then [LogRecord(LogChannel, logLevel, args.description, context)] else [];
    assert Emitted(sink, args, env) == sent;
    var raised := sink.Write(LogChannel, logLevel, args.description, context);
    assert sink.records == old(sink.records) + sent;
    if raised.Some? {
      return LogFailed(FailureMessage, BeautifyException(raised.value));
    }
    return Logged(SuccessMessage, uuid, context);
  }

  /** The value steps of createLog: wrap a non-array, then store the failure under `error`. */
  method CoerceValue(value: Value, error: Option<Throwable>) returns (v: Value)
    ensures v == RecordValue(value, error)
  {
    v := if value.Arr? then value else Arr([Entry(IntKey(0), value)]);
    if error.Some? {
      v := Arr(Put(v.entries, ErrorKey, BeautifyException(error.value)));
    }
  }

  lemma LookupRaisedOutcome(sink: LogSink, args: LogArgs, env: LogEnv)
    requires env.identity.LookupRaises?
    ensures CreateLogResult(sink, args, env) == LogFailed(FailureMessage, BeautifyException(env.identity.error))
    ensures Emitted(sink, args, env) == []
  {
  }

  lemma FoundOutcome(sink: LogSink, args: LogArgs, env: LogEnv, user: Option<JwtUser>)
    requires env.identity == Found(user)
    ensures var level := Lower(args.logLevel);
            var context := BuildContext(args, env, user);
            && CreateLogResult(sink, args, env)
               == (if sink.Accepts(level) then Logged(SuccessMessage, env.uuid, context)
                   else LogFailed(FailureMessage, BeautifyException(sink.fault)))
            && Emitted(sink, args, env)
               == (if sink.Accepts(level) then [LogRecord(LogChannel, level, args.description, context)] else [])
  {
  }

  /**
   * A successful createLog sends exactly one record, on `log_service` at the
   * lower-cased level, whose context is the one returned and carries the
   * returned uuid; a failed one sends nothing and returns what was raised.
   */
  lemma CreateLogOutcome(sink: LogSink, args: LogArgs, env: LogEnv)
    ensures var r := CreateLogResult(sink, args, env);
            var sent := Emitted(sink, args, env);
            && (r.Logged? <==> |sent| == 1)
            && (r.LogFailed? <==> sent == [])
            && (r.Logged? ==> r.message == SuccessMessage && r.uuid == r.data.uuid == env.uuid
                              && sent[0] == LogRecord(LogChannel, Lower(args.logLevel), args.description, r.data))
            && (r.LogFailed? ==> r.message == FailureMessage && r.detail == BeautifyException(FailureCause(sink, env)))
  {
  }

  /** Whatever case the caller used, the context's type, level and entity carry no lower-case letter. */
  lemma ContextIsUpperCased(args: LogArgs, env: LogEnv, user: Option<JwtUser>)
    ensures var c := BuildContext(args, env, user);
            && (forall i :: 0 <= i < |c.logType| ==> !IsLowerLetter(c.logType[i]))
            && (forall i :: 0 <= i < |c.logLevel| ==> !IsLowerLetter(c.logLevel[i]))
            && (forall i :: 0 <= i < |c.entity| ==> !IsLowerLetter(c.entity[i]))
            && |c.logLevel| == |args.logLevel|
  {
  }

  // ---------------------------------------------------------------------
  // defaultErrorHandling

  /** The failure that `defaultErrorHandling` throws for `ex`. */
  function HandledError(ex: Throwable): (t: Throwable)
    ensures IsBaseException(t)
    ensures IsBaseException(ex) ==> t == ex
    ensures !IsBaseException(ex) ==> t.kind == Domain(true, 0) && t.message == UnknownErrorCode
  {
    if IsBaseException(ex) then ex
    else Throwable(Domain(true, 0), UnknownErrorCode, UnknownErrorLine, LoggerFile)
  }

  /** Handling twice changes nothing: what it throws is already a domain failure. */
  lemma HandledErrorIdempotent(ex: Throwable)
    ensures HandledError(HandledError(ex)) == HandledError(ex)
  {
  }

  /**
   * The createLog call of `defaultErrorHandling`: the calling method's name
   * in upper snake case plus `_ERROR` as action, the failure attached.
   */
  function ErrorHandlingArgs(ex: Throwable, data: Value, idEntity: Option<string>, entity: Option<string>,
                             level: string, calledClass: string, caller: Option<string>,
                             snake: string -> string): (a: LogArgs)
    ensures a.action == Upper(snake(caller.GetOr(UnknownCaller))) + "_ERROR"
    ensures a.description == calledClass && a.value == data && a.error == Some(ex)
    ensures a.idUser.None? && a.idCompany.None? && a.entityId == idEntity && a.entity == entity
    ensures a.logLevel == level && a.logType == DefaultType
  {
    LogArgs(calledClass, Upper(snake(caller.GetOr(UnknownCaller))) + "_ERROR", data, Some(ex),
            None, None, idEntity, entity, level, DefaultType, None, None)
  }

  /**
   * The createLog call of a bare `defaultErrorHandling($exception)`: no data,
   * no entity, and the level `error`.
   */
  function BareHandlingArgs(ex: Throwable, calledClass: string, caller: Option<string>,
                            snake: string -> string): (a: LogArgs)
    ensures a.logLevel == DefaultErrorLevel && a.value == Null && a.error == Some(ex)
    ensures a.entityId.None? && a.entity.None? && a.idUser.None? && a.idCompany.None?
    ensures a.action == Upper(snake(caller.GetOr(UnknownCaller))) + "_ERROR"
  {
    ErrorHandlingArgs(ex, Null, None, None, DefaultErrorLevel, calledClass, caller, snake)
  }

  lemma ErrorLevelIsSeverity()
    ensures Lower(DefaultErrorLevel) == DefaultErrorLevel && DefaultErrorLevel in Severities
  {
    assert forall i :: 0 <= i < |DefaultErrorLevel| ==> !IsUpperLetter(DefaultErrorLevel[i]);
  }

  /**
   * With the defaults, a non-domain failure is logged once at `error`, when
   * the identity lookup returns and the channel works.
   */
  lemma BareHandlingLogsAtError(sink: LogSink, ex: Throwable, calledClass: string, caller: Option<string>,
                                snake: string -> string, env: LogEnv)
    requires env.identity.Found? && !sink.failing
    ensures var sent := Emitted(sink, BareHandlingArgs(ex, calledClass, caller, snake), env);
            && |sent| == 1 && sent[0].level == DefaultErrorLevel
            && sent[0].context.logLevel == Upper(DefaultErrorLevel)
            && sent[0].context.value == Arr([Entry(IntKey(0), Null), Entry(ErrorKey, BeautifyException(ex))])
  {
    ErrorLevelIsSeverity();
    BareValue(ex);
    var args := BareHandlingArgs(ex, calledClass, caller, snake);
    var sent := Emitted(sink, args, env);
    assert sent[0].context == BuildContext(args, env, env.identity.user);
  }

  /** Without data, the logged value is `[null]` with the failure appended under `error`. */
  lemma BareValue(ex: Throwable)
    ensures RecordValue(Null, Some(ex)) == Arr([Entry(IntKey(0), Null), Entry(ErrorKey, BeautifyException(ex))])
  {
    assert AsArray(Null).entries == [Entry(IntKey(0), Null)];
    assert Keys([Entry(IntKey(0), Null)]) == [IntKey(0)];
    assert [Entry(IntKey(0), Null)] + [Entry(ErrorKey, BeautifyException(ex))]
        == [Entry(IntKey(0), Null), Entry(ErrorKey, BeautifyException(ex))];
  }

  /**
   * `defaultErrorHandling`: a domain failure is rethrown untouched and not
   * logged; any other failure is logged once and replaced by the generic
   * `UNKNOW_ERROR_TRY_AGAIN` domain failure. `thrown` is what it throws.
   */
  method DefaultErrorHandling(sink: LogSink, ex: Throwable, data: Value, idEntity: Option<string>,
                              entity: Option<string>, level: string, calledClass: string,
                              caller: Option<string>, snake: string -> string, env: LogEnv)
    returns (thrown: Throwable)
    modifies sink
    ensures thrown == HandledError(ex)
    ensures IsBaseException(ex) ==> sink.records == old(sink.records)
    ensures !IsBaseException(ex) ==>
      sink.records == old(sink.records) + Emitted(sink, ErrorHandlingArgs(ex, data, idEntity, entity, level, calledClass, caller, snake), env)
  {
    if IsBaseException(ex) {
      return ex;
    }
    var callerName := caller.GetOr(UnknownCaller);
    var args := LogArgs(calledClass, Upper(snake(callerName)) + "_ERROR", data, Some(ex),
                        None, None, idEntity, entity, level, DefaultType, None, None);
    var _ := CreateLog(sink, args, env);
    return Throwable(Domain(true, 0), UnknownErrorCode, UnknownErrorLine, LoggerFile);
  }
}
