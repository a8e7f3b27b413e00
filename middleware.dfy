/**
 * The request-logging middleware: it skips static files, captures (trimmed)
 * bodies, and logs one scope dictionary per HTTP transaction whose keys are
 * chosen by the capture flags of the options.
 */
module Middleware {
  import opened LogEntries
  import opened Options

  /** Cuts a captured body to the configured maximum. A negative maximum
      makes the slice throw for any non-empty value (None). */
  function TrimToMaxLength(value: string, maxLength: int): (r: Option<string>)
    ensures r.None? <==> value != [] && maxLength < 0
    ensures r.Some? ==> r.value <= value
    ensures r.Some? && (value == [] || |value| <= maxLength) ==> r.value == value
    ensures r.Some? && value != [] && |value| > maxLength ==> |r.value| == maxLength
  {
    if value == [] || |value| <= maxLength then Some(value)
    else if maxLength < 0 then None
    else Some(value[..maxLength])
  }

  /** Trimming what was already trimmed changes nothing. */
  lemma TrimIdempotent(value: string, maxLength: int)
    requires TrimToMaxLength(value, maxLength).Some?
    ensures TrimToMaxLength(TrimToMaxLength(value, maxLength).value, maxLength)
         == TrimToMaxLength(value, maxLength)
  {
  }

  // ---------------------------------------------------------------------------
  // Static-file bypass

  /** path[k..] is the extension of path: a dot that is not the last character,
      followed by neither a dot nor a directory separator. */
  predicate ExtensionAt(path: string, k: int, separators: set<char>) {
    && 0 <= k < |path| - 1
    && path[k] == '.'
    && forall j :: k < j < |path| ==> path[j] != '.' && path[j] !in separators
  }

  lemma ExtensionAtUnique(path: string, k: int, m: int, separators: set<char>)
    requires ExtensionAt(path, k, separators) && ExtensionAt(path, m, separators)
    ensures k == m
  {
  }

  /** Path.GetExtension, scanning back from index i; nothing after i is a dot
      or a separator. */
  function ExtensionFrom(path: string, i: int, separators: set<char>): (r: string)
    requires -1 <= i < |path|
    requires forall j :: i < j < |path| ==> path[j] != '.' && path[j] !in separators
    ensures r != [] <==> exists k :: k <= i && ExtensionAt(path, k, separators)
    ensures r != [] ==> |r| <= |path| && ExtensionAt(path, |path| - |r|, separators)
                        && r == path[|path| - |r|..]
    decreases i + 1
  {
    if i < 0 then []
    else if path[i] == '.' then
      (if i != |path| - 1 then assert ExtensionAt(path, i, separators); path[i..] else [])
    else if path[i] in separators then []
    else ExtensionFrom(path, i - 1, separators)
  }

  /** The extension of a path, dot included; empty when there is none. */
  function GetExtension(path: string, separators: set<char>): (r: string)
    ensures r != [] <==> exists k :: ExtensionAt(path, k, separators)
    ensures r != [] ==> |r| <= |path| && ExtensionAt(path, |path| - |r|, separators)
                        && r == path[|path| - |r|..]
  {
    ExtensionFrom(path, |path| - 1, separators)
  }

  /** The extension GetExtension finds is the only one there is. */
  lemma ExtensionIsTheOnly(path: string, separators: set<char>)
    ensures forall k :: ExtensionAt(path, k, separators) ==>
      k == |path| - |GetExtension(path, separators)|
  {
    var extension := GetExtension(path, separators);
    forall k | ExtensionAt(path, k, separators)
      ensures k == |path| - |extension|
    {
      ExtensionAtUnique(path, k, |path| - |extension|, separators);
    }
  }

  /** A request is for a static file when its path has an extension and that
      extension is one of the excluded ones. */
  function IsStaticFileRequest(path: string, excluded: set<string>, separators: set<char>): (r: bool)
    ensures r <==> exists k :: ExtensionAt(path, k, separators) && path[k..] in excluded
    ensures GetExtension(path, separators) == [] ==> !r
  {
    var extension := GetExtension(path, separators);
    ExtensionIsTheOnly(path, separators);
    extension != [] && extension in excluded
  }

  // ---------------------------------------------------------------------------
  // The transaction

  class Stream {
    var data: string
    constructor (data: string)
      ensures this.data == data
    {
      this.data := data;
    }
  }

  class Response {
    var body: Stream
    var statusCode: int
    var headers: map<string, string>
    constructor (body: Stream)
      ensures this.body == body && statusCode == 200 && headers == map[]
    {
      this.body := body;
      statusCode := 200;
      headers := map[];
    }
  }

  datatype Request = Request(path: string, httpMethod: string, headers: map<string, string>, body: string)

  /** The claims of the authenticated user that the middleware looks at. */
  datatype User = User(nameIdentifier: Option<string>, sub: Option<string>)

  /** The request and the trace identifier can be replaced by the rest of the
      pipeline (a path rewrite, a correlation-id component); the response
      object and the user are fixed for the transaction. */
  class HttpContext {
    var request: Request
    const response: Response
    var traceIdentifier: string
    const user: Option<User>
    constructor (request: Request, response: Response, traceIdentifier: string, user: Option<User>)
      ensures this.request == request && this.response == response
      ensures this.traceIdentifier == traceIdentifier && this.user == user
    {
      this.request := request;
      this.response := response;
      this.traceIdentifier := traceIdentifier;
      this.user := user;
    }
  }

  /** The name-identifier claim, else the "sub" claim, else the empty string. */
  function UserIdOf(user: Option<User>): (r: string)
    ensures user.Some? && user.value.nameIdentifier.Some? ==> r == user.value.nameIdentifier.value
    ensures user.Some? && user.value.nameIdentifier.None? && user.value.sub.Some? ==> r == user.value.sub.value
    ensures user.None? || (user.value.nameIdentifier.None? && user.value.sub.None?) ==> r == ""
  {
    if user.Some? && user.value.nameIdentifier.Some? then user.value.nameIdentifier.value
    else if user.Some? && user.value.sub.Some? then user.value.sub.value
    else ""
  }

  /** What the rest of the pipeline does when the middleware calls it: it sets
      the status and headers, writes a body to the current response stream,
      leaves a trace identifier and a request in the context (the ones it was
      given, or others), and returns or throws. */
  datatype Downstream = Downstream(statusCode: int, headers: map<string, string>,
                                   written: string, throws: bool,
                                   traceIdentifier: string, request: Request)

  /** A value in the logging scope; the elapsed time is a floating-point
      number of milliseconds that is not modelled. */
  datatype ScopeValue = Text(s: string) | Number(n: int) | Dictionary(d: map<string, string>) | ElapsedTime

  /** The keys of the scope dictionary, each written as its name without the
      Key suffix ("TraceId", "RequestId", ...). */
  datatype ScopeKey =
    | TraceIdKey | RequestIdKey | MethodKey | PathKey | StatusCodeKey | ElapsedKey
    | UserIdKey | RequestBodyKey | ResponseBodyKey | RequestHeadersKey | ResponseHeadersKey

  const CompletedMessage := "HTTP Transaction Completed"

  class Logger {
    var records: seq<(map<ScopeKey, ScopeValue>, string)>
    constructor ()
      ensures records == []
    {
      records := [];
    }
  }

  /** The scope logged for a completed transaction, key by key. traceId and
      body are the trace identifier and the request body read before the rest
      of the pipeline ran; everything else is read after it, from next. */
  ghost predicate ScopeFits(scope: map<ScopeKey, ScopeValue>, options: LoggerOptions, traceId: string,
                            body: string, user: Option<User>, next: Downstream)
  {
    && RequestPartFits(scope, options, traceId, next.traceIdentifier, next.request.httpMethod,
                       next.request.path, next.statusCode, user, body)
    && (ResponseBodyKey in scope <==> options.includeResponseBody)
    && (ResponseBodyKey in scope ==>
          var t := TrimToMaxLength(next.written, options.maxBodyLength);
          t.Some? && scope[ResponseBodyKey] == Text(t.value))
    && (RequestHeadersKey in scope <==> options.includeRequestHeaders && |next.request.headers| > 0)
    && (RequestHeadersKey in scope ==> scope[RequestHeadersKey] == Dictionary(next.request.headers))
    && (ResponseHeadersKey in scope <==> options.includeResponseHeaders && |next.headers| > 0)
    && (ResponseHeadersKey in scope ==> scope[ResponseHeadersKey] == Dictionary(next.headers))
  }

  /** The entries that describe the request and the user. */
  ghost predicate RequestPartFits(scope: map<ScopeKey, ScopeValue>, options: LoggerOptions, traceId: string,
                                  requestId: string, httpMethod: string, path: string, statusCode: int,
                                  user: Option<User>, body: string)
  {
    && TraceIdKey in scope && scope[TraceIdKey] == Text(traceId)
    && RequestIdKey in scope && scope[RequestIdKey] == Text(requestId)
    && MethodKey in scope && scope[MethodKey] == Text(httpMethod)
    && PathKey in scope && scope[PathKey] == Text(path)
    && StatusCodeKey in scope && scope[StatusCodeKey] == Number(statusCode)
    && ElapsedKey in scope
    && (UserIdKey in scope <==> options.includeUserId)
    && (UserIdKey in scope ==> scope[UserIdKey] == Text(UserIdOf(user)))
    && (RequestBodyKey in scope <==> options.includeRequestBody)
    && (RequestBodyKey in scope ==>
          var t := TrimToMaxLength(body, options.maxBodyLength);
          t.Some? && scope[RequestBodyKey] == Text(t.value))
  }

  class LoggingMiddleware {
    const options: LoggerOptions
    const excludedExtensions: set<string>
    const separators: set<char>

    constructor (options: LoggerOptions, excludedExtensions: set<string>, separators: set<char>)
      ensures this.options == options && this.excludedExtensions == excludedExtensions
      ensures this.separators == separators
    {
      this.options := options;
      this.excludedExtensions := excludedExtensions;
      this.separators := separators;
    }

    /** Runs the rest of the pipeline against whatever stream is the response body now. */
    static method CallNext(context: HttpContext, next: Downstream) returns (threw: bool)
      modifies context, context.response, context.response.body
      ensures context.response.body == old(context.response.body)
      ensures context.traceIdentifier == next.traceIdentifier && context.request == next.request
      ensures context.response.statusCode == next.statusCode
      ensures context.response.headers == next.headers
      ensures context.response.body.data == old(context.response.body.data) + next.written
      ensures threw == next.throws
    {
      context.response.statusCode := next.statusCode;
      context.response.headers := next.headers;
      context.response.body.data := context.response.body.data + next.written;
      context.traceIdentifier := next.traceIdentifier;
      context.request := next.request;
      threw := next.throws;
    }

    /** The entries of the scope that describe the request and the user:
        traceId, user and requestBody were read before the rest of the
        pipeline ran, the others after it. */
    method RequestScope(traceId: string, requestId: string, httpMethod: string, path: string,
                        statusCode: int, user: Option<User>, body: string, requestBody: string)
      returns (s: map<ScopeKey, ScopeValue>)
      requires options.includeRequestBody ==>
        Some(requestBody) == TrimToMaxLength(body, options.maxBodyLength)
      ensures RequestPartFits(s, options, traceId, requestId, httpMethod, path, statusCode, user, body)
      ensures ResponseBodyKey !in s && RequestHeadersKey !in s && ResponseHeadersKey !in s
    {
      s := map[
        TraceIdKey := Text(traceId),
        RequestIdKey := Text(requestId),
        MethodKey := Text(httpMethod),
        PathKey := Text(path),
        StatusCodeKey := Number(statusCode),
        ElapsedKey := ElapsedTime];
      if options.includeUserId {
        s := s[UserIdKey := Text(UserIdOf(user))];
      }
      if options.includeRequestBody {
        s := s[RequestBodyKey := Text(requestBody)];
      }
    }

    /** Builds the scope dictionary of a completed transaction by conditional
        insertions; None when trimming the response body throws. */
    method BuildScope(traceId: string, body: string, user: Option<User>, requestBody: string,
                      requestId: string, request: Request, statusCode: int,
                      responseHeaders: map<string, string>, responseBody: string)
      returns (scope: Option<map<ScopeKey, ScopeValue>>)
      requires options.includeRequestBody ==>
        Some(requestBody) == TrimToMaxLength(body, options.maxBodyLength)
      ensures scope.None? <==>
        options.includeResponseBody && TrimToMaxLength(responseBody, options.maxBodyLength).None?
      ensures scope.Some? ==>
        ScopeFits(scope.value, options, traceId, body, user,
                  Downstream(statusCode, responseHeaders, responseBody, false, requestId, request))
    {
      var s := RequestScope(traceId, requestId, request.httpMethod, request.path, statusCode,
                            user, body, requestBody);
      if options.includeResponseBody {
        var trimmed := TrimToMaxLength(responseBody, options.maxBodyLength);
        if trimmed.None? {
          return None;
        }
        s := s[ResponseBodyKey := Text(trimmed.value)];
      }
      if options.includeRequestHeaders && |request.headers| > 0 {
        s := s[RequestHeadersKey := Dictionary(request.headers)];
      }
      if options.includeResponseHeaders && |responseHeaders| > 0 {
        s := s[ResponseHeadersKey := Dictionary(responseHeaders)];
      }
      scope := Some(s);
    }

    method InvokeAsync(context: HttpContext, next: Downstream, logger: Logger) returns (threw: bool)
      modifies context, context.response, context.response.body, logger
      // the original response stream is back in place on every path
      ensures context.response.body == old(context.response.body)
      // the rest of the pipeline runs unless trimming the request body threw first,
      // and the context keeps the trace identifier and request it leaves
      ensures var ran := IsStaticFileRequest(old(context.request.path), excludedExtensions, separators)
                         || !(options.includeRequestBody
                              && TrimToMaxLength(old(context.request.body), options.maxBodyLength).None?);
        && (ran ==> context.traceIdentifier == next.traceIdentifier && context.request == next.request)
        && (!ran ==> context.traceIdentifier == old(context.traceIdentifier)
                     && context.request == old(context.request))
        // the status and headers the client gets are the pipeline's, untouched by the middleware
        && (ran ==> context.response.statusCode == next.statusCode && context.response.headers == next.headers)
        && (!ran ==> context.response.statusCode == old(context.response.statusCode)
                     && context.response.headers == old(context.response.headers))
      ensures IsStaticFileRequest(old(context.request.path), excludedExtensions, separators) ==>
        && threw == next.throws
        && logger.records == old(logger.records)
        && context.response.body.data == old(context.response.body.data) + next.written
      ensures !IsStaticFileRequest(old(context.request.path), excludedExtensions, separators) ==>
        && (threw <==> next.throws
                       || (options.includeRequestBody
                           && TrimToMaxLength(old(context.request.body), options.maxBodyLength).None?)
                       || (options.includeResponseBody && TrimToMaxLength(next.written, options.maxBodyLength).None?))
        && (threw ==> logger.records == old(logger.records))
        && (threw ==> context.response.body.data == old(context.response.body.data))
        && (!threw ==> |logger.records| == |old(logger.records)| + 1
                       && logger.records[..|old(logger.records)|] == old(logger.records)
                       && logger.records[|old(logger.records)|].1 == CompletedMessage
                       && ScopeFits(logger.records[|old(logger.records)|].0, options,
                                    old(context.traceIdentifier), old(context.request.body), context.user, next))
        && (!threw ==> context.response.body.data == old(context.response.body.data) + next.written)
    {
      if IsStaticFileRequest(context.request.path, excludedExtensions, separators) {
        threw := CallNext(context, next);
        return;
      }

      var traceId := context.traceIdentifier;
      var body := context.request.body;
      var requestBody := "";
      if options.includeRequestBody {
        var trimmed := TrimToMaxLength(context.request.body, options.maxBodyLength);
        if trimmed.None? {
          return true;
        }
        requestBody := trimmed.value;
      }

      var originalBodyStream := context.response.body;
      var memoryStream := new Stream("");
      context.response.body := memoryStream;

      threw := CallNext(context, next);
      if threw {
        context.response.body := originalBodyStream;
        return;
      }
      var responseBody := memoryStream.data;
      assert Downstream(context.response.statusCode, context.response.headers, responseBody, false,
                        context.traceIdentifier, context.request) == next;

      var scope := BuildScope(traceId, body, context.user, requestBody, context.traceIdentifier,
                              context.request, context.response.statusCode, context.response.headers,
                              responseBody);
      if scope.None? {
        context.response.body := originalBodyStream;
        return true;
      }

      logger.records := logger.records + [(scope.value, CompletedMessage)];

      originalBodyStream.data := originalBodyStream.data + memoryStream.data;
      context.response.body := originalBodyStream;
    }
  }
}
