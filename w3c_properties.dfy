/**
 * What the middleware promises about the records it writes, stated over `Invocation`,
 * the function that `SerilogW3cMiddleware.Invoke` is proved to follow.
 */
module W3cProperties {
  import opened Optional
  import opened Decimal
  import opened SerilogW3c

  /** The properties the end record rewrites; every other property keeps its begin value. */
  predicate Rewritten(k: Property) {
    k == Date || k == StatusCode || k == ContentLength || k == ElapsedMs || k == Identifier
  }

  /** Where the call of the next handler stands in the trace: after the begin record, if there is one. */
  function HandlerIndex(options: Options): nat {
    if options.displayBefore then 1 else 0
  }

  /** The options check fails the call, whatever the request, before any record and before the handler. */
  lemma RejectsStrictWithBefore(options: Options, context: Context, outcome: Outcome, clock: Clock)
    ensures var t := Invocation(options, context, outcome, clock);
            (options.strictW3C && options.displayBefore) ==> t == Trace([], Rejected(BothSetMessage))
    ensures var t := Invocation(options, context, outcome, clock);
            !(options.strictW3C && options.displayBefore) ==> NextInvoked in t.events || context.request.identity.None?
  {
  }

  /** The default options pass the check and log a begin record, call the handler, then log an end record. */
  lemma DefaultsLogBeginAndEnd(context: Context, response: Response, clock: Clock)
    requires context.request.identity.Some?
    ensures var t := Invocation(DefaultOptions, context, Returns(response), clock);
            && t.completion == Completed && |t.events| == 3 && t.events[1] == NextInvoked
            && t.events[0].Information? && t.events[2].Information?
            && t.events[0].args[10] == "begin:" + context.request.traceIdentifier
            && t.events[2].args[10] == "end:" + context.request.traceIdentifier
  {
    TwoRecordsPerRequest(DefaultOptions, context, response, clock);
  }

  /** Missing request data renders as "-" instead of failing; present data is copied unchanged. */
  lemma MissingDataDegrades(request: Request, identity: Identity, date: string)
    ensures var b := BeginFields(request, identity, date);
            && (request.remoteIpAddress.None? ==> b.remoteIpAddress == "-")
            && (request.remoteIpAddress.Some? ==> b.remoteIpAddress == request.remoteIpAddress.value)
            && (identity.name.None? ==> b.authUser == "-")
            && (identity.name.Some? ==> b.authUser == identity.name.value)
            && (request.userAgent.None? ==> b.userAgent == "-")
            && (request.userAgent.Some? ==> b.userAgent == request.userAgent.value)
  {
  }

  /** With DisplayBefore, the first event is the begin record, with its placeholders, and the handler comes next. */
  lemma BeginRecordComesFirst(options: Options, context: Context, outcome: Outcome, clock: Clock)
    requires options.displayBefore && !options.strictW3C
    requires context.request.identity.Some?
    ensures var t := Invocation(options, context, outcome, clock);
            var b := BeginFields(context.request, context.request.identity.value, clock.beginDate);
            && |t.events| >= 2 && t.events[0] == Message(false, b) && t.events[1] == NextInvoked
            && b.statusCode == "000" && b.contentLength == "0" && b.elapsedMs == "0"
            && b.identifier == "begin:" + context.request.traceIdentifier
  {
  }

  /**
   * When the handler returns, the call completes normally, and exactly one record follows the
   * handler if DisplayAfter is set (none otherwise): the response status as text, the length
   * or -1, and the end identifier.
   */
  lemma ReturnedRequestEndRecord(options: Options, context: Context, response: Response, clock: Clock)
    requires !(options.strictW3C && options.displayBefore)
    requires context.request.identity.Some?
    ensures var t := Invocation(options, context, Returns(response), clock);
            var b := BeginFields(context.request, context.request.identity.value, clock.beginDate);
            var e := EndFields(b, clock.endDate, IntToString(response.statusCode), response.contentLength,
                               clock.elapsedMs, context.request.traceIdentifier);
            && t.completion == Completed
            && |t.events| > HandlerIndex(options) && t.events[HandlerIndex(options)] == NextInvoked
            && t.events[HandlerIndex(options) + 1..] == (if options.displayAfter then [Message(options.strictW3C, e)] else [])
            && ParseInt(e.statusCode) == Some(response.statusCode)
            && e.contentLength == (if response.contentLength.Some? then IntToString(response.contentLength.value) else "-1")
            && e.identifier == "end:" + context.request.traceIdentifier
  {
    IntRoundTrip(response.statusCode);
  }

  /**
   * When the handler throws, the end record (if DisplayAfter) carries status "500" whatever the
   * response says, the error record (if DisplayExceptions) names the request line, and the
   * exception is rethrown exactly when RethrowExceptions is set.
   */
  lemma ThrownRequestEndRecord(options: Options, context: Context, response: Response, fault: Fault, clock: Clock)
    requires !(options.strictW3C && options.displayBefore)
    requires context.request.identity.Some?
    ensures var t := Invocation(options, context, Throws(response, fault), clock);
            var b := BeginFields(context.request, context.request.identity.value, clock.beginDate);
            var e := EndFields(b, clock.endDate, "500", response.contentLength, clock.elapsedMs,
                               context.request.traceIdentifier);
            var r := context.request;
            && |t.events| > HandlerIndex(options) && t.events[HandlerIndex(options)] == NextInvoked
            && t.events[HandlerIndex(options) + 1..] ==
               (if options.displayAfter then [Message(options.strictW3C, e)] else []) +
               (if options.displayExceptions
                then [Error(fault, "Exception during \"" + r.httpMethod + " " + r.path + " " + r.protocol + "\"")]
                else [])
            && e.statusCode == "500"
            && e.contentLength == ContentLengthText(response.contentLength)
            && e.identifier == "end:" + r.traceIdentifier
            && t.completion == (if options.rethrowExceptions then Raised(fault) else Completed)
  {
  }

  /**
   * On every path that catches an exception (the handler's, or the null identity's), an error
   * record is written if and only if DisplayExceptions is set, and the exception leaves Invoke
   * if and only if RethrowExceptions is set; otherwise Invoke completes normally.
   */
  lemma CatchDecisions(options: Options, context: Context, outcome: Outcome, clock: Clock)
    requires !(options.strictW3C && options.displayBefore)
    requires outcome.Throws? || context.request.identity.None?
    ensures var t := Invocation(options, context, outcome, clock);
            && ((exists i :: 0 <= i < |t.events| && t.events[i].Error?) <==> options.displayExceptions)
            && (t.completion.Raised? <==> options.rethrowExceptions)
            && (!options.rethrowExceptions ==> t.completion == Completed)
            && (t.completion.Raised? ==>
                  t.completion.fault == if context.request.identity.None? then NullReference else outcome.fault)
  {
    var t := Invocation(options, context, outcome, clock);
    var before := if context.request.identity.None? then 0 else HandlerIndex(options) + 1;
    var after := if options.displayAfter then 1 else 0;
    assert |t.events| == before + after + (if options.displayExceptions then 1 else 0);
    assert forall i :: 0 <= i < before + after ==> !t.events[i].Error?;
    if options.displayExceptions {
      assert t.events[before + after].Error?;
    }
  }

  /**
   * A null identity fails inside the population, before the handler: the handler is never
   * called, and the end record and error record see the bag with only the remote address set.
   */
  lemma NullIdentitySkipsHandler(options: Options, context: Context, outcome: Outcome, clock: Clock)
    requires !(options.strictW3C && options.displayBefore)
    requires context.request.identity.None?
    ensures var t := Invocation(options, context, outcome, clock);
            var e := EndFields(Interrupted(context.request), clock.endDate, "500", context.response.contentLength,
                               clock.elapsedMs, context.request.traceIdentifier);
            && NextInvoked !in t.events
            && t.events == (if options.displayAfter then [Message(options.strictW3C, e)] else []) +
                           (if options.displayExceptions then [Error(NullReference, "Exception during \"  \"")] else [])
            && e.authUser == "" && e.httpMethod == "" && e.userAgent == ""
  {
    var p := Interrupted(context.request);
    assert ExceptionMessage(p) == "Exception during \"" + "" + " " + "" + " " + "" + "\"";
    assert "Exception during \"" + "" + " " + "" + " " + "" + "\"" == "Exception during \"  \"";
  }

  /**
   * With both records written, the end record differs from the begin record only in the
   * rewritten properties: address, user, request line and user agent are the same arguments.
   */
  lemma EndRecordKeepsRequestFields(options: Options, context: Context, outcome: Outcome, clock: Clock)
    requires options.displayBefore && options.displayAfter && !options.strictW3C
    requires context.request.identity.Some?
    ensures var t := Invocation(options, context, outcome, clock);
            && |t.events| >= 3 && t.events[0].Information? && t.events[2].Information?
            && |t.events[0].args| == |t.events[2].args| == 11
            && (forall i :: 0 <= i < 11 && !Rewritten(Placeholders(false)[i]) ==> t.events[2].args[i] == t.events[0].args[i])
            && t.events[0].args[10] == "begin:" + context.request.traceIdentifier
            && t.events[2].args[10] == "end:" + context.request.traceIdentifier
  {
  }

  /** With both records and a handler that returns, a request is exactly two records around the handler. */
  lemma TwoRecordsPerRequest(options: Options, context: Context, response: Response, clock: Clock)
    requires options.displayBefore && options.displayAfter && !options.strictW3C
    requires context.request.identity.Some?
    ensures var t := Invocation(options, context, Returns(response), clock);
            && |t.events| == 3 && t.events[1] == NextInvoked
            && t.events[0].Information? && t.events[2].Information?
            && t.events[0].args[10] == "begin:" + context.request.traceIdentifier
            && t.events[2].args[10] == "end:" + context.request.traceIdentifier
  {
  }

  /**
   * The strict argument list is the first eight arguments of the default list, in the same
   * order, and the strict template is a prefix of the default one; only the default list
   * carries elapsed time, user agent and identifier.
   */
  lemma StrictArgumentsArePrefix(p: Fields)
    ensures |Message(true, p).args| == 8 && |Message(false, p).args| == 11
    ensures Message(true, p).args == Message(false, p).args[..8]
    ensures Message(false, p).args[8..] == [p.elapsedMs, p.userAgent, p.identifier]
    ensures ElapsedMs !in Placeholders(true) && UserAgent !in Placeholders(true) && Identifier !in Placeholders(true)
  {
  }

  /** The strict template is the default template cut after the content length. */
  lemma StrictTemplateIsPrefix()
    ensures StrictTemplate <= DefaultTemplate
  {
  }

  /** The default template names every property of the bag. */
  lemma DefaultTemplateNamesEveryProperty()
    ensures forall k: Property :: k in Placeholders(false)
  {
    var ks := Placeholders(false);
    forall k: Property ensures k in ks {
      match k
      case RemoteIpAddress => assert ks[0] == k;
      case AuthUser => assert ks[1] == k;
      case Date => assert ks[2] == k;
      case Method => assert ks[3] == k;
      case Path => assert ks[4] == k;
      case Protocol => assert ks[5] == k;
      case StatusCode => assert ks[6] == k;
      case ContentLength => assert ks[7] == k;
      case ElapsedMs => assert ks[8] == k;
      case UserAgent => assert ks[9] == k;
      case Identifier => assert ks[10] == k;
    }
  }

  /** The begin placeholder "000" is never the text of a real status code. */
  lemma StatusPlaceholderIsNoStatus(statusCode: int)
    ensures IntToString(statusCode) != "000"
  {
  }

  /** A response that has a length never renders as the "-1" of a null length. */
  lemma LengthSentinelIsUnambiguous(length: Option<int>)
    requires length.Some? ==> length.value >= 0
    ensures ContentLengthText(length) == "-1" <==> length.None?
  {
  }

  /** The forced "500" is the text a genuine 500 response would be rendered as. */
  lemma ForcedStatusIsRendered500()
    ensures IntToString(500) == "500"
  {
  }

  /** A GET of /health from 10.0.0.5 by an anonymous user, answered 204 with no body length, under the defaults. */
  lemma HealthCheckExample(traceId: string, clock: Clock)
    ensures var request := Request(Some("10.0.0.5"), Some(Identity(None)), "GET", "/health", "HTTP/1.1", None, traceId);
            var t := Invocation(DefaultOptions, Context(request, Response(200, None)), Returns(Response(204, None)), clock);
            t == Trace([Information(DefaultTemplate, ["10.0.0.5", "-", clock.beginDate, "GET", "/health", "HTTP/1.1",
                                                      "000", "0", "0", "-", "begin:" + traceId]),
                        NextInvoked,
                        Information(DefaultTemplate, ["10.0.0.5", "-", clock.endDate, "GET", "/health", "HTTP/1.1",
                                                      "204", "-1", clock.elapsedMs, "-", "end:" + traceId])],
                       Completed)
  {
    assert NatToString(2) == "2";
    assert NatToString(20) == "20";
    assert NatToString(204) == "204";
    assert NatToString(1) == "1";
    assert IntToString(-1) == "-1";
    var request := Request(Some("10.0.0.5"), Some(Identity(None)), "GET", "/health", "HTTP/1.1", None, traceId);
    var t := Invocation(DefaultOptions, Context(request, Response(200, None)), Returns(Response(204, None)), clock);
    assert |t.events| == 3;
    assert t.events[0] == Information(DefaultTemplate, ["10.0.0.5", "-", clock.beginDate, "GET", "/health", "HTTP/1.1",
                                                      "000", "0", "0", "-", "begin:" + traceId]);
    assert t.events[1] == NextInvoked;
    assert t.events[2] == Information(DefaultTemplate, ["10.0.0.5", "-", clock.endDate, "GET", "/health", "HTTP/1.1",
                                                      "204", "-1", clock.elapsedMs, "-", "end:" + traceId]);
  }
}
