/**
 * The request-logging middleware: its options, the per-request property bag, the choice of
 * message template and arguments (LogIt) and the before / after / error state machine (Invoke).
 *
 * The host's request, the response, the next handler's outcome and the clock are inputs.
 * Everything the middleware does outside itself, in order, is one trace of events: each
 * call into the logging sink and the one call of the next handler.
 */
module SerilogW3c {
  import opened Optional
  import opened Decimal

  // ---------------------------------------------------------------- options

  /** The five flags of `SerilogW3cMiddlewareOptions`. */
  datatype Options = Options(
    displayBefore: bool,
    displayAfter: bool,
    displayExceptions: bool,
    rethrowExceptions: bool,
    strictW3C: bool)

  /** The defaults the options class gives each flag. */
  const DefaultOptions := Options(
    displayBefore := true,
    displayAfter := true,
    displayExceptions := true,
    rethrowExceptions := true,
    strictW3C := false)

  /** The message of the `ArgumentException` thrown when both StrictW3C and DisplayBefore are set. */
  const BothSetMessage := "Can not set both StrictW3C and DisplayBefore"

  // ---------------------------------------------------------------- the environment

  /** The authenticated identity; its name is null for an anonymous user. */
  datatype Identity = Identity(name: Option<string>)

  /**
   * What the middleware reads of the request. `identity` is None when `User.Identity` is null;
   * `userAgent` is None when there is no User-Agent header, otherwise the header's text.
   * Addresses and paths are the texts their .NET objects render to.
   */
  datatype Request = Request(
    remoteIpAddress: Option<string>,
    identity: Option<Identity>,
    httpMethod: string,
    path: string,
    protocol: string,
    userAgent: Option<string>,
    traceIdentifier: string)

  /** What the middleware reads of the response: the status code and the nullable Content-Length. */
  datatype Response = Response(statusCode: int, contentLength: Option<int>)

  /** The HTTP context as it arrives: the request, and the response before any handler ran. */
  datatype Context = Context(request: Request, response: Response)

  /** An exception caught by the middleware: one raised by the next handler, or the null dereference of a missing identity. */
  datatype Fault = HandlerFault(description: string) | NullReference

  /** How the next handler ends, with the response as it then stands. */
  datatype Outcome =
    | Returns(response: Response)
    | Throws(response: Response, fault: Fault)

  /** The formatted wall-clock times and the formatted elapsed milliseconds, left uninterpreted. */
  datatype Clock = Clock(beginDate: string, endDate: string, elapsedMs: string)

  /** One call the middleware makes outside itself. */
  datatype Event =
    | Information(template: string, args: seq<string>)  // Log.Information(template, args...)
    | Error(fault: Fault, message: string)                // Log.Error(exception, message)
    | NextInvoked                                         // the call of the next handler

  /** How a call of Invoke ends. */
  datatype Completion =
    | Completed
    | Raised(fault: Fault)           // the caught exception, rethrown
    | Rejected(message: string)      // the ArgumentException of the option check

  /** Everything one call of Invoke does: its events in order, and how it ends. */
  datatype Trace = Trace(events: seq<Event>, completion: Completion)

  // ---------------------------------------------------------------- log properties

  /** The eleven properties of a log record, in the order the default template names them. */
  datatype Property =
    | RemoteIpAddress | AuthUser | Date | Method | Path | Protocol
    | StatusCode | ContentLength | ElapsedMs | UserAgent | Identifier

  /** The value of a `LogProperties` bag at one moment. */
  datatype Fields = Fields(
    remoteIpAddress: string,
    authUser: string,
    date: string,
    httpMethod: string,
    path: string,
    protocol: string,
    statusCode: string,
    contentLength: string,
    elapsedMs: string,
    userAgent: string,
    identifier: string)
  {
    function Get(k: Property): string {
      match k
      case RemoteIpAddress => remoteIpAddress
      case AuthUser => authUser
      case Date => date
      case Method => httpMethod
      case Path => path
      case Protocol => protocol
      case StatusCode => statusCode
      case ContentLength => contentLength
      case ElapsedMs => elapsedMs
      case UserAgent => userAgent
      case Identifier => identifier
    }
  }

  /** A fresh bag: every property is `String.Empty`. */
  const EmptyFields := Fields("", "", "", "", "", "", "", "", "", "", "")

  /** The per-request property bag that Invoke fills in and overwrites field by field. */
  class LogProperties {
    var remoteIpAddress: string
    var authUser: string
    var date: string
    var httpMethod: string
    var path: string
    var protocol: string
    var statusCode: string
    var contentLength: string
    var elapsedMs: string
    var userAgent: string
    var identifier: string

    constructor ()
      ensures Value() == EmptyFields
    {
      remoteIpAddress, authUser, date, httpMethod, path, protocol := "", "", "", "", "", "";
      statusCode, contentLength, elapsedMs, userAgent, identifier := "", "", "", "", "";
    }

    function Value(): Fields
      reads this
    {
      Fields(remoteIpAddress, authUser, date, httpMethod, path, protocol,
             statusCode, contentLength, elapsedMs, userAgent, identifier)
    }

    /** The population before the handler runs, after the remote address is set. */
    method Begin(request: Request, identity: Identity, date: string)
      requires remoteIpAddress == request.remoteIpAddress.GetOr("-")
      modifies this
      ensures Value() == BeginFields(request, identity, date)
    {
      authUser := identity.name.GetOr("-");
      this.date := date;
      httpMethod := request.httpMethod;
      path := request.path;
      protocol := request.protocol;
      statusCode := "000";
      contentLength := "0";
      elapsedMs := "0";
      if request.userAgent.Some? {
        userAgent := request.userAgent.value;
      } else {
        userAgent := "-";
      }
      identifier := "begin:" + request.traceIdentifier;
    }

    /** The rewrite after the handler: date, status, length, elapsed time and identifier. */
    method End(date: string, statusCode: string, length: Option<int>, elapsedMs: string, traceIdentifier: string)
      modifies this
      ensures Value() == EndFields(old(Value()), date, statusCode, length, elapsedMs, traceIdentifier)
    {
      this.date := date;
      this.statusCode := statusCode;
      contentLength := ContentLengthText(length);
      this.elapsedMs := elapsedMs;
      identifier := "end:" + traceIdentifier;
    }
  }

  // ---------------------------------------------------------------- LogIt

  const DefaultTemplate := "{RemoteIpAddress} - {AuthUser} [{Date}] \"{Method} {Path} {Protocol}\" {StatusCode} {ContentLength} {ElapsedMs} \"{UserAgent}\" {Identifier}"

  const StrictTemplate := "{RemoteIpAddress} - {AuthUser} [{Date}] \"{Method} {Path} {Protocol}\" {StatusCode} {ContentLength}"

  /**
   * The placeholders of the template, left to right: the sink binds the i-th argument to the
   * i-th placeholder. `TemplateText.TemplatesSpellPlaceholders` proves that the template texts
   * are these placeholders, written out by `Render`.
   */
  function Placeholders(strictW3C: bool): (ks: seq<Property>)
    ensures |ks| == if strictW3C then 8 else 11
  {
    var strict := [RemoteIpAddress, AuthUser, Date, Method, Path, Protocol, StatusCode, ContentLength];
    if strictW3C then strict else strict + [ElapsedMs, UserAgent, Identifier]
  }

  /** The name a property has inside the braces of a template. */
  function Name(k: Property): (n: string)
    ensures |n| > 0 && forall j :: 0 <= j < |n| ==> n[j] != '{' && n[j] != '}'
  {
    match k
    case RemoteIpAddress => "RemoteIpAddress"
    case AuthUser => "AuthUser"
    case Date => "Date"
    case Method => "Method"
    case Path => "Path"
    case Protocol => "Protocol"
    case StatusCode => "StatusCode"
    case ContentLength => "ContentLength"
    case ElapsedMs => "ElapsedMs"
    case UserAgent => "UserAgent"
    case Identifier => "Identifier"
  }

  /** The literal text that stands before each placeholder of the template. */
  function Separators(strictW3C: bool): (ss: seq<string>)
    ensures |ss| == |Placeholders(strictW3C)|
    ensures forall i, j :: 0 <= i < |ss| && 0 <= j < |ss[i]| ==> ss[i][j] != '{' && ss[i][j] != '}'
  {
    var strict := ["", " - ", " [", "] \"", " ", " ", "\" ", " "];
    if strictW3C then strict else strict + [" ", " \"", "\" "]
  }

  /** A template written out: each placeholder in braces, after its separator. */
  function Render(ks: seq<Property>, seps: seq<string>): string
    requires |seps| == |ks|
  {
    if ks == [] then ""
    else Render(ks[..|ks| - 1], seps[..|ks| - 1]) + seps[|ks| - 1] + "{" + Name(ks[|ks| - 1]) + "}"
  }

  function Template(strictW3C: bool): string {
    if strictW3C then StrictTemplate else DefaultTemplate
  }

  /** The record LogIt hands to the sink: the template the mode selects and the argument list the code passes. */
  function Message(strictW3C: bool, p: Fields): (e: Event)
    ensures e.Information? && e.template == Template(strictW3C)
    ensures |e.args| == |Placeholders(strictW3C)|
    ensures forall i :: 0 <= i < |e.args| ==> e.args[i] == p.Get(Placeholders(strictW3C)[i])
  {
    if strictW3C then
      Information(StrictTemplate, [p.remoteIpAddress, p.authUser, p.date, p.httpMethod, p.path, p.protocol,
                                   p.statusCode, p.contentLength])
    else
      Information(DefaultTemplate, [p.remoteIpAddress, p.authUser, p.date, p.httpMethod, p.path, p.protocol,
                                    p.statusCode, p.contentLength, p.elapsedMs, p.userAgent, p.identifier])
  }

  // ---------------------------------------------------------------- the fields Invoke writes

  /** `$"{length ?? -1}"`: the response length, or -1 when it is null. */
  function ContentLengthText(length: Option<int>): string {
    IntToString(length.GetOr(-1))
  }

  /** The text of the error record: the request line as it stands in the bag. */
  function ExceptionMessage(p: Fields): string {
    "Exception during \"" + p.httpMethod + " " + p.path + " " + p.protocol + "\""
  }

  /** The bag as it stands when a null identity interrupts the population: only the remote address is set. */
  function Interrupted(request: Request): Fields {
    EmptyFields.(remoteIpAddress := request.remoteIpAddress.GetOr("-"))
  }

  /** The bag before the handler runs: request fields, placeholders for the response, and the begin identifier. */
  function BeginFields(request: Request, identity: Identity, date: string): Fields {
    Fields(
      remoteIpAddress := request.remoteIpAddress.GetOr("-"),
      authUser := identity.name.GetOr("-"),
      date := date,
      httpMethod := request.httpMethod,
      path := request.path,
      protocol := request.protocol,
      statusCode := "000",
      contentLength := "0",
      elapsedMs := "0",
      userAgent := request.userAgent.GetOr("-"),
      identifier := "begin:" + request.traceIdentifier)
  }

  /** The bag after the handler: five properties rewritten, the request fields left as they were. */
  function EndFields(p: Fields, date: string, statusCode: string, length: Option<int>,
                     elapsedMs: string, traceIdentifier: string): Fields
  {
    p.(date := date, statusCode := statusCode, contentLength := ContentLengthText(length),
       elapsedMs := elapsedMs, identifier := "end:" + traceIdentifier)
  }

  /** The catch block, entered with the bag `p` and the response as it stands. */
  function Recover(options: Options, p: Fields, response: Response, clock: Clock, traceIdentifier: string,
                   fault: Fault): Trace
  {
    var after :=
      if options.displayAfter then
        [Message(options.strictW3C, EndFields(p, clock.endDate, "500", response.contentLength, clock.elapsedMs, traceIdentifier))]
      else [];
    var error := if options.displayExceptions then [Error(fault, ExceptionMessage(p))] else [];
    Trace(after + error, if options.rethrowExceptions then Raised(fault) else Completed)
  }

  /** Everything one call of Invoke does, for the given options, context, handler outcome and clock. */
  function Invocation(options: Options, context: Context, outcome: Outcome, clock: Clock): (t: Trace)
    ensures t.completion.Rejected? <==> options.strictW3C && options.displayBefore
    ensures t.completion.Rejected? ==> t.events == []
    ensures outcome.Returns? && t.completion.Raised? ==> t.completion.fault == NullReference
  {
    var request := context.request;
    if options.strictW3C && options.displayBefore then
      Trace([], Rejected(BothSetMessage))
    else
      match request.identity
      case None =>
        Recover(options, Interrupted(request), context.response, clock, request.traceIdentifier, NullReference)
      case Some(identity) =>
        var begin := BeginFields(request, identity, clock.beginDate);
        var before := (if options.displayBefore then [Message(options.strictW3C, begin)] else []) + [NextInvoked];
        match outcome
        case Returns(response) =>
          var after :=
            if options.displayAfter then
              [Message(options.strictW3C, EndFields(begin, clock.endDate, IntToString(response.statusCode),
                                                    response.contentLength, clock.elapsedMs, request.traceIdentifier))]
            else [];
          Trace(before + after, Completed)
        case Throws(response, fault) =>
          var recovered := Recover(options, begin, response, clock, request.traceIdentifier, fault);
          Trace(before + recovered.events, recovered.completion)
  }

  // ---------------------------------------------------------------- the middleware

  /** The logging sink and the next handler, seen from the middleware: the calls it makes on them, in order. */
  class Host {
    var events: seq<Event>

    constructor ()
      ensures events == []
    {
      events := [];
    }

    method Emit(e: Event)
      modifies this
      ensures events == old(events) + [e]
    {
      events := events + [e];
    }
  }

  class SerilogW3cMiddleware {
    const options: Options
    const host: Host

    constructor (options: Options, host: Host)
      ensures this.options == options && this.host == host
    {
      this.options := options;
      this.host := host;
    }

    /** Hands the bag's current values to the sink, under the template the mode selects. */
    method LogIt(properties: LogProperties)
      modifies host
      ensures host.events == old(host.events) + [Message(options.strictW3C, properties.Value())]
    {
      var e := Message(options.strictW3C, properties.Value());
      host.Emit(e);
    }

    /** The catch block: the end record with status 500, the error record, and the rethrow decision. */
    method Catch(properties: LogProperties, response: Response, clock: Clock, traceIdentifier: string, fault: Fault)
      returns (completion: Completion)
      modifies host, properties
      ensures var t := Recover(options, old(properties.Value()), response, clock, traceIdentifier, fault);
              host.events == old(host.events) + t.events && completion == t.completion
    {
      if options.displayAfter {
        properties.End(clock.endDate, "500", response.contentLength, clock.elapsedMs, traceIdentifier);
        LogIt(properties);
      }
      if options.displayExceptions {
        host.Emit(Error(fault, ExceptionMessage(properties.Value())));
      }
      if options.rethrowExceptions {
        return Raised(fault);
      }
      return Completed;
    }

    /** Handles one request: the option check, the begin record, the handler, then the end or error records. */
    method Invoke(context: Context, outcome: Outcome, clock: Clock) returns (completion: Completion)
      modifies host
      ensures completion == Invocation(options, context, outcome, clock).completion
      ensures host.events == old(host.events) + Invocation(options, context, outcome, clock).events
    {
      if options.strictW3C && options.displayBefore {
        return Rejected(BothSetMessage);
      }
      var request := context.request;
      var properties := new LogProperties();
      properties.remoteIpAddress := request.remoteIpAddress.GetOr("-");
      if request.identity.None? {
        assert properties.Value() == Interrupted(request);
        completion := Catch(properties, context.response, clock, request.traceIdentifier, NullReference);
        return;
      }
      var identity := request.identity.value;
      properties.Begin(request, identity, clock.beginDate);
      ghost var begin := BeginFields(request, identity, clock.beginDate);
      if options.displayBefore {
        LogIt(properties);
      }
      host.Emit(NextInvoked);
      ghost var before := (if options.displayBefore then [Message(options.strictW3C, begin)] else []) + [NextInvoked];
      assert host.events == old(host.events) + before;
      match outcome {
        case Returns(r) =>
          if options.displayAfter {
            properties.End(clock.endDate, IntToString(r.statusCode), r.contentLength, clock.elapsedMs,
                           request.traceIdentifier);
            LogIt(properties);
          }
          completion := Completed;
        case Throws(r, f) =>
          completion := Catch(properties, r, clock, request.traceIdentifier, f);
      }
    }
  }
}
