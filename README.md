# SerilogW3cMiddleware, modelled in Dafny

An ASP.NET Core middleware that writes one access-log line per request to Serilog, in a layout
derived from the Common Log Format. Before the request runs it can log a "begin" line with
placeholder values. After the next handler returns it can log an "end" line with the response
status, length and elapsed time. When the handler throws it can log an "end" line with status
500 and an error record, and it can rethrow. A strict W3C mode keeps only the first eight
fields of the line, and it cannot be combined with the "begin" line.

The model has five modules:

- `Optional`: `Option`, standing for a .NET null, and `GetOr`, the C# `??`.
- `Decimal`: the decimal text that `int.ToString()` and `long.ToString()` produce, with a
  reader for that text that serves as its inverse.
- `SerilogW3c`: the code of `SerilogW3cMiddleware.cs`. It holds the options and their defaults,
  the `LogProperties` bag as a class whose fields `Invoke` overwrites, and `LogIt`. `LogIt` is
  a method over the pure choice `Message`, which picks the template and the argument list.
  `Invoke` is an imperative method. It is proved to follow `Invocation`, a function giving, for
  one request, the events in order and how the call ends.
- `TemplateText`: the proof that each template text is its placeholder list written out, each
  name in braces after the literal text that precedes it. Serilog binds the i-th argument to the
  i-th placeholder, so this ties the argument order of `Message` to the names in the text.
- `W3cProperties`: lemmas over `Invocation`. They cover the rejection of StrictW3C with
  DisplayBefore, the begin record and its placeholders, the end record on return and on throw,
  the forced `"500"`, the fields the end record keeps, the catch decisions, and the strict
  argument list.

The environment is made of inputs:

- the request fields, with the nullable ones as `Option`;
- the response as it stands before the handler runs;
- the handler's outcome: `Returns(response)` or `Throws(response, fault)`;
- a `Clock` holding the two formatted dates and the formatted elapsed time as opaque strings.

Every call the middleware makes outside itself is recorded, in order, in one trace of `Event`s
kept by the `Host` object:

- `Information(template, args)` for `Log.Information`;
- `Error(fault, message)` for `Log.Error`;
- `NextInvoked` for the call of the next handler.

With this trace, "before the handler runs" is a statement about order.

Notes on the source's behaviour:

- The StrictW3C/DisplayBefore check runs at the start of every `Invoke`. It does not run at
  construction, and the constructor accepts any options.
- The exception record is written with `Log.Error` only, never at another level.
- The `try` block begins before the bag is filled, so a null `User.Identity` is caught by the
  same `catch` as a handler exception. The model keeps this path (`NullReference`): the handler
  is not called, and on entry to the catch block only the remote address has been set in the
  bag. Every other property is still the empty string there, so the error record names an
  empty method, path and protocol, and the "500" record keeps an empty user and user agent.

## Model

| member | source | states |
|---|---|---|
| `Decimal.NatToString` | SerilogW3cMiddleware.cs:94 | the text of a natural number is a non-empty string of digits with no leading zero |
| `Decimal.IntToString` | SerilogW3cMiddleware.cs:94-95 | `ToString()` of an integer: it starts with '-' exactly when the number is negative, the rest is digits, and "0" is the only text that starts with a zero |
| `Decimal.NatRoundTrip` | SerilogW3cMiddleware.cs:94 | reading the digits of a natural number gives the number back |
| `Decimal.IntRoundTrip` | SerilogW3cMiddleware.cs:94-95 | reading a rendered status code or length gives the number back |
| `Decimal.IntToStringInjective` | SerilogW3cMiddleware.cs:94-95 | two distinct numbers never render as the same text |
| `SerilogW3c.Placeholders` | SerilogW3cMiddleware.cs:126-127 | the strict template has 8 placeholders and the default template 11 |
| `SerilogW3c.Name` | SerilogW3cMiddleware.cs:126 | each property's placeholder name is non-empty and holds no brace |
| `SerilogW3c.Separators` | SerilogW3cMiddleware.cs:126-127 | there is one literal separator before each placeholder, and no separator holds a brace |
| `TemplateText.RenderStep` | SerilogW3cMiddleware.cs:126 | writing out one more placeholder appends its separator and its braced name to the text |
| `TemplateText.TemplatesSpellPlaceholders` | SerilogW3cMiddleware.cs:126-127 | each template text, character for character, is its placeholder list written out in order, so the i-th `{...}` of the text is the i-th placeholder |
| `SerilogW3c.Message` | SerilogW3cMiddleware.cs:129-133 | the template is the one the StrictW3C flag selects, and the i-th argument is the bag's value for the template's i-th placeholder, with 8 arguments in strict mode and 11 otherwise |
| `SerilogW3c.Invocation` | SerilogW3cMiddleware.cs:54-122 | the call is rejected exactly when StrictW3C and DisplayBefore are both set, with no event at all, and a handler that returns is never turned into a rethrown handler exception |
| `SerilogW3c.LogProperties.constructor` | SerilogW3cMiddleware.cs:29-42 | a new bag holds the empty string in all eleven properties |
| `SerilogW3c.LogProperties.Begin` | SerilogW3cMiddleware.cs:69-82 | the bag before the handler holds the request's fields with "-" for missing ones, "000", "0", "0" and "begin:" plus the trace id |
| `SerilogW3c.LogProperties.End` | SerilogW3cMiddleware.cs:91-97 | the rewrite after the handler changes date, status, length (or "-1"), elapsed time and identifier ("end:" plus the trace id), and nothing else |
| `SerilogW3c.Host.Emit` | SerilogW3cMiddleware.cs:130-132 | a call into the sink appends exactly that call to the trace |
| `SerilogW3c.SerilogW3cMiddleware.constructor` | SerilogW3cMiddleware.cs:47-52 | the middleware keeps the options it is given, whatever they are |
| `SerilogW3c.SerilogW3cMiddleware.LogIt` | SerilogW3cMiddleware.cs:124-134 | exactly one record is appended: `Message` of the bag's current values |
| `SerilogW3c.SerilogW3cMiddleware.Catch` | SerilogW3cMiddleware.cs:101-121 | the catch block appends the "500" end record if DisplayAfter, then the error record naming the request line if DisplayExceptions, and rethrows exactly when RethrowExceptions |
| `SerilogW3c.SerilogW3cMiddleware.Invoke` | SerilogW3cMiddleware.cs:54-122 | the events appended and the way the call ends are exactly those of `Invocation` |
| `W3cProperties.RejectsStrictWithBefore` | SerilogW3cMiddleware.cs:56-58 | with StrictW3C and DisplayBefore the call fails with the ArgumentException before any record or handler call, whatever the request; otherwise the handler runs unless the identity is null |
| `W3cProperties.DefaultsLogBeginAndEnd` | SerilogW3cMiddleware.cs:14-25 | under the default options a request whose handler returns gives exactly a begin record with "begin:" plus the trace id, the handler call, and an end record with "end:" plus the trace id, and completes |
| `W3cProperties.MissingDataDegrades` | SerilogW3cMiddleware.cs:68-81 | a null address, identity name or absent User-Agent header becomes "-", and a present one is copied unchanged |
| `W3cProperties.BeginRecordComesFirst` | SerilogW3cMiddleware.cs:74-88 | with DisplayBefore the first event is the begin record, carrying "000", "0", "0" and "begin:" plus the trace id, and the handler call comes right after it |
| `W3cProperties.ReturnedRequestEndRecord` | SerilogW3cMiddleware.cs:88-100 | after a handler that returns, exactly one record follows if DisplayAfter and none otherwise; its status reads back as the response status, its length is the response length or "-1", its identifier is "end:" plus the trace id; the call completes normally |
| `W3cProperties.ThrownRequestEndRecord` | SerilogW3cMiddleware.cs:101-120 | after a handler that throws, the optional end record has status "500" whatever the response status, and the optional error record names method, path and protocol; the exception is rethrown exactly when RethrowExceptions is set |
| `W3cProperties.CatchDecisions` | SerilogW3cMiddleware.cs:114-120 | on every caught exception an error record exists if and only if DisplayExceptions is set, and the exception leaves Invoke if and only if RethrowExceptions is set, otherwise the call completes |
| `W3cProperties.NullIdentitySkipsHandler` | SerilogW3cMiddleware.cs:65-69 | a null identity is caught before the handler runs: the handler is never called, and the records see empty user, method and user agent |
| `W3cProperties.EndRecordKeepsRequestFields` | SerilogW3cMiddleware.cs:91-97 | the end record's address, user, method, path, protocol and user agent arguments equal the begin record's; identifiers are "begin:" and "end:" with the same trace id |
| `W3cProperties.TwoRecordsPerRequest` | SerilogW3cMiddleware.cs:84-100 | with both records on, a request whose handler returns produces exactly: begin record, handler call, end record |
| `W3cProperties.StrictArgumentsArePrefix` | SerilogW3cMiddleware.cs:129-133 | the strict argument list is the first 8 of the 11 default arguments, in the same order; the default list ends with elapsed time, user agent and identifier, which the strict list lacks |
| `W3cProperties.StrictTemplateIsPrefix` | SerilogW3cMiddleware.cs:126-127 | the strict template text is a prefix of the default template text |
| `W3cProperties.DefaultTemplateNamesEveryProperty` | SerilogW3cMiddleware.cs:126 | every property of the bag is in the default template's placeholder list, which `TemplatesSpellPlaceholders` ties to the template text |
| `W3cProperties.StatusPlaceholderIsNoStatus` | SerilogW3cMiddleware.cs:74 | the "000" placeholder is never the text of a real status code |
| `W3cProperties.LengthSentinelIsUnambiguous` | SerilogW3cMiddleware.cs:95 | for non-negative lengths, the text is "-1" exactly when the length is null |
| `W3cProperties.ForcedStatusIsRendered500` | SerilogW3cMiddleware.cs:106 | the forced "500" is the text a genuine 500 status renders to |
| `W3cProperties.HealthCheckExample` | SerilogW3cMiddleware.cs:68-99 | GET /health from 10.0.0.5, anonymous, answered 204 with no length, under the defaults: the two exact argument lists around the handler call |

## Left out

- `Extensions.AddSerilogW3cMiddleware` and `UseSerilogW3cMiddleware` (lines 144-159): dependency-injection and pipeline registration. These are thin wrappers over ASP.NET Core.
- `GetElapsedMilliseconds` (lines 137-140): `double` arithmetic over the host's `Stopwatch.Frequency`. The elapsed time is an opaque string input, so the model places it but says nothing about its value. In particular, it does not show that the value is non-negative.
- Date formatting (lines 70, 93 and 105): it depends on the clock and the culture, so both dates are opaque string inputs. The format string puts `MM` (month) where minutes are evidently meant. The model does not capture this, because the date text is not modelled.
- Serilog's rendering of message templates and its serialisation of exceptions: an `Information` event keeps the template and the argument list, and an `Error` event keeps the exception and the message.
- The logging sink throwing: the sink is assumed not to throw. In the source, a failure of the success-path end record would re-enter the catch block.
- Exceptions from the other reads of the context (headers, connection, response): only the null `User.Identity` is modelled as a fault before the handler.
- `async`/`Task` suspension in `Next.Invoke`: the handler is one call with one outcome. Concurrency across requests is not modelled either; each invocation has its own bag.
- The text of `IPAddress.ToString()`, of `PathString` (which percent-escapes the path) and of a multi-valued `User-Agent` header: each is an input string as already rendered.
- The header lookup by name (case-insensitive in ASP.NET Core): the request carries the header's presence and text directly.
- `Decimal.IntToString`: it does not model the 32-bit width of the status code or the 64-bit width of the content length, because integers are unbounded here and no value of those widths renders differently. It also does not model a culture whose negative sign is not '-'.
- Options are an immutable value. The source's options object has setters, and a change made after construction would be seen by the next request. The model fixes the options for the lifetime of the middleware.
