# go-httpserver, verified model

go-httpserver is a typed layer over `net/http`: a request runs through a chain of middleware to a handler,
both working on one `Context` that holds the pending response; the response, or a takeover of the connection,
is committed after the chain returns; request structs are compiled once into binding metadata and then filled
from headers, cookies, query, path and body. This project models that behaviour in Dafny and proves what it
promises, for every middleware stack, every request type, every request and every interleaving.

Code that changes state is modelled by classes and methods, each proved against a function of the old state;
the properties are lemmas about those functions. Where a function could be wrong together with its method, a
reference definition that shares nothing with it, with its constants written out, is proved equal: call traces
without tickets (ContextTrace.dfy), type acceptance on the fields (TagAcceptance.dfy), binding on tags and request
(DirectBinding.dfy), the payloads of a stream (StreamWriter.dfy). User code is arbitrary: a middleware or handler is any program
over the calls of the API, with branches decided by an arbitrary oracle (`Choose`), panics and recovers, and any
number of calls of `next`; a stream body is the list of calls it makes on its `StreamWriter` and the way it ends.
The network, `json.Marshal` and the library functions whose source is elsewhere are parameters.

| file | models |
|---|---|
| Wire.dfy | the `net/http` response writer behind a request (environment) |
| StreamWriter.dfy | stream_writer.go and its accounting |
| Context.dfy, ContextTrace.dfy | context.go, response handles, and a ticket-free specification of call sequences |
| Response.dfy | `writeResponse` |
| Router.dfy, Server.dfy | groups, dispatcher, `ServeHTTP`, and the outcome of one request |
| UserTrace.dfy | from the calls a handler makes to the status, headers and body the client receives |
| GoSlice.dfy | slices with shared backing arrays and arbitrary growth |
| Tags.dfy, TagTheorems.dfy, TagAcceptance.dfy, TagCache.dfy | request_tags.go: compiler, exact acceptance, field order, soundness for the binders, shared cache |
| Binding.dfy, RequestHandler.dfy | request_bind.go, the binders, and request.go |
| DirectBinding.dfy | what binding comes to, read off the struct tags and the request alone, and why the compiled binder computes it |
| BodyRace.dfy | the goroutine, channel, timer and cancellation of `bindFullTextBodyWithTimeout`, with reads that block |
| TextBinder.dfy | bindForm and bindJson as the program of that goroutine, and what `parse` sees of the race |
| Charset.dfy, Json.dfy, PathValues.dfy | `charsetReader`, the one-value check of `bindJson`, `getPathValues` |

Findings about the code:

- A `StreamWriter` reports the status that really went out exactly when the first deciding call is not
  `WriteHeader(101)`, which commits without being recorded, or a code above 999, which is recorded although
  the connection refuses it (`AccountingIsExact`; one input for each in `MisrecordedStatuses`). The server is not
  affected: it always commits a status between 200 and 599 before user code sees the writer.
- `Hijacked()` is not the same as "the body is a hijack function": such a function given to `JsonBody` is a value
  to marshal (`HijackFunctionAsJson`); with the marshaller taken into account the two agree (`HijackedMeansTakeover`).
- A UTF-8 body sent without a byte-order mark reads as itself exactly when it does not start with U+FEFF
  (`UnmarkedUtf8`); with a mark all three encodings agree for every text.
- Two body binders can match one media type exactly when a `body` field without an allowlist stands beside a form,
  JSON or multipart field (`BranchesOverlapOnlyForCatchAll`); an allowlist of white space only
  counts as none (`BlankAllowlist`).
- Without the close that comes with giving up, the binder goroutine of a silent client would wait for ever
  (`SilenceBlocksForEver`, reached by every program that starts with a read, `SilentClientBlocks`).

Two lemmas only illustrate: `Routers.GroupsAreIndependent` replays the scenario of sibling groups over one caller
slice, and `ContextTraces.HijackFunctionAsJson` is the two-call trace behind the finding about `Hijacked()`.

## Model

| member | source | states |
|---|---|---|
| StreamWriters.StreamWriter.WriteHeader | stream_writer.go:44-49 | forwards every code; records the first one from 200 up; a detached writer panics after recording |
| StreamWriters.StreamWriter.Write | stream_writer.go:54-61 | an earlier write than any status records 200; bytes accepted by the connection are added up |
| StreamWriters.StreamWriter.Hijack | stream_writer.go:76-87 | detaches the writer exactly when the connection was taken over |
| StreamWriters.AccountingIsExact | stream_writer.go:44-61 | for all calls of WriteHeader and Write, with any codes, no takeover among them, ended or not by a panic: recorded status and byte count equal the connection's if and only if the first deciding call is one StreamWriter records correctly |
| StreamWriters.CommittedThroughCalls | stream_writer.go:23-31 | after a committed status no call changes it, its headers or earlier bytes, the accounting stays exact, and only a takeover makes calls panic |
| Contexts.Context.NewResponse | context.go:70-78 | panics and changes nothing outside 200..599; otherwise a fresh response, cleared headers and a new live handle |
| Contexts.Context.Hijack | context.go:104-110 | a nil body panics and changes nothing; otherwise the pending response is discarded and every handle goes stale |
| Contexts.Context.SetBody | response.go:59-111 | a stale or zero handle panics and changes nothing; a live one replaces body, marshaller and Content-Type |
| ContextTraces.Replay | context.go:55-115 | calls made on the Context object compute the state, headers, handles and panics of the trace function |
| ContextTraces.ContextFollowsTrace | context.go:62-110 | after any calls through any handles: pending status, body and marshaller are those of the last reset and the last live setter after it, every header has the values the calls since the last new response give it, cookies added up, and exactly the stale, nil and out-of-range calls panic |
| ContextTraces.LiveMeansNoResetSince | response.go:37-41 | the ticket comparison holds if and only if the handle was really issued and nothing was reset since |
| ContextTraces.StaleSetterChangesNothing | response.go:25-41 | a setter or cookie through a stale handle leaves Context and headers as they were |
| ContextTraces.TraceIsReachable | context.go:70-110 | every reachable Context has a status of 0 or 200..599, and only bodies `writeResponse` supports |
| ContextTraces.BodyIsAlwaysSupported | response.go:221-226 | the unsupported-body branch is unreachable, and a body is only ever written under a valid status |
| ContextTraces.HijackedMeansTakeover | context.go:112-115 | `Hijacked()` holds if and only if a hijack function is stored to be run |
| ResponseWrites.WriteResponse | response.go:144-229 | the method computes the commit function, with the Context cleared before stream and hijack bodies run and a panic inside json.Marshal passed on |
| ResponseWrites.CommitOutcome | response.go:129-142 | committing any reachable state on an untouched connection ends in a response, a takeover closed once, or a takeover made by the stream body, unless marshalling panics, which passes on with nothing sent |
| ResponseWrites.CommitSendsPendingResponse | response.go:150-190 | status, headers and whole body of the pending response go out; it aborts if and only if the network refuses part of the body; a value json.Marshal refuses is an empty 500, one it panics on sends nothing |
| StreamWriters.CallsReachTheClient | stream_writer.go:54-87 | every call of a stream body runs: of its k-th write the client gets the prefix the network accepts, up to a granted takeover, and it dies exactly on a call after one |
| StreamWriters.EverythingIsTaken | stream_writer.go:54-61 | a network that accepts each write whole gets the concatenated payloads |
| ResponseWrites.CommitStreams | response.go:191-202 | after status and headers the calls of the stream body run with the Context cleared: the client gets what the network accepts of each write, and the commit aborts if and only if the body does not return nil or dies without its connection |
| ResponseWrites.CommitWithoutResponse | response.go:203-220 | a takeover the connection allows sends nothing and closes once, also when its body panics; otherwise an empty 500 |
| ResponseWrites.CommitIsFinal | response.go:145-148 | committing kills every handle, and a cleared Context commits nothing again |
| Routers.RouteCall.Dispatcher | router.go:71-79 | the recursive dispatcher on the objects computes the dispatch function |
| Routers.DispatcherIsInlining | router.go:72-79 | dispatching from any index equals running the chain with each tail substituted for `next`, with any repeats, panics and recovers |
| Routers.OnionOrder | router.go:63-66 | layers of arbitrary code around one call of next run outside in, then the handler, then inside out, and the first panic skips everything after it |
| Routers.CookiesAccumulate | response.go:53-57 | a new response has no headers, and Set-Cookie then lists exactly the added cookies in order |
| Routers.Group | router.go:55-61 | the group's chain is the parent's followed by the given one, in memory nobody else holds, and nothing that existed changes |
| Servers.ServeHTTP | server.go:94-122 | the boundary with its recovery computes the serve function |
| Servers.UserCodeStaysOffTheWire | router.go:22-28 | whatever user code does, nothing reaches the connection before the commit and the Context stays committable |
| Servers.RequestEndsInOneWay | server.go:87-122 | every request ends in exactly one of four ways: response, takeover closed once, takeover by the stream body, or an abort after a status or takeover |
| Servers.PanicBecomesEmpty500 | server.go:112-117 | a panic let out by the chain becomes an empty 500 and a normal return, whatever was pending |
| Servers.PendingResponseIsDelivered | router.go:84-88 | the response pending when the chain returns is what the client gets; aborted if and only if the network refused part of the body; a body that cannot be marshalled, by error or panic, is an empty 500 |
| Servers.NoResponseIsTakeoverOrEmpty500 | router.go:67-69 | without a response a pending takeover is committed if the connection allows it, else the client gets an empty 500 |
| Servers.StreamIsDelivered | response.go:71-86 | a stream body cannot change status or headers, its writes are what the client gets as far as the network accepts them, and the request aborts if and only if the body fails |
| Servers.WholeStreamIsDelivered | response.go:191-202 | without a takeover, on a network that accepts each write, the client gets all payloads in order, and the request aborts if and only if the body does not return nil |
| UserTraces.ActionsFollowTrace | context.go:62-110 | whatever calls a handler makes with handles kept in variables, Context, headers, variables and marks are those of the call trace |
| UserTraces.CallsBecomeTheResponse | router.go:63-88 | what a handler's calls say, read without tickets or handles, is what goes out: status, each header, body or stream; an empty 500 or the takeover if there is no response |
| GoSlices.Append | request_tags.go:104 | `append` in place over shared memory or into a new array, for every growth policy |
| RequestTags.TagsBuilder.Record | request_tags.go:119 | a recorded path is a copy in an array nobody else holds |
| RequestTags.TagsBuilder.CheckTag | request_tags.go:107-225 | one tag use is accepted or refused as the specification says, its allowlist is the words of its text, and its path is recorded in memory of its own |
| RequestTags.TagsBuilder.CheckRecursively | request_tags.go:94-119 | for every type tree and growth policy the caller's prefix never changes, and the result is that of the flattened tag uses with their root-to-field paths |
| TagTheorems.CompilerIsExact | request_tags.go:90-227 | the one-pass compiler accepts if and only if the bag of tag uses is well formed, and its flags, paths and allowlist are exactly those of the uses |
| TagTheorems.EventsAreTheTags | request_tags.go:94-106 | the uses found are exactly the tags of exported fields, embedded structs included, each at the path FieldByIndex follows |
| TagAcceptance.BadFieldsAreBadEmbeddings | request_tags.go:97-105 | the anonymous-field panic is met if and only if a chain of exported embedded structs leads to an exported embedded non-struct |
| TagAcceptance.TypeIsAcceptedExactly | request_tags.go:63-88 | a type is accepted if and only if its defaults apply, it is a struct, embeds only structs, every tag is a named one or stands on a field of its source's own type, two tags of one source are two named fields, and no body tag lists another body tag's media type |
| TagAcceptance.FieldOrderDoesNotMatter | request_tags.go:63-227 | permuting fields, at the top or inside embedded structs, never changes acceptance, the sources used, which are whole, or the allowlist |
| TagTheorems.CompileTags | request_tags.go:63-88 | the compiling part of createTags returns or panics as the specification says |
| TagTheorems.CompiledPathsCanBeBound | request_bind.go:85-143 | every recorded path exists, passes only exported embedded structs, and ends at a field the binder's value is assignable to |
| TagTheorems.WholeFieldIsAlone | doc.go:75-76 | a whole-source field is the only field tagged with its source |
| TagTheorems.WordsAreTheRuns | request_tags.go:223 | a string is in the allowlist if and only if it stands in the tag's text with no separator inside and a separator or an end on either side |
| TagTheorems.SeparatorsAreWhiteSpace | request_tags.go:223 | the separators are the 25 code points that Unicode calls white space |
| TagTheorems.BlankAllowlist | request_tags.go:223 | an allowlist comes out empty if and only if it is white space only |
| TagAcceptance.AllowlistIsTheTag | request_tags.go:215-225 | the compiled allowlist of a type is that of its body tag, and empty if and only if that tag is blank |
| TagTheorems.FlagsAreTheTags | request_tags.go:121 | a flag is set if and only if some reachable field carries the tag, and stream sources then have a path |
| TagCaches.EveryCallCompiles | request_tags.go:55-88 | in every interleaving each call returns or panics as compiling from scratch does, and the mutex is held exactly by calls inside |
| TagCaches.EntriesAreForever | request_tags.go:69-87 | a cache entry never changes once stored |
| TagCaches.OneCompilationAtATime | request_tags.go:55-58 | no two goroutines compile at once, and never a type already cached |
| TagCaches.CompiledOnce | request_tags.go:69-87 | once a call for a type returned, its result stays in the cache and no goroutine compiles the type again |
| TagCaches.InsideReturns | request_tags.go:67-87 | a call inside the mutex returns within four of its own turns, in any interleaving |
| TagCaches.WaitsOnlyForTheMutex | request_tags.go:67 | a waiting call is kept waiting if and only if another one is inside |
| TagCaches.EveryCallCanReturn | request_tags.go:67-68 | no reachable state is a deadlock: every waiting call can return, with the right result, within nine steps |
| Binding.GroupCookies | request_bind.go:100-104 | repeated cookie names keep all values in order; the keys are the names sent |
| Binding.CookiesKeepTheirOrder | request_bind.go:96-104 | the value of each cookie stands at its rank among the cookies of its name, and nothing else is there |
| Binding.BranchesOverlapOnlyForCatchAll | request_tags.go:77-85 | for accepted tags two body branches match one media type if and only if `body` has no allowlist beside another body source |
| Binding.SelectionIsSpecific | request_bind.go:48-78 | a body binder is selected if and only if method, length and media type ask for it; the raw body gets only what no other binder claims |
| Binding.RequestValue.BindNonBody | request_bind.go:85-143 | binds the whole source or the named fields; a value that does not fit is a 400 and a panicking conversion a panic, whichever the library meets first, and nothing else fails |
| Binding.RequestValue.Parse | request_bind.go:27-80 | for all tags and requests the outcome is that of the first failing source, a status or a panic, and success leaves what the sources supply in order |
| Binding.RejectionsCarryErrorStatus | request_bind.go:24-26 | every rejection carries a status in 400..599 |
| Binding.LastSourceWins | doc.go:96-101 | after a successful parse a field holds the converted value, the whole source or the stream of the last source supplying it: header, cookie, query, URL, body; a whole `json` field is the next row |
| Binding.WholeJsonDecodesIntoEarlierValue | request_body.go:154-158 | a whole `json` field is decoded into what the sources before the body left there |
| Binding.UnsuppliedKeepsDefault | doc.go:96-98 | a field no source supplies keeps its default |
| DirectBindings.SourcesAreTheRequests | request_bind.go:85-144 | what the sources outside the body carry is the request's header, its cookie values by name, its query, and for each wildcard the value `PathValue` finds |
| DirectBindings.SelectionIsDirect | request_bind.go:48-78 | body selection, said about the type's tags and the request: four methods, a body, a media type some tag claims or lists; 415 and 400 otherwise |
| DirectBindings.OutcomeIsDirect | request_bind.go:27-80 | for every accepted type and request `parse` succeeds, answers its status or panics exactly as tags, values and body say, the first failing source deciding |
| DirectBindings.FieldIsDirect | doc.go:94-104 | after a successful parse every field holds what its own tags and the request's own header, cookies, query, path values and body say, each source over the ones before |
| DirectBindings.NamedBodyFieldIsBound | request_body.go:133-180 | a named form or JSON field holds the conversion of its value in the decoded data |
| RequestHandlers.RequestHandler | request.go:79-99 | the method runs the request program for the defaults, the parse outcome and the validation of the bound value |
| RequestHandlers.RequestRunsExactly | request.go:79-99 | the typed handler runs if defaults apply, the request binds and the value is valid; failed defaults leave an empty 500, a rejected request an empty response of its status, an invalid value an empty 400, and a panic is passed on with nothing changed |
| RequestHandlers.HandlerIsReachedExactly | request.go:81-97 | a mark of the typed handler is left if and only if all three stages succeed |
| RequestHandlers.BindFailureReachesTheClient | request.go:38-42 | behind any middleware that reaches next, whatever it left pending, the client gets an empty response of the failure's status without the earlier headers, if the ways out leave the response alone; a panic while binding becomes 500 |
| BodyRaces.NeverShared | request_body.go:82-88 | in every interleaving the binder goroutine and the code around it never own `parsed` together; the handler touches it only after the goroutine ended |
| BodyRaces.FailureIsFinal | request_body.go:86-88 | after a failed bind nobody but a still-running goroutine touches `parsed`, and only after a 408 |
| BodyRaces.ExactlyOneMessage | request_body.go:101-113 | the goroutine sends one message in every run that ends, never to a full slot, and the caller's outcome is that message unless it gave up |
| BodyRaces.DoneDecides | request_body.go:117-121 | taking the result re-raises a panic if and only if the goroutine recovered one |
| BodyRaces.StuckOnlyInARead | request_body.go:101-113 | a running goroutine cannot move if and only if its next operation is a read, no data is there and the body is open |
| BodyRaces.SilenceBlocksForEver | request_body.go:84-86 | a blocked goroutine stays blocked through any steps but data, a broken connection, or the caller giving up |
| BodyRaces.GivingUpUnblocks | request_body.go:122-127 | in every state after a 408 the body is closed and the goroutine's own next operation is possible |
| BodyRaces.ClosedBinderEnds | request_body.go:84-86 | once the body is closed the goroutine ends in as many turns as it has operations left, whatever happens between them |
| BodyRaces.CallerCanLeave | request_body.go:116-128 | the caller can leave the select if and only if the request was cancelled, the timer fired, or the goroutine has ended |
| BodyRaces.GivingUpIsPossible | request_body.go:114-128 | in every waiting state the timer or the cancellation can come, and taking it closes the body and answers 408 |
| BodyRaces.EveryBindEnds | request_body.go:101-128 | once the timer fired and the caller took it, and the goroutine then had as many turns as its program is long, the caller has its outcome and the goroutine ended with one send, with any client and any interleaving |
| TextBinders.ReadBody | request_body.go:131-173 | charset sniffing, decoding and the trailing check composed yield the text body that depends on the bytes alone, however they arrive |
| TextBinders.FormIsReadExactly | request_body.go:134-141 | a form body is exactly the data its text parses to, and malformed if and only if it does not parse |
| TextBinders.JsonIsReadExactly | request_body.go:162-173 | a JSON body is exactly what its first value decodes to if and only if only space, tab, CR and LF follow |
| TextBinders.NamedBodyField | request_body.go:142-176 | after a successful parse a named body field holds the conversion of its value in the data of the body's text |
| TextBinders.GoroutineSends | request_body.go:102-113 | for every body and division of its reads: if no read fails the goroutine sends what the whole body calls for, success only after the last piece; from the first failed read on, what the body cut off there calls for |
| TextBinders.RaceIsItsTextBody | request_body.go:89-180 | in every interleaving the caller's outcome is exactly the one `parse` assigns to the text body the race leaves: timed out if it gave up, cut off where a read failed, or read to its end |
| TextBinders.EveryRaceEndsInAnErrorStatusOrTheBody | request_body.go:116-180 | in every interleaving a failed bind carries a status in 400..599; a nil error means no read failed, every piece was received, and the whole body was decoded and bound into `parsed`; a panic is one of decoding or converting its values |
| TextBinders.FailedReadFails | request_body.go:134-167 | after a failed read a caller that did not give up gets 500 for a form and 400 for JSON, or the panic of decoding a JSON value that was there before the failure; never a nil error |
| TextBinders.PromptBodyIsBound | request_body.go:101-121 | a body that arrives in time is bound: once the goroutine had its turns, the caller gets the outcome of the whole body |
| Charsets.CharsetReader | request_body.go:45-72 | the text depends only on the bytes of the body, not on how they arrive; an explicit charset is authoritative, an unknown one refused |
| Charsets.Utf16RoundTrip | request_body.go:38-39 | decoding the UTF-16 form of any text in either byte order gives the text back |
| Charsets.MarkedEncodingsAgree | request_body.go:52-71 | UTF-8, UTF-16LE and UTF-16BE with a byte-order mark read as the same text, the empty one included |
| Charsets.UnmarkedUtf8 | request_body.go:41-44 | valid UTF-8 is never taken for UTF-16, and unmarked text reads as itself if and only if it does not start with U+FEFF |
| JsonBodies.FirstValueExactly | request_body.go:162-164 | the first value ends where the automaton, run from its start, first decides that a value is complete |
| JsonBodies.ScanResumes | request_body.go:162-164 | a decided scan stays decided on longer input, an undecided one resumes where it stopped |
| JsonBodies.AcceptsJson | request_body.go:162-173 | for every split into reads and every read-ahead, the decoder finds one value and the trailing-data check passes if and only if the body is one value followed only by white space |
| JsonBodies.OnlySpaceMayFollow | request_body.go:168-172 | behind a finished value only white space keeps a body acceptable |
| PathValues.GetPathValues | request_path_unsafe.go:58-72 | the two-cursor loop computes the collected map and never indexes `matches` out of range |
| PathValues.KeysAreTheNames | request_path_unsafe.go:63-71 | the keys are exactly the named wildcards, each value is the match at the rank of its last wildcard, and anonymous wildcards consume none |
| PathValues.ValuesAgreeWithLookup | request_path_unsafe.go:56-57 | with distinct names every value is the one `Request.PathValue` finds by name |

## Left out

- NewServer, runner, cleaner, ServerConfig and all logging, including `MarshalZerologObject` and `funcObjects`.
- `Deadline`, `Done`, `Err`, `Value`, the getters `Status` and `Body`, `Flush`, deadlines and full duplex: thin delegation.
- ServeMux matching and the 404 it writes itself: a request is modelled from its matched route on.
- `writeResponse` on a writer that is not a StreamWriter: the server always installs one.
- Use of a Context or handle after a stream or hijack body started, or from another goroutine: documented as undefined.
- What a hijack body does on the connection it owns; only how it ends reaches the framework.
- Wrap-around of the `uint` ticket: tickets are natural numbers.
- Bit flags and the eight index fields of `requestTags`: a set of sources and a map from source to slice.
- The six repeated tag blocks of `checkRecursively` are one method with the source as parameter; the four non-body binders likewise.
- Real `reflect` and `unsafe` layout: a request type is a tree, the matched pattern a record.
- `common.ApplyDefaults`, `BindStructWithTag`, `ValidateStruct`, `mime.ParseMediaType`, `url.ParseQuery`, `charset.Lookup` and the JSON grammar: parameters, since their source is not part of this model; the library binder writes exactly the fields of its tag whose key is present.
- The decoders of golang.org/x/text follow their documented behaviour for malformed UTF-16.
- BodyRaces.GivingUpUnblocks: assumes that closing the body returns at once, also while a read is in progress, and makes that read and every later one fail. A body whose Close waits for the read in progress, as that of the net/http server does under its mutex, is not covered.
- BodyRaces.EveryBindEnds: rests on the same assumption about closing the body, and so does BodyRaces.ClosedBinderEnds.
- `common.ApplyDefaults` and `ValidateStruct` succeed or return an error; panics of validators are not modelled.
- Which of several failing named values of one source the library meets first, and so whether it answers 400 or panics: a parameter.
- Binding.RequestValue.Parse: what a rejected request leaves in its fields is unspecified, because no handler sees it.
- A binder goroutine whose program is infinite: it is a finite tree of reads, touches of `parsed` and one send.
- How buffering divides the reads of a body between sniffing and decoding: an arbitrary plan. It covers every division, and also runs in which the decoder has decided on a value although a read failed while sniffing.
- Canonical spelling of header names: a header is the key it is stored under.
- Requests whose matches do not fit their pattern: ServeMux leaves one match for each named wildcard, and rejects duplicate names.
- The multipart parser and raw body streams behind their fields: the handler owns them.
