# Verified model of morpheus-proxy

morpheus-proxy is a fault-injecting HTTP and gRPC proxy. This project models its
in-process logic in Dafny and proves what the code and its comments promise:
the life of one proxied attempt, the rule engine, the traffic log, the two
coordinators (script sandbox, reflection importer), and the codecs and tree
transforms.

`dafny verify dfyconfig.toml` verifies the project.

## How the model is built

Where the source changes state step by step, the model does too: each such
object is a class with the source's fields, and each method is tied by its
`ensures` to a function of the old state (`React`, `Resume`, `RunOps`, ...).
The properties of whole runs are lemmas about those functions, for every
sequence of events. Everything decided outside the process is a parameter:
clock readings, regular expressions, script answers, protobuf encoders, which
strings are dates, whether a call throws, whether a stream is destroyed when
the code looks.

| file | models |
|---|---|
| `Outcomes`, `HttpWorld`, `Pipeline`, `Exchanges` | one HTTP exchange: what the outside decides and what must come of it, the steps, and what validation adds |
| `GrpcStreaming`, `GrpcDeeds`, `GrpcLabels`, `GrpcBlame` | one streaming gRPC call: main procedure, asynchronous tail, three guards; what ran, what its record says and whom it blames |
| `GrpcWorld`, `GrpcUnary` | one unary gRPC call, in the same two parts |
| `Body`, `ConnectHead`, `Frames` | body buffering, the CONNECT head reader, gRPC framing |
| `RuleTypes`, `Matcher`, `Consume`, `Evaluate` | rules, matchers, counters, interleaved evaluation |
| `Store`, `RuleJson`, `Validate`, `NormalRules`, `RuleValidator`, `RulesApi`, `RuleCalls` | the rule store, the normalising parser, export and import, the API's operations in any order |
| `LogNames`, `TrafficLog`, `LogReading`, `Paging` | the bounded log, its files, its pages |
| `Sandbox` | the job table of the script sandbox |
| `ObservedTargets`, `ReflectionImport`, `StartupRetry` | the reflection importer |
| `Mask`, `MaskTree` | JSON masking: what it means, and how it is done in place |
| `Common`, `Json`, `Text` | shared vocabulary |

## Where the code and its promises part

Each of these is stated exactly, with the condition under which the promise
holds or with a concrete run:

- The label `client_aborted` of a streaming call follows the flag
  `selfDestroyed`. If the client leaves and the upstream then fails before
  `close` is delivered, the record blames the upstream
  (`GrpcBlame.ClientLeftButUpstreamBlamed`).
- A fault whose metadata HTTP/2 refuses cannot be sent and destroys the
  client's stream, so the record says `client_aborted` although nobody left
  (`GrpcBlame.NobodyLeftButClientBlamed`; validation accepts such a rule:
  `GrpcBlame.RefusedAccepted`). These two are the only ways:
  `GrpcBlame.AbortLabelHonest`.
- If the upstream ends and then fails while the tail awaits its matcher's
  script or its manipulator, and that answer comes before `close`, the record
  does not blame the upstream (`GrpcBlame.UpstreamFailedButNotBlamed`). In every
  other schedule it does: `GrpcBlame.UpstreamLabel`.
- Patched messages of a unary reply that cannot be encoded take back the mark of
  a modification, also when it was the request that had been rewritten
  (`GrpcWorld.RewriteRecordedIff`).
- `ensure` looks failures up under the target as given, `import` files them
  under the trimmed target: the back-off holds exactly for targets without
  white space at their ends, and for malformed ones, which are never dialled
  (`ReflectionImport.BackoffKeptIff`).
- A fetched descriptor set that the registry cannot read removes the earlier
  descriptors although the import fails (`ReflectionImport.UnreadableDropsEarlier`);
  every other failing import leaves the registry alone
  (`ReflectionImport.FailedImportKeepsRegistry`).
- Past 8192 bytes the CONNECT loop depends on segmentation
  (`ConnectHead.SegmentationMatters`).
- A decoded gRPC body re-encodes to itself exactly if its flag bytes are 0 or 1
  (`Frames.EncodeDecoded`).

## Model

| member | source | states |
|---|---|---|
| `GrpcStreaming.LoggedOnce` | src/grpc/grpc-listener.ts:852-1294 | under every interleaving of await results, client close, `close` delivery, upstream `end` and `error`, an attempt is logged at most once, and exactly when it is settled |
| `GrpcStreaming.ClosedIsLogged` | src/grpc/grpc-listener.ts:924-955 | when the client's stream has closed and the main procedure is not suspended, there is exactly one record |
| `GrpcStreaming.RecordsStand` | src/grpc/grpc-listener.ts:902-916 | no later event adds to or changes a record once made |
| `GrpcStreaming.CanAlwaysBeLogged` | src/grpc/grpc-listener.ts:924-931 | from every reachable state the attempt ends up logged once the awaits return and the stream closes |
| `GrpcStreaming.AbortLabel` | src/grpc/grpc-listener.ts:908-916 | the record says `client_aborted` iff the stream was destroyed and the relay's upstream-error handler had not run |
| `GrpcBlame.AbortLabelExact` | src/grpc/grpc-listener.ts:908-1159 | the record says `client_aborted` iff the client left and the upstream did not fail after that, or a reply of the proxy's own could not be sent; conditions on the schedule and on which calls throw |
| `GrpcBlame.AbortLabelHonest` | src/grpc/grpc-listener.ts:908-1159 | the label says that the client left iff it did, exactly when no upstream failure in mid-relay followed the client's leaving and no reply failed to be sent on an open stream |
| `GrpcBlame.UpstreamLabel` | src/grpc/grpc-listener.ts:1140-1289 | after an upstream failure in mid-relay the record blames the upstream iff the tail had not started, or `close` comes before its last step, or the tail throws |
| `GrpcBlame.ClientLeftButUpstreamBlamed` | src/grpc/grpc-listener.ts:1140-1159 | a run in which the client leaves first and the record blames the upstream |
| `GrpcBlame.UpstreamFailedButNotBlamed` | src/grpc/grpc-listener.ts:1180-1270 | a run in which the upstream ends, then fails while the tail awaits its matcher's script, and the record does not say so |
| `GrpcBlame.ScriptedAccepted` | src/rules/validate.ts:92-182 | validation accepts the rule of that run |
| `GrpcBlame.NobodyLeftButClientBlamed` | src/grpc/grpc-listener.ts:91-120 | a run in which a status fault with metadata that HTTP/2 refuses cannot be sent, and the record says that the client left |
| `GrpcBlame.RefusedAccepted` | src/rules/validate.ts:248-340 | validation accepts the rule of that run |
| `GrpcBlame.StepFollows` | src/grpc/grpc-listener.ts:957-1293 | apart from the client's leaving and the upstream's failing, a step touches the stream of an unlogged attempt only if it logs it; which steps have the proxy answer itself |
| `GrpcStreaming.StepKeeps` | src/grpc/grpc-listener.ts:957-1293 | every event keeps the invariant: records, `logged`, `selfDestroyed`, guards and labels agree |
| `GrpcStreaming.StreamingAttempt.Log` | src/grpc/grpc-listener.ts:184-250 | `writeLog`: one metrics record, an entry iff something engaged, the outcome by the flags' precedence |
| `GrpcStreaming.StreamingAttempt.Catch` | src/grpc/grpc-listener.ts:932-955 | guard 1: rethrow if logged, else one record, as an abort if the stream is gone |
| `GrpcStreaming.StreamingAttempt.CatchTail` | src/grpc/grpc-listener.ts:1271-1289 | guard 2: one record unless logged, labelled by who destroyed the stream; the stream is destroyed |
| `GrpcStreaming.StreamingAttempt.OnStreamClosed` | src/grpc/grpc-listener.ts:1144-1159 | guard 3: logs an unlogged attempt on `close`, as an abort unless the relay destroyed the stream itself |
| `GrpcStreaming.StreamingAttempt.OnReplyError` | src/grpc/grpc-listener.ts:1140-1143 | the relay's upstream-error handler marks and destroys the stream |
| `GrpcStreaming.StreamingAttempt.OnReplyEnd` | src/grpc/grpc-listener.ts:1161-1195 | the upstream's `end` starts the tail, which stops at once if the attempt is logged |
| `GrpcStreaming.StreamingAttempt.EndTail` | src/grpc/grpc-listener.ts:1252-1270 | the tail checks again before it logs |
| `GrpcStreaming.StreamingAttempt.ResumeAwait` | src/grpc/grpc-listener.ts:957-1263 | what each await's return leads to, up to the next suspension |
| `GrpcStreaming.StreamingAttempt.RejectAwait` | src/grpc/grpc-listener.ts:1012-1032 | what each await's rejection leads to: upstream error, rule error or a guard |
| `GrpcStreaming.StreamingAttempt.RunFault` | src/grpc/grpc-listener.ts:966-989 | the fault kinds of the request stage, logged before anything is destroyed |
| `GrpcStreaming.Serve` | src/grpc/grpc-listener.ts:852-1294 | the handlers, played any schedule, make at most one record, and one exactly when settled |
| `GrpcLabels.LabelsAreTruthful` | src/grpc/grpc-listener.ts:184-250 | under every schedule the record tells of something that did happen: an abort of a stream that was destroyed, an upstream failure that occurred, and otherwise exactly what ran (`GrpcDeeds.OutcomeExact`); only a call nothing engaged with goes unlabelled |
| `GrpcDeeds.OutcomeExact` | src/grpc/grpc-listener.ts:184-250 | unless an abort or the upstream decides it, the record says `faulted` iff the schedule has a step in which a fault ran, else `modified` iff one changed something, else `delayed` iff a delay ran out, else `rule_error` iff an error was counted |
| `Pipeline.HandleHttpExchange` | src/proxy/pipeline.ts:130-712 | 413 iff a needed body is too large, and then nothing else; broken-off bodies are logged as aborts and never forwarded; otherwise the upstream and the client get exactly the bytes that `HttpWorld` derives from the outside, and there is one metrics record and an entry iff something engaged, whose outcome is exactly what ran (only a gRPC status fault leaves none) |
| `Exchanges.HandleAccepted` | src/proxy/pipeline.ts:402-407 | with rules accepted by validation every exchange not answered 413 makes exactly one metrics record and at most one entry, and they say what was done |
| `Exchanges.AcceptedFaults` | src/rules/validate.ts:290-294 | an accepted HTTP rule has no gRPC status fault in either stage |
| `Pipeline.BufferRequest` | src/proxy/pipeline.ts:142-252 | in every buffering branch what would be sent on equals the client's bytes; answered at once iff too large and needed, or broken off |
| `Pipeline.BufferReply` | src/proxy/pipeline.ts:508-557 | buffered, spliced or streamed, the reply's bytes are the upstream's; the read breaks exactly if it is buffered and rejected; a body is at hand unless buffering was skipped |
| `Pipeline.WriteLog` | src/proxy/pipeline.ts:313-363 | one metrics record, and an entry with the outcome of the flags and errors iff a rule, a capture, an error or the upstream engaged; an abort iff the client is gone |
| `Pipeline.ExecuteFault` | src/proxy/pipeline.ts:370-408 | if the fault throws, nothing is logged; every fault kind but the gRPC status is logged once, as a fault, also if the sleep after it throws; which calls throw |
| `Pipeline.RunRequestAction` | src/proxy/pipeline.ts:422-468 | a mock or a fault ends the exchange or throws, a rewrite lets it go on or throws; what is logged in each case, which flags are raised, and the exact body that goes on |
| `Pipeline.RunResponseStage` | src/proxy/pipeline.ts:562-658 | delay and action run only after a match; without one only a throwing matcher leaves a trace, a rule error; the flags, errors, record and body that the stage leaves are those of the plan |
| `Pipeline.RunResponseAction` | src/proxy/pipeline.ts:592-657 | fault, replacement or script: which flags, errors, record and body each leaves; a script without a sandbox, or one that fails, is a rule error and leaves the body alone |
| `Pipeline.Serve` | src/proxy/pipeline.ts:369-688 | the guarded part ends as `HttpWorld.EndingOf` says: what was sent to either side, which flags and errors, and whether it logged or threw with nothing logged |
| `Pipeline.Guard` | src/proxy/pipeline.ts:689-711 | the catch clause logs exactly the attempts that are not logged yet |
| `HttpWorld.EndingForwarded` | src/proxy/pipeline.ts:475-688 | what a forwarded exchange ends in, told along the branches of the code, is what the predicates on the outside say |
| `Pipeline.LogAborted` | src/proxy/pipeline.ts:185-241 | a body that never became usable is logged once and not forwarded |
| `GrpcUnary.HandleUnary` | src/grpc/grpc-listener.ts:326-850 | RESOURCE_EXHAUSTED iff the body outgrows the limit, and then no record; broken reads and truncated frames are aborts and never forwarded; otherwise the upstream gets the client's bytes, which decode, with the metadata as rewritten, the client gets exactly the mock or the reply that `GrpcWorld` derives from the outside, and there is one metrics record and an entry iff something engaged, whose outcome is exactly what ran |
| `GrpcWorld.RelayedCarries` | src/grpc/grpc-listener.ts:807-848 | a relayed reply whose messages a script replaced decodes to exactly those messages |
| `GrpcWorld.OtherwiseUntouched` | src/grpc/grpc-listener.ts:654-848 | without a script or an effective replacement the reply goes out with the upstream's bytes, status, message, metadata and trailers |
| `GrpcWorld.RewriteRecordedIff` | src/grpc/grpc-listener.ts:562-577 | a rewritten request that neither an abort, the upstream nor a fault decides is recorded as modified iff no patched messages failed to encode |
| `GrpcWorld.EndingForwarded` | src/grpc/grpc-listener.ts:582-848 | what a forwarded call ends in, told along the branches of the code, is what the predicates on the outside say |
| `GrpcUnary.EncodeMessages` | src/grpc/grpc-listener.ts:496-499 | succeeds iff every message encodes; decoding the body gives those messages frame by frame |
| `GrpcUnary.AnswerMock` | src/grpc/grpc-listener.ts:492-532 | the mock is sent and logged as one iff its messages encode, else an internal error is logged as a rule error |
| `GrpcUnary.ApplyPatch` | src/grpc/grpc-listener.ts:747-802 | messages are replaced only if the descriptor could read the reply; failures are rule errors and keep status, message and messages |
| `GrpcUnary.Relay` | src/grpc/grpc-listener.ts:807-848 | patched messages that cannot be encoded fall back to the upstream's body, status and message, unmarked and as a rule error; metadata and trailers go out as the response stage left them |
| `GrpcUnary.Guard` | src/grpc/grpc-listener.ts:458-480 | the catch clause logs exactly the attempts that are not logged yet |
| `GrpcUnary.LogAborted` | src/grpc/grpc-listener.ts:267-324 | an unusable body leaves one record, as an abort |
| `Body.RequestBodyInterest` | src/proxy/body.ts:40-52 | `need` and `want` are exactly "some enabled rule needs" and "needs or wants", despite the early exit |
| `Body.ReadExplained` | src/proxy/body.ts:73-135 | for every event sequence a settled read holds exactly the bytes that had arrived, and resolves complete only after an end with no abort before it |
| `Body.SettlesIff` | src/proxy/body.ts:73-135 | a read stays open iff its stream has neither broken, nor ended (on HTTP/2: with the tick after it), nor closed before an end, nor outgrown the limit |
| `Body.ResetBeatsDeferredEnd` | src/proxy/body.ts:101-120 | a reset between an HTTP/2 `end` and the deferred tick rejects the read |
| `Body.BodyReader.Deliver` | src/proxy/body.ts:93-133 | each event does what the reader function says, and the promise settles at most once |
| `ConnectHead.ParseLineExact` | src/proxy/connect-listener.ts:21-25 | the scanner accepts exactly the lines of the request-line expression, with that authority |
| `ConnectHead.SegmentationIrrelevant` | src/proxy/connect-listener.ts:161-186 | if the blank line ends within the limit, every segmentation gives the same authority and hands the tunnel exactly the bytes after it |
| `ConnectHead.SegmentationMatters` | src/proxy/connect-listener.ts:180-183 | past the limit one chunk gets through and a cut before its last byte does not |
| `ConnectHead.Connection.OnReadable` | src/proxy/connect-listener.ts:162-185 | the read loop computes the fold over the chunks |
| `Frames.EncodeGrpcFrame` | src/grpc/frames.ts:3-9 | writes flag, big-endian length and message into a fresh buffer; fails iff the length does not fit |
| `Frames.DecodeGrpcFrames` | src/grpc/frames.ts:24-40 | the loop computes the recursive decoding |
| `Frames.DecodeEncoded` | src/grpc/frames.ts:3-40 | decoding the concatenation of encoded frames gives the frames back |
| `Frames.EncodeDecoded` | src/grpc/frames.ts:24-40 | a decodable body re-encodes to itself iff its flag bytes are 0 or 1 |
| `Frames.FailsInsideFrame` | src/grpc/frames.ts:24-40 | decoding fails iff the body ends inside a frame |
| `Matchers.CollectMatcherFields` | src/rules/matcher.ts:159-175 | the accumulator receives the fields of every nested regex in order |
| `Matchers.MatcherUsesBody` | src/rules/matcher.ts:178-182 | true iff some collected field is a body field |
| `Matchers.DecidedByFields` | src/rules/matcher.ts:67-156 | a matcher without scripts gives the same verdict on inputs that agree on its fields |
| `Matchers.BodyUnseen` | src/rules/matcher.ts:125-206 | a matcher that uses no body and no script decides the same with and without the body |
| `Matchers.TrailersUnseen` | src/rules/matcher.ts:200-206 | a response matcher that uses no trailers decides the same before and after they arrive |
| `Consume.ConsumeRegistry.TryConsume` | src/rules/consume.ts:60-68 | the attempt answers and updates the counter as the specification says, with the lazy reset first |
| `Consume.ConsumeRegistry.Remaining` | src/rules/consume.ts:76-81 | what is left after the lazy reset, never negative |
| `Consume.ConsumeRegistry.View` | src/rules/consume.ts:84-88 | hits and remainder; only the lazy reset may change the counter |
| `Consume.ConsumeRegistry.StateOf` | src/rules/consume.ts:90-101 | the runtime state as reported; only the lazy reset may change the counter |
| `Consume.ConsumeRegistry.Clone` | src/rules/consume.ts:113-119 | an equal registry that shares nothing with the original |
| `Consume.ReadsInvisible` | src/rules/consume.ts:43-101 | under a monotone clock, inserting reads anywhere changes no later answer |
| `Consume.PauseAmongSuccesses` | src/rules/consume.ts:43-68 | any `times`+1 consecutive successes contain two adjacent ones at least `resetAfterMs` apart |
| `Consume.NeverBeyondTimes` | src/rules/consume.ts:60-68 | without `resetAfterMs` there are never more than `times` successes |
| `Consume.RefusedOnlyWhenSpent` | src/rules/consume.ts:60-68 | an attempt is refused only after `times` successes, the last too recent for a reset |
| `Evaluate.EvaluateRequest` | src/rules/evaluate.ts:59-109 | the loop, run without interruption, equals the suspended-and-resumed evaluation with its counters |
| `Evaluate.Judge` | src/rules/evaluate.ts:86-107 | consumption, hit, matched entry, capture or intercept after one matcher's verdict |
| `Evaluate.SharedBudget` | src/rules/evaluate.ts:68-107 | for any interleaving of any number of requests, a rule's matched entries since its counter was last dropped equal its `consumed` and its `hits` and never exceed `times` |
| `Evaluate.MatchedAreHits` | src/rules/evaluate.ts:68-107 | for every rule id, under any interleaving, with edits and resets that drop the counter (src/index.ts line 52, src/rules/consume.ts lines 103-106), the matched entries made since the last drop equal its `hits` |
| `Evaluate.HitsGrowWithMatches` | src/rules/evaluate.ts:68-107 | from any state, over any stretch of events that does not drop the counter of an id, matched entries and `hits` grow by the same number |
| `Evaluate.FirstInterceptWins` | src/rules/evaluate.ts:59-109 | every evaluation reaches the eligible rules once, in order, reports exactly their fates and stops at the first intercept |
| `Evaluate.PastInterceptUntouched` | src/rules/evaluate.ts:97-107 | a request touches no counter of a rule past its intercept rule |
| `Evaluate.StreamingBodyBlind` | src/rules/evaluate.ts:59-109 | without script matchers, streaming evaluation gives the same intercept, captures, matched list and counters with and without a body |
| `Evaluate.InterleavedBodyBlind` | src/rules/evaluate.ts:59-109 | the same for any number of streaming requests, however they interleave |
| `Evaluate.EvaluateResponseMatch` | src/rules/evaluate.ts:121-146 | a missing matcher matches, a throwing one does not, and neither consumes anything |
| `Evaluate.SameBeforeTrailers` | src/grpc/grpc-listener.ts:1035-1063 | a response matcher that uses no trailers is answered the same before and after they arrive |
| `Store.BeforeTransitive` | src/rules/store.ts:41-45 | the comparator's order is transitive |
| `Store.BeforeConnected` | src/rules/store.ts:41-45 | two rules with different ids are always ordered one way |
| `Store.SnapshotUnique` | src/rules/store.ts:165-173 | a rule set has only one sorted listing |
| `Store.SortIsSnapshot` | src/rules/store.ts:165-173 | sorting the values gives that listing |
| `Store.InsertionOrderIrrelevant` | src/rules/store.ts:165-173 | the snapshot does not depend on the order in which rules were inserted |
| `Store.RuleStore.Create` | src/rules/store.ts:87-98 | refuses a known id and changes nothing, else adds the stamped rule and raises the revision |
| `Store.RuleStore.Update` | src/rules/store.ts:100-114 | errors change nothing; otherwise replaces, keeps `createdAt`, raises the revision and reports the id |
| `Store.RuleStore.Delete` | src/rules/store.ts:116-121 | errors change nothing; otherwise removes, raises the revision and reports the id |
| `Store.RuleStore.DisableAll` | src/rules/store.ts:123-135 | disables exactly the enabled rules; the revision rises iff something changed |
| `Store.RuleStore.ImportRules` | src/rules/store.ts:141-163 | atomic: fails iff the revision conflicts or an id repeats, and then changes nothing; every id replaced or dropped is reported |
| `Store.RuleStore.Snapshot` | src/rules/store.ts:165-173 | cached or rebuilt, the sorted listing of the current rules at the current revision |
| `NormalRules.AcceptedIsNormal` | src/rules/validate.ts:655-846 | a rule comes out iff there are no errors, and it meets every documented condition |
| `NormalRules.NormalReadsBack` | src/rules/validate.ts:655-846 | every normal rule, written out as JSON, validates to itself |
| `NormalRules.ValidatedStaysValid` | src/rules/validate.ts:651-654 | validation is idempotent |
| `NormalRules.ParseMatcherSound` | src/rules/validate.ts:92-182 | a matcher parsed without errors is normal, at every depth |
| `NormalRules.MatcherBack` | src/rules/validate.ts:92-182 | a normal matcher is read back unchanged, at every depth |
| `NormalRules.FieldErrorsExact` | src/rules/validate.ts:184-220 | no complaint iff the field is allowed for the stage and the protocol |
| `NormalRules.ParseFaultSound` | src/rules/validate.ts:248-340 | a fault parsed without errors fits the protocol and its ranges |
| `NormalRules.ParseOperationsSound` | src/rules/validate.ts:466-487 | operations parsed without errors are normal and none is lost |
| `RuleValidator.Run` | src/rules/validate.ts:655-846 | the procedure that pushes issues computes the specified rule, errors and warnings |
| `RuleValidator.ParseMatcherInto` | src/rules/validate.ts:92-182 | the recursive parser appends exactly the specified errors and builds the specified matcher |
| `RuleValidator.ParseConditionsInto` | src/rules/validate.ts:142-149 | the loop goes on after a bad condition and reports all errors in order |
| `RuleValidator.ParseOperationsInto` | src/rules/validate.ts:472-486 | the loop stops at the first bad operation and reports only that |
| `RulesApi.ExportRules` | src/admin/rules-api.ts:121-144 | the whole snapshot, or the rules asked for in snapshot order; an unknown id is an error |
| `RulesApi.ImportRules` | src/admin/rules-api.ts:146-199 | succeeds iff well-formed, all valid, no repeated id and the revision as expected; a rejected import changes nothing and names the first of these that fails; the answer lists the warnings by position |
| `RulesApi.RoundTrip` | src/admin/rules-api.ts:121-199 | export, then import in replace mode, gives the same rules in the same order but for `updatedAt` |
| `RuleCalls.FilledRoundTrip` | src/admin/rules-api.ts:48-199 | the same for a store filled by any sequence of API requests, without any assumption about its rules |
| `RuleCalls.StepsKeep` | src/admin/rules-api.ts:48-199 | any sequence of create, put, delete, disable and import requests keeps every rule as validation lets it through |
| `RuleCalls.RevisionTells` | src/rules/store.ts:65-78 | over any requests the revision never falls, and if it is unchanged so are the rules: a request that names it overwrites nothing it has not seen |
| `RuleCalls.Serve` | src/admin/rules-api.ts:48-199 | the operations on the store, in any order, compute the specified contents and revision |
| `RuleCalls.CreateRule` | src/admin/rules-api.ts:48-57 | refuses an invalid rule and a known id and changes nothing, else stores the rule stamped |
| `RuleCalls.PutRule` | src/admin/rules-api.ts:65-82 | refuses, in this order, an invalid rule, an id in the body that is not the URL's, an outdated revision and an unknown id, and changes nothing; else replaces the rule and keeps its creation time |
| `RuleCalls.DeleteRule` | src/admin/rules-api.ts:84-96 | refuses an outdated revision and an unknown id, else removes the rule |
| `RuleCalls.DisableAllRules` | src/admin/rules-api.ts:98-106 | refuses an outdated revision, else disables exactly the enabled rules; the revision rises iff there was one |
| `RulesApi.ExportedValidates` | src/admin/rules-api.ts:162-174 | every rule of an export is accepted again, as it was |
| `RulesApi.TouchedIsSnapshot` | src/rules/store.ts:141-173 | the imported rules sort into the order of the export |
| `RulesApi.ChangesKeepNormal` | src/rules/store.ts:87-135 | create, update, delete and disable keep every stored rule normal |
| `RulesApi.ImportKeepsNormal` | src/rules/store.ts:141-163 | import keeps every stored rule normal |
| `LogNames.LogIdInjective` | src/logging/traffic-log.ts:138-140 | log ids differ whenever the sequence numbers do, whatever the dates |
| `LogNames.BodyPathInjective` | src/logging/traffic-log.ts:254-256 | body files differ whenever id or kind does |
| `TrafficLog.TrafficLogStore.Add` | src/logging/traffic-log.ts:258-324 | afterwards the store is the longest suffix of the history that meets both caps, with index, byte total and pending files in agreement; the log only moves on |
| `TrafficLog.TrafficLogStore.EnforceCaps` | src/logging/traffic-log.ts:339-348 | evicts from the old end exactly as far as needed |
| `TrafficLog.TrafficLogStore.ApplyRetention` | src/logging/traffic-log.ts:351-362 | removes expired leading entries and stops at the first fresh one; everything stays in agreement |
| `TrafficLog.TrafficLogStore.Clear` | src/logging/traffic-log.ts:448-453 | empties the store; files still queued are removed in turn |
| `TrafficLog.TrafficLogStore.Flush` | src/logging/traffic-log.ts:456-458 | once the queue has drained the disk holds exactly the bodies of the live entries |
| `TrafficLog.TrafficLogStore.ReadBody` | src/logging/traffic-log.ts:433-442 | a live entry's body comes back as added, anything else is absent |
| `LogReading.ReadBodyInUse` | src/logging/traffic-log.ts:433-442 | while entries come and go during the wait, the body of an entry that was there at the call comes back as added; only if the entry was dropped meanwhile may there be none |
| `TrafficLog.TrafficLogStore.ListPage` | src/logging/traffic-log.ts:372-390 | a page of the store is a page of the history from its oldest live entry |
| `TrafficLog.Follow` | src/logging/traffic-log.ts:258-453 | a client that follows `nextCursor` through a store on which adds, evictions, retention and clears go on between pages sees no entry twice and every matching entry that was in the store at its first page and still is at the end; it comes to the end unless every page had entries on it |
| `TrafficLog.AddAgrees` | src/logging/traffic-log.ts:231-313 | one add extends entries, index, total and files alike |
| `TrafficLog.RemoveAgrees` | src/logging/traffic-log.ts:326-337 | one removal shortens entries, index, total and files alike |
| `TrafficLog.FilesApart` | src/logging/traffic-log.ts:254-256 | no unlink of one entry hits a file of another |
| `Paging.List` | src/logging/traffic-log.ts:372-390 | the backward scan computes the page |
| `Paging.NeverTwice` | src/logging/traffic-log.ts:372-390 | following `nextCursor` while entries come and go never shows an entry twice, and always newer before older |
| `Paging.NoneMissed` | src/logging/traffic-log.ts:372-390 | every matching entry held at the start and still held at the last page is shown |
| `Paging.ShownIsHeld` | src/logging/traffic-log.ts:372-390 | what is shown matched and was held |
| `Paging.QuietBrowse` | src/logging/traffic-log.ts:372-390 | without interference the pages concatenate to the newest-first filtered list |
| `Paging.QuietEnds` | src/logging/traffic-log.ts:372-390 | without interference the cursor runs out |
| `Sandbox.SettlesOnce` | src/script/sandbox.ts:92-174 | an accepted job is answered exactly once or is in the table, its timer armed and its worker the current one |
| `Sandbox.TimerIsTheLastResort` | src/script/sandbox.ts:149-161 | whatever has happened, a job's timer answers it if nothing else has |
| `Sandbox.AllSettle` | src/script/sandbox.ts:126-174 | when no timer is armed, every job ever accepted has been answered exactly once |
| `Sandbox.LateMessageIgnored` | src/script/sandbox.ts:99-111 | a message of a worker that is not the current one changes nothing |
| `Sandbox.AnswersStand` | src/script/sandbox.ts:99-111 | earlier answers stay; a message answers only the job it names |
| `Sandbox.ClosedForGood` | src/script/sandbox.ts:141-145 | after close nothing is accepted, pending or answered |
| `Sandbox.ScriptSandbox.OnExit` | src/script/sandbox.ts:112-120 | the current worker's exit fails all its jobs and spawns a replacement unless closed |
| `Sandbox.ScriptSandbox.FailAllPending` | src/script/sandbox.ts:126-132 | every pending job is answered once, in order, and its timer disarmed |
| `Sandbox.ScriptSandbox.Submit` | src/script/sandbox.ts:140-174 | accepted iff open and connected; armed, recorded and sent to the current worker |
| `Sandbox.Play` | src/script/sandbox.ts:79-222 | the class, played any order of events, stays with the specification |
| `ReflectionImport.OneFetchPerTarget` | src/grpc/reflection-import.ts:176-187 | at most one fetch per target is running |
| `ReflectionImport.OneDescriptorPerTarget` | src/grpc/reflection-import.ts:204-218 | at most one reflection-sourced descriptor per target is registered |
| `ReflectionImport.FailureIsLastOutcome` | src/grpc/reflection-import.ts:219-268 | a failure is on record iff the target's last completed import failed, malformed targets aside |
| `ReflectionImport.BackoffKeptIff` | src/grpc/reflection-import.ts:181-307 | `ensure` respects the back-off of the upstream it would ask iff the target has no white space at its ends or is malformed |
| `ReflectionImport.ImportReplaces` | src/grpc/reflection-import.ts:204-218 | a stored import replaces the target's descriptor and leaves all others |
| `ReflectionImport.FailedImportKeepsRegistry` | src/grpc/reflection-import.ts:189-284 | in every run a failing import leaves the registry unchanged iff it is not an unreadable set or the target has no reflection-sourced descriptor; other targets' descriptors always stay |
| `ReflectionImport.UnreadableDropsEarlier` | src/grpc/reflection-import.ts:204-268 | a run of two imports: the second one's unreadable set fails and what the first one registered is gone |
| `ReflectionImport.ReflectionImporter.Import` | src/grpc/reflection-import.ts:176-187 | joins the running import of the trimmed target or starts one |
| `ReflectionImport.ReflectionImporter.OnFetched` | src/grpc/reflection-import.ts:189-284 | registry, failures and the import record (protocol, services, missing, counts, time) after a fetch; the invariant of the importer is kept |
| `ReflectionImport.ReflectionImporter.EnsureImported` | src/grpc/reflection-import.ts:291-323 | starts or joins an import only if nothing speaks against it |
| `ReflectionImport.ReflectionImporter.Observe` | src/grpc/reflection-import.ts:330-344 | what is remembered of one sighting |
| `ObservedTargets.NeverTooMany` | src/grpc/reflection-import.ts:97-98 | never more than 200 targets, nor 500 services each |
| `ObservedTargets.StaysUntilPushedOut` | src/grpc/reflection-import.ts:352-374 | a target stays on record until at least 200 others have been seen since it was |
| `StartupRetry.GivesUpInTime` | src/grpc/reflection-import.ts:112-119 | at most ten attempts, at any time at most 151 seconds of waiting in all, exactly that when it gives up, and no attempt after close |
| `Mask.ApplyPathsIsMaskAll` | src/logging/mask.ts:16-34 | applying the paths one after another is masking all of them at once |
| `Mask.OrderIndependent` | src/logging/mask.ts:92-95 | the order of the paths does not matter |
| `Mask.Idempotent` | src/logging/mask.ts:92-95 | masking again changes nothing |
| `Mask.Commute` | src/logging/mask.ts:16-34 | two paths commute, wildcards, arrays and prefixes included |
| `Mask.NamedMasked` | src/logging/mask.ts:27-32 | every value a path reaches becomes `***` |
| `Mask.UnnamedKept` | src/logging/mask.ts:16-34 | everything no path touches is unchanged |
| `MaskTree.ApplyPathIn` | src/logging/mask.ts:16-34 | the in-place recursion leaves the document that the path stands for, and the rest of the tree alone |
| `MaskTree.MaskFields` | src/logging/mask.ts:23-33 | the loop over an object's keys, in any order |
| `MaskTree.MaskRegistry.MaskJsonValue` | src/logging/mask.ts:92-95 | in place, exactly what the configured paths reach is masked |
| `MaskTree.MaskRegistry.Set` | src/logging/mask.ts:56-60 | keeps exactly the usable paths and the header names in lower case, and replaces all former ones |
| `MaskTree.MaskRegistry.MaskHeaders` | src/logging/mask.ts:62-72 | no header is lost or renamed; the listed ones are masked value by value, all others kept |
| `MaskTree.JoinSplit` | src/logging/mask.ts:59-59 | splitting a path at its dots loses nothing, and leaves no dot in a part |

## Left out

Contracts that say less than the code does:

- Pipeline.HandleHttpExchange: of a log entry only outcome and reason are modelled, not drafts, headers, timing or matched-rule lists; of rewrites and patches only what they do to the body and the flags, since a patch that fails late may already have edited headers. Whether an operation on path, query or headers changed anything is a parameter.
- Pipeline.BufferRequest: a read that never settles (a client that neither sends nor leaves) is not an exchange that ends; `World.Plausible` assumes that each read settles.
- GrpcUnary.HandleUnary: of a log entry only outcome and reason are modelled; metadata and trailers are those left after reserved names have been taken out, and what a rewrite or a replacement makes of metadata is a parameter.
- GrpcStreaming.LoggedOnce: relayed messages, headers and trailers are not modelled; `evaluateRequest` is taken not to reject and `recordRequest` not to throw.
- GrpcStreaming.StreamingAttempt.ResumeAwait: each await happens at most once in an attempt, so its answer is fixed per attempt; when it arrives is open.
- Evaluate.EvaluateRequest: the method runs without interruption; interleaving is the subject of `Evaluate.Step` and the lemmas about it.
- Evaluate.SharedBudget: the bound by `times` is for a rule that stays the same, has no `resetAfterMs`, and is not reset from outside, which is what the code promises; for all other rules see `Evaluate.MatchedAreHits`, which counts from the last drop of the counter.
- Evaluate.StreamingBodyBlind: for one request that is not interrupted; `Evaluate.InterleavedBodyBlind` is the general form.
- Consume.PauseAmongSuccesses: under a monotone clock and without an explicit reset.
- Matchers.DecidedByFields: patterns and scripts are parameters; header names are compared after lower-casing ASCII letters only.
- TrafficLog.TrafficLogStore.Flush: file writes and unlinks succeed, and nothing is queued while it waits; body previews and listeners are not modelled.
- TrafficLog.TrafficLogStore.ReadBody: for a store that is left alone during the call; `LogReading.ReadBodyInUse` is the general form.
- TrafficLog.TrafficLogStore.ApplyRetention: it clears everything expired only if entries are in order of `startedAt`, and no more is claimed.
- Paging.List: the filter is a predicate; what `matchesFilter` compares is not modelled.
- NormalRules.AcceptedIsNormal: which patterns compile, which strings are dates and what the body validator says are parameters; the validator depends on match and request stage only, as the installed one does (src/grpc/rule-validation.ts). Error texts are left out, their paths and reasons are not. Numbers are reals, so -0 and NaN do not occur; objects are own-key maps.
- RuleCalls.Serve: requests are served one at a time, as the handlers run without awaiting; reads of rules and of counter states are not modelled, and made-up ids are taken to be ones validation would accept.
- RulesApi.RoundTrip: the body sent in between is the exported `rules` list with `mode: replace`; the JSON text form is not modelled.
- RuleValidator.Run: parsers that report a single error (delay, fault, mock, script, response action, consume, head fields) are expressions whose errors are pushed by their caller.
- Sandbox.LateMessageIgnored: a worker answers only jobs that were sent to it, as its source does; `worker.send` does not throw synchronously.
- ReflectionImport.ReflectionImporter.EnsureImported: whether the allow list admits a target is a parameter; the callbacks of an import run together with its `finally`.
- StartupRetry.GivesUpInTime: the retry schedule stands on its own; the import it repeats is the one of `ReflectionImport`.
- MaskTree.ApplyPathIn: the document is a tree without sharing, as JSON parsing and protobuf decoding make it.
- ConnectHead.Connection.OnReadable: what the tunnel does with its bytes is not part of the model.

Parts of the repository that are not modelled:

- Sockets, HTTP/2 sessions, timers, files, subprocesses and IPC: they appear as events, answers or maps.
- protobufjs, regular expressions, script execution, UTF-8 and base64: parameters.
- `maskJsonText` (src/logging/mask.ts:79-90): parsing and printing around the path semantics.
- `importObserved`, `status` and `noteAuthority` of the reflection importer: reporting over the state that is modelled.
- HTTP/2 preface sniffing in src/proxy/connect-listener.ts: it looks at the first chunk only.
- Patch application (src/proxy/patch.ts), config loading, metrics text, simulation, admin routing and authentication, the UI and the Go demo: plumbing, or easy members only.
