# Beats: processor config checks and the Pub/Sub input worker, in Dafny

This project models two parts of the beats repository and proves properties
of them.

**Processor configuration checks** (`libbeat/processors/checks/checks.go`).
These are the validators `RequireFields`, `AllowedFields` and
`MutuallyExclusiveRequiredFields`, the combinator `checkAll`, and the
wrapper `ConfigChecked`. A configuration node is the sequence of its option
names, as `GetFields` returns them, plus its path. Validators are
functions from a node to `Pass` or to an error that carries the offending
names.

The two nested-loop validators are also written as methods with loops.
Each method is proved equal to its function. `MutuallyExclusiveRequiredFields`
is modelled as written:
- `foundField` is tested by its length;
- a name listed twice matches twice.

Its meaning ("exactly one of the options") is proved for lists of distinct,
non-empty names. Two edge cases are proved for every node and list:
- a non-empty name listed twice fails with a conflict whenever that option
  is present, and names the option twice when no listed option comes
  before it in the node;
- when every listed option the node has is named "", the check reports
  the option as missing.

**The Google Cloud Pub/Sub input** (`x-pack/filebeat/input/gcppubsub/input.go`).
- Module `PubSubEvent`: the topic ID and the events built from messages.
- Module `Subscriptions`: the subscription policy, as a method against a
  client object that records its requests.
- Module `ClientOptions`: the client options chosen from the configuration,
  and the user-agent transport decorator.
- Module `Worker`: the decisions of the worker, as pure functions on an
  observable `State`.
- Module `Input`: the class `PubSubInput`. Its lifecycle methods update its
  fields in place. Each method is proved to leave the object in the state
  the matching `Worker` function computes.

`State` holds:
- the two cancellation flags: the worker's context and the current
  attempt's context;
- the four metrics counters;
- the last status reported;
- a ghost trace of every external effect.

The external effects are: worker launched, attempt started, status
reported, client request, event delivered, message nacked, message acked,
and log lines.

The goroutines become a sequential run. The worker goroutine runs inside
`Run` over a finite script of `Round`s. Each round gives:
- the rate limiter's outcome;
- the outside world's answers during one attempt: client creation,
  `Exists`, `CreateSubscription`, the messages and whether the sink takes
  each, and Receive's error;
- whether the worker's context was cancelled by the time the attempt
  returned.

The script must eventually cancel, as the host eventually stops the input.

SHA-256 (FIPS 180-4) is a parameter: a function from text to 32 bytes.
Lower-case base16 (section 8 of RFC 4648) is modelled and proved to round-trip.

Modules:
- `Wrappers`: `Option`.
- `SeqFacts`: small facts about sequence concatenation.
- `Errors`, `Status`, `Hex`.
- `Checks`.
- `PubSubEvent`, `Subscriptions`, `ClientOptions`, `Worker`, `Input`.

## Model

| member | source | states |
|---|---|---|
| Checks.CheckAll | libbeat/processors/checks/checks.go:46-55 | passes exactly when every check passes (so with no checks); on failure returns the error of the first failing check, all earlier ones passing |
| Checks.CheckAllStopsAtFirstFailure | libbeat/processors/checks/checks.go:48-52 | once a check fails, checks after it are not consulted: appending checks does not change the answer |
| Checks.CheckAllAppendPassing | libbeat/processors/checks/checks.go:46-55 | no checks pass every node; a passing prefix leaves the answer to the checks after it |
| Checks.ConfigChecked | libbeat/processors/checks/checks.go:31-44 | the constructor's answer when all checks pass; otherwise the first failing check's error wrapped with the node's path |
| Checks.ConfigCheckedSkipsConstructor | libbeat/processors/checks/checks.go:36-43 | on a validation failure the constructor is not consulted: any two constructors give the same error, wrapping the validator's error |
| Checks.RequireFields | libbeat/processors/checks/checks.go:58-67 | passes exactly when every listed name is an option of the node; otherwise names the first missing one in argument order |
| Checks.AllowedFrom | libbeat/processors/checks/checks.go:72-84 | on a suffix of the options: passes exactly when each is listed, otherwise names the first that is not |
| Checks.AllowedFields | libbeat/processors/checks/checks.go:70-87 | passes exactly when every option is on the list (so a node with no options passes); otherwise names the first unlisted option in node order |
| Checks.CheckAllowedFields | libbeat/processors/checks/checks.go:70-87 | the nested loops with the found flag, break and early return compute AllowedFields |
| Checks.MutuallyExclusiveRequiredFields | libbeat/processors/checks/checks.go:92-112 | a pass means some option matched; a failure is a conflict or the missing-option error |
| Checks.Hits | libbeat/processors/checks/checks.go:96-97 | the inner loop matches an option once per list entry equal to it, and only that option |
| Checks.Matches | libbeat/processors/checks/checks.go:95-105 | every match the nested loops meet is an option of the node that is on the list |
| Checks.Step | libbeat/processors/checks/checks.go:98-103 | a conflict is final; with foundField empty a match is taken; with foundField set a match is a conflict naming foundField then the match |
| Checks.ScanFrom | libbeat/processors/checks/checks.go:95-105 | once a conflict is met later matches change nothing (the early return); otherwise the answer names only matches met |
| Checks.CheckMutuallyExclusive | libbeat/processors/checks/checks.go:92-112 | the nested loops with the early return compute MutuallyExclusiveRequiredFields |
| Checks.Present | libbeat/processors/checks/checks.go:95-97 | the options that are on the list are options of the node and on the list |
| Checks.HitsOfDistinct | libbeat/processors/checks/checks.go:96-97 | with distinct names the inner loop matches an option at most once, exactly when it is listed |
| Checks.MatchesOfDistinct | libbeat/processors/checks/checks.go:95-105 | with distinct names the matches are the node's listed options, in node order |
| Checks.ScanAfterFirst | libbeat/processors/checks/checks.go:98-101 | with a non-empty foundField the next match is the conflict reported |
| Checks.MutuallyExclusiveMeaning | libbeat/processors/checks/checks.go:92-112 | for distinct non-empty names: passes exactly when one listed option is present; none gives the missing-option error; two or more name the first two in node order |
| Checks.DuplicateNameConflicts | libbeat/processors/checks/checks.go:95-105 | a non-empty name listed at least twice whose option is present always fails with a conflict; when no listed option precedes it in the node, the conflict names it twice |
| Checks.EmptyNameNeverFound | libbeat/processors/checks/checks.go:98-109 | when every listed option the node has is "", foundField stays empty and the node is reported as missing the option |
| Hex.EncodeByte | x-pack/filebeat/input/gcppubsub/input.go:299 | two alphabet digits per byte |
| Hex.Encode | x-pack/filebeat/input/gcppubsub/input.go:299 | twice as many characters as bytes, all lower-case hex digits |
| Hex.DigitValue | x-pack/filebeat/input/gcppubsub/input.go:299 | a hex digit's value is below 16 and the alphabet writes it as that digit |
| Hex.Decode | x-pack/filebeat/input/gcppubsub/input.go:299 | a successful decode has half as many bytes as characters |
| Hex.DigitValueOfAlphabet | x-pack/filebeat/input/gcppubsub/input.go:299 | each alphabet digit reads back as its value |
| Hex.DecodeEncodeByte | x-pack/filebeat/input/gcppubsub/input.go:299 | a byte's two digits read back as that byte |
| Hex.DecodeEncode | x-pack/filebeat/input/gcppubsub/input.go:299 | decoding undoes encoding |
| Hex.EncodePrefix | x-pack/filebeat/input/gcppubsub/input.go:299-300 | the first 2k digits of an encoding encode the first k bytes |
| Errors.Root | x-pack/filebeat/input/gcppubsub/input.go:232 | the bottom of an error chain is not a wrapper |
| Errors.IsCanceled | x-pack/filebeat/input/gcppubsub/input.go:232 | errors.Is(err, context.Canceled) holds exactly when the root of the %w chain is the cancellation |
| Status.GetStatusReporter | x-pack/filebeat/input/gcppubsub/input.go:185-194 | the host's reporter when the getter exists and answers one; the no-op reporter otherwise, so never nil |
| Status.Recorded | x-pack/filebeat/input/gcppubsub/input.go:196-198 | the no-op reporter's UpdateStatus discards every update; a host reporter is taken to keep them all, in order |
| PubSubEvent.MakeTopicID | x-pack/filebeat/input/gcppubsub/input.go:295-301 | exactly 10 characters, each a lower-case hex digit |
| PubSubEvent.TopicIDDecodes | x-pack/filebeat/input/gcppubsub/input.go:299-300 | the topic ID decodes to the first five bytes of SHA-256 over project then topic |
| PubSubEvent.TopicIDOfConcatenation | x-pack/filebeat/input/gcppubsub/input.go:296-298 | the ID depends only on project followed by topic ("ab","c" and "a","bc" agree) |
| PubSubEvent.Text | x-pack/filebeat/input/gcppubsub/input.go:313 | the payload as text, one character per byte, same values |
| PubSubEvent.Bytes | x-pack/filebeat/input/gcppubsub/input.go:313 | text of byte-valued characters back to as many bytes |
| PubSubEvent.BytesOfText | x-pack/filebeat/input/gcppubsub/input.go:313 | the text of a payload converts back to the same bytes |
| PubSubEvent.MakeEvent | x-pack/filebeat/input/gcppubsub/input.go:303-324 | ID and event.id are topicID-msgID; timestamp is the publish time; created is now; message is the payload byte for byte; labels present exactly when there are attributes, and then equal to them; private is the message |
| PubSubEvent.EventID | x-pack/filebeat/input/gcppubsub/input.go:304 | the topic ID, a dash and the message ID, each readable back at its position |
| PubSubEvent.SplitEventID | x-pack/filebeat/input/gcppubsub/input.go:304 | a split event ID has a 10-character topic ID and joins back to the same ID |
| PubSubEvent.SplitMakeEvent | x-pack/filebeat/input/gcppubsub/input.go:304-317 | an event's ID is 11 characters longer than the message ID and splits back into topic ID and message ID |
| PubSubEvent.EventIDInjective | x-pack/filebeat/input/gcppubsub/input.go:304 | within one topic, event IDs are equal exactly when message IDs are |
| Subscriptions.Client.Exists | x-pack/filebeat/input/gcppubsub/input.go:329 | answers the scripted reply and records the request |
| Subscriptions.Client.CreateSubscription | x-pack/filebeat/input/gcppubsub/input.go:339-341 | creates the named subscription or fails with the scripted error, and records the request |
| Subscriptions.GetOrCreate | x-pack/filebeat/input/gcppubsub/input.go:326-350 | Exists is always asked first; an Exists error fails at once; an existing subscription is used without creating; a create request is made exactly when it is missing and creation is enabled; missing and disabled fails with no create; success exactly in those two cases |
| Subscriptions.GetOrCreateSubscription | x-pack/filebeat/input/gcppubsub/input.go:326-350 | returns the policy's result and makes exactly the policy's requests, in order |
| ClientOptions.HostOptions | x-pack/filebeat/input/gcppubsub/input.go:355-362 | no options without an alternative host; else its gRPC connection then telemetry disabled |
| ClientOptions.CredentialOptions | x-pack/filebeat/input/gcppubsub/input.go:364-368 | the credentials file when named, else the JSON when not empty, else nothing |
| ClientOptions.Options | x-pack/filebeat/input/gcppubsub/input.go:352-384 | fails exactly on a failed dial (wrapped with the host) or a failed proxy client; otherwise 1 to 4 options, emulator ones first, ending with the proxy client or the plain user agent |
| ClientOptions.CredentialPrecedence | x-pack/filebeat/input/gcppubsub/input.go:364-368 | at most one credential option; the file exactly when named; the JSON only when no file is named |
| ClientOptions.UserAgentOnce | x-pack/filebeat/input/gcppubsub/input.go:370-383 | the user agent is carried once, by the last option; the plain option exactly when the proxy is not used |
| ClientOptions.NewPubsubClient | x-pack/filebeat/input/gcppubsub/input.go:385 | a client exactly when the options build and client creation succeeds; option errors, and otherwise pubsub.NewClient's error, are returned unchanged |
| ClientOptions.NewPubsubClientCanceled | x-pack/filebeat/input/gcppubsub/input.go:352-385 | the error an attempt gets from client creation is a cancellation exactly when the failed step (dial, proxy client or NewClient) was cancelled |
| ClientOptions.WithUserAgent | x-pack/filebeat/input/gcppubsub/input.go:393-396 | User-Agent is set; other header fields and an existing User-Agent are kept; a missing one becomes the decorator's |
| ClientOptions.WithUserAgentIdempotent | x-pack/filebeat/input/gcppubsub/input.go:393-396 | decorating twice is decorating once |
| ClientOptions.UserAgentDecorator.RoundTrip | x-pack/filebeat/input/gcppubsub/input.go:393-398 | the request's header becomes WithUserAgent of the old header and is what is handed on |
| Worker.GrowsTransitive | x-pack/filebeat/input/gcppubsub/input.go:219-236 | trace growth without a new worker composes |
| Worker.GrowsKeeps | x-pack/filebeat/input/gcppubsub/input.go:203-213 | a grown trace keeps earlier entries and the number of launched workers |
| Worker.Report | x-pack/filebeat/input/gcppubsub/input.go:247-275 | UpdateStatus makes the status current and appends it to the trace; flags and counters unchanged |
| Worker.Reports | x-pack/filebeat/input/gcppubsub/input.go:196-198 | the statuses handed to the reporter are the trace's reports, in order |
| Worker.Entries | x-pack/filebeat/input/gcppubsub/input.go:266-273 | one delivery, plus the nack exactly when the sink refuses |
| Worker.HandleMessage | x-pack/filebeat/input/gcppubsub/input.go:266-273 | refused: nacked once, nacked counter +1, attempt cancelled; accepted: no counter or flag changes, no nack |
| Worker.Handled | x-pack/filebeat/input/gcppubsub/input.go:266-273 | the messages the handler sees are a prefix; all but the last accepted; the first refused ends it |
| Worker.HandledEffects | x-pack/filebeat/input/gcppubsub/input.go:266-273 | the trace of the handled messages, first message first |
| Worker.Receive | x-pack/filebeat/input/gcppubsub/input.go:266-273 | nacked grows by one exactly when a message is refused; the attempt ends cancelled exactly then; the trace is the handled messages' entries |
| Worker.NackedOnlyOnRefusal | x-pack/filebeat/input/gcppubsub/input.go:267-272 | a nack means a refusal happened, and the nacked message is the last one handled |
| Worker.Requests | x-pack/filebeat/input/gcppubsub/input.go:255 | one trace entry per client request, in order |
| Worker.AttemptEffects | x-pack/filebeat/input/gcppubsub/input.go:241-278 | an attempt's trace starts with its start and has at least one report |
| Worker.DeliveryEffectsKinds | x-pack/filebeat/input/gcppubsub/input.go:266-273 | handling adds only deliveries and nacks |
| Worker.AfterSubscribeKinds | x-pack/filebeat/input/gcppubsub/input.go:255-277 | after the lookup the attempt only reports, delivers and nacks; with no error it does not report |
| Worker.AttemptEffectsKinds | x-pack/filebeat/input/gcppubsub/input.go:241-278 | after its start an attempt only reports, requests, delivers and nacks |
| Worker.Attempt | x-pack/filebeat/input/gcppubsub/input.go:241-278 | counters other than nacked and the worker's context unchanged; nacked grows by one exactly when client and subscription succeed and a message is refused; the attempt context cancelled on return; the trace grows by AttemptEffects; no error exactly when client, subscription and Receive all succeed |
| Worker.Serve | x-pack/filebeat/input/gcppubsub/input.go:264-277 | the handled messages' trace, then Degraded with project, topic and cause when Receive fails; nacked grows by one exactly when a message is refused |
| Worker.AttemptClientFailure | x-pack/filebeat/input/gcppubsub/input.go:245-249 | a client failure reports Degraded with that error, never Running, makes no request, and returns it |
| Worker.AttemptRunningFirst | x-pack/filebeat/input/gcppubsub/input.go:252-255 | with a client, Running comes right after the start and before any client request |
| Worker.AttemptFailureLast | x-pack/filebeat/input/gcppubsub/input.go:246-276 | a failed attempt's last report, and current status, is Degraded |
| Worker.AttemptSuccessQuiet | x-pack/filebeat/input/gcppubsub/input.go:252-277 | an attempt without error reports nothing after Running |
| Worker.GrowsBy | x-pack/filebeat/input/gcppubsub/input.go:219-236 | appending entries that launch no worker grows the trace |
| Worker.AttemptGrows | x-pack/filebeat/input/gcppubsub/input.go:241-278 | an attempt launches no worker and keeps the trace before it |
| Worker.AttemptLog | x-pack/filebeat/input/gcppubsub/input.go:225-235 | at most one log line, a restart warning or a failure |
| Worker.Iteration | x-pack/filebeat/input/gcppubsub/input.go:219-236 | the worker's context ends cancelled exactly when the round cancels; the trace grows; ack counters unchanged |
| Worker.Watchdog | x-pack/filebeat/input/gcppubsub/input.go:208-236 | the loop exits only with the worker's context cancelled; Stopped is the last status and trace entry |
| Worker.Launch | x-pack/filebeat/input/gcppubsub/input.go:203-206 | fresh counters, and one more launched worker |
| Worker.RunReportsStopped | x-pack/filebeat/input/gcppubsub/input.go:196-213 | after a run of the worker, a host reporter's last update is Stopped and the no-op reporter has kept nothing |
| Worker.RunLaunchesOne | x-pack/filebeat/input/gcppubsub/input.go:203-213 | launching from a state with no worker leaves exactly one, cancelled, with Stopped reported |
| Worker.AttemptStartsOnce | x-pack/filebeat/input/gcppubsub/input.go:225 | an attempt enters run exactly once |
| Worker.IterationStarts | x-pack/filebeat/input/gcppubsub/input.go:219-225 | one attempt when the wait succeeds, none when it is cancelled |
| Worker.WatchdogAttempts | x-pack/filebeat/input/gcppubsub/input.go:219-236 | one attempt per successful wait up to the first cancelling round, none after: retries while live, stops once cancelled |
| Worker.WatchdogLogs | x-pack/filebeat/input/gcppubsub/input.go:231-234 | the failure line is never written for a context cancellation |
| Worker.AttemptThenLog | x-pack/filebeat/input/gcppubsub/input.go:225-235 | in an attempt and its log line, a failure line only after cancellation for a non-cancellation error, a restart warning only before |
| Worker.IterationLogs | x-pack/filebeat/input/gcppubsub/input.go:225-235 | one pass logs a failure only when the round cancels and the error is not a cancellation, and warns of a restart only when it does not cancel |
| Worker.IterationOnError | x-pack/filebeat/input/gcppubsub/input.go:225-235 | an error while live is warned about and the loop continues; after cancellation a non-cancellation error is logged as a failure; otherwise nothing is logged |
| Worker.AckOne | x-pack/filebeat/input/gcppubsub/input.go:158-167 | one entry: a message is acked and counted with its payload size, anything else counted as a failed ack and logged; acked plus failedAcked grows by one; flags, nacks and status unchanged |
| Worker.AckAll | x-pack/filebeat/input/gcppubsub/input.go:157-167 | every entry in order: one trace entry each, and acked plus failedAcked grows by the number of entries |
| Worker.MessageCount | x-pack/filebeat/input/gcppubsub/input.go:157-158 | at most one message per private |
| Worker.AckEffects | x-pack/filebeat/input/gcppubsub/input.go:157-167 | one entry per private, in order: an ack for a message, a log line otherwise |
| Worker.AckAllCounters | x-pack/filebeat/input/gcppubsub/input.go:157-167 | acked grows by the messages, bytes by their payload sizes, failedAcked by the rest; so acked plus failedAcked grows by the number of privates |
| Worker.AckAllTrace | x-pack/filebeat/input/gcppubsub/input.go:157-167 | each message acked once, in order; other privates logged and never acked |
| Worker.AckAllKeeps | x-pack/filebeat/input/gcppubsub/input.go:157-167 | the bridge changes no flag, no nack count and no status |
| Worker.AckAllCounts | x-pack/filebeat/input/gcppubsub/input.go:157-167 | the whole new state of the bridge: counters, trace, and nothing else |
| Worker.AckAllStep | x-pack/filebeat/input/gcppubsub/input.go:157-167 | one entry of the loop at any position |
| Worker.AckAllGrows | x-pack/filebeat/input/gcppubsub/input.go:157-167 | the bridge launches no worker and keeps the trace |
| Input.PubSubInput.TopicID | x-pack/filebeat/input/gcppubsub/input.go:265 | the input's topic ID has 10 characters |
| Input.PubSubInput.constructor | x-pack/filebeat/input/gcppubsub/input.go:100-151 | reporter from the host context; Starting then Configuring reported; contexts live; no worker; counters zero |
| Input.PubSubInput.UpdateStatus | x-pack/filebeat/input/gcppubsub/input.go:247-275 | the object's state becomes Report of the old state |
| Input.PubSubInput.OnMessage | x-pack/filebeat/input/gcppubsub/input.go:266-273 | the handler changes the object as HandleMessage says |
| Input.PubSubInput.ReceiveMessages | x-pack/filebeat/input/gcppubsub/input.go:266-273 | the loop over messages until the attempt is cancelled changes the object as Receive says |
| Input.PubSubInput.RunAttempt | x-pack/filebeat/input/gcppubsub/input.go:241-278 | run changes the object and returns the error as Attempt says |
| Input.PubSubInput.Subscribe | x-pack/filebeat/input/gcppubsub/input.go:255 | the subscription is the policy's result, and the policy's requests are traced |
| Input.PubSubInput.ServeMessages | x-pack/filebeat/input/gcppubsub/input.go:264-276 | Receive and its failure report change the object as Serve says |
| Input.PubSubInput.Iterate | x-pack/filebeat/input/gcppubsub/input.go:219-236 | one pass of the loop changes the object as Iteration says |
| Input.PubSubInput.WatchdogLoop | x-pack/filebeat/input/gcppubsub/input.go:208-236 | the loop and the deferred Stopped change the object as Watchdog says |
| Input.PubSubInput.Run | x-pack/filebeat/input/gcppubsub/input.go:202-239 | only the first call launches a worker; later calls change nothing; afterwards exactly one worker has run, its context is cancelled and Stopped is reported; a host reporter's last update is then Stopped, the no-op reporter keeps nothing |
| Input.PubSubInput.StartWorker | x-pack/filebeat/input/gcppubsub/input.go:203-238 | the body of workerOnce.Do leaves the object as Watchdog after Launch |
| Input.PubSubInput.LaunchWorker | x-pack/filebeat/input/gcppubsub/input.go:204-206 | fresh metrics and the worker launched, as Launch says |
| Input.PubSubInput.Stop | x-pack/filebeat/input/gcppubsub/input.go:281-285 | cancels the worker's context; a launched worker has already reported Stopped |
| Input.PubSubInput.Wait | x-pack/filebeat/input/gcppubsub/input.go:288-290 | the same as Stop |
| Input.PubSubInput.HostDone | x-pack/filebeat/input/gcppubsub/input.go:130-137 | the first close reports Stopping and cancels the worker's context; later ones change nothing |
| Input.PubSubInput.AckPrivate | x-pack/filebeat/input/gcppubsub/input.go:158-167 | one entry of the ack loop changes the object as AckOne says |
| Input.PubSubInput.AckPrivates | x-pack/filebeat/input/gcppubsub/input.go:156-168 | the ack loop changes the object as AckAll says (counters per AckAllCounts) and keeps the one-worker invariant |

## Left out

- Goroutines, `sync.Once`, `WaitGroup` and context plumbing (input.go:129-141, 203-213, 281-285) are modelled sequentially. The worker runs to completion inside `Run` over a script of rounds that must eventually cancel. `Stop` therefore never blocks. A worker racing with `Stop`, and the order of the Stopping report relative to the worker, are not modelled.
- The `rate.Limiter` and the retry interval (input.go:45, 216-223) are not modelled. Each wait is an abstract outcome: ready or cancelled.
- The Pub/Sub and gRPC clients, the proxy HTTP client and pubsub.NewClient are opaque. Their failures are scripted parameters. `client.Close`, `NumGoroutines` and `MaxOutstandingMessages` are not modelled.
- Messages the client delivers after the attempt is cancelled are not modelled. Receive stops calling the handler at the first refusal.
- SHA-256 internals are not modelled. The hash is a parameter returning 32 bytes. `configID`, with hashstructure and `%16X` (input.go:60-79), is not part of this model.
- `time.Now`, `PublishTime.UTC()` and the processing-time histogram (input.go:163, 307, 311) are not modelled. Timestamps are opaque values.
- Only three log lines are trace entries, without their text: the restart warning (input.go:227), the worker failure line (input.go:233) and the failed-ack line (input.go:166). The deprecation warning (input.go:124), the Info lines (input.go:181, 207, 211) and the Debug lines (input.go:270, 345) are not modelled. Metrics registry creation and `Close`, and `init` registration (input.go:48-58), are not modelled. The user-agent string construction (input.go:370) is a parameter.
- NewInput's configuration unpacking and its Failed paths (input.go:106-116, 177-180) are not modelled. The constructor models the successful path only.
- The ack callback touching metrics before `Run` has created them is not modelled. The counters always exist.
- Worker.AckAllCounters: the metrics counters are unbounded naturals, so the uint64 wrap-around of the Go counters is not modelled.
- Status.Recorded: what a host reporter does with an update is outside the input; the model takes it to keep every update, in order.
- Errors are structured values rather than formatted strings. Only the wrapping relevant to `errors.Is` is kept.
- The inner transport's RoundTrip is not modelled. The decorator returns the header it hands on.
- x-pack/metricbeat/module/azure/storage/storage_test.go is not part of this model. It tests an unrelated metricset.
